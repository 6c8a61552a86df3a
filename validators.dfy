/**
 * The validation rules of `utils/validators.py`. Every rule is a pure function that
 * either returns the normalised value or fails with the reason the Python code
 * raises `ValidationError` for. Prices are integer cents and dates are day numbers.
 */
module Validators {
  import opened Text

  datatype ValidationError =
    | Empty(field: string)
    | NotPositive(field: string)
    | Negative(field: string)
    | BarcodeNotDigits
    | CpfWrongLength
    | CpfRepeatedDigits
    | CpfFirstCheckDigit
    | CpfSecondCheckDigit
    | ExpirationInPast
    | PriceTooHigh
    | TooShort(field: string)
    | TooLong(field: string)
    | InvalidCharacters(field: string)
    | InsufficientStock(requested: int, available: int)

  datatype Result<+T> = Ok(value: T) | Err(error: ValidationError)

  /** Largest accepted price, R$ 999.999,99, in cents. */
  const MaxPriceCents := 99999999

  /**
   * `validate_non_empty_string`: the whitespace-trimmed input, which fails exactly
   * when nothing but whitespace was given.
   */
  function ValidateNonEmptyString(value: string, field: string): (r: Result<string>)
    ensures r.Ok? <==> !AllSpace(value)
    ensures r.Err? ==> r.error == Empty(field)
    ensures r.Ok? ==> r.value != [] && !IsSpace(r.value[0]) && !IsSpace(r.value[|r.value| - 1])
    ensures r.Ok? ==> r.value == Strip(value)
  {
    var v := Strip(value);
    if v == [] then Err(Empty(field)) else Ok(v)
  }

  /** `validate_positive_number`, on integer cents. */
  function ValidatePositiveNumber(value: int, field: string): (r: Result<int>)
    ensures r.Ok? <==> value > 0
    ensures r.Ok? ==> r.value == value
    ensures r.Err? ==> r.error == NotPositive(field)
  {
    if value <= 0 then Err(NotPositive(field)) else Ok(value)
  }

  /** `validate_non_negative_integer` */
  function ValidateNonNegativeInteger(value: int, field: string): (r: Result<nat>)
    ensures r.Ok? <==> value >= 0
    ensures r.Ok? ==> r.value == value
    ensures r.Err? ==> r.error == Negative(field)
  {
    if value < 0 then Err(Negative(field)) else Ok(value)
  }

  /** `validate_positive_integer` */
  function ValidatePositiveInteger(value: int, field: string): (r: Result<nat>)
    ensures r.Ok? <==> value > 0
    ensures r.Ok? ==> r.value == value
    ensures r.Err? ==> r.error == NotPositive(field)
  {
    if value <= 0 then Err(NotPositive(field)) else Ok(value)
  }

  /**
   * `validate_barcode`: the trimmed input with every space removed; it must then be
   * a non-empty string of digits as `str.isdigit()` understands them, which takes
   * in more than ASCII 0-9.
   */
  function ValidateBarcode(barcode: string): (r: Result<string>)
    ensures r.Ok? <==> !AllSpace(barcode) && RemoveSpaces(Strip(barcode)) != [] && AllUnicodeDigits(RemoveSpaces(Strip(barcode)))
    ensures r.Ok? ==> r.value == RemoveSpaces(Strip(barcode)) && r.value != [] && AllUnicodeDigits(r.value)
    ensures r.Err? ==> r.error == (if AllSpace(barcode) then Empty("Código de barras") else BarcodeNotDigits)
  {
    match ValidateNonEmptyString(barcode, "Código de barras")
    case Err(e) => Err(e)
    case Ok(trimmed) =>
      var b := RemoveSpaces(trimmed);
      // Python's "".isdigit() is False, so an empty remainder fails as well
      if b == [] || !AllUnicodeDigits(b) then Err(BarcodeNotDigits) else Ok(b)
  }

  /** A barcode holding a superscript two is accepted as it is, though `int()` could not read that digit. */
  lemma SuperscriptBarcode()
    ensures ValidateBarcode("7\U{00B2}") == Ok("7\U{00B2}")
    ensures !IsDigit('\U{00B2}')
  {
    var s := "7\U{00B2}";
    assert !IsSpace(s[0]) && !IsSpace(s[1]);
    assert SpanStart(s, 0) == 0;
    assert SpanEnd(s, 0, 2) == 2;
    assert Strip(s) == s;
    assert RemoveSpaces(s) == [s[0]] + RemoveSpaces(s[1..]);
    assert RemoveSpaces(s[1..]) == [s[1]] + RemoveSpaces(s[2..]);
    assert RemoveSpaces(s) == s;
    assert IsUnicodeDigit(s[0]) && IsUnicodeDigit(s[1]);
  }

  /**
   * The weighted digit sum of `calculate_digit`: `zip(digits, range(weight, 1, -1))`
   * pairs the digits with the weights weight, weight - 1, ..., 2 and stops at the
   * shorter of the two.
   */
  function WeightedSum(digits: string, weight: int): (s: int)
    requires AllDigits(digits)
    ensures s >= 0
  {
    if digits == [] || weight < 2 then 0
    else DigitValue(digits[0]) * weight + WeightedSum(digits[1..], weight - 1)
  }

  /** `calculate_digit`: 0 when the sum leaves a remainder below 2 modulo 11, else 11 minus it. */
  function CheckDigit(digits: string, weight: int): (d: int)
    requires AllDigits(digits)
    ensures 0 <= d <= 9
    ensures d == 0 <==> WeightedSum(digits, weight) % 11 < 2
  {
    var remainder := WeightedSum(digits, weight) % 11;
    if remainder < 2 then 0 else 11 - remainder
  }

  /**
   * The check digit in its other textbook form: ten times the sum, modulo 11,
   * with a result of 10 written as 0.
   */
  lemma CheckDigitTimesTen(digits: string, weight: int)
    requires AllDigits(digits)
    ensures CheckDigit(digits, weight) == (10 * WeightedSum(digits, weight)) % 11 % 10
  {
    SumTimesTen(WeightedSum(digits, weight));
  }

  /** The same for any sum: only its remainder modulo 11 matters. */
  lemma SumTimesTen(s: int)
    ensures (if s % 11 < 2 then 0 else 11 - s % 11) == (10 * s) % 11 % 10
  {
    var q, r := s / 11, s % 11;
    assert s == 11 * q + r;
    if r == 0 {
      RemainderOf(10 * s, 10 * q, 0);
    } else if r == 1 {
      RemainderOf(10 * s, 10 * q, 10);
    } else {
      RemainderOf(10 * s, 10 * q + r - 1, 11 - r);
    }
  }

  /** The remainder modulo 11 is the one of any such decomposition. */
  lemma RemainderOf(x: int, q: int, r: int)
    requires x == 11 * q + r && 0 <= r < 11
    ensures x % 11 == r
  {
  }

  predicate AllSame(cpf: string)
    requires |cpf| > 0
  {
    forall i | 0 <= i < |cpf| :: cpf[i] == cpf[0]
  }

  /**
   * A Brazilian CPF in its bare form, stated independently of `validate_cpf`:
   * eleven digits, not all equal, whose 10th and 11th digits are the "ten times
   * the weighted sum, modulo 11, modulo 10" check digits of the 9 and 10 digits
   * before them, under the weights 10..2 and 11..2.
   */
  predicate IsCpf(cpf: string)
  {
    && |cpf| == 11
    && AllDigits(cpf)
    && !AllSame(cpf)
    && DigitValue(cpf[9]) == (10 * WeightedSum(cpf[..9], 10)) % 11 % 10
    && DigitValue(cpf[10]) == (10 * WeightedSum(cpf[..10], 11)) % 11 % 10
  }

  /** The checks of `validate_cpf` that follow the removal of the non-digits. */
  function CheckCpfDigits(digits: string): (r: Result<string>)
    requires AllDigits(digits)
    ensures r.Ok? <==> IsCpf(digits)
    ensures r.Ok? ==> r.value == digits
    ensures r == Err(CpfWrongLength) <==> |digits| != 11
    ensures r == Err(CpfRepeatedDigits) <==> (|digits| == 11 && AllSame(digits))
    ensures r == Err(CpfFirstCheckDigit) <==>
      (|digits| == 11 && !AllSame(digits) && DigitValue(digits[9]) != CheckDigit(digits[..9], 10))
    ensures r == Err(CpfSecondCheckDigit) <==>
      (|digits| == 11 && !AllSame(digits) && DigitValue(digits[9]) == CheckDigit(digits[..9], 10)
       && DigitValue(digits[10]) != CheckDigit(digits[..10], 11))
  {
    if |digits| != 11 then Err(CpfWrongLength)
    else if AllSame(digits) then Err(CpfRepeatedDigits)
    else
      CheckDigitTimesTen(digits[..9], 10);
      CheckDigitTimesTen(digits[..10], 11);
      if DigitValue(digits[9]) != CheckDigit(digits[..9], 10) then Err(CpfFirstCheckDigit)
      else if DigitValue(digits[10]) != CheckDigit(digits[..10], 11) then Err(CpfSecondCheckDigit)
      else Ok(digits)
  }

  /**
   * `validate_cpf`: strips punctuation and checks length, repeated digits and the
   * two check digits, each failure with its own reason.
   */
  function ValidateCpf(cpf: string): (r: Result<string>)
    ensures r.Ok? <==> IsCpf(KeepDigits(cpf))
    ensures r.Ok? ==> r.value == KeepDigits(cpf)
    ensures r == Err(Empty("CPF")) <==> AllSpace(cpf)
    ensures !AllSpace(cpf) ==> AllDigits(KeepDigits(cpf)) && r == CheckCpfDigits(KeepDigits(cpf))
  {
    KeepDigitsStrip(cpf);
    if AllSpace(cpf) then
      KeepDigitsOfSpace(cpf);
      Err(Empty("CPF"))
    else
      CheckCpfDigits(KeepDigits(Strip(cpf)))
  }

  /** Validating an accepted CPF again accepts it unchanged. */
  lemma CpfIdempotent(cpf: string)
    requires ValidateCpf(cpf).Ok?
    ensures ValidateCpf(ValidateCpf(cpf).value) == ValidateCpf(cpf)
  {
    var c := ValidateCpf(cpf).value;
    KeepDigitsOfDigits(c);
    assert !AllSpace(c) by { assert !IsSpace(c[0]); }
  }

  /** `validate_expiration_date`: a date before today fails. */
  function ValidateExpirationDate(expiration: int, today: int): (r: Result<int>)
    ensures r.Ok? <==> today <= expiration
    ensures r.Ok? ==> r.value == expiration
    ensures r.Err? ==> r.error == ExpirationInPast
  {
    if expiration < today then Err(ExpirationInPast) else Ok(expiration)
  }

  /** `validate_price` in cents: positive and at most R$ 999.999,99. */
  function ValidatePrice(cents: int): (r: Result<int>)
    ensures r.Ok? <==> 0 < cents <= MaxPriceCents
    ensures r.Ok? ==> r.value == cents
    ensures r.Err? ==> r.error == (if cents <= 0 then NotPositive("Preço") else PriceTooHigh)
  {
    match ValidatePositiveNumber(cents, "Preço")
    case Err(e) => Err(e)
    case Ok(p) => if p > MaxPriceCents then Err(PriceTooHigh) else Ok(p)
  }

  /** A letter of the regular-expression range `a-zA-Z` or `À-ÿ`. */
  predicate IsLetter(c: char)
  {
    ('a' <= c <= 'z') || ('A' <= c <= 'Z') || ('\U{00C0}' <= c <= '\U{00FF}')
  }

  /** The class `[a-zA-Z0-9\sÀ-ÿ\-\.\,\(\)]` of product names. */
  predicate IsNameChar(c: char)
  {
    IsLetter(c) || IsDigit(c) || IsSpace(c) || c in "-.,()"
  }

  /** The class `[a-zA-Z0-9\sÀ-ÿ\-\.\&]` of brands. */
  predicate IsBrandChar(c: char)
  {
    IsLetter(c) || IsDigit(c) || IsSpace(c) || c in "-.&"
  }

  /** The class `[a-zA-ZÀ-ÿ\s]` of seller names. */
  predicate IsSellerChar(c: char)
  {
    IsLetter(c) || IsSpace(c)
  }

  /** Which allow-list a bounded text is checked against. */
  datatype Alphabet = NameChars | BrandChars | SellerChars | AnyChars

  predicate Allowed(c: char, alphabet: Alphabet)
  {
    match alphabet
    case NameChars => IsNameChar(c)
    case BrandChars => IsBrandChar(c)
    case SellerChars => IsSellerChar(c)
    case AnyChars => true
  }

  /**
   * The shape shared by `validate_name`, `validate_brand`, `validate_seller_name`
   * and `validate_description`: trim, then the length bounds in this order, then the
   * allow-list. The title-casing of the first three is not part of this model.
   */
  function ValidateBounded(value: string, field: string, min: nat, max: nat, alphabet: Alphabet): (r: Result<string>)
    ensures r.Ok? <==> (!AllSpace(value) && min <= |Strip(value)| <= max
      && forall i | 0 <= i < |Strip(value)| :: Allowed(Strip(value)[i], alphabet))
    ensures r.Ok? ==> r.value == Strip(value)
    ensures r == Err(Empty(field)) <==> AllSpace(value)
    ensures r == Err(TooShort(field)) <==> !AllSpace(value) && |Strip(value)| < min
    ensures r == Err(TooLong(field)) <==> !AllSpace(value) && min <= |Strip(value)| && |Strip(value)| > max
  {
    match ValidateNonEmptyString(value, field)
    case Err(e) => Err(e)
    case Ok(v) =>
      if |v| < min then Err(TooShort(field))
      else if |v| > max then Err(TooLong(field))
      else if exists i | 0 <= i < |v| :: !Allowed(v[i], alphabet) then Err(InvalidCharacters(field))
      else Ok(v)
  }

  /** `validate_name`: 2 to 100 characters of the name alphabet. */
  function ValidateName(name: string): (r: Result<string>)
    ensures r.Ok? ==> 2 <= |r.value| <= 100 && forall i | 0 <= i < |r.value| :: IsNameChar(r.value[i])
    ensures r.Ok? <==> (!AllSpace(name) && 2 <= |Strip(name)| <= 100
      && forall i | 0 <= i < |Strip(name)| :: IsNameChar(Strip(name)[i]))
  {
    ValidateBounded(name, "Nome", 2, 100, NameChars)
  }

  /** `validate_description`: at most 500 characters, any alphabet. */
  function ValidateDescription(description: string): (r: Result<string>)
    ensures r.Ok? <==> !AllSpace(description) && |Strip(description)| <= 500
    ensures r.Ok? ==> r.value == Strip(description)
  {
    ValidateBounded(description, "Descrição", 0, 500, AnyChars)
  }

  /** `validate_brand`: 2 to 50 characters of the brand alphabet. */
  function ValidateBrand(brand: string): (r: Result<string>)
    ensures r.Ok? ==> 2 <= |r.value| <= 50 && forall i | 0 <= i < |r.value| :: IsBrandChar(r.value[i])
    ensures r.Ok? <==> (!AllSpace(brand) && 2 <= |Strip(brand)| <= 50
      && forall i | 0 <= i < |Strip(brand)| :: IsBrandChar(Strip(brand)[i]))
  {
    ValidateBounded(brand, "Marca", 2, 50, BrandChars)
  }

  /** `validate_seller_name`: 2 to 100 letters and spaces. */
  function ValidateSellerName(name: string): (r: Result<string>)
    ensures r.Ok? ==> 2 <= |r.value| <= 100 && forall i | 0 <= i < |r.value| :: IsSellerChar(r.value[i])
    ensures r.Ok? <==> (!AllSpace(name) && 2 <= |Strip(name)| <= 100
      && forall i | 0 <= i < |Strip(name)| :: IsSellerChar(Strip(name)[i]))
  {
    ValidateBounded(name, "Nome do vendedor", 2, 100, SellerChars)
  }

  /**
   * `validate_quantity_for_sale`: succeeds with the requested quantity exactly when
   * it is positive and no more than the stock; the shortage error carries both numbers.
   */
  function ValidateQuantityForSale(requested: int, available: int): (r: Result<nat>)
    ensures r.Ok? <==> 0 < requested <= available
    ensures r.Ok? ==> r.value == requested
    ensures r.Err? ==> r.error == (if requested <= 0 then NotPositive("Quantidade") else InsufficientStock(requested, available))
  {
    match ValidatePositiveInteger(requested, "Quantidade")
    case Err(e) => Err(e)
    case Ok(q) => if q > available then Err(InsufficientStock(q, available)) else Ok(q)
  }
}
