/**
 * Worked cases of `validate_cpf` on the well-known valid number 529.982.247-25:
 * accepted as its bare digits, and rejected when either check digit is altered,
 * when all digits are equal or when a digit is missing.
 */
module CpfExamples {
  import opened Text
  import opened Validators

  lemma KnownWeightedSums()
    ensures WeightedSum("529982247", 10) == 295
    ensures WeightedSum("5299822472", 11) == 347
  {
  }

  /** The shared first steps: a bare digit string passes the trimming and keeps all its digits. */
  lemma BareDigits(s: string)
    requires |s| > 0 && AllDigits(s)
    ensures !AllSpace(s) && KeepDigits(s) == s && Strip(s) == s
  {
    assert !IsSpace(s[0]);
    KeepDigitsOfDigits(s);
    StripDigits(s);
  }

  /** The check digits of 529.982.247: 2 from the first nine digits, 5 from the first ten. */
  lemma KnownCheckDigits()
    ensures CheckDigit("529982247", 10) == 2
    ensures CheckDigit("5299822472", 11) == 5
  {
    KnownWeightedSums();
  }

  /** The checks of a bare eleven-digit string that starts with 529.982.247 and is not all one digit. */
  lemma KnownPrefix(s: string)
    requires |s| == 11 && AllDigits(s) && s[..9] == "529982247"
    ensures !AllSame(s)
    ensures CheckDigit(s[..9], 10) == 2
    ensures s[9] == '2' ==> s[..10] == "5299822472" && CheckDigit(s[..10], 11) == 5
  {
    assert s[1] == s[..9][1] && s[0] == s[..9][0];
    KnownCheckDigits();
    if s[9] == '2' {
      assert s[..10] == s[..9] + [s[9]];
    }
  }

  lemma AcceptedDigits(s: string)
    requires s == "52998224725"
    ensures ValidateCpf(s) == Ok(s)
  {
    BareDigits(s);
    assert ValidateCpf(s) == CheckCpfDigits(s);
    assert s[..9] == "529982247";
    KnownPrefix(s);
  }

  /** 529.982.247-25 without its punctuation is a valid CPF. */
  lemma KnownCpfAccepted()
    ensures ValidateCpf("52998224725") == Ok("52998224725")
  {
    AcceptedDigits("52998224725");
  }

  lemma FirstDigitTampered(s: string)
    requires s == "52998224735"
    ensures ValidateCpf(s) == Err(CpfFirstCheckDigit)
  {
    BareDigits(s);
    assert ValidateCpf(s) == CheckCpfDigits(s);
    assert s[..9] == "529982247";
    KnownPrefix(s);
  }

  lemma SecondDigitTampered(s: string)
    requires s == "52998224724"
    ensures ValidateCpf(s) == Err(CpfSecondCheckDigit)
  {
    BareDigits(s);
    assert ValidateCpf(s) == CheckCpfDigits(s);
    assert s[..9] == "529982247";
    KnownPrefix(s);
  }

  /** Altering either check digit is caught by its own check. */
  lemma TamperedCpfRejected()
    ensures ValidateCpf("52998224735") == Err(CpfFirstCheckDigit)
    ensures ValidateCpf("52998224724") == Err(CpfSecondCheckDigit)
  {
    FirstDigitTampered("52998224735");
    SecondDigitTampered("52998224724");
  }

  lemma RepeatedDigits(s: string)
    requires s == "11111111111"
    ensures ValidateCpf(s) == Err(CpfRepeatedDigits)
  {
    BareDigits(s);
  }

  lemma TenDigits(s: string)
    requires s == "5299822472"
    ensures ValidateCpf(s) == Err(CpfWrongLength)
  {
    BareDigits(s);
  }

  /** Eleven equal digits and a ten-digit number are refused before any check digit. */
  lemma MalformedCpfRejected()
    ensures ValidateCpf("11111111111") == Err(CpfRepeatedDigits)
    ensures ValidateCpf("5299822472") == Err(CpfWrongLength)
  {
    RepeatedDigits("11111111111");
    TenDigits("5299822472");
  }
}
