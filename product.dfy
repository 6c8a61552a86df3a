/**
 * The `Product` entity of `models/product.py`: a mutable record whose setters
 * overwrite one field each, with no validation. Prices are integer cents, dates
 * are day numbers and timestamps are plain integers. The service code also relies
 * on an `is_perishable` flag and on `days_until_expiration` / `is_expired`, which
 * the class shown does not define; they are added here.
 */
module Products {
  import opened Wrappers

  type ProductId = string
  /** A calendar date as a day number; the difference of two dates is a number of days. */
  type Day = int
  /** A point in time (`datetime.now()`), passed in by the caller. */
  type Instant = int

  /** A snapshot of every field of a product, used to say which fields an operation changes. */
  datatype ProductData = ProductData(
    id: ProductId,
    name: string,
    description: string,
    price: int,
    brand: string,
    quantity: int,
    isPerishable: bool,
    expirationDate: Option<Day>,
    barcode: string,
    createdAt: Instant,
    updatedAt: Instant)

  class Product {
    var id: ProductId
    var name: string
    var description: string
    var price: int
    var brand: string
    var quantity: int
    var isPerishable: bool
    var expirationDate: Option<Day>
    var barcode: string
    var createdAt: Instant
    var updatedAt: Instant

    function Data(): ProductData
      reads this
    {
      ProductData(id, name, description, price, brand, quantity, isPerishable,
                  expirationDate, barcode, createdAt, updatedAt)
    }

    /** Every argument is stored, unchanged, in the field of the same name. */
    constructor (id: ProductId, name: string, description: string, price: int, brand: string,
                 quantity: int, isPerishable: bool, expirationDate: Option<Day>, barcode: string,
                 createdAt: Instant, updatedAt: Instant)
      ensures Data() == ProductData(id, name, description, price, brand, quantity, isPerishable,
                                    expirationDate, barcode, createdAt, updatedAt)
    {
      this.id := id;
      this.name := name;
      this.description := description;
      this.price := price;
      this.brand := brand;
      this.quantity := quantity;
      this.isPerishable := isPerishable;
      this.expirationDate := expirationDate;
      this.barcode := barcode;
      this.createdAt := createdAt;
      this.updatedAt := updatedAt;
    }

    method SetId(v: ProductId)
      modifies this
      ensures Data() == old(Data()).(id := v)
    {
      id := v;
    }

    method SetName(v: string)
      modifies this
      ensures Data() == old(Data()).(name := v)
    {
      name := v;
    }

    method SetDescription(v: string)
      modifies this
      ensures Data() == old(Data()).(description := v)
    {
      description := v;
    }

    method SetPrice(v: int)
      modifies this
      ensures Data() == old(Data()).(price := v)
    {
      price := v;
    }

    method SetBrand(v: string)
      modifies this
      ensures Data() == old(Data()).(brand := v)
    {
      brand := v;
    }

    /** Any integer is accepted, a negative one included. */
    method SetQuantity(v: int)
      modifies this
      ensures Data() == old(Data()).(quantity := v)
    {
      quantity := v;
    }

    method SetIsPerishable(v: bool)
      modifies this
      ensures Data() == old(Data()).(isPerishable := v)
    {
      isPerishable := v;
    }

    method SetExpirationDate(v: Option<Day>)
      modifies this
      ensures Data() == old(Data()).(expirationDate := v)
    {
      expirationDate := v;
    }

    method SetBarcode(v: string)
      modifies this
      ensures Data() == old(Data()).(barcode := v)
    {
      barcode := v;
    }

    method SetCreatedAt(v: Instant)
      modifies this
      ensures Data() == old(Data()).(createdAt := v)
    {
      createdAt := v;
    }

    method SetUpdatedAt(v: Instant)
      modifies this
      ensures Data() == old(Data()).(updatedAt := v)
    {
      updatedAt := v;
    }

    /** Whole days from `today` to the expiration date; negative once the date has passed. */
    function DaysUntilExpiration(today: Day): (days: int)
      reads this
      requires expirationDate.Some?
      ensures today + days == expirationDate.value
    {
      expirationDate.value - today
    }

    /** Expired means the expiration date lies strictly before `today`; the expiration day itself still counts as valid. */
    predicate IsExpired(today: Day): (expired: bool)
      reads this
      requires expirationDate.Some?
      ensures expired <==> expirationDate.value < today
      ensures !expired <==> DaysUntilExpiration(today) >= 0
    {
      DaysUntilExpiration(today) < 0
    }
  }

  /** Setting a quantity and reading it back gives the value set, and nothing else changes. */
  method SetThenGetQuantity(p: Product, v: int) returns (got: int)
    modifies p
    ensures got == v
    ensures p.Data() == old(p.Data()).(quantity := v)
  {
    p.SetQuantity(v);
    got := p.quantity;
  }
}
