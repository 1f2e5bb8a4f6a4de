/**
 * The cleaning-job schemas: the cleaning-type enumeration and its default,
 * which fields each schema requires, and the price constraint of at most 10
 * significant digits with at most 2 after the decimal point.
 */
module CleaningModel {
  import opened Wrappers

  datatype CleaningType = DustUp | SpotClean | FullClean

  const DefaultCleaningType: CleaningType := SpotClean

  /** The wire value of each enumeration member. */
  function CleaningTypeValue(t: CleaningType): string {
    match t
    case DustUp => "dust_up"
    case SpotClean => "spot_clean"
    case FullClean => "full_clean"
  }

  /** The enumeration's validator: a member for its exact value, nothing for any other string. */
  function ParseCleaningType(s: string): (r: Option<CleaningType>)
    ensures r.Some? ==> CleaningTypeValue(r.value) == s
    ensures r.None? <==> s != "dust_up" && s != "spot_clean" && s != "full_clean"
  {
    if s == "dust_up" then Some(DustUp)
    else if s == "spot_clean" then Some(SpotClean)
    else if s == "full_clean" then Some(FullClean)
    else None
  }

  /** Every member reads back from its own value. */
  lemma CleaningTypeRoundTrip(t: CleaningType)
    ensures ParseCleaningType(CleaningTypeValue(t)) == Some(t)
  {
  }

  // ---------------------------------------------------------------------
  // Prices

  /**
   * A finite decimal as `Decimal.as_tuple()` gives it: a sign, a coefficient
   * without leading zeros, and a power-of-ten exponent.
   */
  datatype Decimal = Decimal(negative: bool, coefficient: nat, exponent: int)

  const MaxDigits: nat := 10
  const DecimalPlaces: nat := 2

  /** The length of the coefficient's digit tuple; zero has the one digit 0. */
  function NumDigits(n: nat): (d: nat)
    ensures d >= 1
  {
    if n < 10 then 1 else 1 + NumDigits(n / 10)
  }

  function Pow10(k: nat): (p: nat)
    ensures p >= 1
  {
    if k == 0 then 1 else 10 * Pow10(k - 1)
  }

  /** `10 ** k` has `k + 1` digits: a one followed by `k` zeros. */
  lemma {:induction false} Pow10Digits(k: nat)
    ensures NumDigits(Pow10(k)) == k + 1
  {
    if k > 0 {
      Pow10Digits(k - 1);
      assert Pow10(k) / 10 == Pow10(k - 1);
    }
  }

  /** The errors of the decimal constraint, in the order they are checked. */
  datatype PriceError = TooManyDigits(maxDigits: nat) | TooManyPlaces(decimalPlaces: nat) | TooManyWholeDigits(wholeDigits: nat)

  /** The counted digits and decimal places of a decimal. */
  function DigitCount(d: Decimal): (nat, nat) {
    if d.exponent >= 0 then (NumDigits(d.coefficient) + d.exponent, 0)
    else if -d.exponent > NumDigits(d.coefficient) then (-d.exponent, -d.exponent)
    else (NumDigits(d.coefficient), -d.exponent)
  }

  /** The `price_decimal_type` validator. */
  function CheckPrice(d: Decimal): (r: Result<Decimal, PriceError>)
    ensures r.Ok? ==> r.value == d
    ensures r.Ok? <==> d.exponent >= -(DecimalPlaces as int) && NumDigits(d.coefficient) + d.exponent <= (MaxDigits - DecimalPlaces) as int
  {
    var (digits, decimals) := DigitCount(d);
    if digits > MaxDigits then Err(TooManyDigits(MaxDigits))
    else if decimals > DecimalPlaces then Err(TooManyPlaces(DecimalPlaces))
    else if digits - decimals > MaxDigits - DecimalPlaces then Err(TooManyWholeDigits(MaxDigits - DecimalPlaces))
    else Ok(d)
  }

  /** A positive number has at most `k` digits exactly when it is below `10^k`. */
  lemma {:induction false} NumDigitsBound(n: nat, k: nat)
    requires n >= 1
    ensures NumDigits(n) <= k <==> n < Pow10(k)
    decreases n
  {
    if n >= 10 {
      if k == 0 {
        assert Pow10(0) == 1;
      } else {
        NumDigitsBound(n / 10, k - 1);
        assert Pow10(k) == 10 * Pow10(k - 1);
      }
    } else if k >= 1 {
      Pow10AtLeastTen(k);
    }
  }

  lemma {:induction false} Pow10AtLeastTen(k: nat)
    requires k >= 1
    ensures Pow10(k) >= 10
  {
    if k > 1 {
      Pow10AtLeastTen(k - 1);
    }
  }

  lemma {:induction false} Pow10Add(a: nat, b: nat)
    ensures Pow10(a + b) == Pow10(a) * Pow10(b)
    decreases a
  {
    if a > 0 {
      Pow10Add(a - 1, b);
      assert Pow10(a + b) == 10 * Pow10(a - 1 + b);
    }
  }

  lemma {:induction false} MulStrict(c: nat, x: nat, p: nat)
    requires c < x && p >= 1
    ensures c * p < x * p
    decreases p
  {
    if p > 1 {
      MulStrict(c, x, p - 1);
      assert c * p == c * (p - 1) + c;
      assert x * p == x * (p - 1) + x;
    }
  }

  lemma ScaleBelow(c: nat, x: nat, p: nat)
    requires p >= 1
    ensures c < x <==> c * p < x * p
  {
    if c < x {
      MulStrict(c, x, p);
    } else if x < c {
      MulStrict(x, c, p);
    }
  }

  /** Past eight whole digits, any positive coefficient already exceeds the bound. */
  lemma LargeExponentExceeds(c: nat, e: nat)
    requires c >= 1 && e > 8
    ensures c * Pow10(e + 2) >= Pow10(10)
  {
    Pow10Add(10, e - 8);
    ScaleBelow(0, 1, Pow10(10));
    if Pow10(e - 8) > 1 {
      MulStrict(1, Pow10(e - 8), Pow10(10));
    }
    assert Pow10(e + 2) >= Pow10(10);
    if c > 1 {
      MulStrict(1, c, Pow10(e + 2));
    }
  }

  /**
   * A non-zero price passes exactly when it has at most two decimal places
   * and, counted in hundredths, stays below `10^10` (so below 100,000,000).
   */
  lemma PriceBoundInCents(d: Decimal)
    requires d.coefficient >= 1
    ensures CheckPrice(d).Ok? <==> d.exponent >= -2 && d.coefficient * Pow10(d.exponent + 2) < Pow10(10)
  {
    var c, e := d.coefficient, d.exponent;
    assert CheckPrice(d).Ok? <==> e >= -2 && NumDigits(c) + e <= 8;
    if -2 <= e <= 8 {
      var k: nat, q: nat := 8 - e, e + 2;
      NumDigitsBound(c, k);
      Pow10Add(k, q);
      assert Pow10(10) == Pow10(k) * Pow10(q);
      ScaleBelow(c, Pow10(k), Pow10(q));
      assert NumDigits(c) + e <= 8 <==> c * Pow10(q) < Pow10(10);
    } else if e > 8 {
      LargeExponentExceeds(c, e);
      assert NumDigits(c) + e > 8;
    }
  }

  /** A zero price passes exactly when its exponent lies between -2 and 7. */
  lemma ZeroPriceBound(negative: bool, exponent: int)
    ensures CheckPrice(Decimal(negative, 0, exponent)).Ok? <==> -2 <= exponent <= 7
  {
  }

  /**
   * A whole power of ten `10 ** k` (exponent 0) passes exactly up to ten
   * million: `10 ** 8` has nine whole digits, one more than the eight that
   * two decimal places leave of ten.
   */
  lemma PowerOfTenPriceBound(k: nat)
    ensures CheckPrice(Decimal(false, Pow10(k), 0)).Ok? <==> k <= 7
  {
    Pow10Digits(k);
  }

  /** Examples: 29.99 passes, 99999999.99 passes, 100000000.00 and 1.000 do not. */
  lemma PriceExamples()
    ensures CheckPrice(Decimal(false, 2999, -2)).Ok?
    ensures CheckPrice(Decimal(false, 9999999999, -2)).Ok?
    ensures CheckPrice(Decimal(false, 10000000000, -2)) == Err(TooManyDigits(10))
    ensures CheckPrice(Decimal(false, 1000, -3)) == Err(TooManyPlaces(2))
    ensures CheckPrice(Decimal(false, 1, 8)) == Err(TooManyWholeDigits(8))
  {
  }

  // ---------------------------------------------------------------------
  // Schemas

  /** A field of an incoming payload: absent, an explicit null, or a value. */
  datatype Field<T> = Unset | Null | Given(value: T)

  datatype CleaningPayload = CleaningPayload(
    name: Field<string>,
    description: Field<string>,
    cleaningType: Field<string>,
    price: Field<Decimal>)

  datatype PayloadField = NameField | CleaningTypeField | PriceField

  /**
   * The four schemas: `cleaning_base`, `cleaning_create`, `cleaning_update`
   * and the stored `cleanings` table model.
   */
  datatype Schema = BaseSchema | CreateSchema | UpdateSchema | TableSchema

  /** `cleaning_create` and `cleanings` redeclare `name` and `price` without a default. */
  predicate Required(schema: Schema) {
    schema.CreateSchema? || schema.TableSchema?
  }

  /** Only `cleaning_update` redeclares `cleaning_type` as optional, defaulting to None. */
  predicate TypeOptional(schema: Schema) {
    schema.UpdateSchema?
  }

  /** A validated payload; which fields may be None depends on the schema. */
  datatype Cleaning = Cleaning(
    name: Option<string>,
    description: Option<string>,
    cleaningType: Option<CleaningType>,
    price: Option<Decimal>)

  function TextRule(f: Field<string>, required: bool): Option<Option<string>> {
    match f
    case Unset => if required then None else Some(None)
    case Null => if required then None else Some(None)
    case Given(s) => Some(Some(s))
  }

  function TypeRule(f: Field<string>, optional: bool): Option<Option<CleaningType>> {
    match f
    case Unset => if optional then Some(None) else Some(Some(DefaultCleaningType))
    case Null => if optional then Some(None) else None
    case Given(s) => if ParseCleaningType(s).Some? then Some(ParseCleaningType(s)) else None
  }

  function PriceRule(f: Field<Decimal>, required: bool): Option<Option<Decimal>> {
    match f
    case Unset => if required then None else Some(None)
    case Null => if required then None else Some(None)
    case Given(d) => if CheckPrice(d).Ok? then Some(Some(d)) else None
  }

  /**
   * Validating a payload against a schema: every field is checked and all the
   * failing ones are reported together.
   */
  function Parse(schema: Schema, p: CleaningPayload): (r: Result<Cleaning, set<PayloadField>>)
    ensures r.Ok? <==>
      && (Required(schema) ==> p.name.Given? && p.price.Given?)
      && (p.price.Given? ==> CheckPrice(p.price.value).Ok?)
      && (p.cleaningType.Given? ==> ParseCleaningType(p.cleaningType.value).Some?)
      && (p.cleaningType.Null? ==> TypeOptional(schema))
    ensures r.Err? ==>
      && (NameField in r.error <==> Required(schema) && !p.name.Given?)
      && (PriceField in r.error <==>
            if p.price.Given? then CheckPrice(p.price.value).Err? else Required(schema))
      && (CleaningTypeField in r.error <==>
            if p.cleaningType.Given? then ParseCleaningType(p.cleaningType.value).None?
            else p.cleaningType.Null? && !TypeOptional(schema))
    ensures r.Ok? ==>
      && (Required(schema) ==> r.value.name.Some? && r.value.price.Some?)
      && (!TypeOptional(schema) ==> r.value.cleaningType.Some?)
      && r.value.name == (if p.name.Given? then Some(p.name.value) else None)
      && r.value.description == (if p.description.Given? then Some(p.description.value) else None)
      && r.value.price == (if p.price.Given? then Some(p.price.value) else None)
      && (p.cleaningType.Given? ==>
            r.value.cleaningType.Some? && CleaningTypeValue(r.value.cleaningType.value) == p.cleaningType.value)
      && (p.cleaningType.Unset? ==>
            r.value.cleaningType == if TypeOptional(schema) then None else Some(DefaultCleaningType))
      && (p.cleaningType.Null? ==> r.value.cleaningType.None?)
  {
    var name := TextRule(p.name, Required(schema));
    var description := TextRule(p.description, false);
    var cleaningType := TypeRule(p.cleaningType, TypeOptional(schema));
    var price := PriceRule(p.price, Required(schema));
    var errors :=
      (if name.None? then {NameField} else {})
      + (if cleaningType.None? then {CleaningTypeField} else {})
      + (if price.None? then {PriceField} else {});
    if errors != {} then Err(errors)
    else Ok(Cleaning(name.value, description.value, cleaningType.value, price.value))
  }

  /** `cleaning_create` needs a name and a price; the description never makes it fail. */
  lemma CreateNeedsNameAndPrice(p: CleaningPayload, description: Field<string>)
    ensures Parse(CreateSchema, p).Ok? ==> p.name.Given? && p.price.Given?
    ensures Parse(CreateSchema, p).Ok? <==> Parse(CreateSchema, p.(description := description)).Ok?
  {
  }

  /** Whatever `cleaning_create` accepts, the stored record accepts with the same values. */
  lemma CreateAcceptedIsStorable(p: CleaningPayload)
    ensures Parse(CreateSchema, p) == Parse(TableSchema, p)
  {
  }

  /** In the base schema every field may be left out: name, description and price stay None and the type is `spot_clean`. */
  lemma EmptyBaseDefaults()
    ensures Parse(BaseSchema, CleaningPayload(Unset, Unset, Unset, Unset))
         == Ok(Cleaning(None, None, Some(SpotClean), None))
  {
  }

  /** The payloads the creation tests reject, and the update the update tests reject. */
  lemma RejectedPayloadExamples()
    ensures Parse(CreateSchema, CleaningPayload(Unset, Unset, Unset, Unset)) == Err({NameField, PriceField})
    ensures Parse(CreateSchema, CleaningPayload(Given("test_name"), Unset, Unset, Unset)) == Err({PriceField})
    ensures Parse(CreateSchema, CleaningPayload(Unset, Unset, Unset, Given(Decimal(false, 1000, -2)))) == Err({NameField})
    ensures Parse(CreateSchema, CleaningPayload(Given("test_name"), Given("test"), Unset, Unset)) == Err({PriceField})
    ensures Parse(UpdateSchema, CleaningPayload(Unset, Unset, Given("invalid cleaning type"), Unset)) == Err({CleaningTypeField})
  {
    assert CheckPrice(Decimal(false, 1000, -2)).Ok?;
    var r1 := Parse(CreateSchema, CleaningPayload(Unset, Unset, Unset, Unset));
    assert r1.error == {NameField, PriceField} by {
      forall f: PayloadField ensures f in r1.error <==> f in {NameField, PriceField} {
        if f.CleaningTypeField? { assert f !in r1.error; }
      }
    }
    var r2 := Parse(CreateSchema, CleaningPayload(Given("test_name"), Unset, Unset, Unset));
    assert r2.error == {PriceField} by {
      forall f: PayloadField ensures f in r2.error <==> f == PriceField { }
    }
    var r5 := Parse(UpdateSchema, CleaningPayload(Unset, Unset, Given("invalid cleaning type"), Unset));
    assert r5.error == {CleaningTypeField} by {
      forall f: PayloadField ensures f in r5.error <==> f == CleaningTypeField { }
    }
  }
}
