/**
 * The unit algebra of the meal planner (UnitConverter): two families of units,
 * per-unit multipliers relative to the family's base unit, half-up rounding to
 * two decimals, and the conversions that overwrite a measurement in place.
 */
module Units {
  import opened Outcomes

  /** ValidUnit: kilograms and grams measure mass; litres, decilitres and millilitres volume. */
  datatype Unit = KG | G | L | DL | ML

  datatype Family = Mass | Volume

  function FamilyOf(u: Unit): Family
  {
    match u
    case KG | G => Mass
    case L | DL | ML => Volume
  }

  /** The unit a family is normalised to: kilograms for mass, litres for volume. */
  function BaseOf(f: Family): Unit
  {
    match f
    case Mass => KG
    case Volume => L
  }

  /**
   * getMultiplier: how many of `u` make one base unit of its family. Every
   * multiplier is at least 1, and it is 1 exactly for the two base units.
   */
  function Multiplier(u: Unit): (r: real)
    ensures r >= 1.0
    ensures r == 1.0 <==> u == BaseOf(FamilyOf(u))
  {
    match u
    case KG => 1.0
    case G => 1000.0
    case L => 1.0
    case DL => 10.0
    case ML => 1000.0
  }

  /**
   * The factor that turns an amount in `from` into an amount in `to` of the same
   * family: normalising to the base and scaling to `to` multiplies by it.
   */
  function Ratio(from: Unit, to: Unit): real
    requires FamilyOf(from) == FamilyOf(to)
  {
    match (from, to)
    case (KG, KG) => 1.0
    case (KG, G) => 1000.0
    case (G, KG) => 0.001
    case (G, G) => 1.0
    case (L, L) => 1.0
    case (L, DL) => 10.0
    case (L, ML) => 1000.0
    case (DL, L) => 0.1
    case (DL, DL) => 1.0
    case (DL, ML) => 100.0
    case (ML, L) => 0.001
    case (ML, DL) => 0.01
    case (ML, ML) => 1.0
  }

  /** Each factor is the normalise-then-scale one: divide by the multiplier of `from`, multiply by that of `to`. */
  lemma RatioOfMultipliers(from: Unit, to: Unit)
    requires FamilyOf(from) == FamilyOf(to)
    ensures Ratio(from, to) == Multiplier(to) / Multiplier(from)
  {
  }

  /** A whole number of hundredths. */
  predicate IsCents(x: real)
  {
    (x * 100.0).Floor as real == x * 100.0
  }

  /**
   * roundToTwoDecimals, `Math.round(x * 100) / 100`, with Math.round taken as
   * floor(y + 1/2). The result is the one whole number of hundredths in the
   * half-open window (x - 0.005, x + 0.005].
   */
  function Round2(x: real): (r: real)
    ensures x - 0.005 < r <= x + 0.005
  {
    (x * 100.0 + 0.5).Floor as real / 100.0
  }

  /** Every rounded value is a whole number of hundredths. */
  lemma Round2IsCents(x: real)
    ensures IsCents(Round2(x))
  {
    var n := (x * 100.0 + 0.5).Floor;
    assert Round2(x) * 100.0 == n as real;
    FloorOfInt(n);
  }

  lemma FloorOfInt(k: int)
    ensures (k as real).Floor == k
  {
  }

  /** Rounding never makes a non-negative amount negative. */
  lemma Round2NonNegative(x: real)
    requires x >= 0.0
    ensures Round2(x) >= 0.0
  {
  }

  /** A value that already has two decimals is left as it is. */
  lemma Round2OfCents(x: real)
    requires IsCents(x)
    ensures Round2(x) == x
  {
    var n := (x * 100.0).Floor;
    assert (x * 100.0 + 0.5).Floor == n;
  }

  /** standardUnitPrice: the price scaled by the unit's multiplier, rounded like a quantity. */
  function StandardUnitPrice(u: Unit, unitPrice: real): (r: real)
    ensures Multiplier(u) * unitPrice - 0.005 < r <= Multiplier(u) * unitPrice + 0.005
  {
    Round2(Multiplier(u) * unitPrice)
  }

  /** The amount and unit of a measurement; the unit is None where the source's field is null. */
  datatype Reading = Reading(amount: real, unit: Option<Unit>)

  /** Why a conversion throws: a unit from the other family, or a null current unit (a NullPointerException). */
  datatype ConvError = IncompatibleUnits(from: Unit, to: Unit) | MissingUnit

  /**
   * convertSolid: scales by the factor given for the current unit and rounds.
   * Only a mass unit is accepted; anything else throws before any update.
   */
  function ConvertSolid(q: Reading, target: Unit, factorFromKG: real, factorFromG: real): (r: Result<Reading, ConvError>)
    ensures r.Ok? <==> q.unit.Some? && FamilyOf(q.unit.value) == Mass
    ensures r.Ok? ==> r.value.unit == Some(target)
  {
    match q.unit
    case None => Err(MissingUnit)
    case Some(u) =>
      if u == KG then Ok(Reading(Round2(q.amount * factorFromKG), Some(target)))
      else if u == G then Ok(Reading(Round2(q.amount * factorFromG), Some(target)))
      else Err(IncompatibleUnits(u, target))
  }

  /**
   * convertLiquid: scales by the factor given for the current unit and rounds.
   * Only a volume unit is accepted; anything else throws before any update.
   */
  function ConvertLiquid(q: Reading, target: Unit, factorFromL: real, factorFromDL: real, factorFromML: real)
    : (r: Result<Reading, ConvError>)
    ensures r.Ok? <==> q.unit.Some? && FamilyOf(q.unit.value) == Volume
    ensures r.Ok? ==> r.value.unit == Some(target)
  {
    match q.unit
    case None => Err(MissingUnit)
    case Some(u) =>
      if u == L then Ok(Reading(Round2(q.amount * factorFromL), Some(target)))
      else if u == DL then Ok(Reading(Round2(q.amount * factorFromDL), Some(target)))
      else if u == ML then Ok(Reading(Round2(q.amount * factorFromML), Some(target)))
      else Err(IncompatibleUnits(u, target))
  }

  /**
   * The conversion the five convertTo methods perform, each with its own table of
   * factors; the target selects the table.
   */
  function Convert(q: Reading, target: Unit): (r: Result<Reading, ConvError>)
    ensures r.Ok? ==> r.value.unit == Some(target)
  {
    match target
    case G => ConvertSolid(q, G, 1000.0, 1.0)
    case KG => ConvertSolid(q, KG, 1.0, 0.001)
    case L => ConvertLiquid(q, L, 1.0, 0.1, 0.001)
    case DL => ConvertLiquid(q, DL, 10.0, 1.0, 0.01)
    case ML => ConvertLiquid(q, ML, 1000.0, 100.0, 1.0)
  }

  /**
   * Whatever the table, every conversion is the normalise-then-scale one: a
   * unit of the other family throws IncompatibleUnits, a null unit throws, and
   * otherwise the amount becomes round2(amount * Ratio(current, target)).
   */
  lemma ConvertMeaning(q: Reading, target: Unit)
    ensures q.unit.None? ==> Convert(q, target) == Err(MissingUnit)
    ensures q.unit.Some? && FamilyOf(q.unit.value) != FamilyOf(target) ==>
              Convert(q, target) == Err(IncompatibleUnits(q.unit.value, target))
    ensures q.unit.Some? && FamilyOf(q.unit.value) == FamilyOf(target) ==>
              Convert(q, target) == Ok(Reading(Round2(q.amount * Ratio(q.unit.value, target)), Some(target)))
  {
    if q.unit.Some? && FamilyOf(q.unit.value) == FamilyOf(target) {
      match target
      case KG => ToKGTable(q, target);
      case G => ToGramsTable(q, target);
      case L => ToLiterTable(q, target);
      case DL => ToDeciLiterTable(q, target);
      case ML => ToMilliLiterTable(q, target);
    }
  }

  /** convertToKG's factors are the ratios to kilograms. */
  lemma ToKGTable(q: Reading, target: Unit)
    requires target == KG && q.unit.Some? && FamilyOf(q.unit.value) == Mass
    ensures Convert(q, target) == Ok(Reading(Round2(q.amount * Ratio(q.unit.value, target)), Some(target)))
  {
    assert Convert(q, target) == ConvertSolid(q, KG, 1.0, 0.001);
    var f := Ratio(q.unit.value, KG);
    match q.unit.value
    case KG => assert f == 1.0;
    case G => assert f == 0.001;
  }

  /** convertToGrams's factors are the ratios to grams. */
  lemma ToGramsTable(q: Reading, target: Unit)
    requires target == G && q.unit.Some? && FamilyOf(q.unit.value) == Mass
    ensures Convert(q, target) == Ok(Reading(Round2(q.amount * Ratio(q.unit.value, target)), Some(target)))
  {
    assert Convert(q, target) == ConvertSolid(q, G, 1000.0, 1.0);
    var f := Ratio(q.unit.value, G);
    match q.unit.value
    case KG => assert f == 1000.0;
    case G => assert f == 1.0;
  }

  /** convertToLiter's factors are the ratios to litres. */
  lemma ToLiterTable(q: Reading, target: Unit)
    requires target == L && q.unit.Some? && FamilyOf(q.unit.value) == Volume
    ensures Convert(q, target) == Ok(Reading(Round2(q.amount * Ratio(q.unit.value, target)), Some(target)))
  {
    assert Convert(q, target) == ConvertLiquid(q, L, 1.0, 0.1, 0.001);
    var f := Ratio(q.unit.value, L);
    match q.unit.value
    case L => assert f == 1.0;
    case DL => assert f == 0.1;
    case ML => assert f == 0.001;
  }

  /** convertToDeciLiter's factors are the ratios to decilitres. */
  lemma ToDeciLiterTable(q: Reading, target: Unit)
    requires target == DL && q.unit.Some? && FamilyOf(q.unit.value) == Volume
    ensures Convert(q, target) == Ok(Reading(Round2(q.amount * Ratio(q.unit.value, target)), Some(target)))
  {
    assert Convert(q, target) == ConvertLiquid(q, DL, 10.0, 1.0, 0.01);
    var f := Ratio(q.unit.value, DL);
    match q.unit.value
    case L => assert f == 10.0;
    case DL => assert f == 1.0;
    case ML => assert f == 0.01;
  }

  /** convertToMilliLiter's factors are the ratios to millilitres. */
  lemma ToMilliLiterTable(q: Reading, target: Unit)
    requires target == ML && q.unit.Some? && FamilyOf(q.unit.value) == Volume
    ensures Convert(q, target) == Ok(Reading(Round2(q.amount * Ratio(q.unit.value, target)), Some(target)))
  {
    assert Convert(q, target) == ConvertLiquid(q, ML, 1000.0, 100.0, 1.0);
    var f := Ratio(q.unit.value, ML);
    match q.unit.value
    case L => assert f == 1000.0;
    case DL => assert f == 100.0;
    case ML => assert f == 1.0;
  }

  /** Every converted amount has two decimals. */
  lemma ConvertIsCents(q: Reading, target: Unit)
    ensures Convert(q, target).Ok? ==> IsCents(Convert(q, target).value.amount)
  {
    ConvertMeaning(q, target);
    if Convert(q, target).Ok? {
      Round2IsCents(q.amount * Ratio(q.unit.value, target));
    }
  }

  /**
   * autoMergeUnit: a null target or a null current unit leaves the reading as it
   * is; otherwise the reading is converted to the target.
   */
  function AutoMerge(q: Reading, target: Option<Unit>): (r: Result<Reading, ConvError>)
    ensures target.None? || q.unit.None? ==> r == Ok(q)
    ensures target.Some? && q.unit.Some? ==> r.Ok? == (FamilyOf(q.unit.value) == FamilyOf(target.value))
    ensures target.Some? && r.Ok? && r.value != q ==> r.value.unit == target
  {
    if target.None? || q.unit.None? then Ok(q) else Convert(q, target.value)
  }

  /**
   * convertToStandard: SOLID goes to kilograms, LIQUID to litres, and any other
   * type leaves the reading as it is.
   */
  function Standardize(q: Reading, ingredientType: string): (r: Result<Reading, ConvError>)
    ensures ingredientType != "SOLID" && ingredientType != "LIQUID" ==> r == Ok(q)
    ensures ingredientType == "SOLID" ==> (r.Ok? <==> q.unit.Some? && FamilyOf(q.unit.value) == Mass)
    ensures ingredientType == "LIQUID" ==> (r.Ok? <==> q.unit.Some? && FamilyOf(q.unit.value) == Volume)
    ensures r.Ok? && (ingredientType == "SOLID" || ingredientType == "LIQUID") ==>
              r.value.unit.Some? && IsBase(r.value.unit.value)
  {
    if ingredientType == "SOLID" then Convert(q, KG)
    else if ingredientType == "LIQUID" then Convert(q, L)
    else Ok(q)
  }

  predicate IsBase(u: Unit)
  {
    u == BaseOf(FamilyOf(u))
  }

  /**
   * getStandardData: the standard (amount, unit) pair for a SOLID or LIQUID
   * measurement, None (the source's null) for any other type, and the
   * conversion's exception when the unit does not fit the type.
   */
  function StandardData(q: Reading, ingredientType: string): (r: Result<Option<Reading>, ConvError>)
    ensures r == Ok(None) <==> ingredientType != "SOLID" && ingredientType != "LIQUID"
    ensures r.Ok? && r.value.Some? ==> Standardize(q, ingredientType) == Ok(r.value.value)
    ensures r.Err? ==> Standardize(q, ingredientType) == Err(r.error)
  {
    if ingredientType == "SOLID" then
      match ConvertSolid(q, KG, 1.0, 0.001)
      case Ok(d) => Ok(Some(d))
      case Err(e) => Err(e)
    else if ingredientType == "LIQUID" then
      match ConvertLiquid(q, L, 1.0, 0.1, 0.001)
      case Ok(d) => Ok(Some(d))
      case Err(e) => Err(e)
    else Ok(None)
  }

  /** Conversions keep amounts non-negative. */
  lemma ConvertNonNegative(q: Reading, target: Unit)
    requires q.amount >= 0.0
    ensures Convert(q, target).Ok? ==> Convert(q, target).value.amount >= 0.0
  {
    if q.unit.Some? && FamilyOf(q.unit.value) == FamilyOf(target) {
      Round2NonNegative(q.amount * Ratio(q.unit.value, target));
    }
  }

  /**
   * Going from a base unit to a finer unit of its family and back lands within
   * 0.01 of where it started, and exactly on it when the amount has two decimals.
   */
  lemma RoundTrip(a: real, base: Unit, finer: Unit)
    requires IsBase(base) && FamilyOf(finer) == FamilyOf(base)
    ensures var there := Convert(Reading(a, Some(base)), finer);
            && there.Ok?
            && var back := Convert(there.value, base);
            && back.Ok?
            && a - 0.01 < back.value.amount < a + 0.01
            && (IsCents(a) ==> back.value.amount == a)
  {
    ConvertMeaning(Reading(a, Some(base)), finer);
    match finer
    case KG =>
      ConvertMeaning(Reading(Round2(a * 1.0), Some(KG)), base);
      RoundTrip1(a);
    case G =>
      ConvertMeaning(Reading(Round2(a * 1000.0), Some(G)), base);
      RoundTrip1000(a);
    case L =>
      ConvertMeaning(Reading(Round2(a * 1.0), Some(L)), base);
      RoundTrip1(a);
    case DL =>
      ConvertMeaning(Reading(Round2(a * 10.0), Some(DL)), base);
      RoundTrip10(a);
    case ML =>
      ConvertMeaning(Reading(Round2(a * 1000.0), Some(ML)), base);
      RoundTrip1000(a);
  }

  /** The arithmetic of a round trip through a unit 1000 times finer. */
  lemma RoundTrip1000(a: real)
    ensures a - 0.01 < Round2(Round2(a * 1000.0) * 0.001) < a + 0.01
    ensures IsCents(a) ==> Round2(Round2(a * 1000.0) * 0.001) == a
  {
    var y := Round2(a * 1000.0);
    assert a - 0.000005 < y * 0.001 <= a + 0.000005;
    if IsCents(a) {
      var n := (a * 100.0).Floor;
      assert a * 1000.0 * 100.0 == (n * 1000) as real;
      FloorOfInt(n * 1000);
      Round2OfCents(a * 1000.0);
      assert y * 0.001 == a;
      Round2OfCents(a);
    }
  }

  /** The arithmetic of a round trip through a unit 10 times finer. */
  lemma RoundTrip10(a: real)
    ensures a - 0.01 < Round2(Round2(a * 10.0) * 0.1) < a + 0.01
    ensures IsCents(a) ==> Round2(Round2(a * 10.0) * 0.1) == a
  {
    var y := Round2(a * 10.0);
    assert a - 0.0005 < y * 0.1 <= a + 0.0005;
    if IsCents(a) {
      var n := (a * 100.0).Floor;
      assert a * 10.0 * 100.0 == (n * 10) as real;
      FloorOfInt(n * 10);
      Round2OfCents(a * 10.0);
      assert y * 0.1 == a;
      Round2OfCents(a);
    }
  }

  /** The arithmetic of a round trip that stays in the base unit. */
  lemma RoundTrip1(a: real)
    ensures a - 0.01 < Round2(Round2(a * 1.0) * 1.0) < a + 0.01
    ensures IsCents(a) ==> Round2(Round2(a * 1.0) * 1.0) == a
  {
    var y := Round2(a * 1.0);
    assert y * 1.0 == y;
    assert y - 0.005 < Round2(y) <= y + 0.005;
    if IsCents(a) {
      assert a * 1.0 == a;
      Round2OfCents(a);
    }
  }

  /**
   * Price and quantity share one rounding: the standard unit price of p is the
   * amount p of the base unit expressed in u.
   */
  lemma PriceIsQuantityConversion(u: Unit, p: real)
    ensures Convert(Reading(p, Some(BaseOf(FamilyOf(u)))), u) == Ok(Reading(StandardUnitPrice(u, p), Some(u)))
  {
  }

  /** The source's own examples. */
  lemma ConversionExamples()
    ensures Convert(Reading(12345.6, Some(G)), KG) == Ok(Reading(12.35, Some(KG)))
    ensures Convert(Reading(12345.6, Some(G)), G) == Ok(Reading(12345.6, Some(G)))
    ensures Convert(Reading(123.456, Some(DL)), L) == Ok(Reading(12.35, Some(L)))
    ensures Convert(Reading(123.456, Some(DL)), DL) == Ok(Reading(123.46, Some(DL)))
    ensures Convert(Reading(123.456, Some(DL)), ML) == Ok(Reading(12345.6, Some(ML)))
    ensures Convert(Reading(3.0, Some(KG)), G) == Ok(Reading(3000.0, Some(G)))
    ensures Standardize(Reading(12345.6, Some(G)), "SOLID") == Ok(Reading(12.35, Some(KG)))
    ensures Standardize(Reading(123.456, Some(DL)), "LIQUID") == Ok(Reading(12.35, Some(L)))
  {
    assert (12345.6 * 0.001 * 100.0 + 0.5).Floor == 1235;
    assert (12345.6 * 1.0 * 100.0 + 0.5).Floor == 1234560;
    assert (123.456 * 0.1 * 100.0 + 0.5).Floor == 1235;
    assert (123.456 * 1.0 * 100.0 + 0.5).Floor == 12346;
    assert (123.456 * 100.0 * 100.0 + 0.5).Floor == 1234560;
    assert (3.0 * 1000.0 * 100.0 + 0.5).Floor == 300000;
  }

  /** A conversion cannot cross families, whichever units are involved. */
  lemma CrossFamilyFails(q: Reading, target: Unit)
    requires q.unit.Some? && FamilyOf(q.unit.value) != FamilyOf(target)
    ensures Convert(q, target).Err? && AutoMerge(q, Some(target)).Err?
  {
  }

  /** Measurement: a named amount in a unit, with an ingredient type ("SOLID", "LIQUID" or other). */
  class Measurement {
    var name: string
    var amount: real
    var unit: Option<Unit>
    var ingredientType: string

    constructor (name: string, amount: real, unit: Option<Unit>, ingredientType: string)
      ensures this.name == name && this.amount == amount && this.unit == unit
      ensures this.ingredientType == ingredientType
    {
      this.name := name;
      this.amount := amount;
      this.unit := unit;
      this.ingredientType := ingredientType;
    }

    function Snapshot(): Reading
      reads this
    {
      Reading(amount, unit)
    }
  }

  /**
   * The effect of one conversion call: on success the measurement now holds the
   * converted reading; on a throw it is exactly as before.
   */
  ghost predicate Applied(before: Reading, r: Result<Reading, ConvError>, after: Reading, res: Outcome<ConvError>)
  {
    match r
    case Ok(v) => after == v && res == Pass
    case Err(e) => after == before && res == Fail(e)
  }

  /** updateMeasurement: overwrites the amount and the unit. */
  method UpdateMeasurement(m: Measurement, data: Reading)
    modifies m`amount, m`unit
    ensures m.amount == data.amount && m.unit == data.unit
  {
    m.amount := data.amount;
    m.unit := data.unit;
  }

  /** Throws the conversion's error before touching `m`, or stores its result. */
  method Commit(m: Measurement, data: Result<Reading, ConvError>) returns (res: Outcome<ConvError>)
    modifies m`amount, m`unit
    ensures Applied(old(m.Snapshot()), data, m.Snapshot(), res)
  {
    if data.Err? {
      return Fail(data.error);
    }
    UpdateMeasurement(m, data.value);
    res := Pass;
  }

  method ConvertToGrams(m: Measurement) returns (res: Outcome<ConvError>)
    modifies m`amount, m`unit
    ensures Applied(old(m.Snapshot()), Convert(old(m.Snapshot()), G), m.Snapshot(), res)
  {
    var data := ConvertSolid(m.Snapshot(), G, 1000.0, 1.0);
    res := Commit(m, data);
  }

  method ConvertToKG(m: Measurement) returns (res: Outcome<ConvError>)
    modifies m`amount, m`unit
    ensures Applied(old(m.Snapshot()), Convert(old(m.Snapshot()), KG), m.Snapshot(), res)
  {
    var data := ConvertSolid(m.Snapshot(), KG, 1.0, 0.001);
    res := Commit(m, data);
  }

  method ConvertToLiter(m: Measurement) returns (res: Outcome<ConvError>)
    modifies m`amount, m`unit
    ensures Applied(old(m.Snapshot()), Convert(old(m.Snapshot()), L), m.Snapshot(), res)
  {
    var data := ConvertLiquid(m.Snapshot(), L, 1.0, 0.1, 0.001);
    res := Commit(m, data);
  }

  method ConvertToDeciLiter(m: Measurement) returns (res: Outcome<ConvError>)
    modifies m`amount, m`unit
    ensures Applied(old(m.Snapshot()), Convert(old(m.Snapshot()), DL), m.Snapshot(), res)
  {
    var data := ConvertLiquid(m.Snapshot(), DL, 10.0, 1.0, 0.01);
    res := Commit(m, data);
  }

  method ConvertToMilliLiter(m: Measurement) returns (res: Outcome<ConvError>)
    modifies m`amount, m`unit
    ensures Applied(old(m.Snapshot()), Convert(old(m.Snapshot()), ML), m.Snapshot(), res)
  {
    var data := ConvertLiquid(m.Snapshot(), ML, 1000.0, 100.0, 1.0);
    res := Commit(m, data);
  }

  /** autoMergeUnit: converts `m` in place to `target` unless either unit is null. */
  method AutoMergeUnit(m: Measurement, target: Option<Unit>) returns (res: Outcome<ConvError>)
    modifies m`amount, m`unit
    ensures Applied(old(m.Snapshot()), AutoMerge(old(m.Snapshot()), target), m.Snapshot(), res)
  {
    res := Pass;
    if target.Some? && m.unit.Some? {
      match target.value
      case L => res := ConvertToLiter(m);
      case DL => res := ConvertToDeciLiter(m);
      case ML => res := ConvertToMilliLiter(m);
      case KG => res := ConvertToKG(m);
      case G => res := ConvertToGrams(m);
    }
  }

  /** convertToStandard: a null measurement, or one of another type, is left alone. */
  method ConvertToStandard(m: Measurement?) returns (res: Outcome<ConvError>)
    modifies if m != null then {m} else {}
    ensures m == null ==> res == Pass
    ensures m != null ==> m.name == old(m.name) && m.ingredientType == old(m.ingredientType)
    ensures m != null ==>
              Applied(old(m.Snapshot()), Standardize(old(m.Snapshot()), old(m.ingredientType)), m.Snapshot(), res)
  {
    var ingredientType := "";
    if m != null {
      ingredientType := m.ingredientType;
    }
    res := Pass;
    if ingredientType == "SOLID" {
      res := ConvertToKG(m);
    } else if ingredientType == "LIQUID" {
      res := ConvertToLiter(m);
    }
  }

  /** getStandardData: reads `m` and changes nothing. */
  method GetStandardData(m: Measurement) returns (r: Result<Option<Reading>, ConvError>)
    ensures r == StandardData(m.Snapshot(), m.ingredientType)
  {
    var ingredientType := m.ingredientType;
    r := Ok(None);
    if ingredientType == "SOLID" {
      var data := ConvertSolid(m.Snapshot(), KG, 1.0, 0.001);
      r := if data.Ok? then Ok(Some(data.value)) else Err(data.error);
    } else if ingredientType == "LIQUID" {
      var data := ConvertLiquid(m.Snapshot(), L, 1.0, 0.1, 0.001);
      r := if data.Ok? then Ok(Some(data.value)) else Err(data.error);
    }
  }
}
