/**
 * A stored ingredient as the storage sees it: a name, an amount in a unit, a
 * monetary value and an expiry day. Converting one rewrites its amount and unit
 * the way UnitConverter rewrites a measurement; merging folds a second batch
 * with the same expiry day into the first.
 */
module Ingredients {
  import opened Outcomes
  import opened Units

  /** An ingredient; `expiry` is a day number, so comparing days is comparing integers. */
  datatype Ingredient = Ingredient(name: string, stock: Reading, value: real, expiry: int)

  /**
   * convertIngredient: autoMergeUnit applied to the ingredient's measurement.
   * Only the amount and the unit can change, and a conversion that goes through
   * lands on the target unit.
   */
  function ConvertIngredient(i: Ingredient, target: Option<Unit>): (r: Result<Ingredient, ConvError>)
    ensures r.Ok? ==> r.value.name == i.name && r.value.value == i.value && r.value.expiry == i.expiry
    ensures r.Ok? <==> AutoMerge(i.stock, target).Ok?
    ensures r.Err? ==> r.error == AutoMerge(i.stock, target).error
    ensures r.Ok? ==> r.value.stock == AutoMerge(i.stock, target).value
  {
    match AutoMerge(i.stock, target)
    case Ok(q) => Ok(i.(stock := q))
    case Err(e) => Err(e)
  }

  /**
   * Ingredient.merge: the incoming batch is converted to the unit of the existing
   * one, then amounts and values are added; the existing name, unit and expiry
   * day are kept. A batch in the other family throws and nothing is merged.
   */
  function Merge(existing: Ingredient, incoming: Ingredient): (r: Result<Ingredient, ConvError>)
    ensures r.Ok? <==> ConvertIngredient(incoming, existing.stock.unit).Ok?
    ensures r.Ok? ==> && r.value.name == existing.name
                      && r.value.expiry == existing.expiry
                      && r.value.stock.unit == existing.stock.unit
                      && r.value.value == existing.value + incoming.value
  {
    match ConvertIngredient(incoming, existing.stock.unit)
    case Err(e) => Err(e)
    case Ok(c) =>
      Ok(existing.(stock := Reading(existing.stock.amount + c.stock.amount, existing.stock.unit),
                   value := existing.value + c.value))
  }

  /**
   * What a merge adds is the incoming amount converted to the existing unit by
   * the unit converter's own conversion.
   */
  lemma MergeAmount(existing: Ingredient, incoming: Ingredient)
    requires existing.stock.unit.Some? && incoming.stock.unit.Some?
    requires FamilyOf(existing.stock.unit.value) == FamilyOf(incoming.stock.unit.value)
    ensures Merge(existing, incoming).Ok? && Convert(incoming.stock, existing.stock.unit.value).Ok?
    ensures Merge(existing, incoming).value.stock.amount
            == existing.stock.amount + Convert(incoming.stock, existing.stock.unit.value).value.amount
  {
    ConvertMeaning(incoming.stock, existing.stock.unit.value);
  }

  /** Two batches in the same unit, the incoming one with two decimals, add up exactly. */
  lemma MergeSameUnit(existing: Ingredient, incoming: Ingredient)
    requires existing.stock.unit.Some? && incoming.stock.unit == existing.stock.unit
    requires IsCents(incoming.stock.amount)
    ensures Merge(existing, incoming) ==
              Ok(existing.(stock := Reading(existing.stock.amount + incoming.stock.amount, existing.stock.unit),
                           value := existing.value + incoming.value))
  {
    var u := existing.stock.unit.value;
    ConvertMeaning(incoming.stock, u);
    assert Ratio(u, u) == 1.0;
    assert incoming.stock.amount * Ratio(u, u) == incoming.stock.amount;
    Round2OfCents(incoming.stock.amount);
  }

  /** The merge the source's test performs: 3 kg worth 30 and 300 g worth 40 make 3.3 kg worth 70. */
  lemma MergeExample()
    ensures Merge(Ingredient("test", Reading(3.0, Some(KG)), 30.0, 4), Ingredient("test", Reading(300.0, Some(G)), 40.0, 4))
            == Ok(Ingredient("test", Reading(3.3, Some(KG)), 70.0, 4))
  {
    assert (300.0 * 0.001 * 100.0 + 0.5).Floor == 30;
  }

  /** The source's conversion test: 3 kg converted to grams is 3000 g. */
  lemma ConvertIngredientExample()
    ensures ConvertIngredient(Ingredient("test", Reading(3.0, Some(KG)), 30.0, 4), Some(G))
            == Ok(Ingredient("test", Reading(3000.0, Some(G)), 30.0, 4))
  {
    assert (3.0 * 1000.0 * 100.0 + 0.5).Floor == 300000;
  }
}
