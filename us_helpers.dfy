/**
 * skills/policyengine-us-skill/scripts/situation_helpers.py
 * (`CURRENT_YEAR = 2024`): the situation builders and editors at this
 * file's year.
 */
module UsHelpers {
  import opened PyValues
  import opened Households
  import opened Situations
  import UsLegacy

  const CURRENT_YEAR := 2024

  // ---------------------------------------------------------------------
  // Situation builders at this file's year

  /** `create_single_filer`: the person's age and the household's state are for 2024. */
  function CreateSingleFiler(income: int, state: string, age: int, kwargs: Entries): (s: Value)
    requires IsKwargs(kwargs, UsLegacy.SINGLE_FILER_PARAMS)
    ensures Attr(s, "people", "person", "age") == Some(Yearly(CURRENT_YEAR, Int(age)))
    ensures Attr(s, "households", "household", "state_name") == Some(Yearly(CURRENT_YEAR, Str(state)))
    ensures Attr(s, "tax_units", "tax_unit", "members") == Some(Names(["person"]))
  {
    UsLegacy.SingleFilerPerson(CURRENT_YEAR, income, state, age, kwargs, "age");
    UsLegacy.SingleFilerUnits(CURRENT_YEAR, income, state, age, kwargs, "person");
    UsLegacy.SingleFiler(CURRENT_YEAR, income, state, age, kwargs)
  }

  /** `create_married_couple`: both spouses' attributes are for 2024. */
  function CreateMarriedCouple(income1: int, income2: int, state: string, age1: int, age2: int, kwargs: Entries): (s: Value)
    requires IsKwargs(kwargs, UsLegacy.MARRIED_COUPLE_PARAMS)
    ensures Entity(s, "people", "spouse_1") == Some(Dict(AgeIncome(CURRENT_YEAR, age1, income1)))
    ensures Entity(s, "people", "spouse_2") == Some(Dict(AgeIncome(CURRENT_YEAR, age2, income2)))
    ensures Attr(s, "tax_units", "tax_unit", "members") == Some(Names(["spouse_1", "spouse_2"]))
  {
    UsLegacy.MarriedCoupleFacts(CURRENT_YEAR, income1, income2, state, age1, age2, kwargs, "members");
    UsLegacy.MarriedCouple(CURRENT_YEAR, income1, income2, state, age1, age2, kwargs)
  }

  /** `create_family_with_children` at 2024. */
  method CreateFamilyWithChildren(parentIncome: int, numChildren: int, childAges: Option<seq<int>>, state: string,
                                  parentAge: int, married: bool, spouseIncome: int, kwargs: Entries)
    returns (r: Result<Value, Error>)
    requires IsKwargs(kwargs, UsLegacy.FAMILY_PARAMS)
    ensures r == UsLegacy.FamilySpec(CURRENT_YEAR, parentIncome, numChildren, childAges, state, parentAge, married,
                                     spouseIncome, kwargs)
  {
    r := UsLegacy.FamilyWithChildren(CURRENT_YEAR, parentIncome, numChildren, childAges, state, parentAge, married,
                                     spouseIncome, kwargs);
  }

  // ---------------------------------------------------------------------
  // Editors at this file's year

  /** `add_itemized_deductions`: the amounts are for 2024. */
  method AddItemizedDeductions(s: Situation, charitable: int, mortgage: int, realEstate: int, medical: int, casualty: int)
    returns (err: Option<Error>)
    modifies s
    ensures Applied(old(s.root), s.root, err,
                    ItemizedDeductions(CURRENT_YEAR, old(s.root), charitable, mortgage, realEstate, medical, casualty))
  {
    err := s.AddItemizedDeductions(CURRENT_YEAR, charitable, mortgage, realEstate, medical, casualty);
  }

  /** `add_axes`: the sweep's period is 2024; `count` defaults to 1001 at the call. */
  method AddAxes(s: Situation, variableName: string, minVal: int, maxVal: int, count: int)
    modifies s
    ensures s.root == WithAxes(CURRENT_YEAR, old(s.root), variableName, minVal, maxVal, count)
  {
    s.AddAxes(CURRENT_YEAR, variableName, minVal, maxVal, count);
  }

  /** `set_state_nyc`: the first household moves to NY, with `in_nyc` set, for 2024; `in_nyc` defaults to `True` at the call. */
  method SetStateNyc(s: Situation, inNyc: Value) returns (err: Option<Error>)
    modifies s
    ensures Applied(old(s.root), s.root, err, NycEdit(CURRENT_YEAR, old(s.root), inNyc))
  {
    err := s.SetStateNyc(CURRENT_YEAR, inNyc);
  }
}
