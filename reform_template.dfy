/**
 * `create_situation` of the reform-analysis templates: one parent aged 35
 * with the income given, `num_children` children aged 8, and every unit
 * but the marital unit holding them all.  The `create_situation` of the
 * two template files differs only in `CURRENT_YEAR`; here the year is a
 * parameter.
 */
module ReformSituation {
  import opened PyValues
  import opened Households
  import UsLegacy

  /** `[8] * len(range(num_children))`: every child is 8. */
  function ChildAges(numChildren: int): seq<int>
  {
    seq(RangeLength(numChildren), i => 8)
  }

  /** The parent: `{"age": {year: 35}, "employment_income": {year: income}}`. */
  function Parent(year: int, income: int): (string, Entries)
  {
    ("parent", AgeIncome(year, 35, income))
  }

  function ParentOnly(): seq<string>
  {
    ["parent"]
  }

  /** `create_situation`, as the situation it returns. */
  function SituationSpec(year: int, income: int, numChildren: int, state: string): Value
  {
    var members := AdultIds(Parent(year, income), None) + ChildIds(RangeLength(numChildren));
    UsSituation(AdultEntries(Parent(year, income), None) + ChildEntries(year, ChildAges(numChildren)), members,
                ParentOnly(), UsLegacy.StateHousehold(year, members, state))
  }

  /** `create_situation`: the loop over `range(num_children)` adds each child to `people` and `members`. */
  method CreateSituation(year: int, income: int, numChildren: int, state: string) returns (s: Value)
    ensures s == SituationSpec(year, income, numChildren, state)
  {
    var people, members := BuildFamily(year, Parent(year, income), None, ChildAges(numChildren));
    s := UsSituation(people, members, ParentOnly(), UsLegacy.StateHousehold(year, members, state));
  }

  /**
   * The members are `parent, child_1, ..., child_n` (n + 1 of them, none
   * for a negative count) in the family, tax unit, SPM unit and household;
   * the marital unit is the parent alone; the household is in `state`.
   */
  lemma SituationUnits(year: int, income: int, numChildren: int, state: string)
    ensures var s := SituationSpec(year, income, numChildren, state);
            var members := ["parent"] + ChildIds(RangeLength(numChildren));
            && |members| == RangeLength(numChildren) + 1
            && Attr(s, "families", "family", "members") == Some(Names(members))
            && Attr(s, "tax_units", "tax_unit", "members") == Some(Names(members))
            && Attr(s, "spm_units", "spm_unit", "members") == Some(Names(members))
            && Attr(s, "households", "household", "members") == Some(Names(members))
            && Attr(s, "marital_units", "marital_unit", "members") == Some(Names(["parent"]))
            && Attr(s, "households", "household", "state_name") == Some(Yearly(year, Str(state)))
  {
    var s := SituationSpec(year, income, numChildren, state);
    var ages := ChildAges(numChildren);
    var members := AdultIds(Parent(year, income), None) + ChildIds(|ages|);
    assert members == ["parent"] + ChildIds(RangeLength(numChildren));
    var people := AdultEntries(Parent(year, income), None) + ChildEntries(year, ages);
    var household := UsLegacy.StateHousehold(year, members, state);
    UsSituationLayout(s, people, members, ParentOnly(), household);
    LookupFound(household, 1, KStr("state_name"));
  }

  /** The parent is 35 with the income given; child i is only `{"age": {year: 8}}`, and there is no one else. */
  lemma SituationPeople(year: int, income: int, numChildren: int, state: string, i: nat)
    ensures var s := SituationSpec(year, income, numChildren, state);
            && Entity(s, "people", "parent") == Some(Dict(AgeIncome(year, 35, income)))
            && (i < RangeLength(numChildren) ==> Entity(s, "people", ChildId(i)) == Some(ChildRecord(year, 8)))
            && (i >= RangeLength(numChildren) ==> Entity(s, "people", ChildId(i)) == None)
  {
    var s := SituationSpec(year, income, numChildren, state);
    var ages := ChildAges(numChildren);
    var members := AdultIds(Parent(year, income), None) + ChildIds(|ages|);
    var people := AdultEntries(Parent(year, income), None) + ChildEntries(year, ages);
    var household := UsLegacy.StateHousehold(year, members, state);
    UsSituationLayout(s, people, members, ParentOnly(), household);
    assert Entity(s, "people", "parent") == Lookup(people, KStr("parent"));
    assert Entity(s, "people", ChildId(i)) == Lookup(people, KStr(ChildId(i)));
    if i < |ages| {
      ChildFound(year, Parent(year, income), None, ages, i);
    } else {
      ChildAbsent(year, Parent(year, income), None, ages, i);
    }
  }
}

/** skills/policyengine-analysis-skill/examples/reform_template.py (`CURRENT_YEAR = 2024`) */
module ReformTemplate {
  import PyValues
  import ReformSituation

  const CURRENT_YEAR := 2024

  /** `create_situation` at 2024 (`num_children` defaults to 0 and `state` to "CA" at the call). */
  method CreateSituation(income: int, numChildren: int, state: string) returns (s: PyValues.Value)
    ensures s == ReformSituation.SituationSpec(CURRENT_YEAR, income, numChildren, state)
  {
    s := ReformSituation.CreateSituation(CURRENT_YEAR, income, numChildren, state);
  }
}

/** skills/analysis/policyengine-analysis-skill/examples/reform_template.py (`CURRENT_YEAR = 2026`) */
module AnalysisReformTemplate {
  import PyValues
  import ReformSituation

  const CURRENT_YEAR := 2026

  /** `create_situation` at 2026 (`num_children` defaults to 0 and `state` to "CA" at the call). */
  method CreateSituation(income: int, numChildren: int, state: string) returns (s: PyValues.Value)
    ensures s == ReformSituation.SituationSpec(CURRENT_YEAR, income, numChildren, state)
  {
    s := ReformSituation.CreateSituation(CURRENT_YEAR, income, numChildren, state);
  }
}
