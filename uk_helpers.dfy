/**
 * skills/policyengine-uk-skill/scripts/situation_helpers.py
 * (`CURRENT_YEAR = 2025`): the situation builders and editors at this
 * file's year.
 */
module UkHelpers {
  import opened PyValues
  import opened Households
  import opened Situations
  import UkRegions
  import UkLegacy

  const CURRENT_YEAR := 2025

  // ---------------------------------------------------------------------
  // Situation builders at this file's year

  /** `create_single_person`: fails exactly for an invalid region; the age and region are for 2025. */
  function CreateSinglePerson(income: int, region: string, age: int, kwargs: Entries): (r: Result<Value, Error>)
    requires IsKwargs(kwargs, UkLegacy.SINGLE_PERSON_PARAMS)
    ensures r.Failure? <==> region !in UkRegions.VALID_REGIONS
    ensures r.Success? ==> Attr(r.value, "people", "person", "age") == Some(Yearly(CURRENT_YEAR, Int(age)))
    ensures r.Success? ==> Attr(r.value, "households", "household", "region") == Some(Yearly(CURRENT_YEAR, Str(region)))
  {
    UkLegacy.SinglePersonFacts(CURRENT_YEAR, income, region, age, kwargs, "age");
    UkLegacy.SinglePerson(CURRENT_YEAR, income, region, age, kwargs)
  }

  /** `create_couple`: fails exactly for an invalid region; both people's attributes are for 2025. */
  function CreateCouple(income1: int, income2: int, region: string, age1: int, age2: int, kwargs: Entries): (r: Result<Value, Error>)
    requires IsKwargs(kwargs, UkLegacy.COUPLE_PARAMS)
    ensures r.Failure? <==> region !in UkRegions.VALID_REGIONS
    ensures r.Success? ==> Entity(r.value, "people", "person_1") == Some(Dict(AgeIncome(CURRENT_YEAR, age1, income1)))
    ensures r.Success? ==> Entity(r.value, "people", "person_2") == Some(Dict(AgeIncome(CURRENT_YEAR, age2, income2)))
  {
    UkLegacy.CoupleFacts(CURRENT_YEAR, income1, income2, region, age1, age2, kwargs, "members");
    UkLegacy.Couple(CURRENT_YEAR, income1, income2, region, age1, age2, kwargs)
  }

  /** `create_family_with_children` at 2025. */
  method CreateFamilyWithChildren(parentIncome: int, numChildren: int, childAges: Option<seq<int>>, region: string,
                                  parentAge: int, couple: bool, partnerIncome: int, kwargs: Entries)
    returns (r: Result<Value, Error>)
    requires IsKwargs(kwargs, UkLegacy.FAMILY_PARAMS)
    ensures r == UkLegacy.FamilySpec(CURRENT_YEAR, parentIncome, numChildren, childAges, region, parentAge, couple,
                                     partnerIncome, kwargs)
  {
    r := UkLegacy.FamilyWithChildren(CURRENT_YEAR, parentIncome, numChildren, childAges, region, parentAge, couple,
                                     partnerIncome, kwargs);
  }

  // ---------------------------------------------------------------------
  // Editors at this file's year

  /** `add_axes`: the sweep's period is 2025; `count` defaults to 1001 at the call. */
  method AddAxes(s: Situation, variableName: string, minVal: int, maxVal: int, count: int)
    modifies s
    ensures s.root == WithAxes(CURRENT_YEAR, old(s.root), variableName, minVal, maxVal, count)
  {
    s.AddAxes(CURRENT_YEAR, variableName, minVal, maxVal, count);
  }

  /** `set_region`: the first household's region, for 2025, after the region is checked. */
  method SetRegion(s: Situation, region: string) returns (err: Option<Error>)
    modifies s
    ensures Applied(old(s.root), s.root, err, RegionEdit(CURRENT_YEAR, old(s.root), region))
  {
    err := s.SetRegion(CURRENT_YEAR, region);
  }

  /**
   * `add_income_sources`: the positive amounts, for 2025, on `person_id`
   * or, when it is `None`, on the first person.
   */
  method AddIncomeSources(s: Situation, personId: Option<string>, selfEmployment: int, pension: int, property: int,
                          savingsInterest: int, dividend: int, miscellaneous: int)
    returns (err: Option<Error>)
    modifies s
    ensures Applied(old(s.root), s.root, err,
                    IncomeSources(CURRENT_YEAR, old(s.root), personId, selfEmployment, pension, property, savingsInterest,
                                  dividend, miscellaneous))
  {
    err := s.AddIncomeSources(CURRENT_YEAR, personId, selfEmployment, pension, property, savingsInterest, dividend,
                              miscellaneous);
  }

  /**
   * `create_pensioner_household`: fails exactly for an invalid region, with
   * the message naming the regions; otherwise the benefit unit is the
   * pensioner and, exactly in a couple, the partner, each with 2025
   * attributes (the partner's state pension 0), and every household
   * attribute is its keyword argument for 2025 when there is one, else the
   * base household's: the members and the 2025 region.
   */
  function CreatePensionerHousehold(pension: int, statePension: int, region: string, age: int, couple: bool,
                                    partnerPension: int, partnerAge: int, kwargs: Entries): (r: Result<Value, Error>)
    requires IsKwargs(kwargs, UkLegacy.PENSIONER_PARAMS)
    ensures r.Failure? <==> region !in UkRegions.VALID_REGIONS
    ensures r.Failure? ==> r.error == ValueError(UkRegions.RegionMessage())
    ensures r.Success? ==>
              && Attr(r.value, "benunits", "benunit", "members") == Some(Names(UkLegacy.PensionerMembers(couple)))
              && Entity(r.value, "people", "pensioner")
                 == Some(Dict(UkLegacy.PensionerRecord(CURRENT_YEAR, age, pension, statePension)))
              && Entity(r.value, "people", "partner")
                 == (if couple then Some(Dict(UkLegacy.PensionerRecord(CURRENT_YEAR, partnerAge, partnerPension, 0))) else None)
    ensures r.Success? ==>
              forall a :: Attr(r.value, "households", "household", a)
                          == (match Lookup(kwargs, KStr(a))
                              case Some(v) => Some(Yearly(CURRENT_YEAR, v))
                              case None => Lookup(UkLegacy.RegionHousehold(CURRENT_YEAR, UkLegacy.PensionerMembers(couple), region), KStr(a)))
    ensures r.Success? && Lookup(kwargs, KStr("members")).None? ==>
              Attr(r.value, "households", "household", "members") == Some(Names(UkLegacy.PensionerMembers(couple)))
    ensures r.Success? && Lookup(kwargs, KStr("region")).None? ==>
              Attr(r.value, "households", "household", "region") == Some(Yearly(CURRENT_YEAR, Str(region)))
  {
    UkLegacy.PensionerAllFacts(CURRENT_YEAR, pension, statePension, region, age, couple, partnerPension, partnerAge, kwargs);
    UkLegacy.PensionerHousehold(CURRENT_YEAR, pension, statePension, region, age, couple, partnerPension, partnerAge, kwargs)
  }
}
