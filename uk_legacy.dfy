/**
 * The legacy UK situation builders for `policyengine_uk.Simulation`
 * (`create_single_person`, `create_couple`, `create_family_with_children`,
 * and `create_pensioner_household`), which check the region before
 * building anything.  Two helper files define the first three alike with
 * different `CURRENT_YEAR`s; here the year is a parameter.
 */
module UkLegacy {
  import opened PyValues
  import opened Households
  import UkRegions

  /** `{"members": members, "region": {CURRENT_YEAR: region}}`, the base of a household. */
  function RegionHousehold(year: int, members: seq<string>, region: string): Entries
  {
    [(KStr("members"), Names(members)), (KStr("region"), Yearly(year, Str(region)))]
  }

  /** The base household holds the members and the region. */
  lemma RegionHouseholdFields(year: int, members: seq<string>, region: string)
    ensures Lookup(RegionHousehold(year, members, region), KStr("members")) == Some(Names(members))
    ensures Lookup(RegionHousehold(year, members, region), KStr("region")) == Some(Yearly(year, Str(region)))
  {
    LookupFound(RegionHousehold(year, members, region), 1, KStr("region"));
  }

  /**
   * With `household_attrs.update({k: {year: v} ...})`, a household
   * attribute is the keyword argument of that name when there is one, else
   * the base household's.
   */
  lemma RegionHouseholdAttr(year: int, people: Entries, members: seq<string>, region: string, kwargs: Entries, a: string)
    requires UniqueKeys(kwargs)
    ensures Attr(UkSituation(people, members, Update(RegionHousehold(year, members, region), YearlyAll(year, kwargs))),
                 "households", "household", a)
            == (match Lookup(kwargs, KStr(a))
                case Some(v) => Some(Yearly(year, v))
                case None => Lookup(RegionHousehold(year, members, region), KStr(a)))
  {
    UkHouseholdAttr(people, members, Update(RegionHousehold(year, members, region), YearlyAll(year, kwargs)), a);
    KwargsOverride(year, RegionHousehold(year, members, region), kwargs, KStr(a));
  }

  /** `["person"]` */
  function PersonMembers(): seq<string>
  {
    ["person"]
  }

  const SINGLE_PERSON_PARAMS: set<string> := {"income", "region", "age"}

  /** The single person's situation once the region is checked: the keyword arguments are attributes of the person. */
  function SinglePersonSituation(year: int, income: int, region: string, age: int, kwargs: Entries): Value
  {
    var person := Update(AgeIncome(year, age, income), YearlyAll(year, kwargs));
    UkSituation([(KStr("person"), Dict(person))], PersonMembers(), RegionHousehold(year, PersonMembers(), region))
  }

  /** `create_single_person` */
  function SinglePerson(year: int, income: int, region: string, age: int, kwargs: Entries): Result<Value, Error>
    requires IsKwargs(kwargs, SINGLE_PERSON_PARAMS)
  {
    match UkRegions.CheckRegion(region)
    case Some(e) => Failure(e)
    case None => Success(SinglePersonSituation(year, income, region, age, kwargs))
  }

  /**
   * A single person fails exactly for a region not in the list, with the
   * message naming the regions; otherwise the person is the only member of
   * the benefit unit, has the age given, and gets `{year: v}` for each
   * keyword argument `k=v`, and the household holds the person alone and
   * is in `region`.
   */
  lemma SinglePersonFacts(year: int, income: int, region: string, age: int, kwargs: Entries, a: string)
    requires IsKwargs(kwargs, SINGLE_PERSON_PARAMS)
    ensures SinglePerson(year, income, region, age, kwargs).Failure? <==> region !in UkRegions.VALID_REGIONS
    ensures SinglePerson(year, income, region, age, kwargs).Failure? ==>
              SinglePerson(year, income, region, age, kwargs).error == ValueError(UkRegions.RegionMessage())
    ensures SinglePerson(year, income, region, age, kwargs).Success? ==>
              var s := SinglePerson(year, income, region, age, kwargs).value;
              && (forall p :: Entity(s, "people", p).Some? <==> p == "person")
              && Attr(s, "benunits", "benunit", "members") == Some(Names(PersonMembers()))
              && Attr(s, "people", "person", "age") == Some(Yearly(year, Int(age)))
              && Attr(s, "people", "person", a)
                 == (match Lookup(kwargs, KStr(a))
                     case Some(v) => Some(Yearly(year, v))
                     case None => Lookup(AgeIncome(year, age, income), KStr(a)))
              && Attr(s, "households", "household", "members") == Some(Names(PersonMembers()))
              && Attr(s, "households", "household", "region") == Some(Yearly(year, Str(region)))
  {
    if region in UkRegions.VALID_REGIONS {
      assert SinglePerson(year, income, region, age, kwargs).value == SinglePersonSituation(year, income, region, age, kwargs);
      SinglePersonUnits(year, income, region, age, kwargs);
      SinglePersonOnly(year, income, region, age, kwargs);
      SinglePersonAttr(year, income, region, age, kwargs, a);
      SinglePersonAttr(year, income, region, age, kwargs, "age");
      KwargsNotParam(kwargs, SINGLE_PERSON_PARAMS, "age");
    }
  }

  /** The benefit unit and the household of a single person. */
  lemma SinglePersonUnits(year: int, income: int, region: string, age: int, kwargs: Entries)
    ensures var s := SinglePersonSituation(year, income, region, age, kwargs);
            && Attr(s, "benunits", "benunit", "members") == Some(Names(PersonMembers()))
            && Attr(s, "households", "household", "members") == Some(Names(PersonMembers()))
            && Attr(s, "households", "household", "region") == Some(Yearly(year, Str(region)))
  {
    var person := Update(AgeIncome(year, age, income), YearlyAll(year, kwargs));
    var people := [(KStr("person"), Dict(person))];
    var s := SinglePersonSituation(year, income, region, age, kwargs);
    UkSituationLayout(s, people, PersonMembers(), RegionHousehold(year, PersonMembers(), region));
    RegionHouseholdFields(year, PersonMembers(), region);
  }

  /** A single person's situation holds `person` and no one else. */
  lemma SinglePersonOnly(year: int, income: int, region: string, age: int, kwargs: Entries)
    ensures forall p :: Entity(SinglePersonSituation(year, income, region, age, kwargs), "people", p).Some? <==> p == "person"
  {
    var person := Update(AgeIncome(year, age, income), YearlyAll(year, kwargs));
    var people := [(KStr("person"), Dict(person))];
    var s := SinglePersonSituation(year, income, region, age, kwargs);
    UkSituationLayout(s, people, PersonMembers(), RegionHousehold(year, PersonMembers(), region));
    forall p
      ensures Entity(s, "people", p).Some? <==> p == "person"
    {
      assert Entity(s, "people", p) == Lookup(people, KStr(p));
      assert Lookup(people, KStr(p)) == if p == "person" then Some(Dict(person)) else Lookup([], KStr(p));
    }
  }

  /** An attribute of a single person: the keyword argument's, else the built-in one. */
  lemma SinglePersonAttr(year: int, income: int, region: string, age: int, kwargs: Entries, a: string)
    requires UniqueKeys(kwargs)
    ensures Attr(SinglePersonSituation(year, income, region, age, kwargs), "people", "person", a)
            == (match Lookup(kwargs, KStr(a))
                case Some(v) => Some(Yearly(year, v))
                case None => Lookup(AgeIncome(year, age, income), KStr(a)))
  {
    var person := Update(AgeIncome(year, age, income), YearlyAll(year, kwargs));
    var people := [(KStr("person"), Dict(person))];
    var s := SinglePersonSituation(year, income, region, age, kwargs);
    UkSituationLayout(s, people, PersonMembers(), RegionHousehold(year, PersonMembers(), region));
    PersonAttr(people, 0, a);
    assert Attr(s, "people", "person", a) == Lookup(person, KStr(a));
    KwargsOverride(year, AgeIncome(year, age, income), kwargs, KStr(a));
  }

  const COUPLE_PARAMS: set<string> := {"income_1", "income_2", "region", "age_1", "age_2"}

  function CoupleMembers(): seq<string>
  {
    ["person_1", "person_2"]
  }

  /** The two people of a couple, each with the age and income given. */
  function CouplePeople(year: int, income1: int, income2: int, age1: int, age2: int): Entries
  {
    [(KStr("person_1"), Dict(AgeIncome(year, age1, income1))),
     (KStr("person_2"), Dict(AgeIncome(year, age2, income2)))]
  }

  /** The couple's situation once the region is checked: the keyword arguments are attributes of the household. */
  function CoupleSituation(year: int, income1: int, income2: int, region: string, age1: int, age2: int, kwargs: Entries): Value
  {
    var household := Update(RegionHousehold(year, CoupleMembers(), region), YearlyAll(year, kwargs));
    UkSituation(CouplePeople(year, income1, income2, age1, age2), CoupleMembers(), household)
  }

  /** `create_couple` */
  function Couple(year: int, income1: int, income2: int, region: string, age1: int, age2: int, kwargs: Entries): Result<Value, Error>
    requires IsKwargs(kwargs, COUPLE_PARAMS)
  {
    match UkRegions.CheckRegion(region)
    case Some(e) => Failure(e)
    case None => Success(CoupleSituation(year, income1, income2, region, age1, age2, kwargs))
  }

  /**
   * A couple fails exactly for an invalid region, with the message naming
   * the regions; otherwise both people are in the benefit unit with the
   * ages and incomes given, and a household attribute is the keyword
   * argument of that name when there is one, else its base value: the
   * household holds both people and is in `region` unless a keyword
   * argument overrides `members` or `region`.
   */
  lemma CoupleFacts(year: int, income1: int, income2: int, region: string, age1: int, age2: int, kwargs: Entries, a: string)
    requires IsKwargs(kwargs, COUPLE_PARAMS)
    ensures Couple(year, income1, income2, region, age1, age2, kwargs).Failure? <==> region !in UkRegions.VALID_REGIONS
    ensures Couple(year, income1, income2, region, age1, age2, kwargs).Failure? ==>
              Couple(year, income1, income2, region, age1, age2, kwargs).error == ValueError(UkRegions.RegionMessage())
    ensures Couple(year, income1, income2, region, age1, age2, kwargs).Success? ==>
              var s := Couple(year, income1, income2, region, age1, age2, kwargs).value;
              && Attr(s, "benunits", "benunit", "members") == Some(Names(CoupleMembers()))
              && Entity(s, "people", "person_1") == Some(Dict(AgeIncome(year, age1, income1)))
              && Entity(s, "people", "person_2") == Some(Dict(AgeIncome(year, age2, income2)))
              && Attr(s, "households", "household", a)
                 == (match Lookup(kwargs, KStr(a))
                     case Some(v) => Some(Yearly(year, v))
                     case None => Lookup(RegionHousehold(year, CoupleMembers(), region), KStr(a)))
              && (Lookup(kwargs, KStr("members")).None? ==>
                    Attr(s, "households", "household", "members") == Some(Names(CoupleMembers())))
              && (Lookup(kwargs, KStr("region")).None? ==>
                    Attr(s, "households", "household", "region") == Some(Yearly(year, Str(region))))
  {
    if region in UkRegions.VALID_REGIONS {
      assert Couple(year, income1, income2, region, age1, age2, kwargs).value
             == CoupleSituation(year, income1, income2, region, age1, age2, kwargs);
      CoupleUnits(year, income1, income2, region, age1, age2, kwargs);
      CoupleHousehold(year, income1, income2, region, age1, age2, kwargs, a);
      CoupleHousehold(year, income1, income2, region, age1, age2, kwargs, "members");
      CoupleHousehold(year, income1, income2, region, age1, age2, kwargs, "region");
      RegionHouseholdFields(year, CoupleMembers(), region);
    }
  }

  /** The benefit unit and the two people of a couple. */
  lemma CoupleUnits(year: int, income1: int, income2: int, region: string, age1: int, age2: int, kwargs: Entries)
    ensures var s := CoupleSituation(year, income1, income2, region, age1, age2, kwargs);
            && Attr(s, "benunits", "benunit", "members") == Some(Names(CoupleMembers()))
            && Entity(s, "people", "person_1") == Some(Dict(AgeIncome(year, age1, income1)))
            && Entity(s, "people", "person_2") == Some(Dict(AgeIncome(year, age2, income2)))
  {
    var people := CouplePeople(year, income1, income2, age1, age2);
    var household := Update(RegionHousehold(year, CoupleMembers(), region), YearlyAll(year, kwargs));
    UkSituationLayout(CoupleSituation(year, income1, income2, region, age1, age2, kwargs), people, CoupleMembers(), household);
    LookupFound(people, 1, KStr("person_2"));
  }

  /** A couple's household attribute: the keyword argument's, else the base value. */
  lemma CoupleHousehold(year: int, income1: int, income2: int, region: string, age1: int, age2: int, kwargs: Entries, a: string)
    requires UniqueKeys(kwargs)
    ensures Attr(CoupleSituation(year, income1, income2, region, age1, age2, kwargs), "households", "household", a)
            == (match Lookup(kwargs, KStr(a))
                case Some(v) => Some(Yearly(year, v))
                case None => Lookup(RegionHousehold(year, CoupleMembers(), region), KStr(a)))
  {
    RegionHouseholdAttr(year, CouplePeople(year, income1, income2, age1, age2), CoupleMembers(), region, kwargs, a);
  }

  const FAMILY_PARAMS: set<string> :=
    {"parent_income", "num_children", "child_ages", "region", "parent_age", "couple", "partner_income"}

  /** The parent, and the partner (with the parent's age) exactly in a couple. */
  function FamilyAdults(year: int, parentIncome: int, parentAge: int, couple: bool, partnerIncome: int)
    : ((string, Entries), Option<(string, Entries)>)
  {
    (("parent", AgeIncome(year, parentAge, parentIncome)),
     if couple then Some(("partner", AgeIncome(year, parentAge, partnerIncome))) else None)
  }

  /** The family `create_family_with_children` builds once the region and the children's ages are checked. */
  function FamilySituation(year: int, parentIncome: int, ages: seq<int>, region: string,
                           parentAge: int, couple: bool, partnerIncome: int, kwargs: Entries): Value
  {
    var (parent, second) := FamilyAdults(year, parentIncome, parentAge, couple, partnerIncome);
    var members := AdultIds(parent, second) + ChildIds(|ages|);
    var household := Update(RegionHousehold(year, members, region), YearlyAll(year, kwargs));
    UkSituation(AdultEntries(parent, second) + ChildEntries(year, ages), members, household)
  }

  /** `create_family_with_children`, as the situation it returns or the ValueError it raises. */
  function FamilySpec(year: int, parentIncome: int, numChildren: int, childAges: Option<seq<int>>, region: string,
                      parentAge: int, couple: bool, partnerIncome: int, kwargs: Entries): Result<Value, Error>
  {
    match UkRegions.CheckRegion(region)
    case Some(e) => Failure(e)
    case None =>
      var ages :- ResolveChildAges(numChildren, childAges);
      Success(FamilySituation(year, parentIncome, ages, region, parentAge, couple, partnerIncome, kwargs))
  }

  /** `create_family_with_children`: the people and members are built by the loop over the children. */
  method FamilyWithChildren(year: int, parentIncome: int, numChildren: int, childAges: Option<seq<int>>, region: string,
                            parentAge: int, couple: bool, partnerIncome: int, kwargs: Entries)
    returns (r: Result<Value, Error>)
    requires IsKwargs(kwargs, FAMILY_PARAMS)
    ensures r == FamilySpec(year, parentIncome, numChildren, childAges, region, parentAge, couple, partnerIncome, kwargs)
  {
    var invalid := UkRegions.CheckRegion(region);
    if invalid.Some? {
      return Failure(invalid.value);
    }
    var resolved := ResolveChildAges(numChildren, childAges);
    if resolved.Failure? {
      return Failure(resolved.error);
    }
    var adults := FamilyAdults(year, parentIncome, parentAge, couple, partnerIncome);
    var people, members := BuildFamily(year, adults.0, adults.1, resolved.value);
    var household := Update(RegionHousehold(year, members, region), YearlyAll(year, kwargs));
    r := Success(UkSituation(people, members, household));
  }

  /**
   * The region is checked first: an invalid region raises the region error
   * even when `child_ages` is also wrong.  With a valid region the family
   * fails exactly when `child_ages` does not match `num_children`;
   * otherwise the benefit unit holds the parent, the partner exactly in a
   * couple, with the parent's age, and one `child_i` per age, child i has
   * age `ages[i]` and no child follows the last one, and a
   * household attribute is the keyword argument of that name when there is
   * one, else its base value: the household holds the same members and is
   * in `region` unless a keyword argument overrides `members` or `region`.
   */
  lemma FamilyFacts(year: int, parentIncome: int, numChildren: int, childAges: Option<seq<int>>, region: string,
                    parentAge: int, couple: bool, partnerIncome: int, kwargs: Entries, a: string, i: nat)
    requires IsKwargs(kwargs, FAMILY_PARAMS)
    ensures region !in UkRegions.VALID_REGIONS ==>
              FamilySpec(year, parentIncome, numChildren, childAges, region, parentAge, couple, partnerIncome, kwargs)
              == Failure(ValueError(UkRegions.RegionMessage()))
    ensures region in UkRegions.VALID_REGIONS ==>
              (FamilySpec(year, parentIncome, numChildren, childAges, region, parentAge, couple, partnerIncome, kwargs).Failure?
               <==> childAges.Some? && |childAges.value| != numChildren)
    ensures var r := FamilySpec(year, parentIncome, numChildren, childAges, region, parentAge, couple, partnerIncome, kwargs);
            r.Success? ==>
              var ages := ResolveChildAges(numChildren, childAges).value;
              var members := ["parent"] + (if couple then ["partner"] else []) + ChildIds(|ages|);
              && Attr(r.value, "benunits", "benunit", "members") == Some(Names(members))
              && Entity(r.value, "people", "parent") == Some(Dict(AgeIncome(year, parentAge, parentIncome)))
              && Entity(r.value, "people", "partner")
                 == (if couple then Some(Dict(AgeIncome(year, parentAge, partnerIncome))) else None)
              && (i < |ages| ==> Entity(r.value, "people", ChildId(i)) == Some(ChildRecord(year, ages[i])))
              && (i >= |ages| ==> Entity(r.value, "people", ChildId(i)) == None)
              && Attr(r.value, "households", "household", a)
                 == (match Lookup(kwargs, KStr(a))
                     case Some(v) => Some(Yearly(year, v))
                     case None => Lookup(RegionHousehold(year, members, region), KStr(a)))
              && (Lookup(kwargs, KStr("members")).None? ==>
                    Attr(r.value, "households", "household", "members") == Some(Names(members)))
              && (Lookup(kwargs, KStr("region")).None? ==>
                    Attr(r.value, "households", "household", "region") == Some(Yearly(year, Str(region))))
  {
    var r := FamilySpec(year, parentIncome, numChildren, childAges, region, parentAge, couple, partnerIncome, kwargs);
    if r.Success? {
      var ages := ResolveChildAges(numChildren, childAges).value;
      assert r.value == FamilySituation(year, parentIncome, ages, region, parentAge, couple, partnerIncome, kwargs);
      FamilyUnits(year, parentIncome, ages, region, parentAge, couple, partnerIncome, kwargs);
      FamilyHousehold(year, parentIncome, ages, region, parentAge, couple, partnerIncome, kwargs, a);
      FamilyHousehold(year, parentIncome, ages, region, parentAge, couple, partnerIncome, kwargs, "members");
      FamilyHousehold(year, parentIncome, ages, region, parentAge, couple, partnerIncome, kwargs, "region");
      RegionHouseholdFields(year, ["parent"] + (if couple then ["partner"] else []) + ChildIds(|ages|), region);
      FamilyPeople(year, parentIncome, ages, region, parentAge, couple, partnerIncome, kwargs, i);
      if i < |ages| {
        FamilyChild(year, parentIncome, ages, region, parentAge, couple, partnerIncome, kwargs, i);
      }
    }
  }

  /** The benefit unit of a family. */
  lemma FamilyUnits(year: int, parentIncome: int, ages: seq<int>, region: string,
                    parentAge: int, couple: bool, partnerIncome: int, kwargs: Entries)
    ensures Attr(FamilySituation(year, parentIncome, ages, region, parentAge, couple, partnerIncome, kwargs),
                 "benunits", "benunit", "members")
            == Some(Names(["parent"] + (if couple then ["partner"] else []) + ChildIds(|ages|)))
  {
    var s := FamilySituation(year, parentIncome, ages, region, parentAge, couple, partnerIncome, kwargs);
    var (parent, second) := FamilyAdults(year, parentIncome, parentAge, couple, partnerIncome);
    var members := AdultIds(parent, second) + ChildIds(|ages|);
    var people := AdultEntries(parent, second) + ChildEntries(year, ages);
    var household := Update(RegionHousehold(year, members, region), YearlyAll(year, kwargs));
    assert members == ["parent"] + (if couple then ["partner"] else []) + ChildIds(|ages|);
    UkSituationLayout(s, people, members, household);
  }

  /** A family's household attribute: the keyword argument's, else the base value. */
  lemma FamilyHousehold(year: int, parentIncome: int, ages: seq<int>, region: string,
                        parentAge: int, couple: bool, partnerIncome: int, kwargs: Entries, a: string)
    requires UniqueKeys(kwargs)
    ensures Attr(FamilySituation(year, parentIncome, ages, region, parentAge, couple, partnerIncome, kwargs),
                 "households", "household", a)
            == (match Lookup(kwargs, KStr(a))
                case Some(v) => Some(Yearly(year, v))
                case None =>
                  Lookup(RegionHousehold(year, ["parent"] + (if couple then ["partner"] else []) + ChildIds(|ages|), region), KStr(a)))
  {
    var (parent, second) := FamilyAdults(year, parentIncome, parentAge, couple, partnerIncome);
    var members := AdultIds(parent, second) + ChildIds(|ages|);
    assert members == ["parent"] + (if couple then ["partner"] else []) + ChildIds(|ages|);
    RegionHouseholdAttr(year, AdultEntries(parent, second) + ChildEntries(year, ages), members, region, kwargs, a);
  }

  /**
   * The parent has the parent's age and income, the partner exists exactly
   * in a couple and has the parent's age and the partner's income, and
   * there is no child beyond the last age.
   */
  lemma FamilyPeople(year: int, parentIncome: int, ages: seq<int>, region: string,
                     parentAge: int, couple: bool, partnerIncome: int, kwargs: Entries, i: nat)
    ensures var s := FamilySituation(year, parentIncome, ages, region, parentAge, couple, partnerIncome, kwargs);
            && Entity(s, "people", "parent") == Some(Dict(AgeIncome(year, parentAge, parentIncome)))
            && Entity(s, "people", "partner") == (if couple then Some(Dict(AgeIncome(year, parentAge, partnerIncome))) else None)
            && (i >= |ages| ==> Entity(s, "people", ChildId(i)) == None)
  {
    var s := FamilySituation(year, parentIncome, ages, region, parentAge, couple, partnerIncome, kwargs);
    var (parent, second) := FamilyAdults(year, parentIncome, parentAge, couple, partnerIncome);
    var members := AdultIds(parent, second) + ChildIds(|ages|);
    var people := AdultEntries(parent, second) + ChildEntries(year, ages);
    var household := Update(RegionHousehold(year, members, region), YearlyAll(year, kwargs));
    UkSituationLayout(s, people, members, household);
    FamilyEntities(s, year, parent, second, ages, "partner", i);
  }

  /** Child i of a family has the age given for it. */
  lemma FamilyChild(year: int, parentIncome: int, ages: seq<int>, region: string,
                    parentAge: int, couple: bool, partnerIncome: int, kwargs: Entries, i: nat)
    requires i < |ages|
    ensures Entity(FamilySituation(year, parentIncome, ages, region, parentAge, couple, partnerIncome, kwargs), "people", ChildId(i))
            == Some(ChildRecord(year, ages[i]))
  {
    var s := FamilySituation(year, parentIncome, ages, region, parentAge, couple, partnerIncome, kwargs);
    var (parent, second) := FamilyAdults(year, parentIncome, parentAge, couple, partnerIncome);
    var members := AdultIds(parent, second) + ChildIds(|ages|);
    var people := AdultEntries(parent, second) + ChildEntries(year, ages);
    var household := Update(RegionHousehold(year, members, region), YearlyAll(year, kwargs));
    UkSituationLayout(s, people, members, household);
    ChildFound(year, parent, second, ages, i);
  }

  const PENSIONER_PARAMS: set<string> :=
    {"pension_income", "state_pension_income", "region", "age", "couple", "partner_pension_income", "partner_age"}

  /** `{"age": ..., "pension_income": ..., "state_pension": ...}`, each for the year. */
  function PensionerRecord(year: int, age: int, pension: int, statePension: int): Entries
  {
    [(KStr("age"), Yearly(year, Int(age))), (KStr("pension_income"), Yearly(year, Int(pension))),
     (KStr("state_pension"), Yearly(year, Int(statePension)))]
  }

  /** The pensioner, and the partner (with no state pension) exactly in a couple. */
  function PensionerPeople(year: int, pension: int, statePension: int, age: int, couple: bool,
                           partnerPension: int, partnerAge: int): Entries
  {
    [(KStr("pensioner"), Dict(PensionerRecord(year, age, pension, statePension)))]
    + if couple then [(KStr("partner"), Dict(PensionerRecord(year, partnerAge, partnerPension, 0)))] else []
  }

  function PensionerMembers(couple: bool): seq<string>
  {
    ["pensioner"] + if couple then ["partner"] else []
  }

  /** The pensioner household once the region is checked: the keyword arguments are attributes of the household. */
  function PensionerSituation(year: int, pension: int, statePension: int, region: string, age: int, couple: bool,
                              partnerPension: int, partnerAge: int, kwargs: Entries): Value
  {
    var people := PensionerPeople(year, pension, statePension, age, couple, partnerPension, partnerAge);
    var household := Update(RegionHousehold(year, PensionerMembers(couple), region), YearlyAll(year, kwargs));
    UkSituation(people, PensionerMembers(couple), household)
  }

  /** `create_pensioner_household` */
  function PensionerHousehold(year: int, pension: int, statePension: int, region: string, age: int, couple: bool,
                              partnerPension: int, partnerAge: int, kwargs: Entries): Result<Value, Error>
    requires IsKwargs(kwargs, PENSIONER_PARAMS)
  {
    match UkRegions.CheckRegion(region)
    case Some(e) => Failure(e)
    case None => Success(PensionerSituation(year, pension, statePension, region, age, couple, partnerPension, partnerAge, kwargs))
  }

  /**
   * A pensioner household fails exactly for an invalid region, with the
   * message naming the regions; otherwise the benefit unit is the
   * pensioner and, exactly in a couple, the partner; the pensioner has the
   * age, pension and state pension given, and the partner the partner's age
   * and pension and a state pension of 0; a household attribute is the
   * keyword argument of that name when there is one, else its base value:
   * the household holds the same members and is in `region` unless a
   * keyword argument overrides `members` or `region`.
   */
  lemma PensionerFacts(year: int, pension: int, statePension: int, region: string, age: int, couple: bool,
                       partnerPension: int, partnerAge: int, kwargs: Entries, a: string)
    requires IsKwargs(kwargs, PENSIONER_PARAMS)
    ensures PensionerHousehold(year, pension, statePension, region, age, couple, partnerPension, partnerAge, kwargs).Failure?
            <==> region !in UkRegions.VALID_REGIONS
    ensures var r := PensionerHousehold(year, pension, statePension, region, age, couple, partnerPension, partnerAge, kwargs);
            r.Failure? ==> r.error == ValueError(UkRegions.RegionMessage())
    ensures var r := PensionerHousehold(year, pension, statePension, region, age, couple, partnerPension, partnerAge, kwargs);
            r.Success? ==>
              && Attr(r.value, "benunits", "benunit", "members") == Some(Names(PensionerMembers(couple)))
              && Entity(r.value, "people", "pensioner") == Some(Dict(PensionerRecord(year, age, pension, statePension)))
              && Entity(r.value, "people", "partner")
                 == (if couple then Some(Dict(PensionerRecord(year, partnerAge, partnerPension, 0))) else None)
              && Attr(r.value, "households", "household", a)
                 == (match Lookup(kwargs, KStr(a))
                     case Some(v) => Some(Yearly(year, v))
                     case None => Lookup(RegionHousehold(year, PensionerMembers(couple), region), KStr(a)))
              && (Lookup(kwargs, KStr("members")).None? ==>
                    Attr(r.value, "households", "household", "members") == Some(Names(PensionerMembers(couple))))
              && (Lookup(kwargs, KStr("region")).None? ==>
                    Attr(r.value, "households", "household", "region") == Some(Yearly(year, Str(region))))
  {
    if region in UkRegions.VALID_REGIONS {
      assert PensionerHousehold(year, pension, statePension, region, age, couple, partnerPension, partnerAge, kwargs).value
             == PensionerSituation(year, pension, statePension, region, age, couple, partnerPension, partnerAge, kwargs);
      PensionerLayout(year, pension, statePension, region, age, couple, partnerPension, partnerAge, kwargs);
      PensionerPeopleLookups(year, pension, statePension, age, couple, partnerPension, partnerAge);
      var people := PensionerPeople(year, pension, statePension, age, couple, partnerPension, partnerAge);
      RegionHouseholdAttr(year, people, PensionerMembers(couple), region, kwargs, a);
      RegionHouseholdAttr(year, people, PensionerMembers(couple), region, kwargs, "members");
      RegionHouseholdAttr(year, people, PensionerMembers(couple), region, kwargs, "region");
      RegionHouseholdFields(year, PensionerMembers(couple), region);
    }
  }

  /** `PensionerFacts` for every household attribute at once. */
  lemma PensionerAllFacts(year: int, pension: int, statePension: int, region: string, age: int, couple: bool,
                          partnerPension: int, partnerAge: int, kwargs: Entries)
    requires IsKwargs(kwargs, PENSIONER_PARAMS)
    ensures var r := PensionerHousehold(year, pension, statePension, region, age, couple, partnerPension, partnerAge, kwargs);
            && (r.Failure? <==> region !in UkRegions.VALID_REGIONS)
            && (r.Failure? ==> r.error == ValueError(UkRegions.RegionMessage()))
            && (r.Success? ==>
                  && Attr(r.value, "benunits", "benunit", "members") == Some(Names(PensionerMembers(couple)))
                  && Entity(r.value, "people", "pensioner") == Some(Dict(PensionerRecord(year, age, pension, statePension)))
                  && Entity(r.value, "people", "partner")
                     == (if couple then Some(Dict(PensionerRecord(year, partnerAge, partnerPension, 0))) else None)
                  && (Lookup(kwargs, KStr("members")).None? ==>
                        Attr(r.value, "households", "household", "members") == Some(Names(PensionerMembers(couple))))
                  && (Lookup(kwargs, KStr("region")).None? ==>
                        Attr(r.value, "households", "household", "region") == Some(Yearly(year, Str(region)))))
    ensures var r := PensionerHousehold(year, pension, statePension, region, age, couple, partnerPension, partnerAge, kwargs);
            r.Success? ==>
              forall a :: Attr(r.value, "households", "household", a)
                          == (match Lookup(kwargs, KStr(a))
                              case Some(v) => Some(Yearly(year, v))
                              case None => Lookup(RegionHousehold(year, PensionerMembers(couple), region), KStr(a)))
  {
    PensionerFacts(year, pension, statePension, region, age, couple, partnerPension, partnerAge, kwargs, "members");
    forall a {
      PensionerFacts(year, pension, statePension, region, age, couple, partnerPension, partnerAge, kwargs, a);
    }
  }

  /** The benefit unit of a pensioner household, and its people looked up by name. */
  lemma PensionerLayout(year: int, pension: int, statePension: int, region: string, age: int, couple: bool,
                        partnerPension: int, partnerAge: int, kwargs: Entries)
    ensures var s := PensionerSituation(year, pension, statePension, region, age, couple, partnerPension, partnerAge, kwargs);
            var people := PensionerPeople(year, pension, statePension, age, couple, partnerPension, partnerAge);
            && Attr(s, "benunits", "benunit", "members") == Some(Names(PensionerMembers(couple)))
            && Entity(s, "people", "pensioner") == Lookup(people, KStr("pensioner"))
            && Entity(s, "people", "partner") == Lookup(people, KStr("partner"))
  {
    var people := PensionerPeople(year, pension, statePension, age, couple, partnerPension, partnerAge);
    var household := Update(RegionHousehold(year, PensionerMembers(couple), region), YearlyAll(year, kwargs));
    UkSituationLayout(PensionerSituation(year, pension, statePension, region, age, couple, partnerPension, partnerAge, kwargs),
                      people, PensionerMembers(couple), household);
  }

  /** The pensioner's record, and the partner's exactly in a couple. */
  lemma PensionerPeopleLookups(year: int, pension: int, statePension: int, age: int, couple: bool,
                               partnerPension: int, partnerAge: int)
    ensures var people := PensionerPeople(year, pension, statePension, age, couple, partnerPension, partnerAge);
            && Lookup(people, KStr("pensioner")) == Some(Dict(PensionerRecord(year, age, pension, statePension)))
            && Lookup(people, KStr("partner"))
               == if couple then Some(Dict(PensionerRecord(year, partnerAge, partnerPension, 0))) else None
  {
    var people := PensionerPeople(year, pension, statePension, age, couple, partnerPension, partnerAge);
    LookupFound(people, 0, KStr("pensioner"));
    if couple {
      LookupFound(people, 1, KStr("partner"));
    } else {
      assert |people| == 1 && people[0].0 != KStr("partner");
      assert Lookup(people, KStr("partner")) == Lookup(people[1..], KStr("partner"));
    }
  }
}
