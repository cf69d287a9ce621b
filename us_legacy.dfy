/**
 * The legacy US situation builders for `policyengine_us.Simulation`
 * (`create_single_filer`, `create_married_couple`,
 * `create_family_with_children`), which two helper files define alike
 * with different `CURRENT_YEAR`s; here the year is a parameter.
 */
module UsLegacy {
  import opened PyValues
  import opened Households

  /** `{"members": members, "state_name": {CURRENT_YEAR: state}}`, the base of a household. */
  function StateHousehold(year: int, members: seq<string>, state: string): Entries
  {
    [(KStr("members"), Names(members)), (KStr("state_name"), Yearly(year, Str(state)))]
  }

  /** The base household holds the members and the state. */
  lemma StateHouseholdFields(year: int, members: seq<string>, state: string)
    ensures Lookup(StateHousehold(year, members, state), KStr("members")) == Some(Names(members))
    ensures Lookup(StateHousehold(year, members, state), KStr("state_name")) == Some(Yearly(year, Str(state)))
  {
    LookupFound(StateHousehold(year, members, state), 1, KStr("state_name"));
  }

  /**
   * With `household_attrs.update({k: {year: v} ...})`, a household
   * attribute is the keyword argument of that name when there is one, else
   * the base household's.
   */
  lemma StateHouseholdAttr(year: int, people: Entries, members: seq<string>, maritalMembers: seq<string>, state: string,
                           kwargs: Entries, a: string)
    requires UniqueKeys(kwargs)
    ensures Attr(UsSituation(people, members, maritalMembers, Update(StateHousehold(year, members, state), YearlyAll(year, kwargs))),
                 "households", "household", a)
            == (match Lookup(kwargs, KStr(a))
                case Some(v) => Some(Yearly(year, v))
                case None => Lookup(StateHousehold(year, members, state), KStr(a)))
  {
    UsHouseholdAttr(people, members, maritalMembers, Update(StateHousehold(year, members, state), YearlyAll(year, kwargs)), a);
    KwargsOverride(year, StateHousehold(year, members, state), kwargs, KStr(a));
  }

  /** `["person"]` */
  function PersonMembers(): seq<string>
  {
    ["person"]
  }

  const SINGLE_FILER_PARAMS: set<string> := {"income", "state", "age"}

  /** `create_single_filer`: the keyword arguments are attributes of the person. */
  function SingleFiler(year: int, income: int, state: string, age: int, kwargs: Entries): Value
    requires IsKwargs(kwargs, SINGLE_FILER_PARAMS)
  {
    var person := Update(AgeIncome(year, age, income), YearlyAll(year, kwargs));
    UsSituation([(KStr("person"), Dict(person))], PersonMembers(), PersonMembers(), StateHousehold(year, PersonMembers(), state))
  }

  /** A single filer is the only person and the only member of every unit, the household included, in `state`. */
  lemma SingleFilerUnits(year: int, income: int, state: string, age: int, kwargs: Entries, id: string)
    requires IsKwargs(kwargs, SINGLE_FILER_PARAMS)
    ensures Attr(SingleFiler(year, income, state, age, kwargs), "families", "family", "members") == Some(Names(PersonMembers()))
    ensures Attr(SingleFiler(year, income, state, age, kwargs), "marital_units", "marital_unit", "members") == Some(Names(PersonMembers()))
    ensures Attr(SingleFiler(year, income, state, age, kwargs), "tax_units", "tax_unit", "members") == Some(Names(PersonMembers()))
    ensures Attr(SingleFiler(year, income, state, age, kwargs), "spm_units", "spm_unit", "members") == Some(Names(PersonMembers()))
    ensures Attr(SingleFiler(year, income, state, age, kwargs), "households", "household", "members") == Some(Names(PersonMembers()))
    ensures Entity(SingleFiler(year, income, state, age, kwargs), "people", id).Some? <==> id == "person"
    ensures Attr(SingleFiler(year, income, state, age, kwargs), "households", "household", "state_name")
         == Some(Yearly(year, Str(state)))
  {
    var person := Update(AgeIncome(year, age, income), YearlyAll(year, kwargs));
    var s := SingleFiler(year, income, state, age, kwargs);
    var people := [(KStr("person"), Dict(person))];
    assert s == UsSituation(people, PersonMembers(), PersonMembers(), StateHousehold(year, PersonMembers(), state));
    UsSituationLayout(s, people, PersonMembers(), PersonMembers(), StateHousehold(year, PersonMembers(), state));
    SingleFilerOnly(s, person, id);
    StateHouseholdFields(year, PersonMembers(), state);
  }

  /** A situation whose only person is `person` holds no one else. */
  lemma SingleFilerOnly(s: Value, person: Entries, id: string)
    requires forall p :: Entity(s, "people", p) == Lookup([(KStr("person"), Dict(person))], KStr(p))
    ensures Entity(s, "people", id).Some? <==> id == "person"
  {
    var people := [(KStr("person"), Dict(person))];
    if id == "person" {
      assert Entity(s, "people", id) == Lookup(people, KStr(id));
    } else {
      assert Entity(s, "people", id) == Lookup(people, KStr(id));
      assert Lookup(people, KStr(id)) == Lookup(people[1..], KStr(id));
    }
  }

  /**
   * The filer's age is the one given (it cannot be a keyword argument); a
   * keyword argument `k=v` sets `{year: v}` on the person, overriding
   * `employment_income` too.
   */
  lemma SingleFilerPerson(year: int, income: int, state: string, age: int, kwargs: Entries, a: string)
    requires IsKwargs(kwargs, SINGLE_FILER_PARAMS)
    ensures Attr(SingleFiler(year, income, state, age, kwargs), "people", "person", "age") == Some(Yearly(year, Int(age)))
    ensures Attr(SingleFiler(year, income, state, age, kwargs), "people", "person", a)
         == match Lookup(kwargs, KStr(a))
            case Some(v) => Some(Yearly(year, v))
            case None => Lookup(AgeIncome(year, age, income), KStr(a))
  {
    var person := Update(AgeIncome(year, age, income), YearlyAll(year, kwargs));
    var people := [(KStr("person"), Dict(person))];
    var s := SingleFiler(year, income, state, age, kwargs);
    UsSituationLayout(s, people, PersonMembers(), PersonMembers(), StateHousehold(year, PersonMembers(), state));
    PersonAttr(people, 0, a);
    PersonAttr(people, 0, "age");
    assert Attr(s, "people", "person", a) == Lookup(person, KStr(a));
    assert Attr(s, "people", "person", "age") == Lookup(person, KStr("age"));
    KwargsOverride(year, AgeIncome(year, age, income), kwargs, KStr(a));
    KwargsOverride(year, AgeIncome(year, age, income), kwargs, KStr("age"));
    KwargsNotParam(kwargs, SINGLE_FILER_PARAMS, "age");
  }

  const MARRIED_COUPLE_PARAMS: set<string> := {"income_1", "income_2", "state", "age_1", "age_2"}

  function CoupleMembers(): seq<string>
  {
    ["spouse_1", "spouse_2"]
  }

  /** `create_married_couple`: the keyword arguments are attributes of the household. */
  function MarriedCouple(year: int, income1: int, income2: int, state: string, age1: int, age2: int, kwargs: Entries): Value
    requires IsKwargs(kwargs, MARRIED_COUPLE_PARAMS)
  {
    var people := [(KStr("spouse_1"), Dict(AgeIncome(year, age1, income1))),
                   (KStr("spouse_2"), Dict(AgeIncome(year, age2, income2)))];
    var household := Update(StateHousehold(year, CoupleMembers(), state), YearlyAll(year, kwargs));
    UsSituation(people, CoupleMembers(), CoupleMembers(), household)
  }

  /**
   * Both spouses are members of every unit, each with the age and income
   * given, and a household attribute is the keyword argument of that name
   * when there is one (even `members` or `state_name`), else its base value:
   * the household holds both spouses and is in `state` unless a keyword
   * argument overrides `members` or `state_name`.
   */
  lemma MarriedCoupleFacts(year: int, income1: int, income2: int, state: string, age1: int, age2: int,
                           kwargs: Entries, a: string)
    requires IsKwargs(kwargs, MARRIED_COUPLE_PARAMS)
    ensures var s := MarriedCouple(year, income1, income2, state, age1, age2, kwargs);
            && Attr(s, "families", "family", "members") == Some(Names(CoupleMembers()))
            && Attr(s, "marital_units", "marital_unit", "members") == Some(Names(CoupleMembers()))
            && Attr(s, "tax_units", "tax_unit", "members") == Some(Names(CoupleMembers()))
            && Attr(s, "spm_units", "spm_unit", "members") == Some(Names(CoupleMembers()))
            && Entity(s, "people", "spouse_1") == Some(Dict(AgeIncome(year, age1, income1)))
            && Entity(s, "people", "spouse_2") == Some(Dict(AgeIncome(year, age2, income2)))
            && Attr(s, "households", "household", a)
               == (match Lookup(kwargs, KStr(a))
                   case Some(v) => Some(Yearly(year, v))
                   case None => Lookup(StateHousehold(year, CoupleMembers(), state), KStr(a)))
            && (Lookup(kwargs, KStr("members")).None? ==>
                  Attr(s, "households", "household", "members") == Some(Names(CoupleMembers())))
            && (Lookup(kwargs, KStr("state_name")).None? ==>
                  Attr(s, "households", "household", "state_name") == Some(Yearly(year, Str(state))))
  {
    MarriedCoupleUnits(year, income1, income2, state, age1, age2, kwargs);
    MarriedCoupleHousehold(year, income1, income2, state, age1, age2, kwargs, a);
    MarriedCoupleHousehold(year, income1, income2, state, age1, age2, kwargs, "members");
    MarriedCoupleHousehold(year, income1, income2, state, age1, age2, kwargs, "state_name");
    StateHouseholdFields(year, CoupleMembers(), state);
  }

  /** The units and the two spouses of a married couple. */
  lemma MarriedCoupleUnits(year: int, income1: int, income2: int, state: string, age1: int, age2: int, kwargs: Entries)
    requires IsKwargs(kwargs, MARRIED_COUPLE_PARAMS)
    ensures var s := MarriedCouple(year, income1, income2, state, age1, age2, kwargs);
            && Attr(s, "families", "family", "members") == Some(Names(CoupleMembers()))
            && Attr(s, "marital_units", "marital_unit", "members") == Some(Names(CoupleMembers()))
            && Attr(s, "tax_units", "tax_unit", "members") == Some(Names(CoupleMembers()))
            && Attr(s, "spm_units", "spm_unit", "members") == Some(Names(CoupleMembers()))
            && Entity(s, "people", "spouse_1") == Some(Dict(AgeIncome(year, age1, income1)))
            && Entity(s, "people", "spouse_2") == Some(Dict(AgeIncome(year, age2, income2)))
  {
    var people := [(KStr("spouse_1"), Dict(AgeIncome(year, age1, income1))),
                   (KStr("spouse_2"), Dict(AgeIncome(year, age2, income2)))];
    var household := Update(StateHousehold(year, CoupleMembers(), state), YearlyAll(year, kwargs));
    var s := MarriedCouple(year, income1, income2, state, age1, age2, kwargs);
    UsSituationLayout(s, people, CoupleMembers(), CoupleMembers(), household);
    LookupFound(people, 1, KStr("spouse_2"));
  }

  /** A married couple's household attribute: the keyword argument's, else the base value. */
  lemma MarriedCoupleHousehold(year: int, income1: int, income2: int, state: string, age1: int, age2: int,
                               kwargs: Entries, a: string)
    requires IsKwargs(kwargs, MARRIED_COUPLE_PARAMS)
    ensures Attr(MarriedCouple(year, income1, income2, state, age1, age2, kwargs), "households", "household", a)
            == (match Lookup(kwargs, KStr(a))
                case Some(v) => Some(Yearly(year, v))
                case None => Lookup(StateHousehold(year, CoupleMembers(), state), KStr(a)))
  {
    var people := [(KStr("spouse_1"), Dict(AgeIncome(year, age1, income1))),
                   (KStr("spouse_2"), Dict(AgeIncome(year, age2, income2)))];
    StateHouseholdAttr(year, people, CoupleMembers(), CoupleMembers(), state, kwargs, a);
  }

  const FAMILY_PARAMS: set<string> :=
    {"parent_income", "num_children", "child_ages", "state", "parent_age", "married", "spouse_income"}

  /** The parent, and the spouse (with the parent's age) exactly when married. */
  function FamilyAdults(year: int, parentIncome: int, parentAge: int, married: bool, spouseIncome: int)
    : ((string, Entries), Option<(string, Entries)>)
  {
    (("parent", AgeIncome(year, parentAge, parentIncome)),
     if married then Some(("spouse", AgeIncome(year, parentAge, spouseIncome))) else None)
  }

  /** The family `create_family_with_children` builds once the children's ages are known. */
  function FamilySituation(year: int, parentIncome: int, ages: seq<int>, state: string,
                           parentAge: int, married: bool, spouseIncome: int, kwargs: Entries): Value
  {
    var (parent, second) := FamilyAdults(year, parentIncome, parentAge, married, spouseIncome);
    var members := AdultIds(parent, second) + ChildIds(|ages|);
    var household := Update(StateHousehold(year, members, state), YearlyAll(year, kwargs));
    UsSituation(AdultEntries(parent, second) + ChildEntries(year, ages), members,
                if married then members else ["parent"], household)
  }

  /** `create_family_with_children`, as the situation it returns or the ValueError it raises. */
  function FamilySpec(year: int, parentIncome: int, numChildren: int, childAges: Option<seq<int>>, state: string,
                      parentAge: int, married: bool, spouseIncome: int, kwargs: Entries): Result<Value, Error>
  {
    var ages :- ResolveChildAges(numChildren, childAges);
    Success(FamilySituation(year, parentIncome, ages, state, parentAge, married, spouseIncome, kwargs))
  }

  /** `create_family_with_children`: the people and members are built by the loop over the children. */
  method FamilyWithChildren(year: int, parentIncome: int, numChildren: int, childAges: Option<seq<int>>, state: string,
                            parentAge: int, married: bool, spouseIncome: int, kwargs: Entries)
    returns (r: Result<Value, Error>)
    requires IsKwargs(kwargs, FAMILY_PARAMS)
    ensures r == FamilySpec(year, parentIncome, numChildren, childAges, state, parentAge, married, spouseIncome, kwargs)
  {
    var resolved := ResolveChildAges(numChildren, childAges);
    if resolved.Failure? {
      return Failure(resolved.error);
    }
    var adults := FamilyAdults(year, parentIncome, parentAge, married, spouseIncome);
    var people, members := BuildFamily(year, adults.0, adults.1, resolved.value);
    var household := Update(StateHousehold(year, members, state), YearlyAll(year, kwargs));
    var maritalMembers := if married then members else ["parent"];
    r := Success(UsSituation(people, members, maritalMembers, household));
  }

  /**
   * A family fails exactly when `child_ages` does not match `num_children`;
   * otherwise its members are the parent, the spouse exactly when married,
   * and `child_1`, `child_2`, ... one per age, in every unit except the
   * marital unit, which holds only the parent when unmarried; the spouse
   * has the parent's age; child i has age `ages[i]` and no child follows
   * the last one, and a household attribute is the keyword argument of
   * that name when there is one, else its base value: the household holds
   * the same members and is in `state` unless a keyword argument overrides
   * `members` or `state_name`.
   */
  lemma FamilyFacts(year: int, parentIncome: int, numChildren: int, childAges: Option<seq<int>>, state: string,
                    parentAge: int, married: bool, spouseIncome: int, kwargs: Entries, a: string, i: nat)
    requires IsKwargs(kwargs, FAMILY_PARAMS)
    ensures var r := FamilySpec(year, parentIncome, numChildren, childAges, state, parentAge, married, spouseIncome, kwargs);
            r.Failure? <==> childAges.Some? && |childAges.value| != numChildren
    ensures var r := FamilySpec(year, parentIncome, numChildren, childAges, state, parentAge, married, spouseIncome, kwargs);
            r.Success? ==>
              var ages := ResolveChildAges(numChildren, childAges).value;
              var members := ["parent"] + (if married then ["spouse"] else []) + ChildIds(|ages|);
              && Attr(r.value, "families", "family", "members") == Some(Names(members))
              && Attr(r.value, "tax_units", "tax_unit", "members") == Some(Names(members))
              && Attr(r.value, "spm_units", "spm_unit", "members") == Some(Names(members))
              && Attr(r.value, "marital_units", "marital_unit", "members") == Some(Names(if married then members else ["parent"]))
              && Entity(r.value, "people", "parent") == Some(Dict(AgeIncome(year, parentAge, parentIncome)))
              && Entity(r.value, "people", "spouse")
                 == (if married then Some(Dict(AgeIncome(year, parentAge, spouseIncome))) else None)
              && (i < |ages| ==> Entity(r.value, "people", ChildId(i)) == Some(ChildRecord(year, ages[i])))
              && (i >= |ages| ==> Entity(r.value, "people", ChildId(i)) == None)
              && Attr(r.value, "households", "household", a)
                 == (match Lookup(kwargs, KStr(a))
                     case Some(v) => Some(Yearly(year, v))
                     case None => Lookup(StateHousehold(year, members, state), KStr(a)))
              && (Lookup(kwargs, KStr("members")).None? ==>
                    Attr(r.value, "households", "household", "members") == Some(Names(members)))
              && (Lookup(kwargs, KStr("state_name")).None? ==>
                    Attr(r.value, "households", "household", "state_name") == Some(Yearly(year, Str(state))))
  {
    var r := FamilySpec(year, parentIncome, numChildren, childAges, state, parentAge, married, spouseIncome, kwargs);
    if r.Success? {
      var ages := ResolveChildAges(numChildren, childAges).value;
      assert r.value == FamilySituation(year, parentIncome, ages, state, parentAge, married, spouseIncome, kwargs);
      FamilyUnits(year, parentIncome, ages, state, parentAge, married, spouseIncome, kwargs);
      FamilyHousehold(year, parentIncome, ages, state, parentAge, married, spouseIncome, kwargs, a);
      FamilyHousehold(year, parentIncome, ages, state, parentAge, married, spouseIncome, kwargs, "members");
      FamilyHousehold(year, parentIncome, ages, state, parentAge, married, spouseIncome, kwargs, "state_name");
      StateHouseholdFields(year, ["parent"] + (if married then ["spouse"] else []) + ChildIds(|ages|), state);
      FamilyPeople(year, parentIncome, ages, state, parentAge, married, spouseIncome, kwargs, i);
      if i < |ages| {
        FamilyChild(year, parentIncome, ages, state, parentAge, married, spouseIncome, kwargs, i);
      }
    }
  }

  /** The units of a family. */
  lemma FamilyUnits(year: int, parentIncome: int, ages: seq<int>, state: string,
                    parentAge: int, married: bool, spouseIncome: int, kwargs: Entries)
    ensures var s := FamilySituation(year, parentIncome, ages, state, parentAge, married, spouseIncome, kwargs);
            var members := ["parent"] + (if married then ["spouse"] else []) + ChildIds(|ages|);
            && Attr(s, "families", "family", "members") == Some(Names(members))
            && Attr(s, "tax_units", "tax_unit", "members") == Some(Names(members))
            && Attr(s, "spm_units", "spm_unit", "members") == Some(Names(members))
            && Attr(s, "marital_units", "marital_unit", "members") == Some(Names(if married then members else ["parent"]))
  {
    var s := FamilySituation(year, parentIncome, ages, state, parentAge, married, spouseIncome, kwargs);
    var (parent, second) := FamilyAdults(year, parentIncome, parentAge, married, spouseIncome);
    var members := AdultIds(parent, second) + ChildIds(|ages|);
    var people := AdultEntries(parent, second) + ChildEntries(year, ages);
    var household := Update(StateHousehold(year, members, state), YearlyAll(year, kwargs));
    FamilyMembers(year, parentIncome, parentAge, married, spouseIncome, |ages|);
    UsSituationLayout(s, people, members, if married then members else ["parent"], household);
  }

  /** A family's household attribute: the keyword argument's, else the base value. */
  lemma FamilyHousehold(year: int, parentIncome: int, ages: seq<int>, state: string,
                        parentAge: int, married: bool, spouseIncome: int, kwargs: Entries, a: string)
    requires UniqueKeys(kwargs)
    ensures Attr(FamilySituation(year, parentIncome, ages, state, parentAge, married, spouseIncome, kwargs),
                 "households", "household", a)
            == (match Lookup(kwargs, KStr(a))
                case Some(v) => Some(Yearly(year, v))
                case None =>
                  Lookup(StateHousehold(year, ["parent"] + (if married then ["spouse"] else []) + ChildIds(|ages|), state), KStr(a)))
  {
    var (parent, second) := FamilyAdults(year, parentIncome, parentAge, married, spouseIncome);
    var members := AdultIds(parent, second) + ChildIds(|ages|);
    FamilyMembers(year, parentIncome, parentAge, married, spouseIncome, |ages|);
    StateHouseholdAttr(year, AdultEntries(parent, second) + ChildEntries(year, ages), members,
                       if married then members else ["parent"], state, kwargs, a);
  }

  /** The members are the parent, the spouse exactly when married, then the children. */
  lemma FamilyMembers(year: int, parentIncome: int, parentAge: int, married: bool, spouseIncome: int, n: nat)
    ensures var (parent, second) := FamilyAdults(year, parentIncome, parentAge, married, spouseIncome);
            AdultIds(parent, second) + ChildIds(n) == ["parent"] + (if married then ["spouse"] else []) + ChildIds(n)
  {
  }

  /**
   * The parent has the parent's age and income, the spouse exists exactly
   * when married and has the parent's age and the spouse's income, and there
   * is no child beyond the last age.
   */
  lemma FamilyPeople(year: int, parentIncome: int, ages: seq<int>, state: string,
                     parentAge: int, married: bool, spouseIncome: int, kwargs: Entries, i: nat)
    ensures var s := FamilySituation(year, parentIncome, ages, state, parentAge, married, spouseIncome, kwargs);
            && Entity(s, "people", "parent") == Some(Dict(AgeIncome(year, parentAge, parentIncome)))
            && Entity(s, "people", "spouse") == (if married then Some(Dict(AgeIncome(year, parentAge, spouseIncome))) else None)
            && (i >= |ages| ==> Entity(s, "people", ChildId(i)) == None)
  {
    var s := FamilySituation(year, parentIncome, ages, state, parentAge, married, spouseIncome, kwargs);
    var (parent, second) := FamilyAdults(year, parentIncome, parentAge, married, spouseIncome);
    var members := AdultIds(parent, second) + ChildIds(|ages|);
    var people := AdultEntries(parent, second) + ChildEntries(year, ages);
    var household := Update(StateHousehold(year, members, state), YearlyAll(year, kwargs));
    UsSituationLayout(s, people, members, if married then members else ["parent"], household);
    FamilyEntities(s, year, parent, second, ages, "spouse", i);
  }

  /** Child i of a family has the age given for it. */
  lemma FamilyChild(year: int, parentIncome: int, ages: seq<int>, state: string,
                    parentAge: int, married: bool, spouseIncome: int, kwargs: Entries, i: nat)
    requires i < |ages|
    ensures Entity(FamilySituation(year, parentIncome, ages, state, parentAge, married, spouseIncome, kwargs), "people", ChildId(i))
            == Some(ChildRecord(year, ages[i]))
  {
    var s := FamilySituation(year, parentIncome, ages, state, parentAge, married, spouseIncome, kwargs);
    var (parent, second) := FamilyAdults(year, parentIncome, parentAge, married, spouseIncome);
    var members := AdultIds(parent, second) + ChildIds(|ages|);
    var people := AdultEntries(parent, second) + ChildEntries(year, ages);
    var household := Update(StateHousehold(year, members, state), YearlyAll(year, kwargs));
    UsSituationLayout(s, people, members, if married then members else ["parent"], household);
    ChildFound(year, parent, second, ages, i);
  }
}
