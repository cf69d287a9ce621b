/**
 * skills/domain-knowledge/policyengine-uk-skill/scripts/situation_helpers.py
 * (`CURRENT_YEAR = 2026`): the arguments of `UKHouseholdInput` for the new
 * API, and the legacy situation builders and editors at this file's year.
 */
module UkDomainHelpers {
  import opened PyValues
  import opened Households
  import opened Situations
  import UkRegions
  import UkLegacy

  const CURRENT_YEAR := 2026

  // ---------------------------------------------------------------------
  // create_uk_household_input

  /** `rent > 0`: an int compares, a bool counts as 0 or 1, anything else raises a TypeError. */
  function GreaterThanZero(v: Value): Result<bool, Error>
  {
    match v
    case Int(n) => Success(n > 0)
    case Bool(b) => Success(b)
    case _ => Failure(TypeError)
  }

  /** `attrs.update(kwargs.get(key, {}))` */
  function UpdateFrom(attrs: Entries, kwargs: Entries, key: string): Result<Entries, Error>
  {
    if Rejected(kwargs, key) then Failure(TypeError) else Success(Update(attrs, Extra(kwargs, key)))
  }

  /** `{"region": region}`, with `"rent": rent` added exactly when the rent is positive. */
  function BaseHousehold(region: string, rent: Value, positive: bool): Entries
  {
    [(KStr("region"), Str(region))] + if positive then [(KStr("rent"), rent)] else []
  }

  /** `create_uk_household_input`, as the dict it returns or the exception it raises. */
  function CreateUkHouseholdInput(people: Value, year: int, region: string, rent: Value, wouldClaimUc: Value,
                                  kwargs: Entries): Result<Entries, Error>
  {
    match UkRegions.CheckRegion(region)
    case Some(e) => Failure(e)
    case None => HouseholdInputFields(people, year, region, rent, wouldClaimUc, kwargs)
  }

  /** What `create_uk_household_input` does once the region is checked. */
  function HouseholdInputFields(people: Value, year: int, region: string, rent: Value, wouldClaimUc: Value,
                                kwargs: Entries): Result<Entries, Error>
  {
    var positive :- GreaterThanZero(rent);
    var household :- UpdateFrom(BaseHousehold(region, rent, positive), kwargs, "household");
    var benunit :- UpdateFrom([(KStr("would_claim_uc"), wouldClaimUc)], kwargs, "benunit");
    Success([(KStr("people"), people), (KStr("year"), Int(year)),
             (KStr("household"), Dict(household)), (KStr("benunit"), Dict(benunit))])
  }

  /**
   * The input fails exactly for a region not in the list (a ValueError
   * naming the regions, checked first), a rent that cannot be compared with
   * 0, or a `household` or `benunit` keyword argument that is not a dict
   * (TypeErrors).  Otherwise it has exactly the keys `people`, `year`,
   * `household` and `benunit`, so no other keyword argument reaches it; the
   * household is the region, plus the rent exactly when it is positive,
   * updated with `kwargs["household"]`, and BaseHouseholdFields says what
   * that base holds; the benefit unit is `would_claim_uc` updated with
   * `kwargs["benunit"]`.
   */
  lemma HouseholdInputFacts(people: Value, year: int, region: string, rent: Value, wouldClaimUc: Value, kwargs: Entries)
    ensures var r := CreateUkHouseholdInput(people, year, region, rent, wouldClaimUc, kwargs);
            && (r.Failure? <==> region !in UkRegions.VALID_REGIONS || GreaterThanZero(rent).Failure?
                                || Rejected(kwargs, "household") || Rejected(kwargs, "benunit"))
            && (region !in UkRegions.VALID_REGIONS ==> r == Failure(ValueError(UkRegions.RegionMessage())))
            && (region in UkRegions.VALID_REGIONS && r.Failure? ==> r.error == TypeError)
            && (r.Success? ==>
                  && Keys(r.value) == [KStr("people"), KStr("year"), KStr("household"), KStr("benunit")]
                  && Lookup(r.value, KStr("people")) == Some(people)
                  && Lookup(r.value, KStr("year")) == Some(Int(year))
                  && Lookup(r.value, KStr("household"))
                     == Some(Dict(Update(BaseHousehold(region, rent, GreaterThanZero(rent).value), Extra(kwargs, "household"))))
                  && Lookup(r.value, KStr("benunit"))
                     == Some(Dict(Update([(KStr("would_claim_uc"), wouldClaimUc)], Extra(kwargs, "benunit")))))
  {
    if region in UkRegions.VALID_REGIONS {
      HouseholdFieldsFacts(people, year, region, rent, wouldClaimUc, kwargs);
    }
  }

  /** Past the region check: the TypeErrors, and the four fields. */
  lemma HouseholdFieldsFacts(people: Value, year: int, region: string, rent: Value, wouldClaimUc: Value, kwargs: Entries)
    ensures var r := HouseholdInputFields(people, year, region, rent, wouldClaimUc, kwargs);
            && (r.Failure? <==> GreaterThanZero(rent).Failure? || Rejected(kwargs, "household") || Rejected(kwargs, "benunit"))
            && (r.Failure? ==> r.error == TypeError)
            && (r.Success? ==>
                  && Keys(r.value) == [KStr("people"), KStr("year"), KStr("household"), KStr("benunit")]
                  && Lookup(r.value, KStr("people")) == Some(people)
                  && Lookup(r.value, KStr("year")) == Some(Int(year))
                  && Lookup(r.value, KStr("household"))
                     == Some(Dict(Update(BaseHousehold(region, rent, GreaterThanZero(rent).value), Extra(kwargs, "household"))))
                  && Lookup(r.value, KStr("benunit"))
                     == Some(Dict(Update([(KStr("would_claim_uc"), wouldClaimUc)], Extra(kwargs, "benunit")))))
  {
    var r := HouseholdInputFields(people, year, region, rent, wouldClaimUc, kwargs);
    if r.Success? {
      LookupFound(r.value, 1, KStr("year"));
      LookupFound(r.value, 2, KStr("household"));
      LookupFound(r.value, 3, KStr("benunit"));
    }
  }

  /** The base household holds the region, and the rent exactly when it is positive. */
  lemma BaseHouseholdFields(region: string, rent: Value, positive: bool)
    ensures Lookup(BaseHousehold(region, rent, positive), KStr("region")) == Some(Str(region))
    ensures Lookup(BaseHousehold(region, rent, positive), KStr("rent")) == if positive then Some(rent) else None
    ensures Keys(BaseHousehold(region, rent, positive)) == [KStr("region")] + if positive then [KStr("rent")] else []
  {
    var b := BaseHousehold(region, rent, positive);
    if positive {
      LookupFound(b, 1, KStr("rent"));
    } else {
      LookupFinds(b, KStr("rent"));
    }
  }

  // ---------------------------------------------------------------------
  // The *_input builders

  /** `{"age": age, "employment_income": income}` */
  function AdultPerson(age: int, income: int): Entries
  {
    [(KStr("age"), Int(age)), (KStr("employment_income"), Int(income))]
  }

  const SINGLE_PERSON_INPUT_PARAMS: set<string> := {"income", "region", "age", "year"}

  /** `create_single_person_input`: the keyword arguments are fields of the person and are not forwarded. */
  function CreateSinglePersonInput(income: int, region: string, age: int, year: int, kwargs: Entries): Result<Entries, Error>
    requires IsKwargs(kwargs, SINGLE_PERSON_INPUT_PARAMS)
  {
    CreateUkHouseholdInput(List([Dict(Update(AdultPerson(age, income), kwargs))]), year, region, Int(0), Bool(true), [])
  }

  /**
   * A single person's input fails exactly for an invalid region; otherwise
   * it holds the one person, whose fields are the keyword arguments over
   * `age` (which cannot be one) and `employment_income`, a household with
   * only the region (no rent), and a benefit unit that would claim
   * Universal Credit.
   */
  lemma SinglePersonInputFacts(income: int, region: string, age: int, year: int, kwargs: Entries, a: string)
    requires IsKwargs(kwargs, SINGLE_PERSON_INPUT_PARAMS)
    ensures var r := CreateSinglePersonInput(income, region, age, year, kwargs);
            var person := Update(AdultPerson(age, income), kwargs);
            && (r.Failure? <==> region !in UkRegions.VALID_REGIONS)
            && (r.Success? ==>
                  && Lookup(r.value, KStr("people")) == Some(List([Dict(person)]))
                  && Lookup(r.value, KStr("household")) == Some(Dict([(KStr("region"), Str(region))]))
                  && Lookup(r.value, KStr("benunit")) == Some(Dict([(KStr("would_claim_uc"), Bool(true))])))
            && Lookup(person, KStr("age")) == Some(Int(age))
            && Lookup(person, KStr(a)) == (match Lookup(kwargs, KStr(a)) case Some(v) => Some(v) case None => Lookup(AdultPerson(age, income), KStr(a)))
  {
    var person := Update(AdultPerson(age, income), kwargs);
    HouseholdInputFacts(List([Dict(person)]), year, region, Int(0), Bool(true), []);
    assert Extra([], "household") == [] && Extra([], "benunit") == [];
    assert GreaterThanZero(Int(0)) == Success(false);
    assert BaseHousehold(region, Int(0), false) == [(KStr("region"), Str(region))];
    LookupUpdate(AdultPerson(age, income), kwargs, KStr(a));
    LookupFinds(kwargs, KStr(a));
    LookupUpdate(AdultPerson(age, income), kwargs, KStr("age"));
    KwargsNotParam(kwargs, SINGLE_PERSON_INPUT_PARAMS, "age");
  }

  /** The parameters of `create_uk_household_input` that forwarded keyword arguments bind. */
  const BOUND_BY_FORWARDING: set<string> := {"rent", "would_claim_uc"}

  /** `d` without the string keys in `names`. */
  function Without(d: Entries, names: set<string>): Entries
  {
    if d == [] then []
    else (if d[0].0.KStr? && d[0].0.s in names then [] else [d[0]]) + Without(d[1..], names)
  }

  lemma {:induction false} LookupWithout(d: Entries, names: set<string>, k: string)
    ensures Lookup(Without(d, names), KStr(k)) == if k in names then None else Lookup(d, KStr(k))
  {
    if d != [] {
      LookupWithout(d[1..], names, k);
      var rest := Without(d[1..], names);
      if !(d[0].0.KStr? && d[0].0.s in names) {
        assert Without(d, names) == [d[0]] + rest;
        assert ([d[0]] + rest)[0] == d[0] && ([d[0]] + rest)[1..] == rest;
      } else {
        assert Without(d, names) == rest;
      }
    }
  }

  /** `kwargs.get(k, default)` */
  function GetOr(kwargs: Entries, k: string, default: Value): Value
  {
    match Lookup(kwargs, KStr(k))
    case Some(v) => v
    case None => default
  }

  /**
   * `create_uk_household_input(people=people, year=year, region=region,
   * **kwargs)`: a `people` keyword argument clashes (a TypeError, raised
   * before the callee runs); `rent` and `would_claim_uc` bind those
   * parameters; the rest is the callee's `kwargs`.
   */
  function Forward(people: Value, year: int, region: string, kwargs: Entries): Result<Entries, Error>
  {
    if Lookup(kwargs, KStr("people")).Some? then Failure(TypeError)
    else CreateUkHouseholdInput(people, year, region, GetOr(kwargs, "rent", Int(0)), GetOr(kwargs, "would_claim_uc", Bool(true)),
                                Without(kwargs, BOUND_BY_FORWARDING))
  }

  /**
   * Forwarding raises the TypeError of a `people` clash even for an invalid
   * region; otherwise it is the household input with the rent and the
   * Universal Credit flag taken from the keyword arguments (defaults 0 and
   * True), whose remaining keyword arguments act as all of them would.
   */
  lemma ForwardFacts(people: Value, year: int, region: string, kwargs: Entries)
    ensures Lookup(kwargs, KStr("people")).Some? ==> Forward(people, year, region, kwargs) == Failure(TypeError)
    ensures Lookup(kwargs, KStr("people")).None? ==>
              Forward(people, year, region, kwargs)
              == CreateUkHouseholdInput(people, year, region, GetOr(kwargs, "rent", Int(0)),
                                        GetOr(kwargs, "would_claim_uc", Bool(true)), kwargs)
  {
    LookupWithout(kwargs, BOUND_BY_FORWARDING, "household");
    LookupWithout(kwargs, BOUND_BY_FORWARDING, "benunit");
    HouseholdInputSameExtras(people, year, region, GetOr(kwargs, "rent", Int(0)), GetOr(kwargs, "would_claim_uc", Bool(true)),
                             Without(kwargs, BOUND_BY_FORWARDING), kwargs);
  }

  /** The household input reads its keyword arguments only at `household` and `benunit`. */
  lemma HouseholdInputSameExtras(people: Value, year: int, region: string, rent: Value, wouldClaimUc: Value,
                                 kw1: Entries, kw2: Entries)
    requires Lookup(kw1, KStr("household")) == Lookup(kw2, KStr("household"))
    requires Lookup(kw1, KStr("benunit")) == Lookup(kw2, KStr("benunit"))
    ensures CreateUkHouseholdInput(people, year, region, rent, wouldClaimUc, kw1)
            == CreateUkHouseholdInput(people, year, region, rent, wouldClaimUc, kw2)
  {
    assert HouseholdInputFields(people, year, region, rent, wouldClaimUc, kw1)
           == HouseholdInputFields(people, year, region, rent, wouldClaimUc, kw2) by {
      HouseholdFieldsSameExtras(people, year, region, rent, wouldClaimUc, kw1, kw2);
    }
  }

  lemma HouseholdFieldsSameExtras(people: Value, year: int, region: string, rent: Value, wouldClaimUc: Value,
                                  kw1: Entries, kw2: Entries)
    requires Lookup(kw1, KStr("household")) == Lookup(kw2, KStr("household"))
    requires Lookup(kw1, KStr("benunit")) == Lookup(kw2, KStr("benunit"))
    ensures HouseholdInputFields(people, year, region, rent, wouldClaimUc, kw1)
            == HouseholdInputFields(people, year, region, rent, wouldClaimUc, kw2)
  {
    var positive := GreaterThanZero(rent);
    if positive.Success? {
      var base := BaseHousehold(region, rent, positive.value);
      assert UpdateFrom(base, kw1, "household") == UpdateFrom(base, kw2, "household");
    }
    var uc := [(KStr("would_claim_uc"), wouldClaimUc)];
    assert UpdateFrom(uc, kw1, "benunit") == UpdateFrom(uc, kw2, "benunit");
  }

  const COUPLE_INPUT_PARAMS: set<string> := {"income_1", "income_2", "region", "age_1", "age_2", "year"}

  /** The two adults of `create_couple_input`. */
  function CouplePeople(income1: int, income2: int, age1: int, age2: int): Value
  {
    List([Dict(AdultPerson(age1, income1)), Dict(AdultPerson(age2, income2))])
  }

  /** `create_couple_input`: the keyword arguments are forwarded. */
  function CreateCoupleInput(income1: int, income2: int, region: string, age1: int, age2: int, year: int,
                             kwargs: Entries): Result<Entries, Error>
    requires IsKwargs(kwargs, COUPLE_INPUT_PARAMS)
  {
    Forward(CouplePeople(income1, income2, age1, age2), year, region, kwargs)
  }

  /**
   * A couple's input: a `people` keyword argument is a TypeError; else an
   * invalid region is the region ValueError; on success the people are the
   * two adults and the benefit unit's `would_claim_uc` is the keyword
   * argument of that name (default True) updated with `kwargs["benunit"]`.
   */
  lemma CoupleInputFacts(income1: int, income2: int, region: string, age1: int, age2: int, year: int, kwargs: Entries)
    requires IsKwargs(kwargs, COUPLE_INPUT_PARAMS)
    ensures var r := CreateCoupleInput(income1, income2, region, age1, age2, year, kwargs);
            && (Lookup(kwargs, KStr("people")).Some? ==> r == Failure(TypeError))
            && (Lookup(kwargs, KStr("people")).None? && region !in UkRegions.VALID_REGIONS ==>
                  r == Failure(ValueError(UkRegions.RegionMessage())))
            && (r.Success? ==>
                  && Lookup(r.value, KStr("people")) == Some(CouplePeople(income1, income2, age1, age2))
                  && Lookup(r.value, KStr("benunit"))
                     == Some(Dict(Update([(KStr("would_claim_uc"), GetOr(kwargs, "would_claim_uc", Bool(true)))],
                                         Extra(kwargs, "benunit")))))
  {
    var people := CouplePeople(income1, income2, age1, age2);
    ForwardFacts(people, year, region, kwargs);
    HouseholdInputFacts(people, year, region, GetOr(kwargs, "rent", Int(0)), GetOr(kwargs, "would_claim_uc", Bool(true)), kwargs);
  }

  const FAMILY_INPUT_PARAMS: set<string> :=
    {"parent_income", "num_children", "child_ages", "region", "parent_age", "couple", "partner_income", "year"}

  /** The parent, then the partner (with the parent's age) exactly in a couple. */
  function FamilyInputAdults(parentIncome: int, parentAge: int, couple: bool, partnerIncome: int): seq<Value>
  {
    [Dict(AdultPerson(parentAge, parentIncome))] + if couple then [Dict(AdultPerson(parentAge, partnerIncome))] else []
  }

  /** `{"age": age}` */
  function ChildPerson(age: int): Value
  {
    Dict([(KStr("age"), Int(age))])
  }

  /** `create_family_input`, as the arguments it returns or the exception it raises. */
  function FamilyInputSpec(parentIncome: int, numChildren: int, childAges: Option<seq<int>>, region: string,
                           parentAge: int, couple: bool, partnerIncome: int, year: int, kwargs: Entries)
    : Result<Entries, Error>
  {
    var ages :- ResolveChildAges(numChildren, childAges);
    Forward(List(FamilyInputPeople(parentIncome, parentAge, couple, partnerIncome, ages)), year, region, kwargs)
  }

  /** `create_family_input`: the people are built by the loop over the child ages; the region is checked by the callee. */
  method CreateFamilyInput(parentIncome: int, numChildren: int, childAges: Option<seq<int>>, region: string,
                           parentAge: int, couple: bool, partnerIncome: int, year: int, kwargs: Entries)
    returns (r: Result<Entries, Error>)
    requires IsKwargs(kwargs, FAMILY_INPUT_PARAMS)
    ensures r == FamilyInputSpec(parentIncome, numChildren, childAges, region, parentAge, couple, partnerIncome, year, kwargs)
  {
    var resolved := ResolveChildAges(numChildren, childAges);
    if resolved.Failure? {
      return Failure(resolved.error);
    }
    var ages := resolved.value;
    var people := [Dict(AdultPerson(parentAge, parentIncome))];
    if couple {
      people := people + [Dict(AdultPerson(parentAge, partnerIncome))];
    }
    ghost var adults := people;
    for i := 0 to |ages|
      invariant people == adults + seq(i, j requires 0 <= j < i => ChildPerson(ages[j]))
    {
      people := people + [ChildPerson(ages[i])];
    }
    assert people == FamilyInputPeople(parentIncome, parentAge, couple, partnerIncome, ages);
    r := Forward(List(people), year, region, kwargs);
  }

  /** The people of a family input, adults first, then one `{"age": a}` per child age. */
  function FamilyInputPeople(parentIncome: int, parentAge: int, couple: bool, partnerIncome: int, ages: seq<int>): seq<Value>
  {
    FamilyInputAdults(parentIncome, parentAge, couple, partnerIncome) + seq(|ages|, i requires 0 <= i < |ages| => ChildPerson(ages[i]))
  }

  /**
   * A family input checks `child_ages` first: a mismatch is the child-ages
   * ValueError whatever the region and the keyword arguments; with matching
   * ages it forwards the people built from them.
   */
  lemma FamilyInputOrder(parentIncome: int, numChildren: int, childAges: Option<seq<int>>, region: string,
                         parentAge: int, couple: bool, partnerIncome: int, year: int, kwargs: Entries)
    requires IsKwargs(kwargs, FAMILY_INPUT_PARAMS)
    ensures var r := FamilyInputSpec(parentIncome, numChildren, childAges, region, parentAge, couple, partnerIncome, year, kwargs);
            && (childAges.Some? && |childAges.value| != numChildren ==> r == Failure(ValueError(CHILD_AGES_MESSAGE)))
            && (ResolveChildAges(numChildren, childAges).Success? ==>
                  var people := FamilyInputPeople(parentIncome, parentAge, couple, partnerIncome,
                                                  ResolveChildAges(numChildren, childAges).value);
                  && (Lookup(kwargs, KStr("people")).Some? ==> r == Failure(TypeError))
                  && (Lookup(kwargs, KStr("people")).None? && region !in UkRegions.VALID_REGIONS ==>
                        r == Failure(ValueError(UkRegions.RegionMessage())))
                  && (r.Success? ==> Lookup(r.value, KStr("people")) == Some(List(people))))
  {
    var resolved := ResolveChildAges(numChildren, childAges);
    if resolved.Success? {
      var people := FamilyInputPeople(parentIncome, parentAge, couple, partnerIncome, resolved.value);
      ForwardFacts(List(people), year, region, kwargs);
      HouseholdInputFacts(List(people), year, region, GetOr(kwargs, "rent", Int(0)),
                          GetOr(kwargs, "would_claim_uc", Bool(true)), kwargs);
    }
  }

  /** The parent comes first, the partner second exactly in a couple, then child i at `adults + i`. */
  lemma FamilyInputPeopleOrder(parentIncome: int, parentAge: int, couple: bool, partnerIncome: int, ages: seq<int>, i: nat)
    ensures var people := FamilyInputPeople(parentIncome, parentAge, couple, partnerIncome, ages);
            var adults := if couple then 2 else 1;
            && |people| == adults + |ages|
            && people[0] == Dict(AdultPerson(parentAge, parentIncome))
            && (couple ==> people[1] == Dict(AdultPerson(parentAge, partnerIncome)))
            && (i < |ages| ==> people[adults + i] == ChildPerson(ages[i]))
  {
  }

  /**
   * The two family builders order their checks oppositely: with both an
   * invalid region and mismatched child ages, the new-API input reports the
   * child ages and the legacy builder reports the region.
   */
  lemma FamilyCheckOrder(parentIncome: int, numChildren: int, ages: seq<int>, region: string, parentAge: int,
                         couple: bool, partnerIncome: int, kwargs: Entries)
    requires IsKwargs(kwargs, FAMILY_INPUT_PARAMS) && IsKwargs(kwargs, UkLegacy.FAMILY_PARAMS)
    requires |ages| != numChildren && region !in UkRegions.VALID_REGIONS
    ensures FamilyInputSpec(parentIncome, numChildren, Some(ages), region, parentAge, couple, partnerIncome, CURRENT_YEAR, kwargs)
         == Failure(ValueError(CHILD_AGES_MESSAGE))
    ensures UkLegacy.FamilySpec(CURRENT_YEAR, parentIncome, numChildren, Some(ages), region, parentAge, couple, partnerIncome, kwargs)
         == Failure(ValueError(UkRegions.RegionMessage()))
    ensures CHILD_AGES_MESSAGE != UkRegions.RegionMessage()
  {
    UkLegacy.FamilyFacts(CURRENT_YEAR, parentIncome, numChildren, Some(ages), region, parentAge, couple, partnerIncome, kwargs, "region", 0);
    assert CHILD_AGES_MESSAGE[0] != UkRegions.RegionMessage()[0];
  }

  // ---------------------------------------------------------------------
  // Legacy situation builders at this file's year

  /** `create_single_person`: fails exactly for an invalid region; the age and region are for 2026. */
  function CreateSinglePerson(income: int, region: string, age: int, kwargs: Entries): (r: Result<Value, Error>)
    requires IsKwargs(kwargs, UkLegacy.SINGLE_PERSON_PARAMS)
    ensures r.Failure? <==> region !in UkRegions.VALID_REGIONS
    ensures r.Success? ==> Attr(r.value, "people", "person", "age") == Some(Yearly(CURRENT_YEAR, Int(age)))
    ensures r.Success? ==> Attr(r.value, "households", "household", "region") == Some(Yearly(CURRENT_YEAR, Str(region)))
  {
    UkLegacy.SinglePersonFacts(CURRENT_YEAR, income, region, age, kwargs, "age");
    UkLegacy.SinglePerson(CURRENT_YEAR, income, region, age, kwargs)
  }

  /** `create_couple`: fails exactly for an invalid region; both people's attributes are for 2026. */
  function CreateCouple(income1: int, income2: int, region: string, age1: int, age2: int, kwargs: Entries): (r: Result<Value, Error>)
    requires IsKwargs(kwargs, UkLegacy.COUPLE_PARAMS)
    ensures r.Failure? <==> region !in UkRegions.VALID_REGIONS
    ensures r.Success? ==> Entity(r.value, "people", "person_1") == Some(Dict(AgeIncome(CURRENT_YEAR, age1, income1)))
    ensures r.Success? ==> Entity(r.value, "people", "person_2") == Some(Dict(AgeIncome(CURRENT_YEAR, age2, income2)))
  {
    UkLegacy.CoupleFacts(CURRENT_YEAR, income1, income2, region, age1, age2, kwargs, "members");
    UkLegacy.Couple(CURRENT_YEAR, income1, income2, region, age1, age2, kwargs)
  }

  /** `create_family_with_children` at 2026. */
  method CreateFamilyWithChildren(parentIncome: int, numChildren: int, childAges: Option<seq<int>>, region: string,
                                  parentAge: int, couple: bool, partnerIncome: int, kwargs: Entries)
    returns (r: Result<Value, Error>)
    requires IsKwargs(kwargs, UkLegacy.FAMILY_PARAMS)
    ensures r == UkLegacy.FamilySpec(CURRENT_YEAR, parentIncome, numChildren, childAges, region, parentAge, couple,
                                     partnerIncome, kwargs)
  {
    r := UkLegacy.FamilyWithChildren(CURRENT_YEAR, parentIncome, numChildren, childAges, region, parentAge, couple,
                                     partnerIncome, kwargs);
  }

  // ---------------------------------------------------------------------
  // Legacy editors at this file's year

  /** `add_axes`: the sweep's period is 2026; `count` defaults to 1001 at the call. */
  method AddAxes(s: Situation, variableName: string, minVal: int, maxVal: int, count: int)
    modifies s
    ensures s.root == WithAxes(CURRENT_YEAR, old(s.root), variableName, minVal, maxVal, count)
  {
    s.AddAxes(CURRENT_YEAR, variableName, minVal, maxVal, count);
  }

  /** `set_region`: the first household's region, for 2026, after the region is checked. */
  method SetRegion(s: Situation, region: string) returns (err: Option<Error>)
    modifies s
    ensures Applied(old(s.root), s.root, err, RegionEdit(CURRENT_YEAR, old(s.root), region))
  {
    err := s.SetRegion(CURRENT_YEAR, region);
  }
}
