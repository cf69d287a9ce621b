/**
 * Building blocks shared by the household "situation" helpers: the
 * `{CURRENT_YEAR: value}` wrapper, keyword arguments, child ids and default
 * child ages, the loop that appends the children of a family, and the
 * entity layout of US and UK situations.  Each helper file fixes `year`
 * with its own `CURRENT_YEAR`.
 */
module Households {
  import opened PyValues

  // ---------------------------------------------------------------------
  // Keyword arguments and yearly values

  /**
   * `**kwargs` as Python binds it: string keys, no key twice, and none of
   * them a named parameter of the function (those bind to the parameter).
   */
  predicate IsKwargs(kwargs: Entries, params: set<string>)
  {
    UniqueKeys(kwargs) && forall i :: 0 <= i < |kwargs| ==> kwargs[i].0.KStr? && kwargs[i].0.s !in params
  }

  /** The entries of `kwargs[key]` when it is a dict, else none. */
  function Extra(kwargs: Entries, key: string): Entries
  {
    match Lookup(kwargs, KStr(key))
    case Some(Dict(e)) => e
    case _ => []
  }

  /** `kwargs[key]` is given but is not a dict, so updating a dict with it raises. */
  predicate Rejected(kwargs: Entries, key: string)
  {
    Lookup(kwargs, KStr(key)).Some? && !Lookup(kwargs, KStr(key)).value.Dict?
  }

  /** `{CURRENT_YEAR: v}` */
  function Yearly(year: int, v: Value): Value
  {
    Dict([(KInt(year), v)])
  }

  /** Every keyword argument, its value wrapped in the year. */
  function YearlyAll(year: int, kwargs: Entries): Entries
  {
    seq(|kwargs|, i requires 0 <= i < |kwargs| => (kwargs[i].0, Yearly(year, kwargs[i].1)))
  }

  /** Every keyword argument is found wrapped in the year, and nothing else is found. */
  lemma {:induction false} LookupYearlyAll(year: int, kwargs: Entries, k: Key)
    ensures Lookup(YearlyAll(year, kwargs), k)
         == match Lookup(kwargs, k) case Some(v) => Some(Yearly(year, v)) case None => None
    decreases |kwargs|
  {
    if kwargs != [] {
      assert YearlyAll(year, kwargs)[1..] == YearlyAll(year, kwargs[1..]);
      LookupYearlyAll(year, kwargs[1..], k);
    }
  }

  /** Wrapping values in the year keeps the keys, so unique keys stay unique. */
  lemma YearlyAllKeys(year: int, kwargs: Entries)
    ensures Keys(YearlyAll(year, kwargs)) == Keys(kwargs)
    ensures UniqueKeys(kwargs) ==> UniqueKeys(YearlyAll(year, kwargs))
  {
    assert forall i :: 0 <= i < |kwargs| ==> YearlyAll(year, kwargs)[i].0 == kwargs[i].0;
  }

  /**
   * Updating `base` with the year-wrapped keyword arguments: a
   * keyword argument overrides the attribute of the same name, every other
   * attribute keeps its value.
   */
  lemma KwargsOverride(year: int, base: Entries, kwargs: Entries, a: Key)
    requires UniqueKeys(kwargs)
    ensures Lookup(Update(base, YearlyAll(year, kwargs)), a)
         == match Lookup(kwargs, a) case Some(v) => Some(Yearly(year, v)) case None => Lookup(base, a)
  {
    YearlyAllKeys(year, kwargs);
    LookupUpdate(base, YearlyAll(year, kwargs), a);
    LookupYearlyAll(year, kwargs, a);
    LookupFinds(YearlyAll(year, kwargs), a);
  }

  /** A named parameter is never among the keyword arguments. */
  lemma KwargsNotParam(kwargs: Entries, params: set<string>, p: string)
    requires IsKwargs(kwargs, params) && p in params
    ensures Lookup(kwargs, KStr(p)).None?
  {
    LookupFinds(kwargs, KStr(p));
  }

  /** `{"age": {CURRENT_YEAR: age}, "employment_income": {CURRENT_YEAR: income}}` */
  function AgeIncome(year: int, age: int, income: int): Entries
  {
    [(KStr("age"), Yearly(year, Int(age))), (KStr("employment_income"), Yearly(year, Int(income)))]
  }

  /** A list of entity ids, such as `"members": ["parent", "spouse"]`. */
  function Names(ids: seq<string>): Value
  {
    List(seq(|ids|, i requires 0 <= i < |ids| => Str(ids[i])))
  }

  /** The dict keys of a list of ids. */
  function KeysOf(ids: seq<string>): seq<Key>
  {
    seq(|ids|, i requires 0 <= i < |ids| => KStr(ids[i]))
  }

  // ---------------------------------------------------------------------
  // Child ids: f"child_{i + 1}"

  function Digit(d: nat): char
    requires d < 10
  {
    ('0' as int + d) as char
  }

  /** `str(n)` for a non-negative integer */
  function DecimalString(n: nat): string
    decreases n
  {
    if n < 10 then [Digit(n)] else DecimalString(n / 10) + [Digit(n % 10)]
  }

  /** `int(s)` for a string of decimal digits */
  function ParseDecimal(s: string): int
    decreases |s|
  {
    if s == [] then 0 else ParseDecimal(s[..|s| - 1]) * 10 + (s[|s| - 1] as int - '0' as int)
  }

  /** `int(str(n)) == n` */
  lemma {:induction false} DecimalRoundTrip(n: nat)
    ensures ParseDecimal(DecimalString(n)) == n
    decreases n
  {
    if n >= 10 {
      var s := DecimalString(n);
      assert s[..|s| - 1] == DecimalString(n / 10);
      DecimalRoundTrip(n / 10);
    }
  }

  /** The id of the child at position i of `child_ages` (0-based). */
  function ChildId(i: nat): string
  {
    "child_" + DecimalString(i + 1)
  }

  /** Two children never share an id, and no child id is an adult's id. */
  lemma ChildIdInjective(i: nat, j: nat)
    ensures ChildId(i) == ChildId(j) <==> i == j
    ensures ChildId(i) !in {"parent", "spouse", "partner"}
  {
    if ChildId(i) == ChildId(j) {
      assert ChildId(i)[6..] == DecimalString(i + 1);
      assert ChildId(j)[6..] == DecimalString(j + 1);
      DecimalRoundTrip(i + 1);
      DecimalRoundTrip(j + 1);
    }
    assert ChildId(i)[0] == 'c';
  }

  function ChildIds(n: nat): seq<string>
  {
    seq(n, i requires 0 <= i < n => ChildId(i))
  }

  // ---------------------------------------------------------------------
  // Child ages

  const CHILD_AGES_MESSAGE := "Length of child_ages must match num_children"

  /** `len(range(n))`: a negative count gives no children. */
  function RangeLength(n: int): nat
  {
    if n < 0 then 0 else n
  }

  /** The default child ages, `5 + 3*i` for each child: 5, 8, 11, ... */
  function DefaultChildAges(numChildren: int): seq<int>
  {
    seq(RangeLength(numChildren), i => 5 + i * 3)
  }

  /**
   * `child_ages` defaulted, or checked against `num_children`:
   * the default ages when none are given, else the given list, which must
   * have `num_children` entries.
   */
  function ResolveChildAges(numChildren: int, childAges: Option<seq<int>>): (r: Result<seq<int>, Error>)
    ensures r.Failure? <==> childAges.Some? && |childAges.value| != numChildren
    ensures r.Failure? ==> r.error == ValueError(CHILD_AGES_MESSAGE)
    ensures r.Success? && childAges.Some? ==> r.value == childAges.value
    ensures r.Success? && childAges.None? ==>
              |r.value| == RangeLength(numChildren) && forall i :: 0 <= i < |r.value| ==> r.value[i] == 5 + 3 * i
  {
    match childAges
    case None => Success(DefaultChildAges(numChildren))
    case Some(ages) => if |ages| != numChildren then Failure(ValueError(CHILD_AGES_MESSAGE)) else Success(ages)
  }

  // ---------------------------------------------------------------------
  // Families: adults first, then one child per age

  /** `{"age": {CURRENT_YEAR: age}}` */
  function ChildRecord(year: int, age: int): Value
  {
    Dict([(KStr("age"), Yearly(year, Int(age)))])
  }

  function ChildEntries(year: int, ages: seq<int>): Entries
  {
    seq(|ages|, i requires 0 <= i < |ages| => (KStr(ChildId(i)), ChildRecord(year, ages[i])))
  }

  /** The first adult, and the second one (spouse or partner) when there is one. */
  function AdultEntries(parent: (string, Entries), second: Option<(string, Entries)>): Entries
  {
    [(KStr(parent.0), Dict(parent.1))] + if second.Some? then [(KStr(second.value.0), Dict(second.value.1))] else []
  }

  function AdultIds(parent: (string, Entries), second: Option<(string, Entries)>): seq<string>
  {
    [parent.0] + if second.Some? then [second.value.0] else []
  }

  /** The next child's id is not among the family's ids so far. */
  lemma ChildIdFresh(parent: (string, Entries), second: Option<(string, Entries)>, i: nat)
    requires parent.0 == "parent"
    requires second.Some? ==> second.value.0 in {"spouse", "partner"}
    ensures ChildId(i) !in AdultIds(parent, second) + ChildIds(i)
  {
    var members := AdultIds(parent, second) + ChildIds(i);
    forall j | 0 <= j < |members|
      ensures members[j] != ChildId(i)
    {
      if j >= |AdultIds(parent, second)| {
        ChildIdInjective(j - |AdultIds(parent, second)|, i);
      } else {
        ChildIdInjective(i, i);
      }
    }
  }

  /** Adding the entry of an id not yet in the list appends it and keeps the keys those of the ids. */
  lemma AssignFresh(people: Entries, members: seq<string>, id: string, v: Value)
    requires UniqueKeys(people) && Keys(people) == KeysOf(members)
    requires id !in members
    ensures Assign(people, KStr(id), v) == people + [(KStr(id), v)]
    ensures UniqueKeys(people + [(KStr(id), v)]) && Keys(people + [(KStr(id), v)]) == KeysOf(members + [id])
  {
    assert KStr(id) !in KeysOf(members);
    var p := people + [(KStr(id), v)];
    forall i, j | 0 <= i < j < |p|
      ensures p[i].0 != p[j].0
    {
      if j == |people| {
        assert p[i].0 == Keys(people)[i] == KStr(members[i]);
      }
    }
  }

  /** One more child: one more entry and one more id. */
  lemma ChildStep(year: int, ages: seq<int>, i: nat)
    requires i < |ages|
    ensures ChildEntries(year, ages[..i + 1]) == ChildEntries(year, ages[..i]) + [(KStr(ChildId(i)), ChildRecord(year, ages[i]))]
    ensures ChildIds(i + 1) == ChildIds(i) + [ChildId(i)]
  {
  }

  /**
   * The `people` dict and the `members` list of a family: the adults, then
   * `for i, age in enumerate(child_ages): people[f"child_{i+1}"] = {...};
   * members.append(...)`.
   */
  method BuildFamily(year: int, parent: (string, Entries), second: Option<(string, Entries)>, ages: seq<int>)
    returns (people: Entries, members: seq<string>)
    requires parent.0 == "parent"
    requires second.Some? ==> second.value.0 in {"spouse", "partner"}
    ensures people == AdultEntries(parent, second) + ChildEntries(year, ages)
    ensures members == AdultIds(parent, second) + ChildIds(|ages|)
    ensures UniqueKeys(people) && Keys(people) == KeysOf(members)
  {
    people := [(KStr(parent.0), Dict(parent.1))];
    members := [parent.0];
    if second.Some? {
      people := Assign(people, KStr(second.value.0), Dict(second.value.1));
      members := members + [second.value.0];
    }
    assert ChildEntries(year, ages[..0]) == [] && ChildIds(0) == [];
    for i := 0 to |ages|
      invariant people == AdultEntries(parent, second) + ChildEntries(year, ages[..i])
      invariant members == AdultIds(parent, second) + ChildIds(i)
      invariant UniqueKeys(people) && Keys(people) == KeysOf(members)
    {
      var id := ChildId(i);
      ChildIdFresh(parent, second, i);
      AssignFresh(people, members, id, ChildRecord(year, ages[i]));
      people := Assign(people, KStr(id), ChildRecord(year, ages[i]));
      members := members + [id];
      ChildStep(year, ages, i);
    }
    assert ages[..|ages|] == ages;
  }

  /** The keys of the adults and children are distinct: so the `people` dict loses no one. */
  lemma FamilyPeopleUnique(year: int, parent: (string, Entries), second: Option<(string, Entries)>, ages: seq<int>)
    requires parent.0 == "parent"
    requires second.Some? ==> second.value.0 in {"spouse", "partner"}
    ensures UniqueKeys(AdultEntries(parent, second) + ChildEntries(year, ages))
  {
    var p := AdultEntries(parent, second) + ChildEntries(year, ages);
    var n := |AdultEntries(parent, second)|;
    forall i, j | 0 <= i < j < |p|
      ensures p[i].0 != p[j].0
    {
      if i >= n {
        ChildIdInjective(i - n, j - n);
      } else if j >= n {
        ChildIdInjective(j - n, j - n);
      }
    }
  }

  /** There is no `child_{i+1}` beyond the last child age. */
  lemma ChildAbsent(year: int, parent: (string, Entries), second: Option<(string, Entries)>, ages: seq<int>, i: nat)
    requires parent.0 == "parent"
    requires second.Some? ==> second.value.0 in {"spouse", "partner"}
    requires i >= |ages|
    ensures Lookup(AdultEntries(parent, second) + ChildEntries(year, ages), KStr(ChildId(i))) == None
  {
    var p := AdultEntries(parent, second) + ChildEntries(year, ages);
    var n := |AdultEntries(parent, second)|;
    forall j | 0 <= j < |p|
      ensures p[j].0 != KStr(ChildId(i))
    {
      if j >= n {
        assert p[j] == ChildEntries(year, ages)[j - n];
        ChildIdInjective(j - n, i);
      } else {
        assert p[j].0 == KStr(parent.0) || (second.Some? && p[j].0 == KStr(second.value.0));
        ChildIdInjective(i, i);
      }
    }
    assert KStr(ChildId(i)) !in Keys(p);
    LookupFinds(p, KStr(ChildId(i)));
  }

  /**
   * The parent and the second adult are found under their ids; without a
   * second adult, neither `spouse` nor `partner` is a person.
   */
  lemma AdultsFound(year: int, parent: (string, Entries), second: Option<(string, Entries)>, ages: seq<int>, name: string)
    requires parent.0 == "parent"
    requires second.Some? ==> second.value.0 in {"spouse", "partner"}
    ensures Lookup(AdultEntries(parent, second) + ChildEntries(year, ages), KStr("parent")) == Some(Dict(parent.1))
    ensures second.Some? ==>
              Lookup(AdultEntries(parent, second) + ChildEntries(year, ages), KStr(second.value.0)) == Some(Dict(second.value.1))
    ensures second.None? && name in {"spouse", "partner"} ==>
              Lookup(AdultEntries(parent, second) + ChildEntries(year, ages), KStr(name)) == None
  {
    var p := AdultEntries(parent, second) + ChildEntries(year, ages);
    FamilyPeopleUnique(year, parent, second, ages);
    LookupAt(p, 0);
    if second.Some? {
      LookupAt(p, 1);
    } else if name in {"spouse", "partner"} {
      forall j | 0 <= j < |p|
        ensures p[j].0 != KStr(name)
      {
        if j >= 1 {
          assert p[j] == ChildEntries(year, ages)[j - 1];
          ChildIdInjective(j - 1, j - 1);
        }
      }
      assert KStr(name) !in Keys(p);
      LookupFinds(p, KStr(name));
    }
  }

  /** In a situation whose `people` are a family's, the adults are found and no child follows the last age. */
  lemma FamilyEntities(s: Value, year: int, parent: (string, Entries), second: Option<(string, Entries)>, ages: seq<int>,
                       name: string, i: nat)
    requires parent.0 == "parent"
    requires second.Some? ==> second.value.0 in {"spouse", "partner"}
    requires forall id :: Entity(s, "people", id) == Lookup(AdultEntries(parent, second) + ChildEntries(year, ages), KStr(id))
    ensures Entity(s, "people", "parent") == Some(Dict(parent.1))
    ensures second.Some? ==> Entity(s, "people", second.value.0) == Some(Dict(second.value.1))
    ensures second.None? && name in {"spouse", "partner"} ==> Entity(s, "people", name) == None
    ensures i >= |ages| ==> Entity(s, "people", ChildId(i)) == None
  {
    AdultsFound(year, parent, second, ages, name);
    if i >= |ages| {
      ChildAbsent(year, parent, second, ages, i);
    }
  }

  /** The child at position i of `child_ages` is `child_{i+1}`, whose only attribute is that age. */
  lemma ChildFound(year: int, parent: (string, Entries), second: Option<(string, Entries)>, ages: seq<int>, i: nat)
    requires parent.0 == "parent"
    requires second.Some? ==> second.value.0 in {"spouse", "partner"}
    requires i < |ages|
    ensures Lookup(AdultEntries(parent, second) + ChildEntries(year, ages), KStr(ChildId(i))) == Some(ChildRecord(year, ages[i]))
  {
    var p := AdultEntries(parent, second) + ChildEntries(year, ages);
    FamilyPeopleUnique(year, parent, second, ages);
    LookupAt(p, |AdultEntries(parent, second)| + i);
  }

  // ---------------------------------------------------------------------
  // Situation layouts: one entity per group

  /** `{unit_id: {"members": members}}` */
  function Unit(id: string, members: seq<string>): Value
  {
    Dict([(KStr(id), Dict([(KStr("members"), Names(members))]))])
  }

  /** A legacy situation for `policyengine_us.Simulation`. */
  function UsSituation(people: Entries, members: seq<string>, maritalMembers: seq<string>, household: Entries): Value
  {
    Dict([(KStr("people"), Dict(people)),
          (KStr("families"), Unit("family", members)),
          (KStr("marital_units"), Unit("marital_unit", maritalMembers)),
          (KStr("tax_units"), Unit("tax_unit", members)),
          (KStr("spm_units"), Unit("spm_unit", members)),
          (KStr("households"), Dict([(KStr("household"), Dict(household))]))])
  }

  /** A legacy situation for `policyengine_uk.Simulation`. */
  function UkSituation(people: Entries, members: seq<string>, household: Entries): Value
  {
    Dict([(KStr("people"), Dict(people)),
          (KStr("benunits"), Unit("benunit", members)),
          (KStr("households"), Dict([(KStr("household"), Dict(household))]))])
  }

  /** `situation[group][id]` */
  function Entity(s: Value, group: string, id: string): Option<Value>
  {
    Path(s, [KStr(group), KStr(id)])
  }

  /** `situation[group][id][attr]` */
  function Attr(s: Value, group: string, id: string, attr: string): Option<Value>
  {
    Path(s, [KStr(group), KStr(id), KStr(attr)])
  }

  /** `unit[id]["members"]` of a one-entity group. */
  lemma UnitMembers(id: string, members: seq<string>)
    ensures Path(Unit(id, members), [KStr(id), KStr("members")]) == Some(Names(members))
  {
    var inner := [(KStr("members"), Names(members))];
    PathStep(Unit(id, members).entries, 0, [KStr("members")]);
    PathStep(inner, 0, []);
    assert [KStr(id), KStr("members")] == [KStr(id)] + [KStr("members")];
    assert [KStr("members")] == [KStr("members")] + [];
  }

  /** A one-step path is a lookup. */
  lemma PathOne(d: Entries, k: Key)
    ensures Path(Dict(d), [k]) == Lookup(d, k)
  {
    assert [k][1..] == [];
  }

  /** Looking up through the entry at position i of a group dict. */
  lemma GroupStep(d: Entries, i: nat, id: string, rest: seq<Key>)
    requires i < |d| && forall j :: 0 <= j < i ==> d[j].0 != d[i].0
    ensures Path(Dict(d), [d[i].0] + ([KStr(id)] + rest)) == Path(d[i].1, [KStr(id)] + rest)
  {
    PathStep(d, i, [KStr(id)] + rest);
  }

  /** The six entity groups of a US situation, in order. */
  lemma UsSituationGroups(people: Entries, members: seq<string>, maritalMembers: seq<string>, household: Entries)
    ensures Keys(UsSituation(people, members, maritalMembers, household).entries)
         == [KStr("people"), KStr("families"), KStr("marital_units"),
             KStr("tax_units"), KStr("spm_units"), KStr("households")]
  {
  }

  /** The people of a situation whose first group is `people`, looked up by id. */
  lemma PeopleGroup(s: Value, people: Entries)
    requires s.Dict? && s.entries != [] && s.entries[0] == (KStr("people"), Dict(people))
    ensures forall id :: Entity(s, "people", id) == Lookup(people, KStr(id))
    ensures forall id, a :: Attr(s, "people", id, a) == Path(Dict(people), [KStr(id), KStr(a)])
  {
    var d := s.entries;
    forall id
      ensures Entity(s, "people", id) == Lookup(people, KStr(id))
    {
      PathStep(d, 0, [KStr(id)]);
      PathOne(people, KStr(id));
      assert [KStr("people"), KStr(id)] == [d[0].0] + [KStr(id)];
    }
    forall id, a
      ensures Attr(s, "people", id, a) == Path(Dict(people), [KStr(id), KStr(a)])
    {
      PathStep(d, 0, [KStr(id), KStr(a)]);
      assert [KStr("people"), KStr(id), KStr(a)] == [d[0].0] + [KStr(id), KStr(a)];
    }
  }

  /** The one-unit group at position i of a situation lists `members`. */
  lemma UnitGroup(s: Value, i: nat, group: string, unit: string, members: seq<string>)
    requires s.Dict? && i < |s.entries| && s.entries[i] == (KStr(group), Unit(unit, members))
    requires forall j :: 0 <= j < i ==> s.entries[j].0 != KStr(group)
    ensures Attr(s, group, unit, "members") == Some(Names(members))
  {
    GroupStep(s.entries, i, unit, [KStr("members")]);
    UnitMembers(unit, members);
    assert [KStr(group), KStr(unit), KStr("members")] == [KStr(group)] + ([KStr(unit)] + [KStr("members")]);
  }

  /** The one household at position i of a situation, its attributes looked up by name. */
  lemma HouseholdGroup(s: Value, i: nat, household: Entries)
    requires s.Dict? && i < |s.entries| && s.entries[i] == (KStr("households"), Dict([(KStr("household"), Dict(household))]))
    requires forall j :: 0 <= j < i ==> s.entries[j].0 != KStr("households")
    ensures forall a :: Attr(s, "households", "household", a) == Lookup(household, KStr(a))
  {
    forall a
      ensures Attr(s, "households", "household", a) == Lookup(household, KStr(a))
    {
      var h := [(KStr("household"), Dict(household))];
      GroupStep(s.entries, i, "household", [KStr(a)]);
      PathStep(h, 0, [KStr(a)]);
      PathOne(household, KStr(a));
      assert [KStr("household"), KStr(a)] == [h[0].0] + [KStr(a)];
      assert [KStr("households"), KStr("household"), KStr(a)] == [KStr("households")] + ([KStr("household")] + [KStr(a)]);
    }
  }

  /** The groups of a US situation sit at positions 0 to 5, each key distinct from those before it. */
  lemma UsSituationKeys(s: Value, people: Entries, members: seq<string>, maritalMembers: seq<string>, household: Entries)
    requires s == UsSituation(people, members, maritalMembers, household)
    ensures s.Dict? && |s.entries| == 6
    ensures s.entries[0] == (KStr("people"), Dict(people))
    ensures s.entries[1] == (KStr("families"), Unit("family", members))
    ensures s.entries[2] == (KStr("marital_units"), Unit("marital_unit", maritalMembers))
    ensures s.entries[3] == (KStr("tax_units"), Unit("tax_unit", members))
    ensures s.entries[4] == (KStr("spm_units"), Unit("spm_unit", members))
    ensures s.entries[5] == (KStr("households"), Dict([(KStr("household"), Dict(household))]))
    ensures forall i, j :: 0 <= i < j < 6 ==> s.entries[i].0 != s.entries[j].0
  {
    var heads := "pfmtsh";
    forall i, j | 0 <= i < j < 6
      ensures s.entries[i].0 != s.entries[j].0
    {
      assert s.entries[i].0.s[0] == heads[i];
      assert s.entries[j].0.s[0] == heads[j];
    }
  }

  /**
   * The layout of a US situation: the people by id, the members of every
   * unit, and the household's attributes.
   */
  lemma UsSituationLayout(s: Value, people: Entries, members: seq<string>, maritalMembers: seq<string>, household: Entries)
    requires s == UsSituation(people, members, maritalMembers, household)
    ensures forall id :: Entity(s, "people", id) == Lookup(people, KStr(id))
    ensures forall id, a :: Attr(s, "people", id, a) == Path(Dict(people), [KStr(id), KStr(a)])
    ensures Attr(s, "families", "family", "members") == Some(Names(members))
    ensures Attr(s, "marital_units", "marital_unit", "members") == Some(Names(maritalMembers))
    ensures Attr(s, "tax_units", "tax_unit", "members") == Some(Names(members))
    ensures Attr(s, "spm_units", "spm_unit", "members") == Some(Names(members))
    ensures forall a :: Attr(s, "households", "household", a) == Lookup(household, KStr(a))
  {
    UsSituationKeys(s, people, members, maritalMembers, household);
    PeopleGroup(s, people);
    UnitGroup(s, 1, "families", "family", members);
    UnitGroup(s, 2, "marital_units", "marital_unit", maritalMembers);
    UnitGroup(s, 3, "tax_units", "tax_unit", members);
    UnitGroup(s, 4, "spm_units", "spm_unit", members);
    HouseholdGroup(s, 5, household);
  }

  /** The three entity groups of a UK situation, in order. */
  lemma UkSituationGroups(people: Entries, members: seq<string>, household: Entries)
    ensures Keys(UkSituation(people, members, household).entries)
         == [KStr("people"), KStr("benunits"), KStr("households")]
  {
  }

  /**
   * The layout of a UK situation: the people by id, the benefit unit's
   * members, and the household's attributes.
   */
  lemma UkSituationLayout(s: Value, people: Entries, members: seq<string>, household: Entries)
    requires s == UkSituation(people, members, household)
    ensures forall id :: Entity(s, "people", id) == Lookup(people, KStr(id))
    ensures forall id, a :: Attr(s, "people", id, a) == Path(Dict(people), [KStr(id), KStr(a)])
    ensures Attr(s, "benunits", "benunit", "members") == Some(Names(members))
    ensures forall a :: Attr(s, "households", "household", a) == Lookup(household, KStr(a))
  {
    PeopleGroup(s, people);
    UnitGroup(s, 1, "benunits", "benunit", members);
    HouseholdGroup(s, 2, household);
  }

  /** A household attribute of a US situation. */
  lemma UsHouseholdAttr(people: Entries, members: seq<string>, maritalMembers: seq<string>, household: Entries, a: string)
    ensures Attr(UsSituation(people, members, maritalMembers, household), "households", "household", a)
            == Lookup(household, KStr(a))
  {
    UsSituationLayout(UsSituation(people, members, maritalMembers, household), people, members, maritalMembers, household);
  }

  /** A household attribute of a UK situation. */
  lemma UkHouseholdAttr(people: Entries, members: seq<string>, household: Entries, a: string)
    ensures Attr(UkSituation(people, members, household), "households", "household", a) == Lookup(household, KStr(a))
  {
    UkSituationLayout(UkSituation(people, members, household), people, members, household);
  }

  /** A person's attribute: `people[id][a]`. */
  lemma PersonAttr(people: Entries, i: nat, a: string)
    requires i < |people| && people[i].0.KStr? && people[i].1.Dict?
    requires forall j :: 0 <= j < i ==> people[j].0 != people[i].0
    ensures Path(Dict(people), [people[i].0, KStr(a)]) == Lookup(people[i].1.entries, KStr(a))
  {
    PathStep(people, i, [KStr(a)]);
    PathOne(people[i].1.entries, KStr(a));
    assert [people[i].0, KStr(a)] == [people[i].0] + [KStr(a)];
  }
}
