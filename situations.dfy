/**
 * The editors that change an existing situation in place: `add_axes`,
 * `add_itemized_deductions`, `add_income_sources`, `set_region` and
 * `set_state_nyc`.  Each is a method of `Situation`, whose field `root` is
 * the situation dict, proved against a function of the old dict that gives
 * the new dict or the exception the editor raises.
 */
module Situations {
  import opened PyValues
  import opened Households
  import UkRegions

  // ---------------------------------------------------------------------
  // The path root[group][id][field]

  /** `root[group]` is a dict. */
  predicate GroupIsDict(root: Entries, group: string)
  {
    Lookup(root, KStr(group)).Some? && Lookup(root, KStr(group)).value.Dict?
  }

  function GroupEntries(root: Entries, group: string): Entries
    requires GroupIsDict(root, group)
  {
    Lookup(root, KStr(group)).value.entries
  }

  /** `root[group][id]` is a dict, so a field can be assigned in it. */
  predicate Writable(root: Entries, group: string, id: Key)
  {
    GroupIsDict(root, group)
    && Lookup(GroupEntries(root, group), id).Some?
    && Lookup(GroupEntries(root, group), id).value.Dict?
  }

  function RecordEntries(root: Entries, group: string, id: Key): Entries
    requires Writable(root, group, id)
  {
    Lookup(GroupEntries(root, group), id).value.entries
  }

  /**
   * The exception of `root[group][id][field] = v` when `root[group][id]` is
   * not a dict: a missing key, or a value that cannot be indexed by a
   * string or does not support item assignment.
   */
  function PathError(root: Entries, group: string, id: Key): Error
  {
    match Lookup(root, KStr(group))
    case None => KeyError(KStr(group))
    case Some(Dict(g)) => if Lookup(g, id).None? then KeyError(id) else TypeError
    case Some(_) => TypeError
  }

  /** `list(root[group].keys())[0]` */
  function FirstId(root: Entries, group: string): (r: Result<Key, Error>)
    ensures Lookup(root, KStr(group)).None? ==> r == Failure(KeyError(KStr(group)))
    ensures Lookup(root, KStr(group)).Some? && !GroupIsDict(root, group) ==> r == Failure(AttributeError)
    ensures GroupIsDict(root, group) && GroupEntries(root, group) == [] ==> r == Failure(IndexError)
    ensures r.Success? ==> GroupIsDict(root, group) && GroupEntries(root, group) != []
                           && r.value == GroupEntries(root, group)[0].0
                           && Lookup(GroupEntries(root, group), r.value) == Some(GroupEntries(root, group)[0].1)
  {
    match Lookup(root, KStr(group))
    case None => Failure(KeyError(KStr(group)))
    case Some(Dict(g)) => FirstKey(g)
    case Some(_) => Failure(AttributeError)
  }

  /** `root[group][id].update(fields)`, with every other part of `root` as it was. */
  function NestedUpdate(root: Entries, group: string, id: Key, fields: Entries): Entries
    requires Writable(root, group, id)
  {
    var rec := Dict(Update(RecordEntries(root, group, id), fields));
    Assign(root, KStr(group), Dict(Assign(GroupEntries(root, group), id, rec)))
  }

  /** Only `root[group][id]` changes, and it receives `fields`. */
  lemma NestedUpdateLookups(root: Entries, group: string, id: Key, fields: Entries, k: Key, other: Key)
    requires Writable(root, group, id)
    ensures Writable(NestedUpdate(root, group, id, fields), group, id)
    ensures RecordEntries(NestedUpdate(root, group, id, fields), group, id) == Update(RecordEntries(root, group, id), fields)
    ensures k != KStr(group) ==> Lookup(NestedUpdate(root, group, id, fields), k) == Lookup(root, k)
    ensures other != id ==>
              Lookup(GroupEntries(NestedUpdate(root, group, id, fields), group), other) == Lookup(GroupEntries(root, group), other)
    ensures Keys(GroupEntries(NestedUpdate(root, group, id, fields), group)) == Keys(GroupEntries(root, group))
  {
    var g := GroupEntries(root, group);
    var rec := Dict(Update(RecordEntries(root, group, id), fields));
    var g' := Assign(g, id, rec);
    LookupAssign(root, KStr(group), Dict(g'), k);
    LookupAssign(root, KStr(group), Dict(g'), KStr(group));
    LookupAssign(g, id, rec, id);
    LookupAssign(g, id, rec, other);
    LookupFinds(g, id);
  }

  /** `d.update(a)` then `d.update(b)` is `d.update(a + b)`. */
  lemma {:induction false} UpdateAppend(d: Entries, a: Entries, b: Entries)
    ensures Update(Update(d, a), b) == Update(d, a + b)
    decreases |a|
  {
    if a == [] {
      assert a + b == b;
    } else {
      assert (a + b)[0] == a[0] && (a + b)[1..] == a[1..] + b;
      UpdateAppend(Assign(d, a[0].0, a[0].1), a[1..], b);
    }
  }

  /** Two updates of the same record are one update with both sets of fields. */
  lemma NestedUpdateCompose(root: Entries, group: string, id: Key, a: Entries, b: Entries)
    requires Writable(root, group, id)
    ensures Writable(NestedUpdate(root, group, id, a), group, id)
    ensures NestedUpdate(NestedUpdate(root, group, id, a), group, id, b) == NestedUpdate(root, group, id, a + b)
  {
    var g := GroupEntries(root, group);
    var rec := RecordEntries(root, group, id);
    var r1 := NestedUpdate(root, group, id, a);
    NestedUpdateLookups(root, group, id, a, KStr(group), id);
    LookupAssign(root, KStr(group), Dict(Assign(g, id, Dict(Update(rec, a)))), KStr(group));
    assert GroupEntries(r1, group) == Assign(g, id, Dict(Update(rec, a)));
    UpdateAppend(rec, a, b);
    AssignOverwrites(g, id, Dict(Update(rec, a)), Dict(Update(rec, a + b)));
    AssignOverwrites(root, KStr(group), Dict(Assign(g, id, Dict(Update(rec, a)))),
                     Dict(Assign(g, id, Dict(Update(rec, a + b)))));
  }

  /** `root[group][id][field] = v` */
  function SetField(root: Entries, group: string, id: Key, field: string, v: Value): (r: Result<Entries, Error>)
    ensures r.Success? <==> Writable(root, group, id)
    ensures r.Failure? ==> r.error == PathError(root, group, id)
    ensures r.Success? ==> Writable(r.value, group, id)
  {
    if Writable(root, group, id) then
      NestedUpdateLookups(root, group, id, [(KStr(field), v)], KStr(group), id);
      Success(NestedUpdate(root, group, id, [(KStr(field), v)]))
    else
      Failure(PathError(root, group, id))
  }

  // ---------------------------------------------------------------------
  // Amounts written only when positive

  /** For each (name, amount) in turn, a positive amount is written as `{year: amount}` under `name` in `root[group][id]`. */
  function WritePositive(root: Entries, group: string, id: Key, year: int, fields: seq<(string, int)>): Result<Entries, Error>
    decreases |fields|
  {
    if fields == [] then Success(root)
    else if fields[0].1 > 0 then
      var r :- SetField(root, group, id, fields[0].0, Yearly(year, Int(fields[0].1)));
      WritePositive(r, group, id, year, fields[1..])
    else
      WritePositive(root, group, id, year, fields[1..])
  }

  /** The fields with a positive amount, each as `name: {year: amount}`. */
  function PositiveYearly(year: int, fields: seq<(string, int)>): Entries
    decreases |fields|
  {
    if fields == [] then []
    else (if fields[0].1 > 0 then [(KStr(fields[0].0), Yearly(year, Int(fields[0].1)))] else [])
         + PositiveYearly(year, fields[1..])
  }

  predicate DistinctNames(fields: seq<(string, int)>)
  {
    forall i, j :: 0 <= i < j < |fields| ==> fields[i].0 != fields[j].0
  }

  /** The amount given for `name`, if any (the first one). */
  function AmountOf(fields: seq<(string, int)>, name: string): Option<int>
    decreases |fields|
  {
    if fields == [] then None else if fields[0].0 == name then Some(fields[0].1) else AmountOf(fields[1..], name)
  }

  /**
   * The sequence of conditional writes is one update of the record with the
   * positive amounts: nothing happens when no amount is positive, and
   * otherwise the first write decides whether the path can be written.
   */
  lemma {:induction false} WritePositiveClosedForm(root: Entries, group: string, id: Key, year: int, fields: seq<(string, int)>)
    ensures WritePositive(root, group, id, year, fields)
         == if PositiveYearly(year, fields) == [] then Success(root)
            else if Writable(root, group, id) then Success(NestedUpdate(root, group, id, PositiveYearly(year, fields)))
            else Failure(PathError(root, group, id))
    decreases |fields|
  {
    if fields != [] {
      if fields[0].1 > 0 && Writable(root, group, id) {
        var f := (KStr(fields[0].0), Yearly(year, Int(fields[0].1)));
        var r := NestedUpdate(root, group, id, [f]);
        NestedUpdateLookups(root, group, id, [f], KStr(group), id);
        WritePositiveClosedForm(r, group, id, year, fields[1..]);
        WrittenThenRest(root, group, id, year, fields);
      } else if fields[0].1 > 0 {
        assert PositiveYearly(year, fields) != [];
      } else {
        assert PositiveYearly(year, fields) == PositiveYearly(year, fields[1..]);
        WritePositiveClosedForm(root, group, id, year, fields[1..]);
      }
    }
  }

  /** The step of the closed form where the first amount is positive and the record can be written. */
  lemma WrittenThenRest(root: Entries, group: string, id: Key, year: int, fields: seq<(string, int)>)
    requires fields != [] && fields[0].1 > 0 && Writable(root, group, id)
    requires var r := NestedUpdate(root, group, id, [(KStr(fields[0].0), Yearly(year, Int(fields[0].1)))]);
             Writable(r, group, id) &&
             WritePositive(r, group, id, year, fields[1..])
             == if PositiveYearly(year, fields[1..]) == [] then Success(r)
                else Success(NestedUpdate(r, group, id, PositiveYearly(year, fields[1..])))
    ensures WritePositive(root, group, id, year, fields) == Success(NestedUpdate(root, group, id, PositiveYearly(year, fields)))
  {
    var f := (KStr(fields[0].0), Yearly(year, Int(fields[0].1)));
    var rest := PositiveYearly(year, fields[1..]);
    assert PositiveYearly(year, fields) == [f] + rest;
    NestedUpdateCompose(root, group, id, [f], rest);
    if rest == [] {
      assert [f] + rest == [f];
    }
  }

  /** The names after the first are distinct too. */
  lemma DistinctNamesTail(fields: seq<(string, int)>)
    requires DistinctNames(fields) && fields != []
    ensures DistinctNames(fields[1..])
  {
    forall i, j | 0 <= i < j < |fields[1..]|
      ensures fields[1..][i].0 != fields[1..][j].0
    {
      assert fields[1..][i] == fields[i + 1] && fields[1..][j] == fields[j + 1];
    }
  }

  /** With distinct names, each name is written with its amount exactly when that amount is positive. */
  lemma {:induction false} PositiveYearlyLookup(year: int, fields: seq<(string, int)>, name: string)
    requires DistinctNames(fields)
    ensures Lookup(PositiveYearly(year, fields), KStr(name))
         == match AmountOf(fields, name)
            case Some(a) => if a > 0 then Some(Yearly(year, Int(a))) else None
            case None => None
    decreases |fields|
  {
    if fields != [] {
      DistinctNamesTail(fields);
      PositiveYearlyLookup(year, fields[1..], name);
      if fields[0].0 == name {
        AmountAbsent(fields, name);
      }
      if fields[0].1 > 0 {
        var f := (KStr(fields[0].0), Yearly(year, Int(fields[0].1)));
        assert PositiveYearly(year, fields) == [f] + PositiveYearly(year, fields[1..]);
      } else {
        assert PositiveYearly(year, fields) == PositiveYearly(year, fields[1..]);
      }
    }
  }

  /** A new key in front of a dict with distinct keys keeps them distinct. */
  lemma UniqueCons(f: (Key, Value), rest: Entries)
    requires UniqueKeys(rest) && f.0 !in Keys(rest)
    ensures UniqueKeys([f] + rest)
  {
    var p := [f] + rest;
    forall i, j | 0 <= i < j < |p|
      ensures p[i].0 != p[j].0
    {
      assert p[j] == rest[j - 1];
      if i == 0 {
        assert Keys(rest)[j - 1] == rest[j - 1].0;
      } else {
        assert p[i] == rest[i - 1];
      }
    }
  }

  /** With distinct names, no field is written twice. */
  lemma {:induction false} PositiveYearlyUnique(year: int, fields: seq<(string, int)>)
    requires DistinctNames(fields)
    ensures UniqueKeys(PositiveYearly(year, fields))
    decreases |fields|
  {
    if fields != [] && fields[0].1 > 0 {
      var rest := PositiveYearly(year, fields[1..]);
      DistinctNamesTail(fields);
      PositiveYearlyUnique(year, fields[1..]);
      PositiveYearlyLookup(year, fields[1..], fields[0].0);
      AmountAbsent(fields, fields[0].0);
      LookupFinds(rest, KStr(fields[0].0));
      var f := (KStr(fields[0].0), Yearly(year, Int(fields[0].1)));
      assert PositiveYearly(year, fields) == [f] + rest;
      UniqueCons(f, rest);
    } else if fields != [] {
      DistinctNamesTail(fields);
      PositiveYearlyUnique(year, fields[1..]);
      assert PositiveYearly(year, fields) == PositiveYearly(year, fields[1..]);
    }
  }

  /** A name given first is given nowhere after it. */
  lemma AmountAbsent(fields: seq<(string, int)>, name: string)
    requires DistinctNames(fields) && fields != [] && fields[0].0 == name
    ensures AmountOf(fields[1..], name).None?
  {
    AmountAbsentFrom(fields[1..], name);
  }

  lemma {:induction false} AmountAbsentFrom(fields: seq<(string, int)>, name: string)
    requires forall i :: 0 <= i < |fields| ==> fields[i].0 != name
    ensures AmountOf(fields, name).None?
    decreases |fields|
  {
    if fields != [] {
      AmountAbsentFrom(fields[1..], name);
    }
  }

  /** The conditional writes change nothing outside `root[group]`, and nothing at all when the record is not a dict. */
  lemma WritePositiveOutside(root: Entries, group: string, id: Key, year: int, fields: seq<(string, int)>, k: Key)
    requires WritePositive(root, group, id, year, fields).Success?
    ensures !Writable(root, group, id) ==> WritePositive(root, group, id, year, fields).value == root
    ensures k != KStr(group) ==> Lookup(WritePositive(root, group, id, year, fields).value, k) == Lookup(root, k)
  {
    WritePositiveClosedForm(root, group, id, year, fields);
    var p := PositiveYearly(year, fields);
    if p != [] && Writable(root, group, id) {
      NestedUpdateLookups(root, group, id, p, k, id);
    }
  }

  /** Inside `root[group]`, the conditional writes touch only the record `id`, and there only the positive amounts. */
  lemma WritePositiveInside(root: Entries, group: string, id: Key, year: int, fields: seq<(string, int)>,
                            other: Key, name: string)
    requires DistinctNames(fields)
    requires WritePositive(root, group, id, year, fields).Success?
    requires Writable(root, group, id)
    ensures var r := WritePositive(root, group, id, year, fields).value;
            Writable(r, group, id)
            && (other != id ==> Lookup(GroupEntries(r, group), other) == Lookup(GroupEntries(root, group), other))
            && Lookup(RecordEntries(r, group, id), KStr(name))
               == match AmountOf(fields, name)
                  case Some(a) => if a > 0 then Some(Yearly(year, Int(a))) else Lookup(RecordEntries(root, group, id), KStr(name))
                  case None => Lookup(RecordEntries(root, group, id), KStr(name))
  {
    WritePositiveClosedForm(root, group, id, year, fields);
    var p := PositiveYearly(year, fields);
    PositiveYearlyLookup(year, fields, name);
    PositiveYearlyUnique(year, fields);
    LookupFinds(p, KStr(name));
    if p != [] {
      NestedUpdateLookups(root, group, id, p, KStr(group), other);
      LookupUpdate(RecordEntries(root, group, id), p, KStr(name));
    } else {
      assert Lookup(p, KStr(name)).None?;
    }
  }

  /**
   * What the conditional writes do to the situation: nothing outside
   * `root[group][id]`; there, every positive amount is set to `{year: amount}`
   * and every other field keeps its value, and the other entities of the
   * group are untouched.
   */
  lemma WritePositiveEffect(root: Entries, group: string, id: Key, year: int, fields: seq<(string, int)>,
                            k: Key, other: Key, name: string)
    requires DistinctNames(fields)
    requires WritePositive(root, group, id, year, fields).Success?
    ensures !Writable(root, group, id) ==> WritePositive(root, group, id, year, fields).value == root
    ensures k != KStr(group) ==> Lookup(WritePositive(root, group, id, year, fields).value, k) == Lookup(root, k)
    ensures Writable(root, group, id) ==>
              var r := WritePositive(root, group, id, year, fields).value;
              Writable(r, group, id)
              && (other != id ==> Lookup(GroupEntries(r, group), other) == Lookup(GroupEntries(root, group), other))
              && Lookup(RecordEntries(r, group, id), KStr(name))
                 == match AmountOf(fields, name)
                    case Some(a) => if a > 0 then Some(Yearly(year, Int(a))) else Lookup(RecordEntries(root, group, id), KStr(name))
                    case None => Lookup(RecordEntries(root, group, id), KStr(name))
  {
    WritePositiveOutside(root, group, id, year, fields, k);
    if Writable(root, group, id) {
      WritePositiveInside(root, group, id, year, fields, other, name);
    }
  }

  // ---------------------------------------------------------------------
  // The editors as functions of the old situation

  /** `[[{"name": ..., "count": ..., "min": ..., "max": ..., "period": CURRENT_YEAR}]]` */
  function Axes(year: int, name: string, minVal: int, maxVal: int, count: int): Value
  {
    List([List([Dict([(KStr("name"), Str(name)), (KStr("count"), Int(count)), (KStr("min"), Int(minVal)),
                      (KStr("max"), Int(maxVal)), (KStr("period"), Int(year))])])])
  }

  /** `add_axes`: `situation["axes"] = [[axis]]` */
  function WithAxes(year: int, root: Entries, name: string, minVal: int, maxVal: int, count: int): Entries
  {
    Assign(root, KStr("axes"), Axes(year, name, minVal, maxVal, count))
  }

  /**
   * After `add_axes` the situation sweeps exactly the one axis given, every
   * other key is as it was, and a second call replaces the first sweep.
   */
  lemma AxesEffect(year: int, root: Entries, name: string, minVal: int, maxVal: int, count: int,
                   name': string, minVal': int, maxVal': int, count': int, k: Key)
    ensures Lookup(WithAxes(year, root, name, minVal, maxVal, count), KStr("axes")) == Some(Axes(year, name, minVal, maxVal, count))
    ensures k != KStr("axes") ==> Lookup(WithAxes(year, root, name, minVal, maxVal, count), k) == Lookup(root, k)
    ensures WithAxes(year, WithAxes(year, root, name', minVal', maxVal', count'), name, minVal, maxVal, count)
         == WithAxes(year, root, name, minVal, maxVal, count)
  {
    LookupAssign(root, KStr("axes"), Axes(year, name, minVal, maxVal, count), KStr("axes"));
    LookupAssign(root, KStr("axes"), Axes(year, name, minVal, maxVal, count), k);
    AssignOverwrites(root, KStr("axes"), Axes(year, name', minVal', maxVal', count'), Axes(year, name, minVal, maxVal, count));
  }

  function DeductionFields(charitable: int, mortgage: int, realEstate: int, medical: int, casualty: int): seq<(string, int)>
  {
    [("charitable_cash_donations", charitable), ("mortgage_interest", mortgage), ("real_estate_taxes", realEstate),
     ("medical_expense", medical), ("casualty_loss", casualty)]
  }

  /** `add_itemized_deductions`: each positive deduction goes to the first person. */
  function ItemizedDeductions(year: int, root: Entries, charitable: int, mortgage: int, realEstate: int,
                              medical: int, casualty: int): Result<Entries, Error>
  {
    var first :- FirstId(root, "people");
    WritePositive(root, "people", first, year, DeductionFields(charitable, mortgage, realEstate, medical, casualty))
  }

  lemma DeductionFieldsDistinct(charitable: int, mortgage: int, realEstate: int, medical: int, casualty: int)
    ensures DistinctNames(DeductionFields(charitable, mortgage, realEstate, medical, casualty))
  {
    var f := DeductionFields(charitable, mortgage, realEstate, medical, casualty);
    assert f[1].0[0] != f[2].0[0];
  }

  /**
   * `add_itemized_deductions` fails exactly when there is no first person,
   * or when some deduction is positive and the first person is not a dict
   * (a TypeError); otherwise it updates the first person with the positive
   * deductions and nothing else.
   */
  lemma ItemizedDeductionsOutcome(year: int, root: Entries, charitable: int, mortgage: int, realEstate: int,
                                  medical: int, casualty: int)
    ensures ItemizedDeductions(year, root, charitable, mortgage, realEstate, medical, casualty)
         == match FirstId(root, "people")
            case Failure(e) => Failure(e)
            case Success(id) =>
              var p := PositiveYearly(year, DeductionFields(charitable, mortgage, realEstate, medical, casualty));
              if p == [] then Success(root)
              else if Writable(root, "people", id) then Success(NestedUpdate(root, "people", id, p))
              else Failure(TypeError)
  {
    var first := FirstId(root, "people");
    if first.Success? {
      WritePositiveClosedForm(root, "people", first.value, year, DeductionFields(charitable, mortgage, realEstate, medical, casualty));
    }
  }

  function IncomeFields(selfEmployment: int, pension: int, property: int, savingsInterest: int,
                        dividend: int, miscellaneous: int): seq<(string, int)>
  {
    [("self_employment_income", selfEmployment), ("pension_income", pension), ("property_income", property),
     ("savings_interest_income", savingsInterest), ("dividend_income", dividend), ("miscellaneous_income", miscellaneous)]
  }

  /** The person `add_income_sources` writes to: the one named, or else the first. */
  function IncomePerson(root: Entries, personId: Option<string>): (r: Result<Key, Error>)
    ensures personId.Some? ==> r == Success(KStr(personId.value))
    ensures personId.None? ==> r == FirstId(root, "people")
  {
    if personId.None? then FirstId(root, "people") else Success(KStr(personId.value))
  }

  /** `add_income_sources`: each positive income goes to the person named, or to the first person. */
  function IncomeSources(year: int, root: Entries, personId: Option<string>, selfEmployment: int, pension: int,
                         property: int, savingsInterest: int, dividend: int, miscellaneous: int): Result<Entries, Error>
  {
    var id :- IncomePerson(root, personId);
    WritePositive(root, "people", id, year, IncomeFields(selfEmployment, pension, property, savingsInterest, dividend, miscellaneous))
  }

  lemma IncomeFieldsDistinct(selfEmployment: int, pension: int, property: int, savingsInterest: int,
                             dividend: int, miscellaneous: int)
    ensures DistinctNames(IncomeFields(selfEmployment, pension, property, savingsInterest, dividend, miscellaneous))
  {
  }

  /**
   * `add_income_sources` with a named person fails only when some income is
   * positive and that person cannot be written (KeyError for a missing
   * person, and so on); with no positive income it changes nothing, even
   * when the person does not exist.
   */
  lemma IncomeSourcesOutcome(year: int, root: Entries, personId: Option<string>, selfEmployment: int, pension: int,
                             property: int, savingsInterest: int, dividend: int, miscellaneous: int)
    ensures IncomeSources(year, root, personId, selfEmployment, pension, property, savingsInterest, dividend, miscellaneous)
         == match IncomePerson(root, personId)
            case Failure(e) => Failure(e)
            case Success(id) =>
              var p := PositiveYearly(year, IncomeFields(selfEmployment, pension, property, savingsInterest, dividend, miscellaneous));
              if p == [] then Success(root)
              else if Writable(root, "people", id) then Success(NestedUpdate(root, "people", id, p))
              else Failure(PathError(root, "people", id))
  {
    var id := IncomePerson(root, personId);
    if id.Success? {
      WritePositiveClosedForm(root, "people", id.value, year,
                              IncomeFields(selfEmployment, pension, property, savingsInterest, dividend, miscellaneous));
    }
  }

  /** `set_region`: check the region, then set the first household's region. */
  function RegionEdit(year: int, root: Entries, region: string): Result<Entries, Error>
  {
    match UkRegions.CheckRegion(region)
    case Some(e) => Failure(e)
    case None =>
      var hid :- FirstId(root, "households");
      SetField(root, "households", hid, "region", Yearly(year, Str(region)))
  }

  /** Setting a field twice to the same value is setting it once. */
  lemma SetFieldTwice(root: Entries, group: string, id: Key, field: string, v: Value)
    requires Writable(root, group, id)
    ensures SetField(SetField(root, group, id, field, v).value, group, id, field, v) == SetField(root, group, id, field, v)
  {
    var f := [(KStr(field), v)];
    NestedUpdateCompose(root, group, id, f, f);
    AssignIdempotent(RecordEntries(root, group, id), KStr(field), v);
    assert Update(RecordEntries(root, group, id), f + f) == Update(RecordEntries(root, group, id), f);
  }

  /**
   * `set_region` rejects an invalid region before looking at the situation;
   * with a valid one it sets `{year: region}` on the first household and
   * changes nothing else: that household's other attributes, the other
   * households, their order and everything outside `households` are kept,
   * and applying it twice is applying it once.
   */
  lemma RegionEditEffect(year: int, root: Entries, region: string, k: Key, other: Key, attr: string)
    ensures region !in UkRegions.VALID_REGIONS ==>
              RegionEdit(year, root, region) == Failure(ValueError(UkRegions.RegionMessage()))
    ensures RegionEdit(year, root, region).Success? ==>
              var r := RegionEdit(year, root, region).value;
              var hid := FirstId(root, "households").value;
              && Writable(r, "households", hid)
              && Lookup(RecordEntries(r, "households", hid), KStr("region")) == Some(Yearly(year, Str(region)))
              && (attr != "region" ==>
                    Lookup(RecordEntries(r, "households", hid), KStr(attr)) == Lookup(RecordEntries(root, "households", hid), KStr(attr)))
              && (other != hid ==>
                    Lookup(GroupEntries(r, "households"), other) == Lookup(GroupEntries(root, "households"), other))
              && Keys(GroupEntries(r, "households")) == Keys(GroupEntries(root, "households"))
              && (k != KStr("households") ==> Lookup(r, k) == Lookup(root, k))
              && RegionEdit(year, r, region) == RegionEdit(year, root, region)
  {
    var out := RegionEdit(year, root, region);
    if out.Success? {
      var hid := FirstId(root, "households").value;
      var v := Yearly(year, Str(region));
      var f := [(KStr("region"), v)];
      NestedUpdateLookups(root, "households", hid, f, k, other);
      var rec := RecordEntries(root, "households", hid);
      LookupAssign(rec, KStr("region"), v, KStr("region"));
      LookupAssign(rec, KStr("region"), v, KStr(attr));
      var r := out.value;
      assert FirstId(r, "households") == FirstId(root, "households") by {
        assert GroupEntries(r, "households")[0].0 == Keys(GroupEntries(r, "households"))[0];
      }
      SetFieldTwice(root, "households", hid, "region", v);
    }
  }

  /** `set_state_nyc`: on the first household, `state_name` becomes "NY" and `in_nyc` the value given. */
  function NycEdit(year: int, root: Entries, inNyc: Value): Result<Entries, Error>
  {
    var hid :- FirstId(root, "households");
    var r :- SetField(root, "households", hid, "state_name", Yearly(year, Str("NY")));
    SetField(r, "households", hid, "in_nyc", Yearly(year, inNyc))
  }

  /**
   * `set_state_nyc` fails exactly when the first household cannot be
   * found or is not a dict; otherwise that household is in New York with
   * the `in_nyc` value given, its other attributes are kept, and so are the
   * other households, their order and everything outside `households`.
   */
  lemma NycEditEffect(year: int, root: Entries, inNyc: Value, k: Key, other: Key, attr: string)
    ensures NycEdit(year, root, inNyc).Success? <==>
              FirstId(root, "households").Success? && Writable(root, "households", FirstId(root, "households").value)
    ensures NycEdit(year, root, inNyc).Success? ==>
              var r := NycEdit(year, root, inNyc).value;
              var hid := FirstId(root, "households").value;
              && Writable(r, "households", hid)
              && Lookup(RecordEntries(r, "households", hid), KStr("state_name")) == Some(Yearly(year, Str("NY")))
              && Lookup(RecordEntries(r, "households", hid), KStr("in_nyc")) == Some(Yearly(year, inNyc))
              && (attr != "state_name" && attr != "in_nyc" ==>
                    Lookup(RecordEntries(r, "households", hid), KStr(attr)) == Lookup(RecordEntries(root, "households", hid), KStr(attr)))
              && (other != hid ==>
                    Lookup(GroupEntries(r, "households"), other) == Lookup(GroupEntries(root, "households"), other))
              && Keys(GroupEntries(r, "households")) == Keys(GroupEntries(root, "households"))
              && (k != KStr("households") ==> Lookup(r, k) == Lookup(root, k))
  {
    var first := FirstId(root, "households");
    if first.Success? && Writable(root, "households", first.value) {
      NycEditValue(year, root, inNyc, first.value);
      NycFieldsEffect(year, root, first.value, inNyc, k, other, attr);
    }
  }

  /** The two attributes `set_state_nyc` writes. */
  function NycFields(year: int, inNyc: Value): Entries
  {
    [(KStr("state_name"), Yearly(year, Str("NY"))), (KStr("in_nyc"), Yearly(year, inNyc))]
  }

  /** The two writes of `set_state_nyc` are one update of the household with both attributes. */
  lemma NycEditValue(year: int, root: Entries, inNyc: Value, hid: Key)
    requires FirstId(root, "households") == Success(hid) && Writable(root, "households", hid)
    ensures NycEdit(year, root, inNyc) == Success(NestedUpdate(root, "households", hid, NycFields(year, inNyc)))
  {
    var f1 := [(KStr("state_name"), Yearly(year, Str("NY")))];
    var f2 := [(KStr("in_nyc"), Yearly(year, inNyc))];
    NestedUpdateCompose(root, "households", hid, f1, f2);
    assert f1 + f2 == NycFields(year, inNyc);
  }

  /** What updating a household with both attributes does to the situation. */
  lemma NycFieldsEffect(year: int, root: Entries, hid: Key, inNyc: Value, k: Key, other: Key, attr: string)
    requires Writable(root, "households", hid)
    ensures var r := NestedUpdate(root, "households", hid, NycFields(year, inNyc));
            && Writable(r, "households", hid)
            && Lookup(RecordEntries(r, "households", hid), KStr("state_name")) == Some(Yearly(year, Str("NY")))
            && Lookup(RecordEntries(r, "households", hid), KStr("in_nyc")) == Some(Yearly(year, inNyc))
            && (attr != "state_name" && attr != "in_nyc" ==>
                  Lookup(RecordEntries(r, "households", hid), KStr(attr)) == Lookup(RecordEntries(root, "households", hid), KStr(attr)))
            && (other != hid ==>
                  Lookup(GroupEntries(r, "households"), other) == Lookup(GroupEntries(root, "households"), other))
            && Keys(GroupEntries(r, "households")) == Keys(GroupEntries(root, "households"))
            && (k != KStr("households") ==> Lookup(r, k) == Lookup(root, k))
  {
    var both := NycFields(year, inNyc);
    NestedUpdateLookups(root, "households", hid, both, k, other);
    var rec := RecordEntries(root, "households", hid);
    LookupUpdate(rec, both, KStr("state_name"));
    LookupUpdate(rec, both, KStr("in_nyc"));
    LookupUpdate(rec, both, KStr(attr));
  }

  // ---------------------------------------------------------------------
  // The situation as an object edited in place

  /** A method's outcome is the one the function gives: the new dict, or the exception with the dict untouched. */
  predicate Applied(before: Entries, after: Entries, err: Option<Error>, outcome: Result<Entries, Error>)
  {
    match outcome
    case Success(r) => err.None? && after == r
    case Failure(e) => err == Some(e) && after == before
  }

  /** Writes `todo` are still to do on `root`, which `start` has become, and together they give `outcome`. */
  predicate Pending(start: Entries, root: Entries, group: string, id: Key, year: int,
                    outcome: Result<Entries, Error>, todo: seq<(string, int)>)
  {
    && (root == start || Writable(root, group, id))
    && outcome == WritePositive(root, group, id, year, todo)
  }

  /** A situation dict; the editors change it and return it, or raise. */
  class Situation {
    var root: Entries

    constructor(root: Entries)
      ensures this.root == root
    {
      this.root := root;
    }

    /** `add_axes` */
    method AddAxes(year: int, variableName: string, minVal: int, maxVal: int, count: int)
      modifies this
      ensures root == WithAxes(year, old(root), variableName, minVal, maxVal, count)
    {
      root := Assign(root, KStr("axes"), Axes(year, variableName, minVal, maxVal, count));
    }

    /**
     * One conditional write of a sequence of them: a positive amount is
     * stored as `{year: amount}`.  `todo` holds this write and the ones
     * after it, and `outcome` is what the whole sequence gives from `start`.
     */
    method WriteIfPositive(group: string, id: Key, year: int, field: string, amount: int,
                           ghost start: Entries, ghost outcome: Result<Entries, Error>, ghost todo: seq<(string, int)>)
      returns (err: Option<Error>)
      requires todo != [] && todo[0] == (field, amount)
      requires Pending(start, root, group, id, year, outcome, todo)
      modifies this
      ensures err.None? ==> Pending(start, root, group, id, year, outcome, todo[1..])
      ensures err.Some? ==> Applied(start, root, err, outcome)
    {
      if amount > 0 {
        var r := SetField(root, group, id, field, Yearly(year, Int(amount)));
        if r.Failure? {
          return Some(r.error);
        }
        root := r.value;
      }
      return None;
    }

    /** `add_itemized_deductions` */
    method AddItemizedDeductions(year: int, charitable: int, mortgage: int, realEstate: int, medical: int, casualty: int)
      returns (err: Option<Error>)
      modifies this
      ensures Applied(old(root), root, err, ItemizedDeductions(year, old(root), charitable, mortgage, realEstate, medical, casualty))
    {
      var first := FirstId(root, "people");
      if first.Failure? {
        return Some(first.error);
      }
      var id := first.value;
      ghost var start := root;
      ghost var fields := DeductionFields(charitable, mortgage, realEstate, medical, casualty);
      ghost var outcome := WritePositive(start, "people", id, year, fields);
      assert ItemizedDeductions(year, start, charitable, mortgage, realEstate, medical, casualty) == outcome;
      ghost var todo := fields;
      err := WriteIfPositive("people", id, year, "charitable_cash_donations", charitable, start, outcome, todo);
      if err.Some? { return; }
      todo := todo[1..];
      err := WriteIfPositive("people", id, year, "mortgage_interest", mortgage, start, outcome, todo);
      if err.Some? { return; }
      todo := todo[1..];
      err := WriteIfPositive("people", id, year, "real_estate_taxes", realEstate, start, outcome, todo);
      if err.Some? { return; }
      todo := todo[1..];
      err := WriteIfPositive("people", id, year, "medical_expense", medical, start, outcome, todo);
      if err.Some? { return; }
      todo := todo[1..];
      err := WriteIfPositive("people", id, year, "casualty_loss", casualty, start, outcome, todo);
      if err.Some? { return; }
      todo := todo[1..];
      assert todo == [];
    }

    /** `add_income_sources` */
    method AddIncomeSources(year: int, personId: Option<string>, selfEmployment: int, pension: int, property: int,
                            savingsInterest: int, dividend: int, miscellaneous: int)
      returns (err: Option<Error>)
      modifies this
      ensures Applied(old(root), root, err,
                      IncomeSources(year, old(root), personId, selfEmployment, pension, property, savingsInterest, dividend, miscellaneous))
    {
      var person := IncomePerson(root, personId);
      if person.Failure? {
        return Some(person.error);
      }
      var id := person.value;
      ghost var start := root;
      ghost var fields := IncomeFields(selfEmployment, pension, property, savingsInterest, dividend, miscellaneous);
      ghost var outcome := WritePositive(start, "people", id, year, fields);
      assert IncomeSources(year, start, personId, selfEmployment, pension, property, savingsInterest, dividend, miscellaneous) == outcome;
      ghost var todo := fields;
      err := WriteIfPositive("people", id, year, "self_employment_income", selfEmployment, start, outcome, todo);
      if err.Some? { return; }
      todo := todo[1..];
      err := WriteIfPositive("people", id, year, "pension_income", pension, start, outcome, todo);
      if err.Some? { return; }
      todo := todo[1..];
      err := WriteIfPositive("people", id, year, "property_income", property, start, outcome, todo);
      if err.Some? { return; }
      todo := todo[1..];
      err := WriteIfPositive("people", id, year, "savings_interest_income", savingsInterest, start, outcome, todo);
      if err.Some? { return; }
      todo := todo[1..];
      err := WriteIfPositive("people", id, year, "dividend_income", dividend, start, outcome, todo);
      if err.Some? { return; }
      todo := todo[1..];
      err := WriteIfPositive("people", id, year, "miscellaneous_income", miscellaneous, start, outcome, todo);
      if err.Some? { return; }
      todo := todo[1..];
      assert todo == [];
    }

    /** `set_region` */
    method SetRegion(year: int, region: string) returns (err: Option<Error>)
      modifies this
      ensures Applied(old(root), root, err, RegionEdit(year, old(root), region))
    {
      err := UkRegions.CheckRegion(region);
      if err.Some? {
        return;
      }
      var hid := FirstId(root, "households");
      if hid.Failure? {
        return Some(hid.error);
      }
      var r := SetField(root, "households", hid.value, "region", Yearly(year, Str(region)));
      if r.Failure? {
        return Some(r.error);
      }
      root := r.value;
    }

    /** `set_state_nyc` */
    method SetStateNyc(year: int, inNyc: Value) returns (err: Option<Error>)
      modifies this
      ensures Applied(old(root), root, err, NycEdit(year, old(root), inNyc))
    {
      var hid := FirstId(root, "households");
      if hid.Failure? {
        return Some(hid.error);
      }
      var r := SetField(root, "households", hid.value, "state_name", Yearly(year, Str("NY")));
      if r.Failure? {
        return Some(r.error);
      }
      root := r.value;
      r := SetField(root, "households", hid.value, "in_nyc", Yearly(year, inNyc));
      root := r.value;
      return None;
    }
  }
}
