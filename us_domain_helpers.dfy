/**
 * skills/domain-knowledge/policyengine-us-skill/scripts/situation_helpers.py
 * (`CURRENT_YEAR = 2026`): the arguments of `USHouseholdInput` for the new
 * API, and the legacy situation builders and editors at this file's year.
 */
module UsDomainHelpers {
  import opened PyValues
  import opened Households
  import opened Situations
  import UsLegacy

  const CURRENT_YEAR := 2026

  // ---------------------------------------------------------------------
  // create_us_household_input

  /** The entity keys whose keyword arguments are merged into the result, in this order. */
  const MERGE_KEYS: seq<string> := ["household", "tax_unit", "spm_unit", "family", "marital_unit"]

  /**
   * `MERGE_KEYS`, as a value that is not a literal: the merge loop over it
   * is then unfolded only as far as a proof asks.
   */
  function MergeKeys(): (keys: seq<string>)
    ensures |keys| == |MERGE_KEYS| && forall i :: 0 <= i < |keys| ==> keys[i] == MERGE_KEYS[i]
  {
    seq(|MERGE_KEYS|, i requires 0 <= i < |MERGE_KEYS| => MERGE_KEYS[i])
  }

  /** The merge keys are distinct. */
  lemma MergeKeysDistinct()
    ensures forall i, j :: 0 <= i < j < |MergeKeys()| ==> MergeKeys()[i] != MergeKeys()[j]
  {
  }

  const HOUSEHOLD_INPUT_PARAMS: set<string> := {"people", "year", "state", "filing_status"}

  /** `if filing_status:` (a missing filing status is `None`, which is false). */
  predicate Filed(filingStatus: Option<Value>)
  {
    filingStatus.Some? && Truthy(filingStatus.value)
  }

  /**
   * What `result[key]` becomes when `kwargs[key]` is merged:
   * `result[key].update(extra)` when the key is already there, else `extra`.
   */
  function Merged(current: Option<Value>, extra: Value): Result<Value, Error>
  {
    match current
    case None => Success(extra)
    case Some(Dict(c)) => if extra.Dict? then Success(Dict(Update(c, extra.entries))) else Failure(TypeError)
    case Some(_) => Failure(AttributeError)
  }

  /** One iteration of the merge loop. */
  function MergeKey(result: Entries, key: string, kwargs: Entries): Result<Entries, Error>
  {
    match Lookup(kwargs, KStr(key))
    case None => Success(result)
    case Some(extra) =>
      var v :- Merged(Lookup(result, KStr(key)), extra);
      Success(Assign(result, KStr(key), v))
  }

  /** The merge loop over `keys`. */
  function MergeAll(result: Entries, keys: seq<string>, kwargs: Entries): Result<Entries, Error>
    decreases |keys|
  {
    if keys == [] then Success(result)
    else
      var r :- MergeKey(result, keys[0], kwargs);
      MergeAll(r, keys[1..], kwargs)
  }

  /** `result` before the merge loop. */
  function BaseInput(people: Value, year: int, state: string, filingStatus: Option<Value>): Entries
  {
    [(KStr("people"), people), (KStr("year"), Int(year)), (KStr("household"), Dict([(KStr("state_code_str"), Str(state))]))]
    + if Filed(filingStatus) then [(KStr("tax_unit"), Dict([(KStr("filing_status"), filingStatus.value)]))] else []
  }

  /** `create_us_household_input`, as the dict it returns or the exception it raises. */
  function HouseholdInputSpec(people: Value, year: int, state: string, filingStatus: Option<Value>, kwargs: Entries)
    : Result<Entries, Error>
  {
    MergeAll(BaseInput(people, year, state, filingStatus), MergeKeys(), kwargs)
  }

  /** `create_us_household_input` */
  method CreateUsHouseholdInput(people: Value, year: int, state: string, filingStatus: Option<Value>, kwargs: Entries)
    returns (r: Result<Entries, Error>)
    requires IsKwargs(kwargs, HOUSEHOLD_INPUT_PARAMS)
    ensures r == HouseholdInputSpec(people, year, state, filingStatus, kwargs)
  {
    var result := [(KStr("people"), people), (KStr("year"), Int(year)),
                   (KStr("household"), Dict([(KStr("state_code_str"), Str(state))]))];
    if Filed(filingStatus) {
      assert Keys(result) == [KStr("people"), KStr("year"), KStr("household")];
      result := Assign(result, KStr("tax_unit"), Dict([(KStr("filing_status"), filingStatus.value)]));
    }
    assert result == BaseInput(people, year, state, filingStatus);
    assert MergeKeys()[0..] == MergeKeys();
    for i := 0 to |MergeKeys()|
      invariant HouseholdInputSpec(people, year, state, filingStatus, kwargs) == MergeAll(result, MergeKeys()[i..], kwargs)
    {
      var key := MergeKeys()[i];
      assert MergeKeys()[i..][0] == key && MergeKeys()[i..][1..] == MergeKeys()[i + 1..];
      var extra := Lookup(kwargs, KStr(key));
      if extra.Some? {
        var current := Lookup(result, KStr(key));
        if current.Some? {
          if !current.value.Dict? {
            return Failure(AttributeError);
          }
          if !extra.value.Dict? {
            return Failure(TypeError);
          }
          result := Assign(result, KStr(key), Dict(Update(current.value.entries, extra.value.entries)));
        } else {
          result := Assign(result, KStr(key), extra.value);
        }
      }
    }
    assert MergeKeys()[|MergeKeys()|..] == [];
    return Success(result);
  }

  /** Every merge of the loop can be done: no key of `keys` meets a value that cannot be merged. */
  predicate MergeOk(result: Entries, keys: seq<string>, kwargs: Entries)
  {
    forall i :: 0 <= i < |keys| && Lookup(kwargs, KStr(keys[i])).Some? ==>
      Merged(Lookup(result, KStr(keys[i])), Lookup(kwargs, KStr(keys[i])).value).Success?
  }

  /** The value of key `k` after the merge loop. */
  function AfterMerge(result: Entries, keys: seq<string>, kwargs: Entries, k: string): Option<Value>
  {
    if k in keys && Lookup(kwargs, KStr(k)).Some? then
      match Merged(Lookup(result, KStr(k)), Lookup(kwargs, KStr(k)).value)
      case Success(v) => Some(v)
      case Failure(_) => None
    else Lookup(result, KStr(k))
  }

  /**
   * The merge loop over distinct keys succeeds exactly when every merge it
   * meets can be done, and then each key of `keys` given in `kwargs` holds
   * its merged value while every other key keeps its value.
   */
  lemma {:induction false} MergeAllEffect(result: Entries, keys: seq<string>, kwargs: Entries, k: string)
    requires forall i, j :: 0 <= i < j < |keys| ==> keys[i] != keys[j]
    ensures MergeAll(result, keys, kwargs).Success? <==> MergeOk(result, keys, kwargs)
    ensures MergeAll(result, keys, kwargs).Success? ==>
              Lookup(MergeAll(result, keys, kwargs).value, KStr(k)) == AfterMerge(result, keys, kwargs, k)
    decreases |keys|
  {
    if keys != [] {
      var key := keys[0];
      var rest := keys[1..];
      assert forall i, j :: 0 <= i < j < |rest| ==> rest[i] != rest[j] by {
        forall i, j | 0 <= i < j < |rest| ensures rest[i] != rest[j] {
          assert rest[i] == keys[i + 1] && rest[j] == keys[j + 1];
        }
      }
      assert forall i :: 0 <= i < |rest| ==> rest[i] != key by {
        forall i | 0 <= i < |rest| ensures rest[i] != key {
          assert rest[i] == keys[i + 1];
        }
      }
      var step := MergeKey(result, key, kwargs);
      if step.Success? {
        var r1 := step.value;
        MergeAllEffect(r1, rest, kwargs, k);
        MergeKeyKeeps(result, key, kwargs, r1);
        assert MergeOk(result, keys, kwargs) <==> MergeOk(r1, rest, kwargs) by {
          if MergeOk(r1, rest, kwargs) {
            forall i | 0 <= i < |keys| && Lookup(kwargs, KStr(keys[i])).Some?
              ensures Merged(Lookup(result, KStr(keys[i])), Lookup(kwargs, KStr(keys[i])).value).Success?
            {
              if i > 0 {
                assert keys[i] == rest[i - 1];
              }
            }
          }
          if MergeOk(result, keys, kwargs) {
            forall i | 0 <= i < |rest| && Lookup(kwargs, KStr(rest[i])).Some?
              ensures Merged(Lookup(r1, KStr(rest[i])), Lookup(kwargs, KStr(rest[i])).value).Success?
            {
              assert rest[i] == keys[i + 1];
            }
          }
        }
        if MergeAll(result, keys, kwargs).Success? {
          if k == key {
            assert k !in rest;
            LookupAssignOrSame(result, key, kwargs, r1);
          }
        }
      } else {
        assert Lookup(kwargs, KStr(keys[0])).Some?;
        assert !MergeOk(result, keys, kwargs);
      }
    }
  }

  /** A merge only changes its own key. */
  lemma MergeKeyKeeps(result: Entries, key: string, kwargs: Entries, r1: Entries)
    requires MergeKey(result, key, kwargs) == Success(r1)
    ensures forall k :: k != key ==> Lookup(r1, KStr(k)) == Lookup(result, KStr(k))
  {
    forall k | k != key
      ensures Lookup(r1, KStr(k)) == Lookup(result, KStr(k))
    {
      var extra := Lookup(kwargs, KStr(key));
      if extra.Some? {
        LookupAssign(result, KStr(key), Merged(Lookup(result, KStr(key)), extra.value).value, KStr(k));
      }
    }
  }

  /** A merge sets its own key to the merged value, when `kwargs` has that key. */
  lemma LookupAssignOrSame(result: Entries, key: string, kwargs: Entries, r1: Entries)
    requires MergeKey(result, key, kwargs) == Success(r1)
    ensures Lookup(kwargs, KStr(key)).Some? ==>
              Lookup(r1, KStr(key)) == Some(Merged(Lookup(result, KStr(key)), Lookup(kwargs, KStr(key)).value).value)
    ensures Lookup(kwargs, KStr(key)).None? ==> r1 == result
  {
    var extra := Lookup(kwargs, KStr(key));
    if extra.Some? {
      LookupAssign(result, KStr(key), Merged(Lookup(result, KStr(key)), extra.value).value, KStr(key));
    }
  }

  /** The value of each key of `BaseInput`. */
  lemma BaseInputLookups(people: Value, year: int, state: string, filingStatus: Option<Value>)
    ensures Lookup(BaseInput(people, year, state, filingStatus), KStr("people")) == Some(people)
    ensures Lookup(BaseInput(people, year, state, filingStatus), KStr("year")) == Some(Int(year))
    ensures Lookup(BaseInput(people, year, state, filingStatus), KStr("household"))
         == Some(Dict([(KStr("state_code_str"), Str(state))]))
    ensures Lookup(BaseInput(people, year, state, filingStatus), KStr("tax_unit"))
         == if Filed(filingStatus) then Some(Dict([(KStr("filing_status"), filingStatus.value)])) else None
    ensures forall k :: k !in {"people", "year", "household", "tax_unit"} ==>
              Lookup(BaseInput(people, year, state, filingStatus), KStr(k)) == None
  {
    var b := BaseInput(people, year, state, filingStatus);
    LookupFound(b, 1, KStr("year"));
    LookupFound(b, 2, KStr("household"));
    if Filed(filingStatus) {
      LookupFound(b, 3, KStr("tax_unit"));
    } else {
      LookupFinds(b, KStr("tax_unit"));
    }
    forall k | k !in {"people", "year", "household", "tax_unit"}
      ensures Lookup(b, KStr(k)) == None
    {
      LookupFinds(b, KStr(k));
    }
  }

  /** Whether the merge loop runs through, in terms of the keyword arguments. */
  lemma HouseholdInputOutcome(people: Value, year: int, state: string, filingStatus: Option<Value>, kwargs: Entries)
    ensures HouseholdInputSpec(people, year, state, filingStatus, kwargs).Failure?
            <==> Rejected(kwargs, "household") || (Filed(filingStatus) && Rejected(kwargs, "tax_unit"))
    ensures HouseholdInputSpec(people, year, state, filingStatus, kwargs).Failure? ==>
              HouseholdInputSpec(people, year, state, filingStatus, kwargs).error == TypeError
  {
    var b := BaseInput(people, year, state, filingStatus);
    BaseInputLookups(people, year, state, filingStatus);
    MergeKeysDistinct();
    MergeAllEffect(b, MergeKeys(), kwargs, "household");
    assert MergeOk(b, MergeKeys(), kwargs) <==> !(Rejected(kwargs, "household") || (Filed(filingStatus) && Rejected(kwargs, "tax_unit"))) by {
      assert MergeKeys()[0] == "household" && MergeKeys()[1] == "tax_unit";
      forall i | 0 <= i < |MergeKeys()| && 2 <= i
        ensures Lookup(b, KStr(MergeKeys()[i])) == None
      {
      }
    }
    if HouseholdInputSpec(people, year, state, filingStatus, kwargs).Failure? {
      FailureIsTypeError(b, MergeKeys(), kwargs);
    }
  }

  /** After a merge loop that runs through, the people and the year are as given. */
  lemma HouseholdInputKept(people: Value, year: int, state: string, filingStatus: Option<Value>, kwargs: Entries)
    ensures HouseholdInputSpec(people, year, state, filingStatus, kwargs).Success? ==>
              var r := HouseholdInputSpec(people, year, state, filingStatus, kwargs).value;
              && Lookup(r, KStr("people")) == Some(people)
              && Lookup(r, KStr("year")) == Some(Int(year))
  {
    var b := BaseInput(people, year, state, filingStatus);
    BaseInputLookups(people, year, state, filingStatus);
    MergeKeysDistinct();
    MergeAllEffect(b, MergeKeys(), kwargs, "people");
    MergeAllEffect(b, MergeKeys(), kwargs, "year");
  }

  /** After a merge loop that runs through, the household is the state code updated with its keyword argument. */
  lemma HouseholdInputHousehold(people: Value, year: int, state: string, filingStatus: Option<Value>, kwargs: Entries)
    ensures HouseholdInputSpec(people, year, state, filingStatus, kwargs).Success? ==>
              Lookup(HouseholdInputSpec(people, year, state, filingStatus, kwargs).value, KStr("household"))
              == Some(Dict(Update([(KStr("state_code_str"), Str(state))], Extra(kwargs, "household"))))
  {
    var b := BaseInput(people, year, state, filingStatus);
    BaseInputLookups(people, year, state, filingStatus);
    MergeKeysDistinct();
    MergeAllEffect(b, MergeKeys(), kwargs, "household");
    if Lookup(kwargs, KStr("household")).None? {
      assert Extra(kwargs, "household") == [];
    }
  }

  /** After a merge loop that runs through, the tax unit holds the filing status, when it is truthy, updated with its keyword argument. */
  lemma HouseholdInputTaxUnit(people: Value, year: int, state: string, filingStatus: Option<Value>, kwargs: Entries)
    ensures HouseholdInputSpec(people, year, state, filingStatus, kwargs).Success? ==>
              Lookup(HouseholdInputSpec(people, year, state, filingStatus, kwargs).value, KStr("tax_unit"))
              == (if Filed(filingStatus) then Some(Dict(Update([(KStr("filing_status"), filingStatus.value)], Extra(kwargs, "tax_unit"))))
                  else Lookup(kwargs, KStr("tax_unit")))
  {
    var b := BaseInput(people, year, state, filingStatus);
    BaseInputLookups(people, year, state, filingStatus);
    MergeKeysDistinct();
    MergeAllEffect(b, MergeKeys(), kwargs, "tax_unit");
    if Filed(filingStatus) && Lookup(kwargs, KStr("tax_unit")).None? {
      assert Extra(kwargs, "tax_unit") == [];
    }
  }

  /** After a merge loop that runs through, a key `result` does not start with. */
  lemma HouseholdInputOther(people: Value, year: int, state: string, filingStatus: Option<Value>, kwargs: Entries, k: string)
    ensures HouseholdInputSpec(people, year, state, filingStatus, kwargs).Success? ==>
              var r := HouseholdInputSpec(people, year, state, filingStatus, kwargs).value;
              && (k in {"spm_unit", "family", "marital_unit"} ==> Lookup(r, KStr(k)) == Lookup(kwargs, KStr(k)))
              && (k !in {"people", "year"} && k !in MERGE_KEYS ==> Lookup(r, KStr(k)) == None)
  {
    var b := BaseInput(people, year, state, filingStatus);
    BaseInputLookups(people, year, state, filingStatus);
    MergeKeysDistinct();
    MergeAllEffect(b, MergeKeys(), kwargs, k);
    if k in {"spm_unit", "family", "marital_unit"} {
      assert k in MergeKeys() by {
        assert MergeKeys()[2] == "spm_unit" && MergeKeys()[3] == "family" && MergeKeys()[4] == "marital_unit";
      }
    }
  }

  /**
   * `create_us_household_input` raises (a TypeError) exactly when a
   * `household` keyword argument, or a `tax_unit` one when a filing status
   * is set, is not a dict.  Otherwise the result holds the people and the
   * year; the household is `{"state_code_str": state}` updated with the
   * `household` argument; the tax unit is `{"filing_status": ...}` updated
   * with the `tax_unit` argument when the filing status is truthy, and is
   * the `tax_unit` argument (or absent) when it is not; `spm_unit`, `family`
   * and `marital_unit` are their arguments; every other keyword argument
   * is ignored.
   */
  lemma HouseholdInputFacts(people: Value, year: int, state: string, filingStatus: Option<Value>, kwargs: Entries, k: string)
    ensures HouseholdInputSpec(people, year, state, filingStatus, kwargs).Failure?
            <==> Rejected(kwargs, "household") || (Filed(filingStatus) && Rejected(kwargs, "tax_unit"))
    ensures HouseholdInputSpec(people, year, state, filingStatus, kwargs).Failure? ==>
              HouseholdInputSpec(people, year, state, filingStatus, kwargs).error == TypeError
    ensures HouseholdInputSpec(people, year, state, filingStatus, kwargs).Success? ==>
              var r := HouseholdInputSpec(people, year, state, filingStatus, kwargs).value;
              && Lookup(r, KStr("people")) == Some(people)
              && Lookup(r, KStr("year")) == Some(Int(year))
              && Lookup(r, KStr("household"))
                 == Some(Dict(Update([(KStr("state_code_str"), Str(state))], Extra(kwargs, "household"))))
              && Lookup(r, KStr("tax_unit"))
                 == (if Filed(filingStatus) then Some(Dict(Update([(KStr("filing_status"), filingStatus.value)], Extra(kwargs, "tax_unit"))))
                     else Lookup(kwargs, KStr("tax_unit")))
              && (k in {"spm_unit", "family", "marital_unit"} ==> Lookup(r, KStr(k)) == Lookup(kwargs, KStr(k)))
              && (k !in {"people", "year"} && k !in MERGE_KEYS ==> Lookup(r, KStr(k)) == None)
  {
    HouseholdInputOutcome(people, year, state, filingStatus, kwargs);
    HouseholdInputKept(people, year, state, filingStatus, kwargs);
    HouseholdInputHousehold(people, year, state, filingStatus, kwargs);
    HouseholdInputTaxUnit(people, year, state, filingStatus, kwargs);
    HouseholdInputOther(people, year, state, filingStatus, kwargs, k);
  }

  /** The merge loop fails only with a TypeError when every key still to merge that is present holds a dict. */
  lemma {:induction false} FailureIsTypeError(result: Entries, keys: seq<string>, kwargs: Entries)
    requires forall i, j :: 0 <= i < j < |keys| ==> keys[i] != keys[j]
    requires forall i :: 0 <= i < |keys| && Lookup(result, KStr(keys[i])).Some? ==> Lookup(result, KStr(keys[i])).value.Dict?
    requires MergeAll(result, keys, kwargs).Failure?
    ensures MergeAll(result, keys, kwargs).error == TypeError
    decreases |keys|
  {
    var step := MergeKey(result, keys[0], kwargs);
    if step.Success? {
      var r1 := step.value;
      var rest := keys[1..];
      MergeKeyKeeps(result, keys[0], kwargs, r1);
      forall i | 0 <= i < |rest| && Lookup(r1, KStr(rest[i])).Some?
        ensures Lookup(r1, KStr(rest[i])).value.Dict?
      {
        assert rest[i] == keys[i + 1];
      }
      assert forall i, j :: 0 <= i < j < |rest| ==> rest[i] != rest[j] by {
        forall i, j | 0 <= i < j < |rest| ensures rest[i] != rest[j] {
          assert rest[i] == keys[i + 1] && rest[j] == keys[j + 1];
        }
      }
      FailureIsTypeError(r1, rest, kwargs);
    }
  }

  // ---------------------------------------------------------------------
  // The *_input builders

  /** `{"age": age, "employment_income": income, "is_tax_unit_head": True}` */
  function HeadPerson(age: int, income: int): Entries
  {
    [(KStr("age"), Int(age)), (KStr("employment_income"), Int(income)), (KStr("is_tax_unit_head"), Bool(true))]
  }

  /** `{"age": age, "employment_income": income, "is_tax_unit_spouse": True}` */
  function SpousePerson(age: int, income: int): Entries
  {
    [(KStr("age"), Int(age)), (KStr("employment_income"), Int(income)), (KStr("is_tax_unit_spouse"), Bool(true))]
  }

  /** `{"age": age, "is_tax_unit_dependent": True}` */
  function DependentPerson(age: int): Value
  {
    Dict([(KStr("age"), Int(age)), (KStr("is_tax_unit_dependent"), Bool(true))])
  }

  /**
   * Forwarding `**kwargs` to `create_us_household_input` alongside explicit
   * `people=` and `filing_status=` raises a TypeError ("got multiple values
   * for keyword argument") when `kwargs` holds either name.
   */
  predicate ForwardClash(kwargs: Entries)
  {
    Lookup(kwargs, KStr("people")).Some? || Lookup(kwargs, KStr("filing_status")).Some?
  }

  /** Keyword arguments that name none of the callee's parameters can be forwarded to it. */
  lemma Forwardable(kwargs: Entries, params: set<string>)
    requires IsKwargs(kwargs, params) && "year" in params && "state" in params && !ForwardClash(kwargs)
    ensures IsKwargs(kwargs, HOUSEHOLD_INPUT_PARAMS)
  {
    forall i | 0 <= i < |kwargs|
      ensures kwargs[i].0.s !in HOUSEHOLD_INPUT_PARAMS
    {
      LookupFinds(kwargs, KStr("people"));
      LookupFinds(kwargs, KStr("filing_status"));
      assert kwargs[i].0 in Keys(kwargs);
    }
  }

  const SINGLE_FILER_INPUT_PARAMS: set<string> := {"income", "state", "age", "year"}

  /** `create_single_filer_input`: the keyword arguments are fields of the one person and are not forwarded. */
  method CreateSingleFilerInput(income: int, state: string, age: int, year: int, kwargs: Entries) returns (r: Entries)
    requires IsKwargs(kwargs, SINGLE_FILER_INPUT_PARAMS)
    ensures Success(r) == HouseholdInputSpec(List([Dict(Update(HeadPerson(age, income), kwargs))]), year, state, None, [])
  {
    var person := Update(HeadPerson(age, income), kwargs);
    HouseholdInputFacts(List([Dict(person)]), year, state, None, [], "people");
    var out := CreateUsHouseholdInput(List([Dict(person)]), year, state, None, []);
    return out.value;
  }

  /**
   * A single filer's input never fails: it holds one person, the head, whose
   * fields are the keyword arguments over `age`, `employment_income` and
   * `is_tax_unit_head` (age cannot be one, so it is the one given); the
   * household is `{"state_code_str": state}` and there is no tax unit.
   */
  lemma SingleFilerInputFacts(income: int, state: string, age: int, year: int, kwargs: Entries, a: string)
    requires IsKwargs(kwargs, SINGLE_FILER_INPUT_PARAMS)
    ensures var out := HouseholdInputSpec(List([Dict(Update(HeadPerson(age, income), kwargs))]), year, state, None, []);
            var person := Update(HeadPerson(age, income), kwargs);
            && out.Success?
            && Lookup(out.value, KStr("people")) == Some(List([Dict(person)]))
            && Lookup(person, KStr("age")) == Some(Int(age))
            && Lookup(person, KStr(a)) == (match Lookup(kwargs, KStr(a)) case Some(v) => Some(v) case None => Lookup(HeadPerson(age, income), KStr(a)))
            && Lookup(out.value, KStr("household")) == Some(Dict([(KStr("state_code_str"), Str(state))]))
            && Lookup(out.value, KStr("tax_unit")) == None
  {
    var person := Update(HeadPerson(age, income), kwargs);
    HouseholdInputFacts(List([Dict(person)]), year, state, None, [], "people");
    LookupUpdate(HeadPerson(age, income), kwargs, KStr(a));
    LookupFinds(kwargs, KStr(a));
    LookupUpdate(HeadPerson(age, income), kwargs, KStr("age"));
    KwargsNotParam(kwargs, SINGLE_FILER_INPUT_PARAMS, "age");
    assert Extra([], "household") == [];
  }

  const MARRIED_COUPLE_INPUT_PARAMS: set<string> := {"income_1", "income_2", "state", "age_1", "age_2", "year"}

  /** The two spouses of `create_married_couple_input`, head first. */
  function CouplePeople(income1: int, income2: int, age1: int, age2: int): Value
  {
    List([Dict(HeadPerson(age1, income1)), Dict(SpousePerson(age2, income2))])
  }

  /** `create_married_couple_input`: the keyword arguments are forwarded. */
  method CreateMarriedCoupleInput(income1: int, income2: int, state: string, age1: int, age2: int, year: int,
                                  kwargs: Entries) returns (r: Result<Entries, Error>)
    requires IsKwargs(kwargs, MARRIED_COUPLE_INPUT_PARAMS)
    ensures ForwardClash(kwargs) ==> r == Failure(TypeError)
    ensures !ForwardClash(kwargs) ==>
              r == HouseholdInputSpec(CouplePeople(income1, income2, age1, age2), year, state, Some(Str("JOINT")), kwargs)
  {
    if ForwardClash(kwargs) {
      return Failure(TypeError);
    }
    Forwardable(kwargs, MARRIED_COUPLE_INPUT_PARAMS);
    r := CreateUsHouseholdInput(CouplePeople(income1, income2, age1, age2), year, state, Some(Str("JOINT")), kwargs);
  }

  /**
   * A couple files jointly: the tax unit is `{"filing_status": "JOINT"}`
   * updated with the `tax_unit` keyword argument, so a `filing_status` there
   * wins; the input fails exactly when a forwarded `household` or
   * `tax_unit` is not a dict.
   */
  lemma MarriedCoupleInputFacts(income1: int, income2: int, state: string, age1: int, age2: int, year: int,
                                kwargs: Entries)
    requires IsKwargs(kwargs, MARRIED_COUPLE_INPUT_PARAMS) && !ForwardClash(kwargs)
    ensures var out := HouseholdInputSpec(CouplePeople(income1, income2, age1, age2), year, state, Some(Str("JOINT")), kwargs);
            && (out.Failure? <==> Rejected(kwargs, "household") || Rejected(kwargs, "tax_unit"))
            && (out.Success? ==>
                  && Lookup(out.value, KStr("people")) == Some(CouplePeople(income1, income2, age1, age2))
                  && Lookup(out.value, KStr("tax_unit"))
                     == Some(Dict(Update([(KStr("filing_status"), Str("JOINT"))], Extra(kwargs, "tax_unit")))))
  {
    HouseholdInputFacts(CouplePeople(income1, income2, age1, age2), year, state, Some(Str("JOINT")), kwargs, "people");
  }

  const FAMILY_INPUT_PARAMS: set<string> :=
    {"parent_income", "num_children", "child_ages", "state", "parent_age", "married", "spouse_income", "year"}

  /** The head, then the spouse (with the parent's age) exactly when married. */
  function FamilyInputAdults(parentIncome: int, parentAge: int, married: bool, spouseIncome: int): seq<Value>
  {
    [Dict(HeadPerson(parentAge, parentIncome))] + if married then [Dict(SpousePerson(parentAge, spouseIncome))] else []
  }

  /** `"JOINT" if married else "HEAD_OF_HOUSEHOLD"` */
  function FamilyFilingStatus(married: bool): string
  {
    if married then "JOINT" else "HEAD_OF_HOUSEHOLD"
  }

  /** `create_family_input`, as the arguments it returns or the exception it raises. */
  function FamilyInputSpec(parentIncome: int, numChildren: int, childAges: Option<seq<int>>, state: string,
                           parentAge: int, married: bool, spouseIncome: int, year: int, kwargs: Entries)
    : Result<Entries, Error>
  {
    var ages :- ResolveChildAges(numChildren, childAges);
    var people := FamilyInputAdults(parentIncome, parentAge, married, spouseIncome)
                  + seq(|ages|, i requires 0 <= i < |ages| => DependentPerson(ages[i]));
    if ForwardClash(kwargs) then Failure(TypeError)
    else HouseholdInputSpec(List(people), year, state, Some(Str(FamilyFilingStatus(married))), kwargs)
  }

  /** `create_family_input`: the people are built by the loop over the child ages. */
  method CreateFamilyInput(parentIncome: int, numChildren: int, childAges: Option<seq<int>>, state: string,
                           parentAge: int, married: bool, spouseIncome: int, year: int, kwargs: Entries)
    returns (r: Result<Entries, Error>)
    requires IsKwargs(kwargs, FAMILY_INPUT_PARAMS)
    ensures r == FamilyInputSpec(parentIncome, numChildren, childAges, state, parentAge, married, spouseIncome, year, kwargs)
  {
    var resolved := ResolveChildAges(numChildren, childAges);
    if resolved.Failure? {
      return Failure(resolved.error);
    }
    var ages := resolved.value;
    var people := [Dict(HeadPerson(parentAge, parentIncome))];
    if married {
      people := people + [Dict(SpousePerson(parentAge, spouseIncome))];
    }
    ghost var adults := people;
    for i := 0 to |ages|
      invariant people == adults + seq(i, j requires 0 <= j < i => DependentPerson(ages[j]))
    {
      people := people + [DependentPerson(ages[i])];
    }
    assert people == FamilyInputAdults(parentIncome, parentAge, married, spouseIncome)
                     + seq(|ages|, j requires 0 <= j < |ages| => DependentPerson(ages[j]));
    if ForwardClash(kwargs) {
      return Failure(TypeError);
    }
    Forwardable(kwargs, FAMILY_INPUT_PARAMS);
    r := CreateUsHouseholdInput(List(people), year, state, Some(Str(FamilyFilingStatus(married))), kwargs);
  }

  /**
   * A family input first checks `child_ages` (a mismatch is a ValueError
   * even when the keyword arguments clash); its people are the head, the
   * spouse exactly when married, then one dependent per age in order; it
   * files jointly exactly when married, else as head of household.
   */
  lemma FamilyInputFacts(parentIncome: int, numChildren: int, childAges: Option<seq<int>>, state: string,
                         parentAge: int, married: bool, spouseIncome: int, year: int, kwargs: Entries, i: nat)
    requires IsKwargs(kwargs, FAMILY_INPUT_PARAMS)
    ensures var out := FamilyInputSpec(parentIncome, numChildren, childAges, state, parentAge, married, spouseIncome, year, kwargs);
            && (out.Failure? <==> (childAges.Some? && |childAges.value| != numChildren) || ForwardClash(kwargs)
                                  || Rejected(kwargs, "household") || Rejected(kwargs, "tax_unit"))
            && (childAges.Some? && |childAges.value| != numChildren ==> out == Failure(ValueError(CHILD_AGES_MESSAGE)))
            && (out.Failure? && !(childAges.Some? && |childAges.value| != numChildren) ==> out.error == TypeError)
            && (out.Success? ==>
                  var ages := ResolveChildAges(numChildren, childAges).value;
                  var adults := if married then 2 else 1;
                  && Lookup(out.value, KStr("people")).Some?
                  && Lookup(out.value, KStr("people")).value.List?
                  && var people := Lookup(out.value, KStr("people")).value.items;
                  && |people| == adults + |ages|
                  && people[0] == Dict(HeadPerson(parentAge, parentIncome))
                  && (married ==> people[1] == Dict(SpousePerson(parentAge, spouseIncome)))
                  && (i < |ages| ==> people[adults + i] == DependentPerson(ages[i]))
                  && Lookup(out.value, KStr("tax_unit"))
                     == Some(Dict(Update([(KStr("filing_status"), Str(FamilyFilingStatus(married)))], Extra(kwargs, "tax_unit")))))
  {
    var out := FamilyInputSpec(parentIncome, numChildren, childAges, state, parentAge, married, spouseIncome, year, kwargs);
    if ResolveChildAges(numChildren, childAges).Success? && !ForwardClash(kwargs) {
      var ages := ResolveChildAges(numChildren, childAges).value;
      var people := FamilyInputAdults(parentIncome, parentAge, married, spouseIncome)
                    + seq(|ages|, j requires 0 <= j < |ages| => DependentPerson(ages[j]));
      HouseholdInputFacts(List(people), year, state, Some(Str(FamilyFilingStatus(married))), kwargs, "people");
    }
  }

  // ---------------------------------------------------------------------
  // Legacy situation builders at this file's year

  /** `create_single_filer`: the person's age and the household's state are for 2026. */
  function CreateSingleFiler(income: int, state: string, age: int, kwargs: Entries): (s: Value)
    requires IsKwargs(kwargs, UsLegacy.SINGLE_FILER_PARAMS)
    ensures Attr(s, "people", "person", "age") == Some(Yearly(CURRENT_YEAR, Int(age)))
    ensures Attr(s, "households", "household", "state_name") == Some(Yearly(CURRENT_YEAR, Str(state)))
    ensures Attr(s, "tax_units", "tax_unit", "members") == Some(Names(["person"]))
  {
    UsLegacy.SingleFilerPerson(CURRENT_YEAR, income, state, age, kwargs, "age");
    UsLegacy.SingleFilerUnits(CURRENT_YEAR, income, state, age, kwargs, "person");
    UsLegacy.SingleFiler(CURRENT_YEAR, income, state, age, kwargs)
  }

  /** `create_married_couple`: both spouses' attributes are for 2026. */
  function CreateMarriedCouple(income1: int, income2: int, state: string, age1: int, age2: int, kwargs: Entries): (s: Value)
    requires IsKwargs(kwargs, UsLegacy.MARRIED_COUPLE_PARAMS)
    ensures Entity(s, "people", "spouse_1") == Some(Dict(AgeIncome(CURRENT_YEAR, age1, income1)))
    ensures Entity(s, "people", "spouse_2") == Some(Dict(AgeIncome(CURRENT_YEAR, age2, income2)))
    ensures Attr(s, "tax_units", "tax_unit", "members") == Some(Names(["spouse_1", "spouse_2"]))
  {
    UsLegacy.MarriedCoupleFacts(CURRENT_YEAR, income1, income2, state, age1, age2, kwargs, "members");
    UsLegacy.MarriedCouple(CURRENT_YEAR, income1, income2, state, age1, age2, kwargs)
  }

  /** `create_family_with_children` at 2026. */
  method CreateFamilyWithChildren(parentIncome: int, numChildren: int, childAges: Option<seq<int>>, state: string,
                                  parentAge: int, married: bool, spouseIncome: int, kwargs: Entries)
    returns (r: Result<Value, Error>)
    requires IsKwargs(kwargs, UsLegacy.FAMILY_PARAMS)
    ensures r == UsLegacy.FamilySpec(CURRENT_YEAR, parentIncome, numChildren, childAges, state, parentAge, married,
                                     spouseIncome, kwargs)
  {
    r := UsLegacy.FamilyWithChildren(CURRENT_YEAR, parentIncome, numChildren, childAges, state, parentAge, married,
                                     spouseIncome, kwargs);
  }

  // ---------------------------------------------------------------------
  // Legacy editors at this file's year

  /** `add_itemized_deductions`: the amounts are for 2026. */
  method AddItemizedDeductions(s: Situation, charitable: int, mortgage: int, realEstate: int, medical: int, casualty: int)
    returns (err: Option<Error>)
    modifies s
    ensures Applied(old(s.root), s.root, err,
                    ItemizedDeductions(CURRENT_YEAR, old(s.root), charitable, mortgage, realEstate, medical, casualty))
  {
    err := s.AddItemizedDeductions(CURRENT_YEAR, charitable, mortgage, realEstate, medical, casualty);
  }

  /** `add_axes`: the sweep's period is 2026; `count` defaults to 1001 at the call. */
  method AddAxes(s: Situation, variableName: string, minVal: int, maxVal: int, count: int)
    modifies s
    ensures s.root == WithAxes(CURRENT_YEAR, old(s.root), variableName, minVal, maxVal, count)
  {
    s.AddAxes(CURRENT_YEAR, variableName, minVal, maxVal, count);
  }
}
