/**
 * The JSON-like Python values that the household helpers build and edit.
 *
 * A Python `dict` is an association list whose keys are unique and whose
 * order is insertion order: `list(d.keys())[0]` is the first entry.
 * `Assign` is `d[k] = v` (an existing key keeps its position, a new key is
 * appended) and `Update` is `d.update(other)`.
 */
module PyValues {

  datatype Option<+T> = None | Some(value: T)

  datatype Result<+T, +E> = Success(value: T) | Failure(error: E) {
    predicate IsFailure() { Failure? }
    function PropagateFailure<U>(): Result<U, E>
      requires Failure?
    {
      Failure(error)
    }
    function Extract(): T
      requires Success?
    {
      value
    }
  }

  /** Dictionary keys: strings, and the integer year of `{CURRENT_YEAR: v}`. */
  datatype Key = KStr(s: string) | KInt(n: int)

  /** Monetary amounts are only passed through or compared with 0, so they are integers here. */
  datatype Value =
    | Int(n: int)
    | Str(s: string)
    | Bool(b: bool)
    | List(items: seq<Value>)
    | Dict(entries: seq<(Key, Value)>)

  type Entries = seq<(Key, Value)>

  /** The Python exceptions the helpers can raise. */
  datatype Error =
    | ValueError(message: string)
    | KeyError(key: Key)
    | IndexError
    | AttributeError
    | TypeError

  /** Python truthiness (`if x:`) of a value. */
  predicate Truthy(v: Value)
  {
    match v
    case Int(n) => n != 0
    case Str(s) => s != ""
    case Bool(b) => b
    case List(items) => items != []
    case Dict(entries) => entries != []
  }

  /** `list(d.keys())` */
  function Keys(d: Entries): (ks: seq<Key>)
    ensures |ks| == |d|
    ensures forall i :: 0 <= i < |d| ==> ks[i] == d[i].0
  {
    seq(|d|, i requires 0 <= i < |d| => d[i].0)
  }

  /** No key occurs twice: every Python dict has this shape. */
  predicate UniqueKeys(d: Entries)
  {
    forall i, j :: 0 <= i < j < |d| ==> d[i].0 != d[j].0
  }

  /** `d.get(k)`: the value stored under `k`, if any. */
  function Lookup(d: Entries, k: Key): Option<Value>
  {
    if d == [] then None
    else if d[0].0 == k then Some(d[0].1)
    else Lookup(d[1..], k)
  }

  /** `d.get(k)` finds a value exactly when `k` is a key, and that value is stored under `k`. */
  lemma {:induction false} LookupFinds(d: Entries, k: Key)
    ensures Lookup(d, k).None? <==> k !in Keys(d)
    ensures Lookup(d, k).Some? ==> (k, Lookup(d, k).value) in d
  {
    if d != [] {
      var t := d[1..];
      LookupFinds(t, k);
      assert Keys(d) == [d[0].0] + Keys(t);
      if d[0].0 != k && Lookup(t, k).Some? {
        var j :| 0 <= j < |t| && t[j] == (k, Lookup(t, k).value);
        assert d[j + 1] == t[j];
      }
    }
  }

  /** The first entry whose key is `k` is the one `d.get(k)` returns. */
  lemma {:induction false} LookupFound(d: Entries, i: nat, k: Key)
    requires i < |d| && d[i].0 == k
    requires forall j :: 0 <= j < i ==> d[j].0 != k
    ensures Lookup(d, k) == Some(d[i].1)
  {
    if i > 0 {
      LookupFound(d[1..], i - 1, k);
    }
  }

  /** `list(d.keys())[0]`, which raises IndexError on an empty dict. */
  function FirstKey(d: Entries): (r: Result<Key, Error>)
    ensures r.Success? <==> d != []
    ensures r.Success? ==> r.value == Keys(d)[0] && Lookup(d, r.value) == Some(d[0].1)
    ensures r.Failure? ==> r.error == IndexError
  {
    if d == [] then Failure(IndexError) else Success(d[0].0)
  }

  /** `d[k] = v` */
  function Assign(d: Entries, k: Key, v: Value): (r: Entries)
    ensures k in Keys(d) ==> Keys(r) == Keys(d)
    ensures k !in Keys(d) ==> r == d + [(k, v)]
  {
    if d == [] then [(k, v)]
    else
      KeysCons(d[0], d[1..]);
      assert [d[0]] + d[1..] == d;
      if d[0].0 == k then
        KeysCons((k, v), d[1..]);
        [(k, v)] + d[1..]
      else
        var rest := Assign(d[1..], k, v);
        KeysCons(d[0], rest);
        assert rest == d[1..] + [(k, v)] ==> [d[0]] + rest == d + [(k, v)];
        [d[0]] + rest
  }

  /** The keys of an entry followed by a dict. */
  lemma KeysCons(e: (Key, Value), d: Entries)
    ensures Keys([e] + d) == [e.0] + Keys(d)
  {
  }

  /** After `d[k] = v`, `k` maps to `v` and every other key to what it mapped to before. */
  lemma {:induction false} LookupAssign(d: Entries, k: Key, v: Value, k': Key)
    ensures Lookup(Assign(d, k, v), k') == if k' == k then Some(v) else Lookup(d, k')
  {
    if d != [] && d[0].0 != k {
      LookupAssign(d[1..], k, v, k');
    }
  }

  /** `d[k] = v` keeps the keys of a dict unique. */
  lemma AssignUnique(d: Entries, k: Key, v: Value)
    requires UniqueKeys(d)
    ensures UniqueKeys(Assign(d, k, v))
  {
    var r := Assign(d, k, v);
    if k in Keys(d) {
      assert forall i :: 0 <= i < |r| ==> r[i].0 == Keys(r)[i] == Keys(d)[i] == d[i].0;
    }
  }

  /** `d.update(other)`: assign every entry of `other`, left to right. */
  function Update(d: Entries, other: Entries): Entries
    decreases |other|
  {
    if other == [] then d else Update(Assign(d, other[0].0, other[0].1), other[1..])
  }

  /** `v[k1][k2]...`: follows a path of keys through nested dicts. */
  function Path(v: Value, path: seq<Key>): Option<Value>
    decreases |path|
  {
    if path == [] then Some(v)
    else
      match v
      case Dict(d) =>
        (match Lookup(d, path[0])
         case Some(child) => Path(child, path[1..])
         case None => None)
      case _ => None
  }

  /** Assigning the same value twice leaves the dict as one assignment did. */
  lemma {:induction false} AssignIdempotent(d: Entries, k: Key, v: Value)
    ensures Assign(Assign(d, k, v), k, v) == Assign(d, k, v)
  {
    if d != [] && d[0].0 != k {
      AssignIdempotent(d[1..], k, v);
    }
  }

  /** A later assignment to the same key replaces an earlier one in place. */
  lemma {:induction false} AssignOverwrites(d: Entries, k: Key, v: Value, w: Value)
    ensures Assign(Assign(d, k, v), k, w) == Assign(d, k, w)
  {
    if d != [] && d[0].0 != k {
      AssignOverwrites(d[1..], k, v, w);
    }
  }

  /** In a dict with unique keys, the value at position i is found under its key. */
  lemma LookupAt(d: Entries, i: nat)
    requires UniqueKeys(d) && i < |d|
    ensures Lookup(d, d[i].0) == Some(d[i].1)
  {
    LookupFound(d, i, d[i].0);
  }

  /** Following `a + b` is following `a`, then `b` from where `a` led. */
  lemma {:induction false} PathConcat(v: Value, a: seq<Key>, b: seq<Key>)
    ensures Path(v, a + b) == match Path(v, a) case Some(c) => Path(c, b) case None => None
    decreases |a|
  {
    if a != [] {
      assert (a + b)[0] == a[0] && (a + b)[1..] == a[1..] + b;
      if v.Dict? {
        match Lookup(v.entries, a[0])
        case Some(child) => PathConcat(child, a[1..], b);
        case None =>
      }
    } else {
      assert a + b == b;
    }
  }

  /** One step of a path through the entry at position i of a dict. */
  lemma PathStep(d: Entries, i: nat, rest: seq<Key>)
    requires i < |d|
    requires forall j :: 0 <= j < i ==> d[j].0 != d[i].0
    ensures Path(Dict(d), [d[i].0] + rest) == Path(d[i].1, rest)
  {
    LookupFound(d, i, d[i].0);
    assert ([d[i].0] + rest)[1..] == rest;
  }

  /**
   * `d.update(other)` from a dict `other`: keys of `other` get its values,
   * all other keys keep theirs.
   */
  lemma {:induction false} LookupUpdate(d: Entries, other: Entries, k: Key)
    requires UniqueKeys(other)
    ensures Lookup(Update(d, other), k) == if k in Keys(other) then Lookup(other, k) else Lookup(d, k)
    decreases |other|
  {
    if other != [] {
      var d' := Assign(d, other[0].0, other[0].1);
      assert Keys(other) == [other[0].0] + Keys(other[1..]);
      LookupUpdate(d', other[1..], k);
      LookupAssign(d, other[0].0, other[0].1, k);
      if k == other[0].0 {
        assert k !in Keys(other[1..]);
      }
    }
  }

  /**
   * `d.update(other)` keeps every existing key where it was and appends the
   * new keys of `other` after them, so the keys of `d` are a prefix.
   */
  lemma {:induction false} UpdateKeysExtend(d: Entries, other: Entries)
    ensures |Update(d, other)| >= |d|
    ensures Keys(Update(d, other))[..|d|] == Keys(d)
    ensures forall k :: k in Keys(Update(d, other)) <==> k in Keys(d) || k in Keys(other)
    decreases |other|
  {
    if other != [] {
      var d' := Assign(d, other[0].0, other[0].1);
      assert Keys(other) == [other[0].0] + Keys(other[1..]);
      UpdateKeysExtend(d', other[1..]);
      if other[0].0 !in Keys(d) {
        assert Keys(d') == Keys(d) + [other[0].0];
      }
      var d'' := Update(d', other[1..]);
      assert Keys(d')[..|d|] == Keys(d);
      assert Keys(d'')[..|d|] == Keys(d')[..|d|];
    }
  }

  /** `d.update(other)` of a dict with unique keys has unique keys. */
  lemma {:induction false} UpdateUnique(d: Entries, other: Entries)
    requires UniqueKeys(d)
    ensures UniqueKeys(Update(d, other))
    decreases |other|
  {
    if other != [] {
      AssignUnique(d, other[0].0, other[0].1);
      UpdateUnique(Assign(d, other[0].0, other[0].1), other[1..]);
    }
  }
}
