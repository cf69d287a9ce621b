/**
 * The allow-list of UK ITL 1 regions that both UK helper files check a
 * region against, and the error message they raise for any other value.
 */
module UkRegions {
  import opened PyValues

  const VALID_REGIONS: seq<string> := [
    "NORTH_EAST",
    "NORTH_WEST",
    "YORKSHIRE",
    "EAST_MIDLANDS",
    "WEST_MIDLANDS",
    "EAST_OF_ENGLAND",
    "LONDON",
    "SOUTH_EAST",
    "SOUTH_WEST",
    "WALES",
    "SCOTLAND",
    "NORTHERN_IRELAND"
  ]

  /** `sep.join(parts)` */
  function Join(parts: seq<string>, sep: string): string
    decreases |parts|
  {
    if parts == [] then ""
    else if |parts| == 1 then parts[0]
    else parts[0] + sep + Join(parts[1..], sep)
  }

  /**
   * The valid regions copied element by element.  The message joins this
   * copy rather than the list literal, so that the verifier expands the
   * join only in the proofs that ask for it (RegionNamesAreValid).
   */
  function RegionNames(): seq<string>
  {
    seq(|VALID_REGIONS|, i requires 0 <= i < |VALID_REGIONS| => VALID_REGIONS[i])
  }

  lemma RegionNamesAreValid()
    ensures RegionNames() == VALID_REGIONS
  {
  }

  /** The ValueError message: the valid regions, joined by commas, after a fixed prefix. */
  function RegionMessage(): string
  {
    "Invalid region. Must be one of: " + Join(RegionNames(), ", ")
  }

  /** The region check: an unlisted region raises a ValueError. */
  function CheckRegion(region: string): (r: Option<Error>)
    ensures r.None? <==> region in VALID_REGIONS
    ensures r.Some? ==> r.value == ValueError(RegionMessage())
  {
    if region in VALID_REGIONS then None else Some(ValueError(RegionMessage()))
  }

  /** `t` occurs in `s` as a contiguous piece (Python's `t in s`). */
  predicate IsInfix(t: string, s: string)
  {
    exists i :: 0 <= i <= |s| && IsPrefix(t, s[i..])
  }

  predicate IsPrefix(t: string, s: string)
  {
    |t| <= |s| && s[..|t|] == t
  }

  /** A slice of `s` is the same slice of `pre + s`, shifted by `|pre|`. */
  lemma SliceAfter(pre: string, s: string, i: nat, n: nat)
    requires i + n <= |s|
    ensures (pre + s)[|pre| + i..|pre| + i + n] == s[i..i + n]
  {
  }

  /** A piece found at position i of `s` is also a piece of `pre + s`. */
  lemma InfixAfter(t: string, pre: string, s: string, i: nat)
    requires i + |t| <= |s| && s[i..i + |t|] == t
    ensures IsInfix(t, pre + s)
  {
    var w := pre + s;
    SliceAfter(pre, s, i, |t|);
    assert w[|pre| + i..][..|t|] == w[|pre| + i..|pre| + i + |t|];
    assert IsPrefix(t, w[|pre| + i..]);
  }

  /** `sep.join(parts)` contains every part; `i` is where part k starts. */
  lemma {:induction false} JoinContains(parts: seq<string>, sep: string, k: nat) returns (i: nat)
    requires k < |parts|
    ensures i + |parts[k]| <= |Join(parts, sep)| && Join(parts, sep)[i..i + |parts[k]|] == parts[k]
    decreases |parts|
  {
    if |parts| == 1 || k == 0 {
      i := 0;
      if |parts| > 1 {
        var rest := Join(parts[1..], sep);
        assert Join(parts, sep) == parts[0] + (sep + rest);
        assert Join(parts, sep)[..|parts[0]|] == parts[0];
      }
    } else {
      var rest := Join(parts[1..], sep);
      var i' := JoinContains(parts[1..], sep, k - 1);
      assert parts[1..][k - 1] == parts[k];
      assert Join(parts, sep) == (parts[0] + sep) + rest;
      SliceAfter(parts[0] + sep, rest, i', |parts[k]|);
      i := |parts[0] + sep| + i';
    }
  }

  /** No region is listed twice. */
  lemma RegionsDistinct()
    ensures |VALID_REGIONS| == 12
    ensures forall i, j :: 0 <= i < j < |VALID_REGIONS| ==> VALID_REGIONS[i] != VALID_REGIONS[j]
  {
  }

  /** A message made of a prefix and the joined parts names every part. */
  lemma JoinedMessageLists(prefix: string, parts: seq<string>, sep: string, k: nat)
    requires k < |parts|
    ensures IsInfix(parts[k], prefix + Join(parts, sep))
  {
    var i := JoinContains(parts, sep, k);
    InfixAfter(parts[k], prefix, Join(parts, sep), i);
  }

  /** The error message names every valid region. */
  lemma RegionMessageListsAll(k: nat)
    requires k < |VALID_REGIONS|
    ensures IsInfix(VALID_REGIONS[k], RegionMessage())
  {
    RegionNamesAreValid();
    JoinedMessageLists("Invalid region. Must be one of: ", RegionNames(), ", ", k);
  }
}
