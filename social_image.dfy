/**
 * scripts/content/render_social_image.py: `fill_template`, the single
 * left-to-right rewrite of `{{name}}` and `{{name|default:value}}` tokens
 * in a template's text, and the `--var key=value` merge of `main`.
 * Reading the template and the JSON variables file is left to the caller:
 * `fill_template` is modelled on the text already read, and the variables
 * are strings.
 */
module SocialImage {
  import opened PyValues

  const DEFAULT_MARK: string := "|default:"

  /** The ValueError of `var_name, default = ...` when there are more than two parts. */
  const UNPACK_MESSAGE: string := "too many values to unpack (expected 2)"

  /** The ValueError of `key, value = ...` when there is no `=`. */
  const ASSIGNMENT_MESSAGE: string := "not enough values to unpack (expected 2, got 1)"

  // ---------------------------------------------------------------------
  // Strings: find, split, strip

  /** `m` occurs in `s` at index `i`. */
  predicate OccursAt(s: string, m: string, i: int)
  {
    0 <= i && i + |m| <= |s| && s[i..i + |m|] == m
  }

  /** The first occurrence of `m` in `s` at or after `i`. */
  function FindFrom(s: string, m: string, i: nat): (r: Option<nat>)
    ensures r.Some? ==> i <= r.value && OccursAt(s, m, r.value) && forall j :: i <= j < r.value ==> !OccursAt(s, m, j)
    ensures r.None? ==> forall j :: i <= j ==> !OccursAt(s, m, j)
    decreases |s| - i
  {
    if i + |m| > |s| then None
    else if s[i..i + |m|] == m then Some(i)
    else FindFrom(s, m, i + 1)
  }

  /** `s.find(m)`, with the not-found case as `None`; `m in s` is `Find(s, m).Some?`. */
  function Find(s: string, m: string): Option<nat>
  {
    FindFrom(s, m, 0)
  }

  /** `s.split(m)` */
  function Split(s: string, m: string): seq<string>
    requires |m| > 0
    decreases |s|
  {
    match Find(s, m)
    case None => [s]
    case Some(i) => [s[..i]] + Split(s[i + |m|..], m)
  }

  /** `str.isspace`: the characters Python's `str.strip()` removes. */
  predicate IsSpace(c: char)
  {
    var n := c as int;
    (0x09 <= n <= 0x0D) || (0x1C <= n <= 0x20) || n == 0x85 || n == 0xA0 || n == 0x1680
    || (0x2000 <= n <= 0x200A) || n == 0x2028 || n == 0x2029 || n == 0x202F || n == 0x205F || n == 0x3000
  }

  function StripStart(s: string): string
  {
    if s != [] && IsSpace(s[0]) then StripStart(s[1..]) else s
  }

  function StripEnd(s: string): string
  {
    if s != [] && IsSpace(s[|s| - 1]) then StripEnd(s[..|s| - 1]) else s
  }

  /** `s.strip()` */
  function Strip(s: string): string
  {
    StripEnd(StripStart(s))
  }

  lemma {:induction false} StripStartShape(s: string) returns (i: nat)
    ensures i <= |s| && StripStart(s) == s[i..]
    ensures forall k :: 0 <= k < i ==> IsSpace(s[k])
    ensures i < |s| ==> !IsSpace(s[i])
  {
    if s != [] && IsSpace(s[0]) {
      var i' := StripStartShape(s[1..]);
      i := i' + 1;
      assert s[1..][i'..] == s[i..];
      forall k | 0 <= k < i
        ensures IsSpace(s[k])
      {
        if k > 0 {
          assert s[k] == s[1..][k - 1];
        }
      }
    } else {
      i := 0;
    }
  }

  lemma {:induction false} StripEndShape(s: string) returns (j: nat)
    ensures j <= |s| && StripEnd(s) == s[..j]
    ensures forall k :: j <= k < |s| ==> IsSpace(s[k])
    ensures j > 0 ==> !IsSpace(s[j - 1])
  {
    if s != [] && IsSpace(s[|s| - 1]) {
      var t := s[..|s| - 1];
      j := StripEndShape(t);
      assert t[..j] == s[..j];
      forall k | j <= k < |s|
        ensures IsSpace(s[k])
      {
        if k < |s| - 1 {
          assert s[k] == t[k];
        }
      }
    } else {
      j := |s|;
    }
  }

  /**
   * `s.strip()` is the slice of `s` left when the whitespace at both ends
   * is removed: all of `s` before and after it is whitespace, and it neither
   * starts nor ends with whitespace.
   */
  lemma StripShape(s: string) returns (i: nat, j: nat)
    ensures i <= j <= |s| && Strip(s) == s[i..j]
    ensures forall k :: 0 <= k < i ==> IsSpace(s[k])
    ensures forall k :: j <= k < |s| ==> IsSpace(s[k])
    ensures i < j ==> !IsSpace(s[i]) && !IsSpace(s[j - 1])
  {
    i := StripStartShape(s);
    var t := s[i..];
    var j' := StripEndShape(t);
    j := i + j';
    assert t[..j'] == s[i..j];
    forall k | j <= k < |s|
      ensures IsSpace(s[k])
    {
      assert s[k] == t[k - i];
    }
    if i < j {
      assert s[j - 1] == t[j' - 1];
    }
  }

  // ---------------------------------------------------------------------
  // replace_var

  /** `"|default:"` has no border: no proper prefix of it is also a suffix, so two occurrences never overlap. */
  lemma MarkNoOverlap(s: string, i: int, j: int)
    requires OccursAt(s, DEFAULT_MARK, i) && OccursAt(s, DEFAULT_MARK, j) && i < j
    ensures j >= i + |DEFAULT_MARK|
  {
    assert s[j] == s[j..j + |DEFAULT_MARK|][0] == '|';
    assert forall k :: i <= k < i + |DEFAULT_MARK| ==> s[k] == s[i..i + |DEFAULT_MARK|][k - i] == DEFAULT_MARK[k - i];
    assert forall k :: 0 < k < |DEFAULT_MARK| ==> DEFAULT_MARK[k] != '|';
  }

  /**
   * `replace_var` on the expression between the braces: with `|default:`
   * the name (stripped) is looked up and the default, not stripped, stands
   * in for a missing name, and more than one `|default:` fails to unpack;
   * without it, the stripped expression is looked up and a missing name
   * leaves the whole token as it was.
   */
  function Replacement(expr: string, vars: map<string, string>): Result<string, Error>
  {
    if Find(expr, DEFAULT_MARK).Some? then
      var parts := Split(expr, DEFAULT_MARK);
      if |parts| != 2 then Failure(ValueError(UNPACK_MESSAGE))
      else if Strip(parts[0]) in vars then Success(vars[Strip(parts[0])])
      else Success(parts[1])
    else if Strip(expr) in vars then Success(vars[Strip(expr)])
    else Success("{{" + expr + "}}")
  }

  /** In `name + "|default:" + d`, with no mark in `name`, the first mark is the one after `name`. */
  lemma FindMarkAfter(name: string, d: string)
    requires Find(name, DEFAULT_MARK).None?
    ensures Find(name + DEFAULT_MARK + d, DEFAULT_MARK) == Some(|name|)
  {
    var s := name + DEFAULT_MARK + d;
    assert s[|name|..|name| + |DEFAULT_MARK|] == DEFAULT_MARK;
    assert OccursAt(s, DEFAULT_MARK, |name|);
    forall j | 0 <= j < |name|
      ensures !OccursAt(s, DEFAULT_MARK, j)
    {
      if j + |DEFAULT_MARK| <= |name| {
        assert name[j..j + |DEFAULT_MARK|] == s[j..j + |DEFAULT_MARK|];
        assert !OccursAt(name, DEFAULT_MARK, j);
      } else if OccursAt(s, DEFAULT_MARK, j) {
        MarkNoOverlap(s, j, |name|);
      }
    }
  }

  /** An expression `name|default:d`, with one mark, looks up the stripped name and falls back on `d` unstripped. */
  lemma ReplaceDefault(name: string, d: string, vars: map<string, string>)
    requires Find(name, DEFAULT_MARK).None? && Find(d, DEFAULT_MARK).None?
    ensures Replacement(name + DEFAULT_MARK + d, vars)
         == Success(if Strip(name) in vars then vars[Strip(name)] else d)
  {
    var s := name + DEFAULT_MARK + d;
    FindMarkAfter(name, d);
    assert s[..|name|] == name && s[|name| + |DEFAULT_MARK|..] == d;
    assert Split(d, DEFAULT_MARK) == [d];
    assert Split(s, DEFAULT_MARK) == [name, d];
  }

  /** Text holding a separator splits into at least two parts. */
  lemma SplitAtOccurrence(s: string, m: string, j: nat)
    requires |m| > 0 && OccursAt(s, m, j)
    ensures Find(s, m).Some? && |Split(s, m)| >= 2
  {
  }

  /** Text in which a separator occurs again after the end of its first occurrence `i` splits into at least three parts. */
  lemma SplitTwoOccurrences(s: string, m: string, i: nat, j: nat)
    requires |m| > 0 && Find(s, m) == Some(i) && i + |m| <= j && OccursAt(s, m, j)
    ensures |Split(s, m)| >= 3
  {
    var rest := s[i + |m|..];
    var k := j - (i + |m|);
    SplitAtFirst(s, m, i);
    DropSlice(s, i + |m|, k, |m|);
    SplitAtOccurrence(rest, m, k);
  }

  /** Splitting cuts at the first occurrence of the separator and goes on after it. */
  lemma SplitAtFirst(s: string, m: string, i: nat)
    requires |m| > 0 && Find(s, m) == Some(i)
    ensures |Split(s, m)| == 1 + |Split(s[i + |m|..], m)|
  {
  }

  /** A slice of a suffix is a slice of the whole. */
  lemma DropSlice(s: string, a: nat, k: nat, n: nat)
    requires a + k + n <= |s|
    ensures s[a..][k..k + n] == s[a + k..a + k + n]
  {
  }

  /** Text with two non-overlapping marks splits into at least three parts. */
  lemma SplitTwoMarks(s: string, j1: nat, j2: nat)
    requires OccursAt(s, DEFAULT_MARK, j1) && OccursAt(s, DEFAULT_MARK, j2) && j1 + |DEFAULT_MARK| <= j2
    ensures |Split(s, DEFAULT_MARK)| >= 3
  {
    var i := Find(s, DEFAULT_MARK).value;
    if i < j1 {
      MarkNoOverlap(s, i, j1);
    }
    SplitTwoOccurrences(s, DEFAULT_MARK, i, j2);
  }

  /** An expression with two `|default:` marks fails to unpack. */
  lemma ReplaceTwoDefaults(a: string, b: string, c: string, vars: map<string, string>)
    ensures Replacement(a + DEFAULT_MARK + b + DEFAULT_MARK + c, vars) == Failure(ValueError(UNPACK_MESSAGE))
  {
    var s := a + DEFAULT_MARK + b + DEFAULT_MARK + c;
    var m := |DEFAULT_MARK|;
    var second := |a| + m + |b|;
    assert s[|a|..|a| + m] == DEFAULT_MARK;
    assert s[second..second + m] == DEFAULT_MARK;
    SplitTwoMarks(s, |a|, second);
  }

  // ---------------------------------------------------------------------
  // re.sub(r"\{\{([^}]+)\}\}", replace_var, content)

  /** The first index at or after `i` holding `}`, or the end of `s`. */
  function RunEnd(s: string, i: nat): (q: nat)
    requires i <= |s|
    ensures i <= q <= |s|
    ensures forall k :: i <= k < q ==> s[k] != '}'
    ensures q < |s| ==> s[q] == '}'
    decreases |s| - i
  {
    if i == |s| || s[i] == '}' then i else RunEnd(s, i + 1)
  }

  /**
   * The regex at position `p`: `{{`, then the longest run of characters
   * other than `}`, which must be non-empty and followed by `}}`; the group
   * and the end of the match.
   */
  function MatchAt(s: string, p: nat): (r: Option<(string, nat)>)
    requires p <= |s|
    ensures r.Some? ==> p + 5 <= r.value.1 <= |s|
  {
    if p + 2 <= |s| && s[p] == '{' && s[p + 1] == '{' then
      var q := RunEnd(s, p + 2);
      if q > p + 2 && q + 1 < |s| && s[q + 1] == '}' then Some((s[p + 2..q], q + 2)) else None
    else None
  }

  /** `s[p..e]` matches `\{\{([^}]+)\}\}`: `{{`, one or more characters other than `}`, then `}}`. */
  predicate IsToken(s: string, p: nat, e: nat)
  {
    && p + 5 <= e <= |s|
    && s[p] == '{' && s[p + 1] == '{' && s[e - 2] == '}' && s[e - 1] == '}'
    && forall k :: p + 2 <= k < e - 2 ==> s[k] != '}'
  }

  /**
   * The scanning rule finds exactly the regex's matches: what MatchAt finds
   * is a token whose group is its inside, and every token starting at `p`
   * is the one MatchAt finds (so there is at most one).
   */
  lemma MatchAtIsToken(s: string, p: nat)
    requires p <= |s|
    ensures MatchAt(s, p).Some? ==>
              IsToken(s, p, MatchAt(s, p).value.1) && MatchAt(s, p).value.0 == s[p + 2..MatchAt(s, p).value.1 - 2]
    ensures forall e: nat :: IsToken(s, p, e) ==> MatchAt(s, p) == Some((s[p + 2..e - 2], e))
  {
    forall e: nat | IsToken(s, p, e)
      ensures MatchAt(s, p) == Some((s[p + 2..e - 2], e))
    {
      assert RunEnd(s, p + 2) == e - 2;
    }
  }

  /**
   * `fill_template`, on the template's text: `re.sub` scanning left to
   * right, each match replaced and every other character kept.
   */
  function FillTemplate(content: string, vars: map<string, string>): Result<string, Error>
    decreases |content|
  {
    if content == [] then Success("")
    else
      match MatchAt(content, 0)
      case Some((group, e)) =>
        var r :- Replacement(group, vars);
        var rest :- FillTemplate(content[e..], vars);
        Success(r + rest)
      case None =>
        var rest :- FillTemplate(content[1..], vars);
        Success([content[0]] + rest)
  }

  /** A token in the text after the first character is a token of the whole text, one position on. */
  lemma TokenInTail(s: string, i: nat, e: nat)
    requires s != []
    ensures IsToken(s[1..], i, e) ==> IsToken(s, i + 1, e + 1)
  {
    if IsToken(s[1..], i, e) {
      forall k | i + 3 <= k < e - 1
        ensures s[k] != '}'
      {
        assert s[k] == s[1..][k - 1];
      }
    }
  }

  /** Text with no token in it is returned unchanged. */
  lemma {:induction false} FillUnchanged(content: string, vars: map<string, string>)
    requires forall i, e :: !IsToken(content, i, e)
    ensures FillTemplate(content, vars) == Success(content)
    decreases |content|
  {
    if content != [] {
      NoTokenFirst(content);
      NoTokenTail(content);
      FillUnchanged(content[1..], vars);
      assert [content[0]] + content[1..] == content;
    }
  }

  /** Text with no token has no match at its start. */
  lemma NoTokenFirst(s: string)
    requires forall i, e :: !IsToken(s, i, e)
    ensures MatchAt(s, 0).None?
  {
    MatchAtIsToken(s, 0);
  }

  /** Text with no token has none after its first character either. */
  lemma NoTokenTail(s: string)
    requires s != []
    requires forall i, e :: !IsToken(s, i, e)
    ensures forall i, e :: !IsToken(s[1..], i, e)
  {
    forall i: nat, e: nat
      ensures IsToken(s[1..], i, e) ==> IsToken(s, i + 1, e + 1)
    {
      TokenInTail(s, i, e);
    }
  }

  /** A character that cannot start a token is kept, and the scan goes on after it. */
  lemma TextThenRest(c: char, rest: string, vars: map<string, string>)
    requires c != '{'
    ensures FillTemplate([c] + rest, vars)
         == match FillTemplate(rest, vars)
            case Success(t) => Success([c] + t)
            case Failure(e) => Failure(e)
  {
    assert ([c] + rest)[1..] == rest;
  }

  /**
   * A token is replaced by its replacement, and the scan resumes right
   * after it: the replacement is never rescanned and tokens do not overlap.
   * A failing replacement fails the whole template.
   */
  lemma TokenThenRest(expr: string, rest: string, vars: map<string, string>)
    requires expr != [] && '}' !in expr
    ensures FillTemplate("{{" + expr + "}}" + rest, vars)
         == match Replacement(expr, vars)
            case Failure(e) => Failure(e)
            case Success(r) =>
              match FillTemplate(rest, vars)
              case Success(t) => Success(r + t)
              case Failure(e) => Failure(e)
  {
    var token := "{{" + expr + "}}";
    var s := token + rest;
    var q := |expr| + 2;
    assert s[q] == '}' && s[q + 1] == '}';
    assert forall k :: 2 <= k < q ==> s[k] == expr[k - 2];
    assert RunEnd(s, 2) == q;
    assert s[2..q] == expr;
    assert MatchAt(s, 0) == Some((expr, |token|));
    assert s[|token|..] == rest;
  }

  /**
   * `{{expr}}` without a default: the value of the stripped name when there
   * is one, else the token itself, verbatim.
   */
  lemma TokenLookup(expr: string, rest: string, vars: map<string, string>)
    requires expr != [] && '}' !in expr && Find(expr, DEFAULT_MARK).None?
    ensures FillTemplate("{{" + expr + "}}" + rest, vars)
         == match FillTemplate(rest, vars)
            case Success(t) => Success((if Strip(expr) in vars then vars[Strip(expr)] else "{{" + expr + "}}") + t)
            case Failure(e) => Failure(e)
  {
    TokenThenRest(expr, rest, vars);
  }

  /** `{{name|default:d}}`: the value of the stripped name when there is one, else `d` as written. */
  lemma TokenDefault(name: string, d: string, rest: string, vars: map<string, string>)
    requires '}' !in name && '}' !in d && Find(name, DEFAULT_MARK).None? && Find(d, DEFAULT_MARK).None?
    ensures FillTemplate("{{" + name + DEFAULT_MARK + d + "}}" + rest, vars)
         == match FillTemplate(rest, vars)
            case Success(t) => Success((if Strip(name) in vars then vars[Strip(name)] else d) + t)
            case Failure(e) => Failure(e)
  {
    var expr := name + DEFAULT_MARK + d;
    assert '}' !in expr by {
      assert '}' !in DEFAULT_MARK;
    }
    assert "{{" + name + DEFAULT_MARK + d + "}}" + rest == "{{" + expr + "}}" + rest;
    TokenThenRest(expr, rest, vars);
    ReplaceDefault(name, d, vars);
  }

  /** A token with two `|default:` marks makes the whole template fail. */
  lemma TokenTwoDefaults(a: string, b: string, c: string, rest: string, vars: map<string, string>)
    requires '}' !in a && '}' !in b && '}' !in c
    ensures FillTemplate("{{" + a + DEFAULT_MARK + b + DEFAULT_MARK + c + "}}" + rest, vars)
         == Failure(ValueError(UNPACK_MESSAGE))
  {
    var expr := a + DEFAULT_MARK + b + DEFAULT_MARK + c;
    assert '}' !in expr by {
      assert '}' !in DEFAULT_MARK;
    }
    assert "{{" + a + DEFAULT_MARK + b + DEFAULT_MARK + c + "}}" + rest == "{{" + expr + "}}" + rest;
    TokenThenRest(expr, rest, vars);
    ReplaceTwoDefaults(a, b, c, vars);
  }

  // ---------------------------------------------------------------------
  // The --var merge of main

  /** One `--var` argument as a key and a value, split at the first `=`. */
  function SplitAssignment(v: string): Result<(string, string), Error>
  {
    match Find(v, "=")
    case None => Failure(ValueError(ASSIGNMENT_MESSAGE))
    case Some(i) => Success((v[..i], v[i + 1..]))
  }

  /**
   * An argument splits exactly when it holds an `=`, at the first one: the
   * key has no `=`, the value may, and `key + "=" + value` is the argument.
   */
  lemma SplitAssignmentFacts(v: string)
    ensures SplitAssignment(v).Failure? <==> '=' !in v
    ensures SplitAssignment(v).Failure? ==> SplitAssignment(v).error == ValueError(ASSIGNMENT_MESSAGE)
    ensures SplitAssignment(v).Success? ==>
              var (key, value) := SplitAssignment(v).value;
              key + "=" + value == v && '=' !in key
  {
    forall i | 0 <= i < |v| && v[i] == '='
      ensures OccursAt(v, "=", i)
    {
      assert v[i..i + 1] == [v[i]];
    }
    match Find(v, "=")
    case None =>
    case Some(i) =>
      assert v[i..i + 1] == "=";
      assert v[..i] + "=" + v[i + 1..] == v;
      forall j | 0 <= j < i
        ensures v[..i][j] != '='
      {
        assert !OccursAt(v, "=", j);
        assert v[j..j + 1] == [v[j]];
      }
  }

  /** The `for v in args.var` loop, as the variables it leaves or the exception it raises. */
  function MergeVarsSpec(vars: map<string, string>, args: seq<string>): Result<map<string, string>, Error>
    decreases |args|
  {
    if args == [] then Success(vars)
    else
      var kv :- SplitAssignment(args[0]);
      MergeVarsSpec(vars[kv.0 := kv.1], args[1..])
  }

  /** The loop over the `--var` arguments: each is split at its first `=` and stored under its key. */
  method MergeVars(vars: map<string, string>, args: seq<string>) returns (r: Result<map<string, string>, Error>)
    ensures r == MergeVarsSpec(vars, args)
  {
    var variables := vars;
    for i := 0 to |args|
      invariant MergeVarsSpec(vars, args) == MergeVarsSpec(variables, args[i..])
    {
      assert args[i..][0] == args[i] && args[i..][1..] == args[i + 1..];
      var kv := SplitAssignment(args[i]);
      if kv.Failure? {
        return Failure(kv.error);
      }
      variables := variables[kv.value.0 := kv.value.1];
    }
    assert args[|args|..] == [];
    return Success(variables);
  }

  /** The value the last `--var` assigning `key` gives it. */
  function LastAssigned(args: seq<string>, key: string): Option<string>
    decreases |args|
  {
    if args == [] then None
    else
      match LastAssigned(args[1..], key)
      case Some(v) => Some(v)
      case None =>
        match SplitAssignment(args[0])
        case Success(kv) => if kv.0 == key then Some(kv.1) else None
        case Failure(_) => None
  }

  /**
   * The merge succeeds exactly when every argument holds an `=`; then a key
   * has the value of the last `--var` assigning it, or else its value from
   * the `--vars` file, and no other key is added.
   */
  lemma {:induction false} MergeVarsFacts(vars: map<string, string>, args: seq<string>, key: string)
    ensures MergeVarsSpec(vars, args).Success? <==> forall i :: 0 <= i < |args| ==> '=' in args[i]
    ensures MergeVarsSpec(vars, args).Success? ==>
              var r := MergeVarsSpec(vars, args).value;
              && (key in r <==> key in vars || LastAssigned(args, key).Some?)
              && (key in r ==> r[key] == if LastAssigned(args, key).Some? then LastAssigned(args, key).value else vars[key])
    decreases |args|
  {
    if args != [] {
      SplitAssignmentFacts(args[0]);
      var kv := SplitAssignment(args[0]);
      if kv.Success? {
        MergeVarsFacts(vars[kv.value.0 := kv.value.1], args[1..], key);
        assert (forall i :: 0 <= i < |args| ==> '=' in args[i])
               <==> (forall i :: 0 <= i < |args[1..]| ==> '=' in args[1..][i]) by {
          if forall i :: 0 <= i < |args[1..]| ==> '=' in args[1..][i] {
            forall i | 0 <= i < |args|
              ensures '=' in args[i]
            {
              if i > 0 {
                assert args[i] == args[1..][i - 1];
              }
            }
          }
        }
      } else {
        assert '=' !in args[0];
      }
    }
  }
}
