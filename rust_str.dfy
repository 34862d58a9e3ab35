/**
 * Models of the Rust standard-library string operations the bot relies on:
 * prefix/suffix tests, `strip_prefix`, `trim_start_matches`, `trim_end_matches`,
 * `char::is_whitespace`, an ASCII `to_lowercase`, and the ascending iteration
 * order of a `BTreeSet<String>`.
 */
module RustStr {

  datatype Option<T> = None | Some(value: T)

  /** `char::is_whitespace`: the characters with the Unicode White_Space property. */
  predicate IsWhitespace(c: char)
  {
    ('\U{9}' <= c <= '\U{D}') || c == ' ' || c == '\U{85}' || c == '\U{A0}' || c == '\U{1680}'
    || ('\U{2000}' <= c <= '\U{200A}') || c == '\U{2028}' || c == '\U{2029}'
    || c == '\U{202F}' || c == '\U{205F}' || c == '\U{3000}'
  }

  /**
   * The ASCII whitespace characters are whitespace, and no whitespace
   * character is a letter, a digit, or the markup characters '*' and '_'.
   */
  lemma WhitespaceClass(c: char)
    ensures c == ' ' || c == '\t' || c == '\n' || c == '\r' ==> IsWhitespace(c)
    ensures IsWhitespace(c) ==> c != '*' && c != '_' && !('0' <= c <= '9') && !('A' <= c <= 'Z') && !('a' <= c <= 'z')
  {
  }

  predicate StartsWith(s: string, p: string)
  {
    |p| <= |s| && s[..|p|] == p
  }

  predicate EndsWith(s: string, p: string)
  {
    |p| <= |s| && s[|s| - |p|..] == p
  }

  /** `k` copies of `p`, one after the other. */
  function Repeat(p: string, k: nat): string
  {
    if k == 0 then "" else Repeat(p, k - 1) + p
  }

  /** `str::strip_prefix`: the rest of `s` when `s` starts with `p`. */
  function StripPrefix(s: string, p: string): (r: Option<string>)
    ensures r.Some? <==> StartsWith(s, p)
    ensures r.Some? ==> s == p + r.value
  {
    if StartsWith(s, p) then Some(s[|p|..]) else None
  }

  /** `str::strip_suffix`: the front of `s` when `s` ends with `p`. */
  function StripSuffix(s: string, p: string): (r: Option<string>)
    ensures r.Some? <==> EndsWith(s, p)
    ensures r.Some? ==> s == r.value + p
  {
    if EndsWith(s, p) then Some(s[..|s| - |p|]) else None
  }

  /**
   * `str::trim_end_matches` with a string pattern: removes EVERY trailing
   * repetition of `p`, not just one. An empty pattern leaves `s` as it is.
   */
  function TrimEndMatches(s: string, p: string): (r: string)
    ensures r <= s
    ensures p != [] ==> !EndsWith(r, p)
    decreases |s|
  {
    if p != [] && EndsWith(s, p) then TrimEndMatches(s[..|s| - |p|], p) else s
  }

  /** What `TrimEndMatches` removed is a whole number of copies of the pattern. */
  lemma {:induction false} TrimEndMatchesRemovesCopies(s: string, p: string)
    ensures exists k: nat :: s == TrimEndMatches(s, p) + Repeat(p, k)
    decreases |s|
  {
    if p != [] && EndsWith(s, p) {
      var front := s[..|s| - |p|];
      TrimEndMatchesRemovesCopies(front, p);
      var k: nat :| front == TrimEndMatches(front, p) + Repeat(p, k);
      var t := TrimEndMatches(front, p);
      SplitAtEnd(s, p);
      AppendAssoc(t, Repeat(p, k), p);
      assert s == t + Repeat(p, k + 1);
    } else {
      assert s == TrimEndMatches(s, p) + Repeat(p, 0);
    }
  }

  lemma SplitAtEnd(s: string, p: string)
    requires EndsWith(s, p)
    ensures s == s[..|s| - |p|] + p
  {
  }

  lemma AppendAssoc(a: string, b: string, c: string)
    ensures (a + b) + c == a + (b + c)
  {
  }

  lemma SplitAppend(a: string, b: string)
    ensures (a + b)[..|a|] == a && (a + b)[|a|..] == b
  {
  }

  lemma AppendEmpty(a: string)
    ensures a + "" == a
  {
  }

  /** Appending one more copy of a non-empty pattern does not change what trimming leaves. */
  lemma TrimEndOneCopy(s: string, front: string, p: string)
    requires p != [] && s == front + p
    ensures TrimEndMatches(s, p) == TrimEndMatches(front, p)
  {
    SplitAppend(front, p);
    assert |s| - |p| == |front|;
    assert EndsWith(s, p);
    assert s[..|s| - |p|] == front;
  }

  /** `str::trim_start_matches` with a character pattern: removes every leading `c`. */
  function TrimStartMatches(s: string, c: char): (r: string)
    ensures |r| <= |s| && r == s[|s| - |r|..]
    ensures r == [] || r[0] != c
    ensures forall i :: 0 <= i < |s| - |r| ==> s[i] == c
  {
    if |s| > 0 && s[0] == c then TrimStartMatches(s[1..], c) else s
  }

  /** `char::to_lowercase`, restricted to ASCII letters. */
  function LowerChar(c: char): char
  {
    if 'A' <= c <= 'Z' then (c as int + 32) as char else c
  }

  /** `str::to_lowercase`, character by character. */
  function ToLower(s: string): (r: string)
    ensures |r| == |s|
    ensures forall i :: 0 <= i < |s| ==> r[i] == LowerChar(s[i])
  {
    seq(|s|, i requires 0 <= i < |s| => LowerChar(s[i]))
  }

  predicate IsLower(s: string)
  {
    forall i :: 0 <= i < |s| ==> LowerChar(s[i]) == s[i]
  }

  /** Lower-casing is idempotent: its result is already lower case. */
  lemma ToLowerIsLower(s: string)
    ensures IsLower(ToLower(s))
  {
  }

  /**
   * The order of `String`'s `Ord`: lexicographic on characters (UTF-8 byte
   * order and code-point order agree), a proper prefix before the longer string.
   */
  predicate StrLess(a: string, b: string)
    decreases |a|
  {
    if |a| == 0 then |b| > 0
    else if |b| == 0 then false
    else if a[0] != b[0] then a[0] < b[0]
    else StrLess(a[1..], b[1..])
  }

  lemma {:induction false} StrLessIrreflexive(a: string)
    ensures !StrLess(a, a)
    decreases |a|
  {
    if |a| > 0 {
      StrLessIrreflexive(a[1..]);
    }
  }

  lemma {:induction false} StrLessTransitive(a: string, b: string, c: string)
    requires StrLess(a, b) && StrLess(b, c)
    ensures StrLess(a, c)
    decreases |a|
  {
    if |a| > 0 && a[0] == b[0] && b[0] == c[0] {
      StrLessTransitive(a[1..], b[1..], c[1..]);
    }
  }

  lemma {:induction false} StrLessTotal(a: string, b: string)
    requires a != b
    ensures StrLess(a, b) || StrLess(b, a)
    decreases |a|
  {
    if |a| > 0 && |b| > 0 && a[0] == b[0] {
      assert a == [a[0]] + a[1..] && b == [b[0]] + b[1..];
      StrLessTotal(a[1..], b[1..]);
    }
  }

  lemma StrLessAsymmetric(a: string, b: string)
    requires StrLess(a, b)
    ensures !StrLess(b, a)
  {
    if StrLess(b, a) {
      StrLessTransitive(a, b, a);
      StrLessIrreflexive(a);
    }
  }

  /** `m` is in `s` and below every other element of `s`. */
  predicate IsLeast(m: string, s: set<string>)
  {
    m in s && forall x :: x in s && x != m ==> StrLess(m, x)
  }

  /** A non-empty finite set of strings has a least element. */
  lemma {:induction false} LeastExists(s: set<string>)
    requires s != {}
    ensures exists m :: IsLeast(m, s)
    decreases |s|
  {
    var y :| y in s;
    if s == {y} {
      assert IsLeast(y, s);
    } else {
      var rest := s - {y};
      LeastExists(rest);
      var m :| IsLeast(m, rest);
      assert m != y;
      if StrLess(m, y) {
        forall x | x in s && x != m
          ensures StrLess(m, x)
        {
          if x != y {
            assert x in rest;
          }
        }
        assert IsLeast(m, s);
      } else {
        StrLessTotal(m, y);
        forall x | x in s && x != y
          ensures StrLess(y, x)
        {
          if x != m {
            assert x in rest;
            StrLessTransitive(y, m, x);
          }
        }
        assert IsLeast(y, s);
      }
    }
  }

  predicate StrictlyAscending(r: seq<string>)
  {
    forall i, j :: 0 <= i < j < |r| ==> StrLess(r[i], r[j])
  }

  /** The iteration order of a `BTreeSet<String>`: its elements, ascending, each once. */
  function Ascending(s: set<string>): (r: seq<string>)
    ensures |r| == |s|
    ensures forall x :: x in r <==> x in s
    ensures StrictlyAscending(r)
    decreases |s|
  {
    if s == {} then []
    else
      LeastExists(s);
      forall a, b | StrLess(a, b) ensures !StrLess(b, a) { StrLessAsymmetric(a, b); }
      var m :| IsLeast(m, s);
      var tail := Ascending(s - {m});
      forall j | 0 <= j < |tail| ensures StrLess(m, tail[j]) { assert tail[j] in tail; }
      [m] + tail
  }
}
