/** The string operations the scripts rely on: `str.lower()`, the `in`
    operator on strings, `str.strip()`, `str.split(sep)[0]` and `sep.join`.
    Python strings are modelled as `seq<char>`. */
module Strings {

  /** `str.lower()` on one character; only the ASCII letters are folded. */
  function LowerChar(c: char): char {
    if 'A' <= c <= 'Z' then (c as int + 32) as char else c
  }

  /** `str.lower()`: the same length, every character folded. */
  function Lower(s: string): string {
    seq(|s|, i requires 0 <= i < |s| => LowerChar(s[i]))
  }

  lemma LowerConcat(a: string, b: string)
    ensures Lower(a + b) == Lower(a) + Lower(b)
  {
    assert forall i :: 0 <= i < |a + b| ==> Lower(a + b)[i] == (Lower(a) + Lower(b))[i];
  }

  /** `w in s`: `w` occurs in `s` as a contiguous block. */
  predicate Contains(s: string, w: string)
    decreases |s|
  {
    w <= s || (s != [] && Contains(s[1..], w))
  }

  /** The positional reading of `w in s`: `s` has `w` starting at index `i`. */
  ghost predicate OccursAt(s: string, w: string, i: int) {
    0 <= i <= |s| && w <= s[i..]
  }

  /** The recursive search agrees with the positional reading. */
  lemma {:induction false} ContainsIffOccurs(s: string, w: string)
    ensures Contains(s, w) <==> exists i :: OccursAt(s, w, i)
  {
    if w <= s {
      assert OccursAt(s, w, 0);
    } else if s == [] {
      assert forall i :: OccursAt(s, w, i) ==> i == 0;
    } else {
      ContainsIffOccurs(s[1..], w);
      if exists i :: OccursAt(s, w, i) {
        var i :| OccursAt(s, w, i);
        assert i != 0;
        assert s[1..][i - 1..] == s[i..];
        assert OccursAt(s[1..], w, i - 1);
      }
      if exists j :: OccursAt(s[1..], w, j) {
        var j :| OccursAt(s[1..], w, j);
        assert s[1..][j..] == s[j + 1..];
        assert OccursAt(s, w, j + 1);
      }
    }
  }

  /** A prefix of a prefix is a prefix. */
  lemma PrefixTransitive(u: string, v: string, w: string)
    requires u <= v && v <= w
    ensures u <= w
  {
    assert w[..|u|] == v[..|u|];
  }

  /** Whatever contains `w` contains every prefix of `w`. */
  lemma {:induction false} ContainsPrefixOf(s: string, w: string, v: string)
    requires Contains(s, w) && v <= w
    ensures Contains(s, v)
  {
    if w <= s {
      PrefixTransitive(v, w, s);
    } else {
      ContainsPrefixOf(s[1..], w, v);
    }
  }

  /** A block of a prefix of `s` is a block of `s`. */
  lemma {:induction false} ContainsInPrefix(p: string, s: string, w: string)
    requires p <= s && Contains(p, w)
    ensures Contains(s, w)
  {
    if w <= p {
      PrefixTransitive(w, p, s);
    } else {
      assert p[1..] <= s[1..];
      ContainsInPrefix(p[1..], s[1..], w);
    }
  }

  /** A block of the right operand is a block of the concatenation. */
  lemma {:induction false} ContainsInSuffix(a: string, b: string, w: string)
    requires Contains(b, w)
    ensures Contains(a + b, w)
  {
    if a == [] {
      assert a + b == b;
    } else {
      assert (a + b)[1..] == a[1..] + b;
      ContainsInSuffix(a[1..], b, w);
    }
  }

  /** A string without some character of `w` does not contain `w`. */
  lemma NotContainsIfCharAbsent(s: string, w: string, j: int)
    requires 0 <= j < |w| && forall i :: 0 <= i < |s| ==> s[i] != w[j]
    ensures !Contains(s, w)
  {
    ContainsIffOccurs(s, w);
    forall i | OccursAt(s, w, i) ensures i + j < |s| && s[i + j] == w[j] {
      assert s[i..][j] == w[j];
    }
  }

  /** Python's `str.isspace()` on one character. */
  predicate IsSpace(c: char) {
    var n := c as int;
    (9 <= n <= 13) || (28 <= n <= 32) || n == 0x85 || n == 0xA0 || n == 0x1680
    || (0x2000 <= n <= 0x200A) || n == 0x2028 || n == 0x2029 || n == 0x202F
    || n == 0x205F || n == 0x3000
  }

  ghost predicate AllSpace(s: string) {
    forall i :: 0 <= i < |s| ==> IsSpace(s[i])
  }

  function StripStart(s: string): string {
    if s != [] && IsSpace(s[0]) then StripStart(s[1..]) else s
  }

  function StripEnd(s: string): string {
    if s != [] && IsSpace(s[|s| - 1]) then StripEnd(s[..|s| - 1]) else s
  }

  /** `str.strip()` with no argument. */
  function Strip(s: string): string {
    StripEnd(StripStart(s))
  }

  lemma {:induction false} StripStartBlank(s: string)
    ensures StripStart(s) == [] <==> AllSpace(s)
    ensures StripStart(s) != [] ==> !IsSpace(StripStart(s)[0])
  {
    if s != [] && IsSpace(s[0]) {
      StripStartBlank(s[1..]);
      assert AllSpace(s) <==> AllSpace(s[1..]) by {
        assert forall i :: 0 <= i < |s[1..]| ==> s[1..][i] == s[i + 1];
      }
    }
  }

  lemma {:induction false} StripEndBlank(s: string)
    ensures StripEnd(s) == [] <==> AllSpace(s)
  {
    if s != [] && IsSpace(s[|s| - 1]) {
      var t := s[..|s| - 1];
      StripEndBlank(t);
      assert AllSpace(s) <==> AllSpace(t) by {
        assert forall i :: 0 <= i < |t| ==> t[i] == s[i];
      }
    }
  }

  /** A line is blank after `strip()` exactly when every character is whitespace. */
  lemma StripBlankIff(s: string)
    ensures Strip(s) == [] <==> AllSpace(s)
  {
    StripStartBlank(s);
    var t := StripStart(s);
    StripEndBlank(t);
    if t != [] {
      assert !AllSpace(t) by { assert !IsSpace(t[0]); }
    }
  }

  /** `s.split(sep)[0]`: the part of `s` before the first occurrence of `sep`,
      or the whole of `s` when `sep` does not occur. */
  function BeforeFirst(s: string, sep: string): (r: string)
    requires sep != []
    ensures r <= s
    ensures !Contains(r, sep)
    ensures r == s || sep <= s[|r|..]
    decreases |s|
  {
    if sep <= s then []
    else if s == [] then []
    else
      var rest := BeforeFirst(s[1..], sep);
      assert ([s[0]] + rest)[1..] == rest;
      [s[0]] + rest
  }

  /** `s.split(sep)[0]` is `s` itself exactly when `sep` does not occur in `s`. */
  lemma {:induction false} BeforeFirstWhole(s: string, sep: string)
    requires sep != []
    ensures BeforeFirst(s, sep) == s <==> !Contains(s, sep)
    decreases |s|
  {
    if !(sep <= s) && s != [] {
      BeforeFirstWhole(s[1..], sep);
      var rest := BeforeFirst(s[1..], sep);
      assert BeforeFirst(s, sep) == [s[0]] + rest;
      assert [s[0]] + rest == s <==> rest == s[1..];
    }
  }

  /** `sep.join(parts)`. */
  function Join(parts: seq<string>, sep: string): string {
    if parts == [] then []
    else if |parts| == 1 then parts[0]
    else parts[0] + sep + Join(parts[1..], sep)
  }

  /** Every part is a block of the joined string. */
  lemma {:induction false} JoinContainsPart(parts: seq<string>, sep: string, i: int, w: string)
    requires 0 <= i < |parts| && Contains(parts[i], w)
    ensures Contains(Join(parts, sep), w)
  {
    if |parts| > 1 {
      var tail := Join(parts[1..], sep);
      assert Join(parts, sep) == parts[0] + (sep + tail);
      if i == 0 {
        ContainsInPrefix(parts[0], parts[0] + (sep + tail), w);
      } else {
        JoinContainsPart(parts[1..], sep, i - 1, w);
        ContainsInSuffix(parts[0] + sep, tail, w);
        assert parts[0] + sep + tail == parts[0] + (sep + tail);
      }
    }
  }

  /** The lower-cased join is the join of the lower-cased parts. */
  lemma {:induction false} LowerJoin(parts: seq<string>, sep: string)
    ensures Lower(Join(parts, sep)) == Join(seq(|parts|, i requires 0 <= i < |parts| => Lower(parts[i])), Lower(sep))
  {
    var lowered := seq(|parts|, i requires 0 <= i < |parts| => Lower(parts[i]));
    if |parts| > 1 {
      LowerJoin(parts[1..], sep);
      assert lowered[1..] == seq(|parts[1..]|, i requires 0 <= i < |parts[1..]| => Lower(parts[1..][i]));
      LowerConcat(parts[0], sep);
      LowerConcat(parts[0] + sep, Join(parts[1..], sep));
    }
  }
}
