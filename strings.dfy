/** The JavaScript string and array builtins the identifier and the loader rely on:
    `String.prototype.split` with a one-character separator, `Array.prototype.join`,
    `String.prototype.indexOf` and `String.prototype.replace` with a string pattern
    (which replaces the first occurrence only). */
module Strings {

  /** `pat` occurs in `s` starting at index `i`. */
  predicate OccursAt(s: string, pat: string, i: nat) {
    i + |pat| <= |s| && s[i..i + |pat|] == pat
  }

  /** `s.indexOf(pat)`: the first index at which `pat` occurs, or -1 when it occurs nowhere. */
  function IndexOf(s: string, pat: string): (r: int)
    ensures -1 <= r <= |s|
    ensures r == -1 <==> forall i: nat :: !OccursAt(s, pat, i)
    ensures r >= 0 ==> OccursAt(s, pat, r) && forall i: nat :: i < r ==> !OccursAt(s, pat, i)
  {
    IndexFrom(s, pat, 0)
  }

  /** The search behind IndexOf, from index `k` on, when no earlier index matched. */
  function IndexFrom(s: string, pat: string, k: nat): (r: int)
    requires k <= |s|
    requires forall i: nat :: i < k ==> !OccursAt(s, pat, i)
    ensures r == -1 || k <= r <= |s|
    ensures r == -1 <==> forall i: nat :: !OccursAt(s, pat, i)
    ensures r >= 0 ==> OccursAt(s, pat, r) && forall i: nat :: i < r ==> !OccursAt(s, pat, i)
    decreases |s| - k
  {
    if OccursAt(s, pat, k) then k
    else if k == |s| then -1
    else IndexFrom(s, pat, k + 1)
  }

  /** `s.indexOf(c) === -1` for a one-character string tests that `c` does not occur in `s`. */
  lemma IndexOfChar(s: string, c: char)
    ensures IndexOf(s, [c]) == -1 <==> c !in s
  {
    if c in s {
      var k :| 0 <= k < |s| && s[k] == c;
      assert OccursAt(s, [c], k) by {
        assert s[k..k + 1] == [c];
      }
    } else {
      forall i: nat
        ensures !OccursAt(s, [c], i)
      {
        if i + 1 <= |s| {
          assert s[i..i + 1][0] == s[i];
        }
      }
    }
  }

  /** `s.replace(pat, rep)` for a string `pat`: the first occurrence of `pat` is replaced by `rep`;
      without an occurrence `s` is returned unchanged. */
  function ReplaceFirst(s: string, pat: string, rep: string): string {
    var i := IndexOf(s, pat);
    if i == -1 then s else s[..i] + rep + s[i + |pat|..]
  }

  /** `parts.join(sep)`: the parts with `sep` between neighbours; the empty array joins to "". */
  function Join(parts: seq<string>, sep: string): string {
    if |parts| == 0 then ""
    else if |parts| == 1 then parts[0]
    else parts[0] + sep + Join(parts[1..], sep)
  }

  /** `s.split(sep)` for a one-character separator: the maximal pieces between separators,
      empty pieces included, so "" splits to [""] and "a..b" to ["a", "", "b"]. */
  function Split(s: string, sep: char): (parts: seq<string>)
    ensures |parts| >= 1
    ensures forall i :: 0 <= i < |parts| ==> sep !in parts[i]
    ensures Join(parts, [sep]) == s
    ensures sep in s <==> |parts| > 1
  {
    if |s| == 0 then [""]
    else
      var rest := Split(s[1..], sep);
      if s[0] == sep then
        assert s == [sep] + s[1..];
        [""] + rest
      else
        var parts := [[s[0]] + rest[0]] + rest[1..];
        assert Join(parts, [sep]) == s by {
          if |rest| > 1 {
            assert parts[1..] == rest[1..];
            assert s == [s[0]] + s[1..];
          }
        }
        parts
  }

  /** A separator-free prefix becomes the first part. */
  lemma {:induction false} SplitAppend(a: string, b: string, sep: char)
    requires sep !in a
    ensures Split(a + [sep] + b, sep) == [a] + Split(b, sep)
  {
    if a == [] {
      assert a + [sep] + b == [sep] + b;
      assert ([sep] + b)[1..] == b;
    } else {
      var s := a + [sep] + b;
      assert s[1..] == a[1..] + [sep] + b;
      SplitAppend(a[1..], b, sep);
      assert [a[0]] + a[1..] == a;
    }
  }

  /** A string without the separator splits into itself. */
  lemma SplitWithout(s: string, sep: char)
    requires sep !in s
    ensures Split(s, sep) == [s]
  {
  }

  /** Split undoes Join: separator-free parts come back as they went in. */
  lemma {:induction false} SplitJoin(parts: seq<string>, sep: char)
    requires |parts| >= 1
    requires forall i :: 0 <= i < |parts| ==> sep !in parts[i]
    ensures Split(Join(parts, [sep]), sep) == parts
  {
    if |parts| == 1 {
      SplitWithout(parts[0], sep);
    } else {
      SplitJoin(parts[1..], sep);
      SplitAppend(parts[0], Join(parts[1..], [sep]), sep);
      assert [parts[0]] + parts[1..] == parts;
    }
  }

  /** Joining a first part in front of a non-empty rest. */
  lemma JoinCons(x: string, rest: seq<string>, sep: string)
    requires |rest| >= 1
    ensures Join([x] + rest, sep) == x + sep + Join(rest, sep)
  {
    assert ([x] + rest)[1..] == rest;
  }

  /** Joining a last part behind a non-empty prefix. */
  lemma {:induction false} JoinSnoc(parts: seq<string>, last: string, sep: string)
    requires |parts| >= 1
    ensures Join(parts + [last], sep) == Join(parts, sep) + sep + last
  {
    if |parts| > 1 {
      JoinSnoc(parts[1..], last, sep);
      assert (parts + [last])[1..] == parts[1..] + [last];
    }
  }

  /** A character that is in no part and is not the separator is not in the joined string. */
  lemma {:induction false} NotInJoin(parts: seq<string>, sep: string, c: char)
    requires c !in sep
    requires forall i :: 0 <= i < |parts| ==> c !in parts[i]
    ensures c !in Join(parts, sep)
  {
    if |parts| > 1 {
      NotInJoin(parts[1..], sep, c);
    }
  }

  /** Every character of a split part comes from the split string. */
  lemma SplitPartsWithout(s: string, sep: char, c: char)
    requires c !in s
    ensures forall i :: 0 <= i < |Split(s, sep)| ==> c !in Split(s, sep)[i]
  {
    var parts := Split(s, sep);
    forall i | 0 <= i < |parts|
      ensures c !in parts[i]
    {
      OutOfJoin(parts, [sep], i, c);
    }
  }

  /** A character missing from the joined string is missing from every part. */
  lemma {:induction false} OutOfJoin(parts: seq<string>, sep: string, i: nat, c: char)
    requires i < |parts|
    requires c !in Join(parts, sep)
    ensures c !in parts[i]
  {
    if |parts| > 1 {
      assert Join(parts, sep) == parts[0] + (sep + Join(parts[1..], sep));
      if i > 0 {
        OutOfJoin(parts[1..], sep, i - 1, c);
      }
    }
  }

  /** When the first character of `pat` does not occur in `x`, the first occurrence of `pat`
      in `x + pat + y` is the one right after `x`. */
  lemma ReplaceFirstAfter(x: string, pat: string, y: string, rep: string)
    requires |pat| > 0
    requires pat[0] !in x
    ensures ReplaceFirst(x + pat + y, pat, rep) == x + rep + y
  {
    var s := x + pat + y;
    assert OccursAt(s, pat, |x|) by {
      assert s[|x|..|x| + |pat|] == pat;
    }
    forall i: nat | i < |x|
      ensures !OccursAt(s, pat, i)
    {
      if i + |pat| <= |s| {
        assert s[i..i + |pat|][0] == s[i] == x[i];
      }
    }
    assert IndexOf(s, pat) == |x|;
    assert s[..|x|] == x;
    assert s[|x| + |pat|..] == y;
  }

  /** A string that starts with `pat` has it replaced there. */
  lemma ReplaceFirstHead(pat: string, y: string, rep: string)
    requires |pat| > 0
    ensures ReplaceFirst(pat + y, pat, rep) == rep + y
  {
    ReplaceFirstAfter("", pat, y, rep);
    assert "" + pat + y == pat + y;
    assert "" + rep + y == rep + y;
  }

  /** Removing the first occurrence, found after a prefix without the pattern's first character,
      joins what stood on either side of it. */
  lemma RemoveFirstAfter(x: string, pat: string, y: string)
    requires |pat| > 0
    requires pat[0] !in x
    ensures ReplaceFirst(x + pat + y, pat, "") == x + y
  {
    ReplaceFirstAfter(x, pat, y, "");
    assert x + "" + y == x + y;
  }

  /** Removing a pattern the text starts with leaves what follows it. */
  lemma RemoveFirstHead(pat: string, y: string)
    requires |pat| > 0
    ensures ReplaceFirst(pat + y, pat, "") == y
  {
    ReplaceFirstHead(pat, y, "");
    assert "" + y == y;
  }

  /** A pattern whose first character does not occur in `s` leaves `s` unchanged. */
  lemma ReplaceFirstAbsent(s: string, pat: string, rep: string)
    requires |pat| > 0
    requires pat[0] !in s
    ensures ReplaceFirst(s, pat, rep) == s
  {
    forall i: nat
      ensures !OccursAt(s, pat, i)
    {
      if i + |pat| <= |s| {
        assert s[i..i + |pat|][0] == s[i];
      }
    }
  }

  /** Removing a match never introduces a character. */
  lemma ReplaceFirstKeepsOut(s: string, pat: string, c: char)
    requires c !in s
    ensures c !in ReplaceFirst(s, pat, "")
  {
    var i := IndexOf(s, pat);
    if i != -1 {
      var r := s[..i] + s[i + |pat|..];
      assert ReplaceFirst(s, pat, "") == r;
      forall k | 0 <= k < |r|
        ensures r[k] != c
      {
        if k < i {
          assert r[k] == s[k];
        } else {
          assert r[k] == s[k + |pat|];
        }
      }
    }
  }

  /** An occurrence in `y` is an occurrence in `w + y`, shifted by `|w|`, and conversely. */
  lemma ShiftedMatch(w: string, y: string, pat: string, i: nat)
    ensures OccursAt(w + y, pat, |w| + i) <==> OccursAt(y, pat, i)
  {
    if |w| + i + |pat| <= |w + y| {
      assert (w + y)[|w| + i..|w| + i + |pat|] == y[i..i + |pat|];
    }
  }

  /** No occurrence of `pat` can start inside `w`, whatever follows `w`: from no index of `w`
      does the rest of `w` extend `pat` or start `pat`. */
  predicate Guard(w: string, pat: string) {
    forall i :: 0 <= i < |w| ==> !(pat <= w[i..]) && !(w[i..] <= pat)
  }

  /** Replacing after a guarded prefix replaces in what follows it. */
  lemma GuardedReplace(w: string, y: string, pat: string, rep: string)
    requires |pat| > 0 && Guard(w, pat)
    ensures ReplaceFirst(w + y, pat, rep) == w + ReplaceFirst(y, pat, rep)
  {
    GuardedIndex(w, y, pat);
    ReplaceShifted(w, y, pat, rep, IndexOf(y, pat));
  }

  /** When the first occurrence in `w + y` is the first occurrence in `y` shifted by `|w|`,
      replacing in `w + y` replaces in `y`. */
  lemma ReplaceShifted(w: string, y: string, pat: string, rep: string, j: int)
    requires IndexOf(y, pat) == j
    requires IndexOf(w + y, pat) == if j == -1 then -1 else |w| + j
    ensures ReplaceFirst(w + y, pat, rep) == w + ReplaceFirst(y, pat, rep)
  {
    if j == -1 {
      ReplaceNone(w + y, pat, rep);
      ReplaceNone(y, pat, rep);
    } else {
      ReplaceShiftedAt(w, y, pat, rep, j);
    }
  }

  /** The same, for an occurrence at index `j` of `y`. */
  lemma ReplaceShiftedAt(w: string, y: string, pat: string, rep: string, j: nat)
    requires IndexOf(y, pat) == j
    requires IndexOf(w + y, pat) == |w| + j
    ensures ReplaceFirst(w + y, pat, rep) == w + ReplaceFirst(y, pat, rep)
  {
    var s, i := w + y, |w| + j;
    ReplaceAt(y, pat, rep, j);
    ReplaceAt(s, pat, rep, i);
    Splice(w, y, s, rep, j, |pat|, ReplaceFirst(s, pat, rep), ReplaceFirst(y, pat, rep));
  }

  /** Replacing when there is no occurrence. */
  lemma ReplaceNone(s: string, pat: string, rep: string)
    requires IndexOf(s, pat) == -1
    ensures ReplaceFirst(s, pat, rep) == s
  {
  }

  /** Replacing a stretch of `y` inside `s == w + y` is replacing it in `y`: `x` and `z` are the
      two replacements. */
  lemma Splice(w: string, y: string, s: string, rep: string, k: nat, m: nat, x: string, z: string)
    requires s == w + y && k + m <= |y|
    requires x == s[..|w| + k] + rep + s[|w| + k + m..]
    requires z == y[..k] + rep + y[k + m..]
    ensures x == w + z
  {
    SliceAround(w, y, k, m);
    Regroup4(w, y[..k], rep, y[k + m..]);
  }

  /** The text before and after a stretch of `y`, seen in `w + y`. */
  lemma SliceAround(w: string, y: string, k: nat, m: nat)
    requires k + m <= |y|
    ensures (w + y)[..|w| + k] == w + y[..k]
    ensures (w + y)[|w| + k + m..] == y[k + m..]
  {
  }

  /** Replacing where the first occurrence is. */
  lemma ReplaceAt(s: string, pat: string, rep: string, i: nat)
    requires IndexOf(s, pat) == i
    ensures i + |pat| <= |s|
    ensures ReplaceFirst(s, pat, rep) == s[..i] + rep + s[i + |pat|..]
  {
  }

  /** After a guarded prefix, the first occurrence is the first occurrence in what follows,
      shifted. */
  lemma GuardedIndex(w: string, y: string, pat: string)
    requires |pat| > 0 && Guard(w, pat)
    ensures IndexOf(w + y, pat) == if IndexOf(y, pat) == -1 then -1 else |w| + IndexOf(y, pat)
  {
    var s := w + y;
    NoMatchInGuard(w, y, pat);
    var j := IndexOf(y, pat);
    if j == -1 {
      forall i: nat
        ensures !OccursAt(s, pat, i)
      {
        if i >= |w| {
          ShiftedMatch(w, y, pat, i - |w|);
        }
      }
    } else {
      ShiftedMatch(w, y, pat, j);
      forall i: nat | i < |w| + j
        ensures !OccursAt(s, pat, i)
      {
        if i >= |w| {
          ShiftedMatch(w, y, pat, i - |w|);
        }
      }
    }
  }

  /** No occurrence starts inside a guarded prefix. */
  lemma NoMatchInGuard(w: string, y: string, pat: string)
    requires |pat| > 0 && Guard(w, pat)
    ensures forall i: nat :: i < |w| ==> !OccursAt(w + y, pat, i)
  {
    var s := w + y;
    forall i: nat | i < |w|
      ensures !OccursAt(s, pat, i)
    {
      if i + |pat| <= |s| {
        if i + |pat| <= |w| {
          assert s[i..i + |pat|] == w[i..][..|pat|];
        } else {
          assert s[i..|w|] == w[i..];
          assert s[i..i + |pat|][..|w| - i] == s[i..|w|];
        }
      }
    }
  }

  /** Replacing past a prefix without the first character of `pat`. */
  lemma ReplaceFirstPast(w: string, y: string, pat: string, rep: string)
    requires |pat| > 0 && pat[0] !in w
    ensures ReplaceFirst(w + y, pat, rep) == w + ReplaceFirst(y, pat, rep)
  {
    GuardFree(w, pat);
    GuardedReplace(w, y, pat, rep);
  }

  /** A string without the first character of `pat` guards against `pat`. */
  lemma GuardFree(w: string, pat: string)
    requires |pat| > 0 && pat[0] !in w
    ensures Guard(w, pat)
  {
    forall i | 0 <= i < |w|
      ensures !(pat <= w[i..]) && !(w[i..] <= pat)
    {
      assert w[i..][0] == w[i];
    }
  }

  /** A token that differs from `pat` at index `k` and holds the first character of `pat` only at
      its start guards against `pat`. */
  lemma GuardToken(m: string, pat: string, k: nat)
    requires k < |m| && k < |pat| && m[k] != pat[k]
    requires pat[0] !in m[1..]
    ensures Guard(m, pat)
  {
    forall i | 0 <= i < |m|
      ensures !(pat <= m[i..]) && !(m[i..] <= pat)
    {
      if i == 0 {
        assert m[i..][k] == m[k];
      } else {
        assert m[i..][0] == m[1..][i - 1];
      }
    }
  }

  // Proof helpers: regroupings of concatenations and evaluations of literal texts. Each is
  // proved alone, in a small context, and used by the lemmas above.

  /** Regrouping four concatenated strings. */
  lemma Regroup4(a: string, b: string, c: string, d: string)
    ensures a + b + c + d == a + (b + c + d)
  {
  }
}
