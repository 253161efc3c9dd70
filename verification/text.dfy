/**
 * The string operations of the .NET base library that the two targets rely on:
 * null-or-empty and null-or-whitespace tests, case-insensitive prefix and
 * suffix tests, splitting on a separator with empty entries removed, and
 * substring containment. A null string is modelled as the empty string.
 */
module Text {

  /** Upper-cases an ASCII letter and leaves every other character as it is. */
  function ToUpper(c: char): char
  {
    if 'a' <= c <= 'z' then (c as int - 32) as char else c
  }

  /** The key under which an ignore-case comparison sees a string. */
  function FoldCase(s: string): (r: string)
    ensures |r| == |s|
    ensures forall i :: 0 <= i < |s| ==> r[i] == ToUpper(s[i])
  {
    seq(|s|, i requires 0 <= i < |s| => ToUpper(s[i]))
  }

  /** Ordinal ignore-case equality (StringComparer.OrdinalIgnoreCase). */
  predicate EqualsIgnoreCase(a: string, b: string)
  {
    FoldCase(a) == FoldCase(b)
  }

  /** string.StartsWith(prefix, InvariantCultureIgnoreCase). */
  predicate StartsWithIgnoreCase(s: string, prefix: string)
  {
    |prefix| <= |s| && EqualsIgnoreCase(s[..|prefix|], prefix)
  }

  /** string.EndsWith(suffix, InvariantCultureIgnoreCase). */
  predicate EndsWithIgnoreCase(s: string, suffix: string)
  {
    |suffix| <= |s| && EqualsIgnoreCase(s[|s| - |suffix|..], suffix)
  }

  /** A prefix that matches ignoring case still matches whatever follows it. */
  lemma {:induction false} StartsWithIgnoreCaseOfConcat(s: string, prefix: string, rest: string)
    requires EqualsIgnoreCase(s, prefix)
    ensures StartsWithIgnoreCase(s + rest, prefix)
  {
    assert |FoldCase(s)| == |FoldCase(prefix)|;
    assert (s + rest)[..|prefix|] == s;
  }

  /** Two prefixes that are equal ignoring case accept the same strings. */
  lemma {:induction false} StartsWithIgnoreCaseRespectsCase(s: string, p: string, q: string)
    requires EqualsIgnoreCase(p, q)
    ensures StartsWithIgnoreCase(s, p) <==> StartsWithIgnoreCase(s, q)
  {
    assert |FoldCase(p)| == |FoldCase(q)|;
  }

  /** A string ends with its own tail, whatever comes before it. */
  lemma EndsWithTail(head: string, tail: string)
    ensures EndsWithIgnoreCase(head + tail, tail)
  {
    assert (head + tail)[|head + tail| - |tail|..] == tail;
  }

  /** One character that differs even after case folding rules a suffix out. */
  lemma NotEndsWithAt(s: string, suffix: string, k: nat)
    requires |suffix| <= |s| && k < |suffix|
    requires ToUpper(s[|s| - |suffix| + k]) != ToUpper(suffix[k])
    ensures !EndsWithIgnoreCase(s, suffix)
  {
    var tail := s[|s| - |suffix|..];
    assert FoldCase(tail)[k] != FoldCase(suffix)[k];
  }

  /** char.IsWhiteSpace: the Unicode separators plus the control characters 0x09-0x0D, 0x85 and 0xA0. */
  predicate IsWhiteSpace(c: char)
  {
    || c == ' ' || ('\t' <= c <= '\r') || c == '\U{85}' || c == '\U{A0}' || c == '\U{1680}'
    || ('\U{2000}' <= c <= '\U{200A}') || c == '\U{2028}' || c == '\U{2029}'
    || c == '\U{202F}' || c == '\U{205F}' || c == '\U{3000}'
  }

  /** string.IsNullOrEmpty. */
  predicate IsNullOrEmpty(s: string)
  {
    |s| == 0
  }

  /** string.IsNullOrWhiteSpace. */
  predicate IsNullOrWhiteSpace(s: string)
  {
    forall i :: 0 <= i < |s| ==> IsWhiteSpace(s[i])
  }

  /**
   * string.Split(new[] { sep }) without options: the runs between separators,
   * empty runs included, so there is always one more run than separators.
   */
  function Runs(s: string, sep: char): (runs: seq<string>)
    ensures |runs| >= 1
    ensures forall t :: t in runs ==> sep !in t
  {
    if s == [] then [[]]
    else
      var rest := Runs(s[1..], sep);
      if s[0] == sep then [[]] + rest
      else [[s[0]] + rest[0]] + rest[1..]
  }

  /** Joins runs with the separator between each two of them (string.Join). */
  function Join(runs: seq<string>, sep: char): string
    requires |runs| >= 1
  {
    if |runs| == 1 then runs[0] else runs[0] + [sep] + Join(runs[1..], sep)
  }

  /** Splitting loses nothing: joining the runs gives back the original string. */
  lemma {:induction false} JoinRuns(s: string, sep: char)
    ensures Join(Runs(s, sep), sep) == s
  {
    if s != [] {
      var rest := Runs(s[1..], sep);
      JoinRuns(s[1..], sep);
      if s[0] == sep {
        assert Runs(s, sep)[1..] == rest;
        assert s == [sep] + s[1..];
      } else if |rest| == 1 {
        assert s == [s[0]] + s[1..];
      } else {
        assert Runs(s, sep)[1..] == rest[1..];
        assert s == [s[0]] + s[1..];
      }
    }
  }

  /** Runs of a concatenation around a separator are the runs of each side. */
  lemma {:induction false} RunsAtSeparator(a: string, b: string, sep: char)
    ensures Runs(a + [sep] + b, sep) == Runs(a, sep) + Runs(b, sep)
  {
    var s := a + [sep] + b;
    if a == [] {
      assert s == [sep] + b;
      assert s[1..] == b;
    } else {
      assert s[0] == a[0];
      assert s[1..] == a[1..] + [sep] + b;
      RunsAtSeparator(a[1..], b, sep);
    }
  }

  /** The entries of ts that are not empty, in order (StringSplitOptions.RemoveEmptyEntries). */
  function RemoveEmpty(ts: seq<string>): (r: seq<string>)
    ensures |r| <= |ts|
    ensures forall t :: t in r ==> t in ts && t != []
  {
    if ts == [] then [] else (if ts[0] == [] then [] else [ts[0]]) + RemoveEmpty(ts[1..])
  }

  lemma {:induction false} RemoveEmptyAppend(xs: seq<string>, ys: seq<string>)
    ensures RemoveEmpty(xs + ys) == RemoveEmpty(xs) + RemoveEmpty(ys)
  {
    if xs != [] {
      assert (xs + ys)[0] == xs[0];
      assert (xs + ys)[1..] == xs[1..] + ys;
      RemoveEmptyAppend(xs[1..], ys);
    } else {
      assert xs + ys == ys;
    }
  }

  /** string.Split(new[] { sep }, StringSplitOptions.RemoveEmptyEntries). */
  function Split(s: string, sep: char): (tokens: seq<string>)
    ensures forall t :: t in tokens ==> t != [] && sep !in t
  {
    RemoveEmpty(Runs(s, sep))
  }

  /** A non-empty string without the separator is a single token. */
  lemma {:induction false} SplitSingle(s: string, sep: char)
    requires s != [] && sep !in s
    ensures Split(s, sep) == [s]
  {
    RunsWithoutSeparator(s, sep);
  }

  lemma {:induction false} RunsWithoutSeparator(s: string, sep: char)
    requires sep !in s
    ensures Runs(s, sep) == [s]
  {
    if s != [] {
      RunsWithoutSeparator(s[1..], sep);
      assert s == [s[0]] + s[1..];
    }
  }

  /** Splitting distributes over a separator: the tokens on each side of it are kept apart and in order. */
  lemma SplitAtSeparator(a: string, b: string, sep: char)
    ensures Split(a + [sep] + b, sep) == Split(a, sep) + Split(b, sep)
  {
    RunsAtSeparator(a, b, sep);
    RemoveEmptyAppend(Runs(a, sep), Runs(b, sep));
  }

  /** t occurs in s starting at position i. */
  predicate OccursAt(s: string, t: string, i: nat)
  {
    i + |t| <= |s| && s[i..i + |t|] == t
  }

  /** t is a substring of s. */
  predicate Contains(s: string, t: string)
  {
    exists i: nat | i <= |s| :: OccursAt(s, t, i)
  }

  lemma ContainsMiddle(a: string, t: string, b: string)
    ensures Contains(a + t + b, t)
  {
    assert OccursAt(a + t + b, t, |a|);
  }
}
