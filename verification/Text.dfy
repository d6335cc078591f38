/** The string functions of the Go library that the program relies on. */
module Text {
  import opened Wrappers

  /** strings.Index for a non-empty needle. */
  function Index(s: string, sub: string): (r: Option<nat>)
    ensures r.Some? ==> r.value <= |s| && sub <= s[r.value..]
    ensures r.Some? ==> forall j | 0 <= j < r.value :: !(sub <= s[j..])
    ensures r.None? ==> forall j | 0 <= j <= |s| :: !(sub <= s[j..])
  {
    if sub <= s then Some(0)
    else if s == [] then None
    else
      match Index(s[1..], sub)
      case None =>
        assert forall j | 1 <= j <= |s| :: s[j..] == s[1..][j - 1..];
        None
      case Some(i) =>
        assert forall j | 1 <= j <= |s| :: s[j..] == s[1..][j - 1..];
        Some(i + 1)
  }

  lemma StartsWithChar(s: string, j: nat, c: char)
    requires j < |s|
    ensures [c] <= s[j..] <==> s[j] == c
  {
  }

  /** The first occurrence cuts the text in two, and there is none in the first part. */
  lemma IndexOfChar(s: string, c: char)
    ensures c in s <==> Index(s, [c]).Some?
    ensures c in s ==> var i := Index(s, [c]).value; i < |s| && s == s[..i] + [c] + s[i + 1..] && c !in s[..i]
  {
    forall j: nat | j < |s| ensures [c] <= s[j..] <==> s[j] == c {
      StartsWithChar(s, j, c);
    }
    match Index(s, [c]) {
      case Some(i) => CutAtChar(s, i, c);
      case None =>
    }
  }

  lemma CutAtChar(s: string, i: nat, c: char)
    requires i <= |s| && [c] <= s[i..]
    ensures i < |s| && s[i] == c && s == s[..i] + [c] + s[i + 1..]
  {
    assert |s[i..]| >= 1;
    assert s[i..][0] == c;
  }

  /** The only way to cut a text before a first separator. */
  lemma CutAtFirst(s: string, l: string, c: char, d: string)
    requires s == l + [c] + d && c !in l
    ensures Index(s, [c]) == Some(|l|)
  {
    forall j | 0 <= j < |l| ensures !([c] <= s[j..]) {
      assert s[j] == l[j];
    }
    assert [c] <= s[|l|..];
    FirstOccurrence(s, [c], |l|);
  }

  /** An occurrence cuts the text in three. */
  lemma CutAtOccurrence(s: string, sub: string, i: nat)
    requires i <= |s| && sub <= s[i..]
    ensures i + |sub| <= |s| && s == s[..i] + sub + s[i + |sub|..]
  {
    var t := s[i..];
    assert t == sub + t[|sub|..];
    assert t[|sub|..] == s[i + |sub|..];
    assert s == s[..i] + t;
  }

  predicate Contains(s: string, sub: string) {
    Index(s, sub).Some?
  }

  /** The position of the first occurrence is the only one that has none before it. */
  lemma FirstOccurrence(s: string, sub: string, i: nat)
    requires i <= |s| && sub <= s[i..] && forall j | 0 <= j < i :: !(sub <= s[j..])
    ensures Index(s, sub) == Some(i)
  {
  }

  /** strings.Split at a one-character separator. */
  function Split(s: string, sep: char): (r: seq<string>)
    ensures |r| >= 1
    ensures forall i | 0 <= i < |r| :: sep !in r[i]
  {
    if s == [] then [[]]
    else
      var rest := Split(s[1..], sep);
      if s[0] == sep then [[]] + rest
      else [[s[0]] + rest[0]] + rest[1..]
  }

  function Join(parts: seq<string>, sep: char): string
    requires |parts| >= 1
  {
    if |parts| == 1 then parts[0] else parts[0] + [sep] + Join(parts[1..], sep)
  }

  lemma {:induction false} JoinSplit(s: string, sep: char)
    ensures Join(Split(s, sep), sep) == s
  {
    if s != [] {
      JoinSplit(s[1..], sep);
      var rest := Split(s[1..], sep);
      if s[0] == sep {
        assert ([[]] + rest)[1..] == rest;
      } else {
        var parts := [[s[0]] + rest[0]] + rest[1..];
        assert parts[1..] == rest[1..];
        assert Join(parts, sep) == [s[0]] + Join(rest, sep);
      }
    }
  }

  lemma JoinThree(a: string, b: string, d: string, sep: char)
    ensures Join([a, b, d], sep) == a + [sep] + b + [sep] + d
  {
    assert [a, b, d][1..] == [b, d] && [b, d][1..] == [d];
    assert Join([d], sep) == d;
    assert Join([b, d], sep) == b + [sep] + Join([d], sep);
    assert Join([a, b, d], sep) == a + [sep] + Join([b, d], sep);
    assert a + [sep] + (b + [sep] + d) == a + [sep] + b + [sep] + d;
  }

  /** Splitting a + sep + s, where a has no separator, peels a off. */
  lemma {:induction false} SplitCons(a: string, s: string, sep: char)
    requires sep !in a
    ensures Split(a + [sep] + s, sep) == [a] + Split(s, sep)
    ensures Split(a, sep) == [a]
  {
    var w := a + [sep] + s;
    if a == [] {
      assert w[1..] == s;
    } else {
      SplitCons(a[1..], s, sep);
      assert w[1..] == a[1..] + [sep] + s && w[0] == a[0] && a[0] in a;
      assert [a[0]] + a[1..] == a;
    }
  }

  /** There is one part more than there are separators. */
  lemma {:induction false} SplitCounts(s: string, sep: char)
    ensures |Split(s, sep)| == multiset(s)[sep] + 1
  {
    if s != [] {
      SplitCounts(s[1..], sep);
      assert s == [s[0]] + s[1..];
    }
  }

  lemma SplitThree(a: string, b: string, d: string, sep: char)
    requires sep !in a && sep !in b && sep !in d
    ensures Split(a + [sep] + b + [sep] + d, sep) == [a, b, d]
  {
    assert a + [sep] + b + [sep] + d == a + [sep] + (b + [sep] + d);
    SplitCons(a, b + [sep] + d, sep);
    SplitCons(b, d, sep);
    SplitCons(d, [], sep);
  }

  /** strings.ReplaceAll for a non-empty old. */
  function ReplaceAll(s: string, old': string, new': string): string
    requires old' != []
  {
    if s == [] then []
    else if old' <= s then new' + ReplaceAll(s[|old'|..], old', new')
    else [s[0]] + ReplaceAll(s[1..], old', new')
  }

  /** strings.LastIndex of a character. */
  function LastIndex(s: string, c: char): (r: Option<nat>)
    ensures r.Some? ==> r.value < |s| && s[r.value] == c && c !in s[r.value + 1..]
    ensures r.None? ==> c !in s
  {
    if s == [] then None
    else if s[|s| - 1] == c then Some(|s| - 1)
    else
      match LastIndex(s[..|s| - 1], c)
      case None => None
      case Some(i) =>
        assert s[i + 1..] == s[..|s| - 1][i + 1..] + [s[|s| - 1]];
        Some(i)
  }

  /** strings.ToLower of one character; ASCII only. */
  function LowerChar(c: char): char {
    if 'A' <= c <= 'Z' then (c as int + 32) as char else c
  }

  const UPPER := "ABCDEFGHIJKLMNOPQRSTUVWXYZ"
  const LOWER := "abcdefghijklmnopqrstuvwxyz"

  /** Each capital folds to its own small letter, and nothing else changes. */
  lemma LowerCharFolds(k: nat, c: char)
    requires k < 26
    ensures |UPPER| == |LOWER| == 26 && LowerChar(UPPER[k]) == LOWER[k] && LowerChar(LOWER[k]) == LOWER[k]
    ensures c !in UPPER ==> LowerChar(c) == c
  {
    if 'A' <= c <= 'Z' {
      assert c == UPPER[c as int - 'A' as int];
    }
  }

  function ToLower(s: string): (r: string)
    ensures |r| == |s| && forall i | 0 <= i < |s| :: r[i] == LowerChar(s[i])
  {
    if s == [] then [] else [LowerChar(s[0])] + ToLower(s[1..])
  }

  /** strings.EqualFold compares character by character. */
  predicate EqualFold(s: string, t: string) {
    |s| == |t| && forall i | 0 <= i < |s| :: LowerChar(s[i]) == LowerChar(t[i])
  }

  lemma EqualFoldIsEqualLower(s: string, t: string)
    ensures EqualFold(s, t) <==> ToLower(s) == ToLower(t)
  {
    if ToLower(s) == ToLower(t) {
      assert |s| == |t|;
      assert forall i | 0 <= i < |s| :: ToLower(s)[i] == ToLower(t)[i];
    }
  }

  /** Up to the first separator, a prefix agrees with the whole. */
  lemma {:induction false} SameHead(p: string, x: string, e: string, y: string, sep: char)
    requires sep !in p && sep !in e && p + [sep] + x <= e + [sep] + y
    ensures p == e && x <= y
  {
    var small, large := p + [sep] + x, e + [sep] + y;
    assert small[0] == large[0];
    assert p != [] ==> small[0] == p[0] && p[0] in p;
    assert e != [] ==> large[0] == e[0] && e[0] in e;
    if p == [] {
      assert small[1..] == x && large[1..] == y;
    } else {
      assert small[1..] == p[1..] + [sep] + x && large[1..] == e[1..] + [sep] + y;
      SameHead(p[1..], x, e[1..], y, sep);
      assert p == [p[0]] + p[1..] && e == [e[0]] + e[1..];
    }
  }
}
