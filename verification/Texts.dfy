/** Python's text operations, as far as the modelled code uses them. */
module Texts {

  /** What str.strip() removes. */
  predicate IsSpace(c: char) {
    || '\t' <= c <= '\r' || '\U{1c}' <= c <= ' ' || c == '\U{85}' || c == '\U{a0}' || c == '\U{1680}'
    || '\U{2000}' <= c <= '\U{200a}' || c == '\U{2028}' || c == '\U{2029}' || c == '\U{202f}' || c == '\U{205f}'
    || c == '\U{3000}'
  }

  predicate Blank(s: string) {
    forall c :: c in s ==> IsSpace(c)
  }

  function Stripped(s: string): string {
    if s == "" then s
    else if IsSpace(s[0]) then Stripped(s[1..])
    else if IsSpace(s[|s| - 1]) then Stripped(s[..|s| - 1])
    else s
  }

  /** Stripping leaves nothing exactly of a blank text, and otherwise a text with no blank at either end. */
  lemma {:induction false} StrippedIs(s: string)
    ensures Stripped(s) == "" <==> Blank(s)
    ensures Stripped(s) != "" ==> !IsSpace(Stripped(s)[0]) && !IsSpace(Stripped(s)[|Stripped(s)| - 1])
  {
    if s != "" {
      if IsSpace(s[0]) {
        StrippedIs(s[1..]);
        assert s == [s[0]] + s[1..];
      } else {
        assert s[0] in s;
        if IsSpace(s[|s| - 1]) {
          StrippedIs(s[..|s| - 1]);
          assert s[..|s| - 1] != "" && s[..|s| - 1][0] == s[0] && s[0] in s[..|s| - 1];
        }
      }
    }
  }

  /** What stripping takes off the two ends is blank. */
  lemma {:induction false} StrippedWithin(s: string) returns (before: string, after: string)
    ensures s == before + Stripped(s) + after && Blank(before) && Blank(after)
  {
    before, after := "", "";
    if s != "" {
      if IsSpace(s[0]) {
        before, after := StrippedWithin(s[1..]);
        before := [s[0]] + before;
        assert s == [s[0]] + s[1..];
      } else if IsSpace(s[|s| - 1]) {
        before, after := StrippedWithin(s[..|s| - 1]);
        after := after + [s[|s| - 1]];
        assert s == s[..|s| - 1] + [s[|s| - 1]];
      }
    }
  }

  /** The case folding of a character that folds to ASCII letters; every other character that is not
      ASCII folds to something that is not ASCII either, and stands for itself here. */
  function FoldedChar(c: char): string {
    if 'A' <= c <= 'Z' then [(c as int + 32) as char]
    else if c == '\U{212a}' then "k"
    else if c == '\U{17f}' then "s"
    else if c == '\U{df}' || c == '\U{1e9e}' then "ss"
    else if c == '\U{fb00}' then "ff"
    else if c == '\U{fb01}' then "fi"
    else if c == '\U{fb02}' then "fl"
    else if c == '\U{fb03}' then "ffi"
    else if c == '\U{fb04}' then "ffl"
    else if c == '\U{fb05}' || c == '\U{fb06}' then "st"
    else [c]
  }

  /** str.casefold(), exact for comparison with an ASCII text. */
  function Folded(s: string): string {
    if s == "" then "" else FoldedChar(s[0]) + Folded(s[1..])
  }

  predicate IsAscii(s: string) {
    forall c :: c in s ==> c < '\U{80}'
  }

  /** The same letter, or a capital and its small letter. */
  predicate SmallOf(c: char, small: char) {
    if 'A' <= c <= 'Z' then 'a' <= small <= 'z' && small as int - 'a' as int == c as int - 'A' as int else small == c
  }

  /** Folding leaves no capital, and a folded text as it is. */
  lemma {:induction false} FoldedIs(s: string)
    ensures forall c :: c in Folded(s) ==> !('A' <= c <= 'Z')
    ensures Folded(Folded(s)) == Folded(s)
  {
    if s != "" {
      FoldedIs(s[1..]);
      FoldedConcat(FoldedChar(s[0]), Folded(s[1..]));
      FoldedCharIs(s[0]);
    }
  }

  /** An ASCII text gets its capitals replaced, place by place. */
  lemma {:induction false} AsciiFolded(s: string)
    requires IsAscii(s)
    ensures SameButCase(s, Folded(s))
  {
    if s != "" {
      assert s[0] in s && forall c :: c in s[1..] ==> c in s;
      AsciiFolded(s[1..]);
      AsciiChar(s[0]);
      Placewise(s[0], FoldedChar(s[0])[0], s[1..], Folded(s[1..]));
      assert s == [s[0]] + s[1..] && Folded(s) == [FoldedChar(s[0])[0]] + Folded(s[1..]);
    }
  }

  lemma AsciiChar(c: char)
    requires c < '\U{80}'
    ensures |FoldedChar(c)| == 1 && SmallOf(c, FoldedChar(c)[0])
  {
  }

  lemma Placewise(c: char, small: char, s: string, t: string)
    requires SmallOf(c, small) && SameButCase(s, t)
    ensures SameButCase([c] + s, [small] + t)
  {
  }

  lemma FoldedCharIs(c: char)
    ensures Folded(FoldedChar(c)) == FoldedChar(c) && forall x :: x in FoldedChar(c) ==> !('A' <= x <= 'Z')
  {
    var f := FoldedChar(c);
    SmallStays(f[0]);
    if |f| == 1 {
      assert f == [f[0]];
    } else {
      SmallStays(f[1]);
      FoldedConcat([f[0]], [f[1]]);
      if |f| == 2 {
        assert f == [f[0]] + [f[1]];
      } else {
        SmallStays(f[2]);
        FoldedConcat([f[0]] + [f[1]], [f[2]]);
        assert f == [f[0]] + [f[1]] + [f[2]];
      }
    }
  }

  lemma SmallStays(c: char)
    requires FoldedChar(c) == [c]
    ensures Folded([c]) == [c]
  {
    assert [c][1..] == [];
  }

  lemma {:induction false} FoldedConcat(a: string, b: string)
    ensures Folded(a + b) == Folded(a) + Folded(b)
  {
    if a == "" {
      assert a + b == b;
    } else {
      assert (a + b)[0] == a[0] && (a + b)[1..] == a[1..] + b;
      FoldedConcat(a[1..], b);
    }
  }

  predicate SameButCase(a: string, small: string) {
    |a| == |small| && forall i :: 0 <= i < |a| ==> SmallOf(a[i], small[i])
  }

  lemma FoldsTo(a: string, small: string)
    requires IsAscii(a)
    ensures Folded(a) == small <==> SameButCase(a, small)
  {
    AsciiFolded(a);
    if SameButCase(a, small) {
      forall i | 0 <= i < |a| ensures Folded(a)[i] == small[i] {
        OneSmall(a[i], Folded(a)[i], small[i]);
      }
    }
  }

  lemma OneSmall(c: char, x: char, y: char)
    requires SmallOf(c, x) && SmallOf(c, y)
    ensures x == y
  {
  }

  // ---------- dict.fromkeys(t.strip() for t in texts if t.strip()) ----------

  /** Each text stripped, once, where it first occurs; blank ones left out. */
  function Cleaned(texts: seq<string>): seq<string> {
    if texts == [] then []
    else
      var rest, t := Cleaned(texts[..|texts| - 1]), Stripped(texts[|texts| - 1]);
      if t == "" || t in rest then rest else rest + [t]
  }

  lemma {:induction false} CleanedIs(texts: seq<string>)
    ensures forall i, j :: 0 <= i < j < |Cleaned(texts)| ==> Cleaned(texts)[i] != Cleaned(texts)[j]
    ensures forall x :: x in Cleaned(texts) <==> x != "" && Named(texts, x)
  {
    if texts != [] {
      var n := |texts| - 1;
      CleanedIs(texts[..n]);
      forall x ensures Named(texts, x) <==> Named(texts[..n], x) || x == Stripped(texts[n]) {
        assert texts == texts[..n] + [texts[n]] && texts[n] in texts;
        if Named(texts[..n], x) {
          var t :| t in texts[..n] && Stripped(t) == x;
          assert t in texts;
        }
      }
    }
  }

  /** The texts come in the order in which they are first named. */
  lemma {:induction false} CleanedInOrder(texts: seq<string>, i: nat, j: nat) returns (m: nat)
    requires i < j < |Cleaned(texts)|
    ensures m <= |texts| && Named(texts[..m], Cleaned(texts)[i]) && !Named(texts[..m], Cleaned(texts)[j])
  {
    var n := |texts| - 1;
    var rest := Cleaned(texts[..n]);
    if j < |rest| {
      m := CleanedInOrder(texts[..n], i, j);
      assert texts[..n][..m] == texts[..m];
    } else {
      CleanedIs(texts[..n]);
      m := n;
      assert rest[i] in rest;
    }
  }

  ghost predicate Named(texts: seq<string>, x: string) {
    exists t :: t in texts && Stripped(t) == x
  }

  // ---------- sorted(set(texts)) ----------

  /** Code-point order. */
  predicate Before(a: string, b: string) {
    b != "" && (a == "" || a[0] < b[0] || (a[0] == b[0] && Before(a[1..], b[1..])))
  }

  lemma {:induction false} BeforeTotal(a: string, b: string)
    ensures a == b || Before(a, b) || Before(b, a)
  {
    if a != "" && b != "" && a[0] == b[0] {
      BeforeTotal(a[1..], b[1..]);
      assert a == [a[0]] + a[1..] && b == [b[0]] + b[1..];
    }
  }

  lemma {:induction false} BeforeTransitive(a: string, b: string, c: string)
    requires Before(a, b) && Before(b, c)
    ensures Before(a, c)
  {
    if a != "" && a[0] == b[0] == c[0] {
      BeforeTransitive(a[1..], b[1..], c[1..]);
    }
  }

  function Inserted(t: string, sorted: seq<string>): seq<string> {
    if sorted == [] then [t]
    else if t == sorted[0] then sorted
    else if Before(t, sorted[0]) then [t] + sorted
    else [sorted[0]] + Inserted(t, sorted[1..])
  }

  function SortedSet(texts: seq<string>): seq<string> {
    if texts == [] then [] else Inserted(texts[0], SortedSet(texts[1..]))
  }

  predicate Ascending(texts: seq<string>) {
    forall i, j :: 0 <= i < j < |texts| ==> Before(texts[i], texts[j])
  }

  lemma {:induction false} InsertedIs(t: string, sorted: seq<string>)
    requires Ascending(sorted)
    ensures Ascending(Inserted(t, sorted))
    ensures forall x :: x in Inserted(t, sorted) <==> x == t || x in sorted
  {
    if sorted != [] && t != sorted[0] {
      assert forall x :: x in sorted <==> x == sorted[0] || x in sorted[1..];
      assert forall i :: 0 < i < |sorted| ==> sorted[i] == sorted[1..][i - 1];
      if Before(t, sorted[0]) {
        forall i | 0 < i < |sorted| ensures Before(t, sorted[i]) {
          BeforeTransitive(t, sorted[0], sorted[i]);
        }
      } else {
        BeforeTotal(t, sorted[0]);
        InsertedIs(t, sorted[1..]);
        var rest := Inserted(t, sorted[1..]);
        forall i | 0 <= i < |rest| ensures Before(sorted[0], rest[i]) {
          assert rest[i] in rest;
        }
      }
    }
  }

  /** Strictly ascending, with the same members: each text once. */
  lemma {:induction false} SortedSetIs(texts: seq<string>)
    ensures Ascending(SortedSet(texts))
    ensures forall x :: x in SortedSet(texts) <==> x in texts
  {
    if texts != [] {
      SortedSetIs(texts[1..]);
      InsertedIs(texts[0], SortedSet(texts[1..]));
      assert texts == [texts[0]] + texts[1..];
    }
  }
}
