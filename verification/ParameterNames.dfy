/** The parameter names the gateway generates, and why no two of a statement are the same. */
module ParameterNames {

  function Digit(d: nat): char
    requires d < 10
  {
    ('0' as int + d) as char
  }

  predicate IsDigit(c: char) {
    '0' <= c <= '9'
  }

  function Dec(n: nat): (s: string)
    ensures s != [] && forall c :: c in s ==> IsDigit(c)
  {
    if n < 10 then [Digit(n)] else Dec(n / 10) + [Digit(n % 10)]
  }

  lemma {:induction false} DecInjective(a: nat, b: nat)
    requires Dec(a) == Dec(b)
    ensures a == b
  {
    assert Dec(a)[|Dec(a)| - 1] == Dec(b)[|Dec(b)| - 1];
    if a >= 10 && b >= 10 {
      assert Dec(a)[..|Dec(a)| - 1] == Dec(a / 10) && Dec(b)[..|Dec(b)| - 1] == Dec(b / 10);
      DecInjective(a / 10, b / 10);
    }
  }

  function FilterName(i: nat): string {
    "filter_" + Dec(i)
  }

  function ItemName(i: nat, j: nat): string {
    FilterName(i) + "_" + Dec(j)
  }

  function ValueName(i: nat): string {
    "value_" + Dec(i)
  }

  function RowName(i: nat, column: string): string {
    "row_" + Dec(i) + "_" + column
  }

  const ROW_LIMIT := "row_limit"

  /** The first underscore splits a name: what stands before it has none. */
  lemma FirstUnderscore(a: string, x: string, b: string, y: string)
    requires a + "_" + x == b + "_" + y
    requires (forall c :: c in a ==> IsDigit(c)) && (forall c :: c in b ==> IsDigit(c))
    ensures a == b && x == y
  {
    var s := a + "_" + x;
    assert s[|a|] == '_' && s[|b|] == '_';
    assert forall n :: 0 <= n < |a| ==> s[n] == a[n] && a[n] in a;
    assert forall n :: 0 <= n < |b| ==> s[n] == b[n] && b[n] in b;
    assert a == s[..|a|] && b == s[..|b|];
    assert x == s[|a| + 1..] && y == s[|b| + 1..];
  }

  lemma TailEqual(p: string, a: string, b: string)
    requires p + a == p + b
    ensures a == b
  {
    assert a == (p + a)[|p|..] && b == (p + b)[|p|..];
  }

  lemma FilterNamesDistinct(i: nat, k: nat)
    requires FilterName(i) == FilterName(k)
    ensures i == k
  {
    TailEqual("filter_", Dec(i), Dec(k));
    DecInjective(i, k);
  }

  lemma ItemNamesDistinct(i: nat, j: nat, k: nat, l: nat)
    requires ItemName(i, j) == ItemName(k, l)
    ensures i == k && j == l
  {
    assert ItemName(i, j) == "filter_" + (Dec(i) + "_" + Dec(j));
    assert ItemName(k, l) == "filter_" + (Dec(k) + "_" + Dec(l));
    TailEqual("filter_", Dec(i) + "_" + Dec(j), Dec(k) + "_" + Dec(l));
    FirstUnderscore(Dec(i), Dec(j), Dec(k), Dec(l));
    DecInjective(i, k);
    DecInjective(j, l);
  }

  lemma FilterIsNotItem(i: nat, k: nat, l: nat)
    ensures FilterName(i) != ItemName(k, l)
  {
    assert '_' !in Dec(i);
    assert FilterName(i)[7..] == Dec(i);
    var tail := Dec(k) + "_" + Dec(l);
    assert tail[|Dec(k)|] == '_' && ItemName(k, l) == "filter_" + tail;
    assert ItemName(k, l)[7..] == tail;
  }

  lemma RowNamesDistinct(i: nat, column: string, k: nat, other: string)
    requires RowName(i, column) == RowName(k, other)
    ensures i == k && column == other
  {
    assert RowName(i, column) == "row_" + (Dec(i) + "_" + column);
    assert RowName(k, other) == "row_" + (Dec(k) + "_" + other);
    TailEqual("row_", Dec(i) + "_" + column, Dec(k) + "_" + other);
    FirstUnderscore(Dec(i), column, Dec(k), other);
    DecInjective(i, k);
  }

  lemma ValueNamesDistinct(i: nat, k: nat)
    requires ValueName(i) == ValueName(k)
    ensures i == k
  {
    TailEqual("value_", Dec(i), Dec(k));
    DecInjective(i, k);
  }

  /** The kinds of name never meet: they differ within their first five characters. */
  lemma KindsDistinct(i: nat, j: nat, k: nat, l: nat, m: nat, column: string)
    ensures FilterName(i) != ValueName(k) && ItemName(i, j) != ValueName(k)
    ensures FilterName(i) != ROW_LIMIT && ItemName(i, j) != ROW_LIMIT
    ensures RowName(m, column) != ROW_LIMIT && RowName(m, column) != ValueName(k)
    ensures RowName(m, column) != FilterName(i) && RowName(m, column) != ItemName(i, j)
  {
    assert FilterName(i)[0] == 'f' && ItemName(i, j)[0] == 'f' && ValueName(k)[0] == 'v';
    assert RowName(m, column)[0] == 'r' && RowName(m, column)[4] == Dec(m)[0] && Dec(m)[0] in Dec(m);
  }
}
