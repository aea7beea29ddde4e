/** Reading SQL text the way the database reads the parts that matter here:
    the positional placeholders `$1`, `$2`, ... in order of appearance, and
    how often a keyword occurs. Also the two string operations the builder
    uses, `endsWith` and concatenation of many pieces. */
module SqlText {
  import opened Decimal

  /** `s` does not contain the character `c`. */
  predicate Lacks(s: string, c: char) {
    forall i :: 0 <= i < |s| ==> s[i] != c
  }

  lemma LacksConcat(a: string, b: string, c: char)
    requires Lacks(a, c) && Lacks(b, c)
    ensures Lacks(a + b, c)
  {
  }

  /** JavaScript's `s.endsWith(suffix)`. */
  predicate EndsWith(s: string, suffix: string) {
    |suffix| <= |s| && s[|s| - |suffix|..] == suffix
  }

  /** The length of the longest run of digits at the start of `s`. */
  function DigitRun(s: string): (k: nat)
    ensures k <= |s|
    ensures forall i :: 0 <= i < k ==> IsDigit(s[i])
    ensures k < |s| ==> !IsDigit(s[k])
  {
    if s != [] && IsDigit(s[0]) then 1 + DigitRun(s[1..]) else 0
  }

  /** The indices of the positional placeholders in `s`, left to right: a `$`
      followed by one or more digits names the parameter with that number. */
  function Placeholders(s: string): seq<nat>
    decreases |s|
  {
    if s == [] then []
    else if s[0] == '$' && DigitRun(s[1..]) > 0 then
      var k := DigitRun(s[1..]);
      var digits := s[1..1 + k];
      assert AllDigits(digits) by {
        forall i | 0 <= i < |digits| ensures IsDigit(digits[i]) {
          assert digits[i] == s[1..][i];
        }
      }
      [Value(s[1..1 + k])] + Placeholders(s[1 + k..])
    else Placeholders(s[1..])
  }

  /** The placeholder numbers a correctly numbered query uses: first, ..., first + n - 1. */
  function Span(first: nat, n: nat): (r: seq<nat>)
    ensures |r| == n
    ensures forall i :: 0 <= i < n ==> r[i] == first + i
  {
    seq(n, i requires 0 <= i => first + i)
  }

  lemma SpanSplit(first: nat, m: nat, n: nat)
    ensures Span(first, m) + Span(first + m, n) == Span(first, m + n)
  {
  }

  lemma SpanOne(first: nat)
    ensures Span(first, 1) == [first]
  {
  }

  lemma SpanCons(first: nat, n: nat)
    ensures [first] + Span(first + 1, n) == Span(first, n + 1)
  {
    SpanSplit(first, 1, n);
    assert Span(first, 1) == [first];
  }

  lemma SpanConsAppend(first: nat, n: nat, after: seq<nat>)
    ensures [first] + (Span(first + 1, n) + after) == Span(first, n + 1) + after
  {
    SpanCons(first, n);
  }

  lemma {:induction false} DigitRunOf(d: string, rest: string)
    requires AllDigits(d)
    requires rest == [] || !IsDigit(rest[0])
    ensures DigitRun(d + rest) == |d|
  {
    if d != [] {
      assert (d + rest)[1..] == d[1..] + rest;
      DigitRunOf(d[1..], rest);
    }
  }

  /** Text without a `$` contributes no placeholders. */
  lemma {:induction false} PlaceholdersSkip(a: string, b: string)
    requires Lacks(a, '$')
    ensures Placeholders(a + b) == Placeholders(b)
  {
    if a != [] {
      assert (a + b)[0] == a[0];
      assert (a + b)[1..] == a[1..] + b;
      assert Placeholders(a + b) == Placeholders(a[1..] + b);
      PlaceholdersSkip(a[1..], b);
    } else {
      assert a + b == b;
    }
  }

  lemma PlaceholdersNone(a: string)
    requires Lacks(a, '$')
    ensures Placeholders(a) == []
  {
    PlaceholdersSkip(a, []);
    assert a + [] == a;
  }

  lemma {:induction false} DigitRunConcat(a: string, b: string)
    requires b == [] || !IsDigit(b[0])
    ensures DigitRun(a + b) == DigitRun(a)
  {
    if a == [] {
      assert a + b == b;
    } else {
      assert (a + b)[0] == a[0];
      assert (a + b)[1..] == a[1..] + b;
      DigitRunConcat(a[1..], b);
    }
  }

  /** `$` and a run of digits followed by a non-digit is read as exactly one
      placeholder, the number those digits spell. */
  lemma PlaceholderDigits(d: string, rest: string)
    requires d != [] && AllDigits(d)
    requires rest == [] || !IsDigit(rest[0])
    ensures Placeholders("$" + d + rest) == [Value(d)] + Placeholders(rest)
  {
    var s := "$" + d + rest;
    assert s[1..] == d + rest;
    DigitRunOf(d, rest);
    assert s[1..1 + |d|] == d;
    assert s[1 + |d|..] == rest;
  }

  lemma DollarAssoc(d: string, x: string, b: string)
    ensures "$" + d + x + b == "$" + d + (x + b)
  {
  }

  lemma ConsAssoc(v: nat, later: seq<nat>, after: seq<nat>)
    ensures [v] + (later + after) == ([v] + later) + after
  {
  }

  lemma PlaceholdersConcatMarker(d: string, x: string, b: string)
    requires d != [] && AllDigits(d)
    requires x == [] || !IsDigit(x[0])
    requires b == [] || !IsDigit(b[0])
    requires Placeholders(x + b) == Placeholders(x) + Placeholders(b)
    ensures Placeholders("$" + d + x + b) == Placeholders("$" + d + x) + Placeholders(b)
  {
    DollarAssoc(d, x, b);
    PlaceholderDigits(d, x + b);
    PlaceholderDigits(d, x);
    ConsAssoc(Value(d), Placeholders(x), Placeholders(b));
  }

  /** A character that does not open a placeholder is skipped. */
  lemma PlaceholdersSkipChar(c: char, t: string)
    requires !(c == '$' && DigitRun(t) > 0)
    ensures Placeholders([c] + t) == Placeholders(t)
  {
    assert ([c] + t)[0] == c;
    assert ([c] + t)[1..] == t;
  }

  lemma CharAssoc(c: char, r: string, b: string)
    ensures [c] + r + b == [c] + (r + b)
  {
  }

  /** One step of `PlaceholdersConcat` when `a` starts with anything else. */
  lemma PlaceholdersConcatOther(c: char, r: string, b: string)
    requires !(c == '$' && DigitRun(r) > 0)
    requires DigitRun(r + b) == DigitRun(r)
    requires Placeholders(r + b) == Placeholders(r) + Placeholders(b)
    ensures Placeholders([c] + r + b) == Placeholders([c] + r) + Placeholders(b)
  {
    CharAssoc(c, r, b);
    PlaceholdersSkipChar(c, r + b);
    PlaceholdersSkipChar(c, r);
  }

  /** A text that opens with a placeholder, cut into its digits and the rest. */
  lemma MarkerParts(a: string) returns (d: string, x: string)
    requires a != [] && a[0] == '$' && DigitRun(a[1..]) > 0
    ensures a == "$" + d + x && d != [] && AllDigits(d)
    ensures x == [] || !IsDigit(x[0])
  {
    var k := DigitRun(a[1..]);
    d, x := a[1..1 + k], a[1 + k..];
    forall i | 0 <= i < |d| ensures IsDigit(d[i]) {
      assert d[i] == a[1..][i];
    }
    assert x != [] ==> x[0] == a[1..][k];
    assert a == "$" + d + x;
  }

  lemma HeadSplit(a: string)
    requires a != []
    ensures a == [a[0]] + a[1..]
  {
  }

  /** Text that does not start with a digit cannot extend a placeholder
      before it, so the placeholders of a concatenation are those of its
      parts. */
  lemma {:induction false} PlaceholdersConcat(a: string, b: string)
    requires b == [] || !IsDigit(b[0])
    ensures Placeholders(a + b) == Placeholders(a) + Placeholders(b)
    decreases |a|
  {
    if a == [] {
      assert a + b == b;
    } else {
      var k := DigitRun(a[1..]);
      if a[0] == '$' && k > 0 {
        var d, x := MarkerParts(a);
        PlaceholdersConcat(x, b);
        PlaceholdersConcatMarker(d, x, b);
      } else {
        DigitRunConcat(a[1..], b);
        PlaceholdersConcat(a[1..], b);
        HeadSplit(a);
        PlaceholdersConcatOther(a[0], a[1..], b);
      }
    }
  }

  /** `$n` followed by a non-digit is read as exactly the placeholder n. */
  lemma PlaceholderMarker(n: nat, rest: string)
    requires rest == [] || !IsDigit(rest[0])
    ensures Placeholders("$" + NatToString(n) + rest) == [n] + Placeholders(rest)
  {
    PlaceholderDigits(NatToString(n), rest);
    ValueOfNatToString(n);
  }

  /** The number of places where `kw` starts in `s`. */
  function Count(s: string, kw: string): nat
    requires kw != []
    decreases |s|
  {
    if |s| < |kw| then 0
    else (if s[..|kw|] == kw then 1 else 0) + Count(s[1..], kw)
  }

  /** Text without the keyword's first character holds no occurrence of it,
      even one that would run on into the text that follows. */
  lemma {:induction false} CountSkip(a: string, b: string, kw: string)
    requires kw != [] && Lacks(a, kw[0])
    ensures Count(a + b, kw) == Count(b, kw)
  {
    if a != [] {
      assert |a + b| >= |kw| ==> (a + b)[..|kw|][0] == a[0];
      assert (a + b)[1..] == a[1..] + b;
      CountSkip(a[1..], b, kw);
    } else {
      assert a + b == b;
    }
  }

  lemma CountNone(a: string, kw: string)
    requires kw != [] && Lacks(a, kw[0])
    ensures Count(a, kw) == 0
  {
    CountSkip(a, [], kw);
    assert a + [] == a;
  }

  /** A keyword whose first character does not recur in it counts once where
      it is written out. */
  lemma CountKeyword(kw: string, b: string)
    requires kw != [] && Lacks(kw[1..], kw[0])
    ensures Count(kw + b, kw) == 1 + Count(b, kw)
  {
    assert (kw + b)[..|kw|] == kw;
    assert (kw + b)[1..] == kw[1..] + b;
    CountSkip(kw[1..], b, kw);
  }

  /** `x` occurs in `s` at position `k`. */
  predicate OccursAt(x: string, s: string, k: nat) {
    k + |x| <= |s| && s[k..k + |x|] == x
  }

  /** `x` occurs somewhere in `s`. */
  ghost predicate IsInfix(x: string, s: string) {
    exists k :: OccursAt(x, s, k)
  }

  lemma InfixOf(a: string, x: string, b: string)
    ensures IsInfix(x, a + x + b)
  {
    assert OccursAt(x, a + x + b, |a|);
  }

  lemma InfixWithin(x: string, y: string, s: string)
    requires IsInfix(x, y) && IsInfix(y, s)
    ensures IsInfix(x, s)
  {
    var j: nat :| OccursAt(x, y, j);
    var k: nat :| OccursAt(y, s, k);
    forall i | 0 <= i < |x| ensures s[k + j..k + j + |x|][i] == x[i] {
      assert x[i] == y[j..j + |x|][i] == y[j + i];
      assert y[j + i] == s[k..k + |y|][j + i];
    }
    assert OccursAt(x, s, k + j);
  }
}
