/** String operations of the JavaScript runtime that the application relies on:
    `String.prototype.trim`, `String.prototype.split` on one character,
    `Array.prototype.join`, `Array.prototype.filter(Boolean)` on strings and
    the decimal rendering of integers. */
module Text {

  /** The ECMAScript WhiteSpace and LineTerminator code points: what `trim` removes. */
  predicate IsSpace(c: char) {
    || c == '\t' || c == '\n' || c == '\U{000B}' || c == '\U{000C}' || c == '\r'
    || c == ' ' || c == '\U{00A0}' || c == '\U{1680}'
    || ('\U{2000}' <= c <= '\U{200A}')
    || c == '\U{2028}' || c == '\U{2029}' || c == '\U{202F}' || c == '\U{205F}'
    || c == '\U{3000}' || c == '\U{FEFF}'
  }

  predicate AllSpace(s: string) {
    forall i :: 0 <= i < |s| ==> IsSpace(s[i])
  }

  /** No white space at either end. */
  predicate IsTrimmed(s: string) {
    s == [] || (!IsSpace(s[0]) && !IsSpace(s[|s| - 1]))
  }

  /** How many white-space characters `s` starts with. */
  function LeadingSpace(s: string): (n: nat)
    ensures n <= |s|
    ensures forall i :: 0 <= i < n ==> IsSpace(s[i])
    ensures n < |s| ==> !IsSpace(s[n])
    decreases |s|
  {
    if s != [] && IsSpace(s[0]) then 1 + LeadingSpace(s[1..]) else 0
  }

  /** How many white-space characters `s` ends with. */
  function TrailingSpace(s: string): (n: nat)
    ensures n <= |s|
    ensures forall i :: |s| - n <= i < |s| ==> IsSpace(s[i])
    ensures n < |s| ==> !IsSpace(s[|s| - n - 1])
    decreases |s|
  {
    if s != [] && IsSpace(s[|s| - 1]) then 1 + TrailingSpace(s[..|s| - 1]) else 0
  }

  /** `s.trim()`: the longest slice of `s` with no white space at either end,
      obtained by dropping only white space. */
  function Trim(s: string): (r: string)
    ensures IsTrimmed(r)
    ensures |r| <= |s|
    ensures r == [] <==> AllSpace(s)
  {
    TrimFacts(s);
    var t := s[LeadingSpace(s)..];
    t[..|t| - TrailingSpace(t)]
  }

  lemma TrimFacts(s: string)
    ensures var t := s[LeadingSpace(s)..];
      var r := t[..|t| - TrailingSpace(t)];
      IsTrimmed(r) && (r == [] <==> AllSpace(s))
  {
    var a := LeadingSpace(s);
    var t := s[a..];
    var r := t[..|t| - TrailingSpace(t)];
    if r == [] {
      assert AllSpace(t);
      assert a == |s|;
    } else {
      assert r[0] == s[a];
      assert !AllSpace(s) by { assert !IsSpace(s[a]); }
    }
  }

  /** What `trim` keeps is one slice of the input, and what it drops on
      either side is white space. */
  lemma TrimSlice(s: string)
    ensures var r := Trim(s);
      exists a :: 0 <= a <= |s| - |r| && r == s[a..a + |r|] && AllSpace(s[..a]) && AllSpace(s[a + |r|..])
  {
    var a := LeadingSpace(s);
    var t := s[a..];
    var r := Trim(s);
    assert r == t[..|r|];
    assert r == s[a..a + |r|];
    assert AllSpace(s[..a]);
    var tail := s[a + |r|..];
    assert AllSpace(tail) by {
      forall i | 0 <= i < |tail| ensures IsSpace(tail[i]) {
        assert tail[i] == t[|r| + i];
      }
    }
  }

  /** Trimming adds no character: one absent from the input is absent from the result. */
  lemma TrimExcludes(s: string, c: char)
    requires c !in s
    ensures c !in Trim(s)
  {
    var a := LeadingSpace(s);
    var r := Trim(s);
    assert r == s[a..][..|r|];
    forall i | 0 <= i < |r| ensures r[i] != c {
      assert r[i] == s[a + i];
    }
  }

  lemma TrimmedIsFixed(s: string)
    requires IsTrimmed(s)
    ensures Trim(s) == s
  {
    if s != [] {
      assert LeadingSpace(s) == 0;
      assert s[0..] == s;
      assert TrailingSpace(s) == 0;
    }
  }

  /** A leading space makes no difference to `trim`. */
  lemma TrimLeadingSpace(c: char, s: string)
    requires IsSpace(c)
    ensures Trim([c] + s) == Trim(s)
  {
    var cs := [c] + s;
    assert cs[1..] == s;
    assert LeadingSpace(cs) == 1 + LeadingSpace(s);
    assert cs[LeadingSpace(cs)..] == s[LeadingSpace(s)..];
  }

  /** `xs.join(sep)` on an array of strings. */
  function Join(xs: seq<string>, sep: string): (r: string)
    ensures xs == [] ==> r == []
    ensures |xs| == 1 ==> r == xs[0]
    ensures forall i :: 0 <= i < |xs| ==> |xs[i]| <= |r|
    decreases |xs|
  {
    if |xs| == 0 then "" else if |xs| == 1 then xs[0] else xs[0] + sep + Join(xs[1..], sep)
  }

  lemma {:induction false} JoinConcat(xs: seq<string>, ys: seq<string>, sep: string)
    requires xs != [] && ys != []
    ensures Join(xs + ys, sep) == Join(xs, sep) + sep + Join(ys, sep)
    decreases |xs|
  {
    if |xs| == 1 {
      assert (xs + ys)[1..] == ys;
    } else {
      assert (xs + ys)[1..] == xs[1..] + ys;
      JoinConcat(xs[1..], ys, sep);
    }
  }

  predicate Excludes(xs: seq<string>, c: char) {
    forall i :: 0 <= i < |xs| ==> c !in xs[i]
  }

  /** `s.split(c)`: the pieces between the occurrences of `c`; joining them
      with `c` gives `s` back, and there is always at least one piece. */
  function Split(s: string, c: char): (r: seq<string>)
    ensures |r| >= 1
    ensures Excludes(r, c)
    ensures Join(r, [c]) == s
    decreases |s|
  {
    if s == [] then [""]
    else
      var rest := Split(s[1..], c);
      if s[0] == c then
        assert s == [c] + Join(rest, [c]);
        [""] + rest
      else
        var r := [[s[0]] + rest[0]] + rest[1..];
        assert r[1..] == rest[1..];
        assert Join(r, [c]) == [s[0]] + Join(rest, [c]);
        r
  }

  /** Split is the inverse of join: any list of pieces free of `c` that joins
      to `s` is the list `Split` gives. */
  lemma {:induction false} SplitUnique(r: seq<string>, s: string, c: char)
    requires |r| >= 1 && Excludes(r, c) && Join(r, [c]) == s
    ensures Split(s, c) == r
    decreases |s|
  {
    if r[0] == [] {
      if |r| > 1 {
        assert s == [c] + Join(r[1..], [c]);
        assert s[1..] == Join(r[1..], [c]);
        ExcludesTail(r, c);
        SplitUnique(r[1..], s[1..], c);
        assert r == [""] + r[1..];
      }
    } else {
      var r' := [r[0][1..]] + r[1..];
      assert r'[1..] == r[1..];
      assert s[0] == r[0][0] && s[0] != c;
      assert Join(r, [c]) == [r[0][0]] + Join(r', [c]);
      ExcludesDropFirst(r, c);
      SplitUnique(r', s[1..], c);
      assert [s[0]] + r'[0] == r[0];
      assert r == [r[0]] + r'[1..];
    }
  }

  /** Dropping the first piece keeps the other pieces free of the separator. */
  lemma ExcludesTail(r: seq<string>, c: char)
    requires |r| >= 1 && Excludes(r, c)
    ensures Excludes(r[1..], c)
  {
    forall i | 0 <= i < |r[1..]| ensures c !in r[1..][i] {
      assert r[1..][i] == r[i + 1];
    }
  }

  /** Dropping the first character of the first piece keeps every piece free of the separator. */
  lemma ExcludesDropFirst(r: seq<string>, c: char)
    requires |r| >= 1 && r[0] != [] && Excludes(r, c)
    ensures Excludes([r[0][1..]] + r[1..], c)
  {
    var r' := [r[0][1..]] + r[1..];
    forall i | 0 <= i < |r'| ensures c !in r'[i] {
      if i == 0 {
        assert forall x :: x in r[0][1..] ==> x in r[0];
      } else {
        assert r'[i] == r[i];
      }
    }
  }

  /** Splitting at a separator splits the two sides independently. */
  lemma SplitConcat(a: string, b: string, c: char)
    ensures Split(a + [c] + b, c) == Split(a, c) + Split(b, c)
  {
    var r := Split(a, c) + Split(b, c);
    JoinConcat(Split(a, c), Split(b, c), [c]);
    assert Excludes(r, c) by {
      forall i | 0 <= i < |r| ensures c !in r[i] {
        if i >= |Split(a, c)| { assert r[i] == Split(b, c)[i - |Split(a, c)|]; }
      }
    }
    SplitUnique(r, a + [c] + b, c);
  }

  /** A string free of `c` splits into itself. */
  lemma SplitNone(s: string, c: char)
    requires c !in s
    ensures Split(s, c) == [s]
  {
    SplitUnique([s], s, c);
  }

  /** A first character that is not the separator sticks to the first piece. */
  lemma SplitCons(x: char, s: string, c: char)
    requires x != c
    ensures Split([x] + s, c) == [[x] + Split(s, c)[0]] + Split(s, c)[1..]
  {
    assert ([x] + s)[1..] == s;
  }

  /** `xs.filter(Boolean)` on strings: keeps the non-empty ones. */
  function FilterNonEmpty(xs: seq<string>): (r: seq<string>)
    ensures |r| <= |xs|
    ensures forall i :: 0 <= i < |r| ==> r[i] != [] && r[i] in xs
    ensures (forall i :: 0 <= i < |xs| ==> xs[i] != []) ==> r == xs
    decreases |xs|
  {
    if xs == [] then []
    else if xs[0] == [] then FilterNonEmpty(xs[1..])
    else [xs[0]] + FilterNonEmpty(xs[1..])
  }

  /** Filtering keeps order and duplicates: it distributes over concatenation. */
  lemma {:induction false} FilterNonEmptyConcat(xs: seq<string>, ys: seq<string>)
    ensures FilterNonEmpty(xs + ys) == FilterNonEmpty(xs) + FilterNonEmpty(ys)
    decreases |xs|
  {
    if xs != [] {
      assert xs + ys == [xs[0]] + (xs[1..] + ys);
      assert xs == [xs[0]] + xs[1..];
      FilterNonEmptyConcat(xs[1..], ys);
      FilterNonEmptyCons(xs[0], xs[1..] + ys);
      FilterNonEmptyCons(xs[0], xs[1..]);
    } else {
      assert xs + ys == ys;
    }
  }

  /** One step of `filter(Boolean)`: the first string is kept exactly when it is not empty. */
  lemma FilterNonEmptyCons(x: string, rest: seq<string>)
    ensures FilterNonEmpty([x] + rest) == if x == [] then FilterNonEmpty(rest) else [x] + FilterNonEmpty(rest)
  {
    assert ([x] + rest)[1..] == rest;
  }

  function DigitChar(d: nat): (c: char)
    requires d < 10
    ensures '0' <= c <= '9'
    ensures c as int - '0' as int == d
  {
    (48 + d) as char
  }

  /** The number a string of decimal digits stands for, most significant first. */
  function DecimalValue(s: string): int
    decreases |s|
  {
    if s == [] then 0 else 10 * DecimalValue(s[..|s| - 1]) + (s[|s| - 1] as int - '0' as int)
  }

  /** The decimal digits of `n`, without leading zeros. */
  function Digits(n: nat): (r: string)
    ensures |r| >= 1
    ensures forall i :: 0 <= i < |r| ==> '0' <= r[i] <= '9'
    ensures DecimalValue(r) == n
    ensures n > 0 ==> r[0] != '0'
    decreases n
  {
    if n < 10 then [DigitChar(n)]
    else
      var r := Digits(n / 10) + [DigitChar(n % 10)];
      assert r[..|r| - 1] == Digits(n / 10);
      r
  }

  /** `String(n)` for an integer: its decimal digits without leading zeros,
      after a minus sign when negative. */
  function IntText(n: int): (r: string)
    ensures r != []
    ensures n >= 0 ==> (forall i :: 0 <= i < |r| ==> '0' <= r[i] <= '9') && DecimalValue(r) == n
    ensures n < 0 ==> r[0] == '-' && (forall i :: 1 <= i < |r| ==> '0' <= r[i] <= '9') && DecimalValue(r[1..]) == -n
    ensures |r| == 1 || (r[0] != '0' && (r[0] == '-' ==> r[1] != '0'))
  {
    if n < 0 then
      var r := "-" + Digits(-n);
      assert r[1..] == Digits(-n);
      r
    else Digits(n)
  }

  /** A string of decimal digits without a leading zero is the digits of
      the number it stands for: `Digits` is the only such text. */
  lemma {:induction false} DigitsCanonical(s: string)
    requires s != [] && forall i :: 0 <= i < |s| ==> '0' <= s[i] <= '9'
    requires |s| == 1 || s[0] != '0'
    ensures DecimalValue(s) >= 0 && s == Digits(DecimalValue(s))
    decreases |s|
  {
    var d := s[|s| - 1] as int - '0' as int;
    if |s| == 1 {
      assert DigitChar(d) == s[0];
    } else {
      var init := s[..|s| - 1];
      DigitsCanonical(init);
      var m := DecimalValue(init);
      assert Digits(0) == "0";
      assert m > 0;
      var n := 10 * m + d;
      assert n / 10 == m && n % 10 == d;
      assert DigitChar(d) == s[|s| - 1];
      assert s == init + [s[|s| - 1]];
    }
  }

  /** `String(n)` is the only canonical decimal text of a natural number:
      digits with no leading zero. */
  lemma IntTextCanonical(s: string)
    requires s != [] && forall i :: 0 <= i < |s| ==> '0' <= s[i] <= '9'
    requires |s| == 1 || s[0] != '0'
    ensures s == IntText(DecimalValue(s))
  {
    DigitsCanonical(s);
  }

  /** A negative number is written as a minus sign before the text of its
      magnitude, so with `IntTextCanonical` every canonical text of a
      negative number is its `String`. */
  lemma IntTextNegative(n: int)
    requires n > 0
    ensures IntText(-n) == "-" + IntText(n)
  {
  }
}
