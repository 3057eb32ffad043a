/** Joining and splitting text at a separator, fixed-width numerals, and the order of strings. */
module Text {

  function Join(parts: seq<string>, sep: char): string
    requires parts != []
  {
    if |parts| == 1 then parts[0] else parts[0] + [sep] + Join(parts[1..], sep)
  }

  /** Everything up to the first separator. */
  function Head(s: string, sep: char): (n: nat)
    ensures n <= |s| && sep !in s[..n] && (n < |s| ==> s[n] == sep)
  {
    if s == [] || s[0] == sep then 0 else 1 + Head(s[1..], sep)
  }

  function Split(s: string, sep: char): seq<string>
    decreases |s|
  {
    var n := Head(s, sep);
    if n == |s| then [s] else [s[..n]] + Split(s[n + 1..], sep)
  }

  lemma {:induction false} HeadOfJoin(part: string, rest: string, sep: char)
    requires sep !in part
    ensures Head(part, sep) == |part| && Head(part + [sep] + rest, sep) == |part|
  {
    if part != [] {
      assert (part + [sep] + rest)[1..] == part[1..] + [sep] + rest;
      HeadOfJoin(part[1..], rest, sep);
    }
  }

  lemma {:induction false} SplitOfJoin(parts: seq<string>, sep: char)
    requires parts != [] && forall i :: 0 <= i < |parts| ==> sep !in parts[i]
    ensures Split(Join(parts, sep), sep) == parts
    decreases |parts|
  {
    if |parts| == 1 {
      HeadOfJoin(parts[0], "", sep);
      assert parts == [parts[0]];
    } else {
      var rest := Join(parts[1..], sep);
      HeadOfJoin(parts[0], rest, sep);
      var s := parts[0] + [sep] + rest;
      assert s[..|parts[0]|] == parts[0] && s[|parts[0]| + 1..] == rest;
      SplitOfJoin(parts[1..], sep);
    }
  }

  lemma JoinThree(a: string, b: string, c: string, sep: char)
    ensures Join([a, b, c], sep) == a + [sep] + (b + [sep] + c)
  {
    assert [a, b, c][1..] == [b, c];
    assert [b, c][1..] == [c];
    assert Join([b, c], sep) == b + [sep] + Join([c], sep);
  }

  // ---- numerals --------------------------------------------------------------------------------

  function Digit(n: nat): char
    requires n < 10
  {
    '0' + n as char
  }

  function Pow10(n: nat): nat
  {
    if n == 0 then 1 else 10 * Pow10(n - 1)
  }

  /** n in exactly width decimal digits, leading digits dropped. */
  function Digits(n: nat, width: nat): (s: string)
    ensures |s| == width && forall i :: 0 <= i < |s| ==> '0' <= s[i] <= '9'
  {
    if width == 0 then [] else Digits(n / 10, width - 1) + [Digit(n % 10)]
  }

  /** Number(s) on a numeral. */
  function Value(s: string): nat
    requires forall i :: 0 <= i < |s| ==> '0' <= s[i] <= '9'
  {
    if s == [] then 0 else 10 * Value(s[..|s| - 1]) + (s[|s| - 1] - '0') as nat
  }

  predicate IsNumeral(s: string)
  {
    s != [] && forall i :: 0 <= i < |s| ==> '0' <= s[i] <= '9'
  }

  lemma {:induction false} ValueOfDigits(n: nat, width: nat)
    requires n < Pow10(width)
    ensures Value(Digits(n, width)) == n
  {
    if width > 0 {
      ValueOfDigits(n / 10, width - 1);
      assert Digits(n, width)[..width - 1] == Digits(n / 10, width - 1);
    }
  }

  lemma Pow10Table()
    ensures Pow10(2) == 100 && Pow10(4) == 10000
  {
    assert Pow10(3) == 10 * Pow10(2);
  }

  // ---- order -----------------------------------------------------------------------------------

  /** Dictionary order. */
  predicate Precedes(s: string, t: string)
  {
    if t == [] then false
    else if s == [] then true
    else s[0] < t[0] || (s[0] == t[0] && Precedes(s[1..], t[1..]))
  }

  lemma {:induction false} PrecedesConcat(s: string, s': string, t: string, t': string)
    requires |s| == |t|
    ensures Precedes(s + s', t + t') <==> Precedes(s, t) || (s == t && Precedes(s', t'))
  {
    if s == [] {
      assert s + s' == s' && t + t' == t';
    } else {
      assert (s + s')[1..] == s[1..] + s' && (t + t')[1..] == t[1..] + t';
      PrecedesConcat(s[1..], s', t[1..], t');
      assert s == t <==> s[0] == t[0] && s[1..] == t[1..];
    }
  }

  lemma DigitOrdered(m: nat, n: nat)
    requires m < 10 && n < 10
    ensures Precedes([Digit(m)], [Digit(n)]) <==> m < n
    ensures [Digit(m)] == [Digit(n)] <==> m == n
  {
  }

  lemma TensFirst(m: nat, n: nat)
    ensures m < n <==> m / 10 < n / 10 || (m / 10 == n / 10 && m % 10 < n % 10)
  {
  }

  /** Numerals of one width are ordered as their numbers are. */
  lemma {:induction false} DigitsOrdered(m: nat, n: nat, width: nat)
    requires m < Pow10(width) && n < Pow10(width)
    ensures Precedes(Digits(m, width), Digits(n, width)) <==> m < n
    ensures Digits(m, width) == Digits(n, width) <==> m == n
  {
    ValueOfDigits(m, width);
    ValueOfDigits(n, width);
    if width > 0 {
      var tens, tens' := Digits(m / 10, width - 1), Digits(n / 10, width - 1);
      DigitsOrdered(m / 10, n / 10, width - 1);
      DigitOrdered(m % 10, n % 10);
      TensFirst(m, n);
      PrecedesConcat(tens, [Digit(m % 10)], tens', [Digit(n % 10)]);
    }
  }
}
