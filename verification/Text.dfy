/** The pieces of Python's string library that the models rest on. */
module Text {

  // ----- decimal numerals -----

  function Digit(d: nat): char
    requires d < 10
  {
    '0' + d as char
  }

  /** Decimal notation. */
  function Decimal(n: nat): (s: string)
    ensures s != [] && forall c :: c in s ==> '0' <= c <= '9'
  {
    if n < 10 then [Digit(n)] else Decimal(n / 10) + [Digit(n % 10)]
  }

  /** Decimal notation with a sign if negative. */
  function Str(i: int): string {
    if i < 0 then "-" + Decimal(-i) else Decimal(i)
  }

  /** Padded with zeros to at least five digits. */
  function Pad5(n: nat): string {
    Zeros(5 - |Decimal(n)|) + Decimal(n)
  }

  function Zeros(k: int): (z: string)
    ensures forall i :: 0 <= i < |z| ==> z[i] == '0'
  {
    if k <= 0 then [] else ['0'] + Zeros(k - 1)
  }

  lemma {:induction false} ZerosWidth(k: int)
    ensures |Zeros(k)| == if k <= 0 then 0 else k
  {
    if k > 0 {
      ZerosWidth(k - 1);
    }
  }

  lemma PadWidth(n: nat)
    ensures |Pad5(n)| == if |Decimal(n)| <= 5 then 5 else |Decimal(n)|
    ensures |Decimal(n)| >= 5 ==> Pad5(n) == Decimal(n)
  {
    ZerosWidth(5 - |Decimal(n)|);
  }

  lemma PadOfSeven()
    ensures Pad5(7) == "00007"
  {
    assert Decimal(7) == "7" && Zeros(4) == "0000";
  }

  /** The number that a digit string denotes, leading zeros included. */
  function Denotes(s: string): nat {
    if s == [] then 0
    else
      var c := s[|s| - 1];
      10 * Denotes(s[..|s| - 1]) + if '0' <= c <= '9' then (c - '0') as nat else 0
  }

  lemma {:induction false} DecimalDenotes(n: nat)
    ensures Denotes(Decimal(n)) == n
  {
    if n < 10 {
      assert Decimal(n)[..0] == [];
    } else {
      DecimalDenotes(n / 10);
      assert Decimal(n)[..|Decimal(n)| - 1] == Decimal(n / 10);
    }
  }

  lemma {:induction false} LeadingZeros(z: string, s: string)
    requires forall i :: 0 <= i < |z| ==> z[i] == '0'
    ensures Denotes(z + s) == Denotes(s)
    decreases |z| + |s|
  {
    if s != [] {
      assert (z + s)[..|z + s| - 1] == z + s[..|s| - 1];
      LeadingZeros(z, s[..|s| - 1]);
    } else if z != [] {
      var front := z[..|z| - 1];
      LeadingZeros(front, s);
      assert z + s == z && front + s == front;
    }
  }

  lemma NoSign(n: nat)
    ensures Decimal(n)[0] != '-'
  {
    assert Decimal(n)[0] in Decimal(n);
  }

  lemma StrIsInjective(i: int, j: int)
    requires Str(i) == Str(j)
    ensures i == j
  {
    var m, n := if i < 0 then -i else i, if j < 0 then -j else j;
    NoSign(m);
    NoSign(n);
    if i < 0 {
      assert Decimal(m) == Str(i)[1..] && Decimal(n) == Str(j)[1..];
    }
    DecimalDenotes(m);
    DecimalDenotes(n);
  }

  lemma Pad5IsInjective(m: nat, n: nat)
    requires Pad5(m) == Pad5(n)
    ensures m == n
  {
    LeadingZeros(Zeros(5 - |Decimal(m)|), Decimal(m));
    LeadingZeros(Zeros(5 - |Decimal(n)|), Decimal(n));
    DecimalDenotes(m);
    DecimalDenotes(n);
  }

  // ----- joining, and its inverse -----

  /** The parts with a one-character separator between them. */
  function Join(parts: seq<string>, sep: char): string {
    if parts == [] then []
    else if |parts| == 1 then parts[0]
    else parts[0] + [sep] + Join(parts[1..], sep)
  }

  /** The parts between the separators. */
  function Split(s: string, sep: char): (parts: seq<string>)
    ensures parts != []
  {
    if s == [] then [[]]
    else
      var rest := Split(s[1..], sep);
      if s[0] == sep then [[]] + rest else [[s[0]] + rest[0]] + rest[1..]
  }

  lemma {:induction false} SplitPrefix(p: string, rest: string, sep: char)
    requires sep !in p
    ensures Split(p + [sep] + rest, sep) == [p] + Split(rest, sep)
    ensures Split(p, sep) == [p]
    decreases |p|
  {
    var s := p + [sep] + rest;
    if p == [] {
      assert s[1..] == rest;
    } else {
      assert s[1..] == p[1..] + [sep] + rest;
      SplitPrefix(p[1..], rest, sep);
      assert [p[0]] + p[1..] == p;
    }
  }

  /** Joined parts can be told apart again as long as none contains the separator. */
  lemma {:induction false} SplitUndoesJoin(parts: seq<string>, sep: char)
    requires parts != []
    requires forall p :: p in parts ==> sep !in p
    ensures Split(Join(parts, sep), sep) == parts
    decreases |parts|
  {
    if |parts| == 1 {
      SplitPrefix(parts[0], [], sep);
      assert parts == [parts[0]];
    } else {
      SplitPrefix(parts[0], Join(parts[1..], sep), sep);
      SplitUndoesJoin(parts[1..], sep);
    }
  }

  lemma {:induction false} SplitAppend(p: string, rest: string, sep: char)
    ensures Split(p + [sep] + rest, sep) == Split(p, sep) + Split(rest, sep)
    decreases |p|
  {
    var s := p + [sep] + rest;
    if p == [] {
      assert s[1..] == rest;
    } else {
      assert s[1..] == p[1..] + [sep] + rest;
      SplitAppend(p[1..], rest, sep);
    }
  }

  lemma {:induction false} SplitCuts(s: string, sep: char)
    ensures |Split(s, sep)| > 1 <==> sep in s
    decreases |s|
  {
    if s != [] {
      SplitCuts(s[1..], sep);
      assert s == [s[0]] + s[1..];
    }
  }

  /** Splitting gives back at least as many parts as were joined, and more exactly if
      one of them contained the separator. */
  lemma {:induction false} SplitCountsParts(parts: seq<string>, sep: char)
    requires parts != []
    ensures |Split(Join(parts, sep), sep)| >= |parts|
    ensures |Split(Join(parts, sep), sep)| > |parts| <==> exists p :: p in parts && sep in p
    decreases |parts|
  {
    SplitCuts(parts[0], sep);
    if |parts| == 1 {
      assert parts == [parts[0]];
    } else {
      var rest := parts[1..];
      SplitAppend(parts[0], Join(rest, sep), sep);
      SplitCountsParts(rest, sep);
      assert forall p :: p in parts <==> p == parts[0] || p in rest by {
        assert parts == [parts[0]] + rest;
      }
    }
  }

  /** Text that moves from one part to its neighbour, a separator taken from one end
      and put at the other, does not show in the joined string. */
  lemma {:induction false} RegroupedParts(parts: seq<string>, i: nat, x: string, y: string, z: string, sep: char)
    requires i + 1 < |parts|
    requires parts[i] == x + [sep] + y && parts[i + 1] == z
    ensures Join(parts[i := x][i + 1 := y + [sep] + z], sep) == Join(parts, sep)
    decreases i
  {
    var moved := parts[i := x][i + 1 := y + [sep] + z];
    if i == 0 {
      assert moved[1..] == [y + [sep] + z] + parts[2..] && parts[1..] == [z] + parts[2..];
      if |parts| > 2 {
        assert moved[1..][1..] == parts[1..][1..] == parts[2..];
        var tail := Join(parts[2..], sep);
        assert Join(moved, sep) == x + [sep] + (y + [sep] + z + [sep] + tail);
        assert Join(parts, sep) == x + [sep] + y + [sep] + (z + [sep] + tail);
      }
    } else {
      assert moved[1..] == parts[1..][i - 1 := x][i := y + [sep] + z];
      RegroupedParts(parts[1..], i - 1, x, y, z, sep);
    }
  }

  /** So a separator inside one of several parts makes another list join alike. */
  lemma SeparatorMoves(parts: seq<string>, i: nat, sep: char) returns (moved: seq<string>)
    requires i < |parts| && |parts| > 1 && sep in parts[i]
    ensures |moved| == |parts| && |moved[i]| < |parts[i]| && Join(moved, sep) == Join(parts, sep)
  {
    var at :| 0 <= at < |parts[i]| && parts[i][at] == sep;
    var x, y := parts[i][..at], parts[i][at + 1..];
    assert parts[i] == x + [sep] + y;
    if i + 1 < |parts| {
      moved := parts[i := x][i + 1 := y + [sep] + parts[i + 1]];
      RegroupedParts(parts, i, x, y, parts[i + 1], sep);
    } else {
      var left := parts[i - 1];
      moved := parts[i - 1 := left + [sep] + x][i := y];
      assert moved[i - 1 := left][i := x + [sep] + y] == parts;
      RegroupedParts(moved, i - 1, left, x, y, sep);
    }
  }

  // ----- sorting a set of strings -----

  predicate Le(a: string, b: string) {
    a == [] || (b != [] && (a[0] < b[0] || (a[0] == b[0] && Le(a[1..], b[1..]))))
  }

  lemma {:induction false} LeIsTotalOrder(a: string, b: string, c: string)
    ensures Le(a, b) || Le(b, a)
    ensures Le(a, b) && Le(b, a) ==> a == b
    ensures Le(a, b) && Le(b, c) ==> Le(a, c)
    decreases |a|
  {
    if a != [] {
      LeIsTotalOrder(a[1..], if b != [] then b[1..] else b, if c != [] then c[1..] else c);
      if b != [] {
        assert a == [a[0]] + a[1..] && b == [b[0]] + b[1..];
      }
    }
  }

  /** The first character where two texts differ decides; the beginning of a text comes
      before it. */
  lemma {:induction false} LeIsLexicographic(a: string, b: string)
    ensures Le(a, b) <==> a <= b || exists k :: 0 <= k < |a| && k < |b| && a[..k] == b[..k] && a[k] < b[k]
    decreases |a|
  {
    if a != [] && b != [] && a[0] == b[0] {
      var x, y := a[1..], b[1..];
      LeIsLexicographic(x, y);
      assert a == [a[0]] + x && b == [a[0]] + y;
      if k :| 0 <= k < |x| && k < |y| && x[..k] == y[..k] && x[k] < y[k] {
        assert a[..k + 1] == [a[0]] + x[..k] && b[..k + 1] == [a[0]] + y[..k];
        assert a[k + 1] < b[k + 1];
      }
      if k :| 0 <= k < |a| && k < |b| && a[..k] == b[..k] && a[k] < b[k] {
        assert x[..k - 1] == a[..k][1..] && y[..k - 1] == b[..k][1..];
        assert x[k - 1] < y[k - 1];
      }
    }
  }

  lemma {:induction false} HasLeast(s: set<string>) returns (least: string)
    requires s != {}
    ensures least in s && forall x :: x in s ==> Le(least, x)
    decreases |s|
  {
    var x :| x in s;
    LeIsTotalOrder(x, x, x);
    if s - {x} == {} {
      least := x;
      assert s == {x};
    } else {
      var y := HasLeast(s - {x});
      least := if Le(x, y) then x else y;
      forall z | z in s
        ensures Le(least, z)
      {
        LeIsTotalOrder(x, y, z);
      }
    }
  }

  function Least(s: set<string>): (least: string)
    requires s != {}
    ensures least in s && forall x :: x in s ==> Le(least, x)
  {
    assert exists x :: x in s && forall y :: y in s ==> Le(x, y) by {
      var l := HasLeast(s);
    }
    LeastIsUnique(s);
    var x :| x in s && forall y :: y in s ==> Le(x, y);
    x
  }

  lemma LeastIsUnique(s: set<string>)
    ensures forall x, y
              | x in s && y in s && (forall z :: z in s ==> Le(x, z)) && (forall z :: z in s ==> Le(y, z))
              :: x == y
  {
    forall x, y | x in s && y in s && (forall z :: z in s ==> Le(x, z)) && (forall z :: z in s ==> Le(y, z))
      ensures x == y
    {
      LeIsTotalOrder(x, y, y);
    }
  }

  predicate StrictlySorted(r: seq<string>) {
    forall i, j :: 0 <= i < j < |r| ==> r[i] != r[j] && Le(r[i], r[j])
  }

  /** In ascending order. */
  function Sorted(s: set<string>): (r: seq<string>)
    ensures forall x :: x in r <==> x in s
    ensures StrictlySorted(r) && |r| == |s|
    decreases |s|
  {
    if s == {} then []
    else
      var x := Least(s);
      [x] + Sorted(s - {x})
  }
}
