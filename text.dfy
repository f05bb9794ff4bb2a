/**
  The Python string builtins the notifier relies on: `str.split`, `str.join`,
  `str.strip`, `str.rstrip`, `str.isdigit`, `int(...)` and `str(int)`, restricted
  to ASCII where Python would also accept other Unicode characters.
*/
module Text {

  /** The ASCII characters Python's `str.isspace` accepts (what `strip()` removes). */
  const Whitespace: set<char> :=
    {' ', '\t', '\n', '\r', '\U{0B}', '\U{0C}', '\U{1C}', '\U{1D}', '\U{1E}', '\U{1F}'}

  /** `s.split(sep)`: the pieces between occurrences of `sep`; never empty. */
  function Split(s: string, sep: char): (parts: seq<string>)
    ensures |parts| >= 1
  {
    if s == [] then [""]
    else
      var rest := Split(s[1..], sep);
      if s[0] == sep then [""] + rest
      else [[s[0]] + rest[0]] + rest[1..]
  }

  /** `sep.join(parts)`. */
  function Join(parts: seq<string>, sep: char): string
  {
    if |parts| == 0 then ""
    else if |parts| == 1 then parts[0]
    else parts[0] + [sep] + Join(parts[1..], sep)
  }

  /** One step of `Join` on two or more pieces. */
  lemma JoinHead(parts: seq<string>, sep: char)
    requires |parts| >= 2
    ensures Join(parts, sep) == parts[0] + [sep] + Join(parts[1..], sep)
  {
  }

  lemma JoinCons(c: char, p: string, ps: seq<string>, sep: char)
    ensures Join([[c] + p] + ps, sep) == [c] + Join([p] + ps, sep)
  {
    if |ps| > 0 {
      assert ([[c] + p] + ps)[1..] == ps;
      assert ([p] + ps)[1..] == ps;
    }
  }

  /** Joining the pieces of a split gives back the original string. */
  lemma {:induction false} JoinSplit(s: string, sep: char)
    ensures Join(Split(s, sep), sep) == s
  {
    if s != [] {
      var rest := Split(s[1..], sep);
      JoinSplit(s[1..], sep);
      if s[0] == sep {
        assert ([""] + rest)[1..] == rest;
      } else {
        JoinCons(s[0], rest[0], rest[1..], sep);
        assert [rest[0]] + rest[1..] == rest;
      }
    }
  }

  /** Splitting a join of separator-free pieces gives back the pieces. */
  lemma {:induction false} SplitJoin(parts: seq<string>, sep: char)
    requires |parts| >= 1
    requires forall p :: p in parts ==> sep !in p
    ensures Split(Join(parts, sep), sep) == parts
    decreases |Join(parts, sep)|
  {
    var s := Join(parts, sep);
    if parts[0] != [] {
      var c, p0 := parts[0][0], parts[0][1..];
      assert parts[0] == [c] + p0;
      assert parts == [[c] + p0] + parts[1..];
      JoinCons(c, p0, parts[1..], sep);
      var tail := [p0] + parts[1..];
      assert sep !in p0 by {
        assert parts[0] in parts;
        forall i | 0 <= i < |p0| ensures p0[i] != sep { assert p0[i] == parts[0][i + 1]; }
      }
      assert forall p :: p in tail ==> p == p0 || p in parts;
      SplitJoin(tail, sep);
      assert s == [c] + Join(tail, sep);
      assert s[1..] == Join(tail, sep);
      assert c != sep by { assert c in parts[0]; }
    } else if |parts| >= 2 {
      assert s == [sep] + Join(parts[1..], sep);
      assert s[1..] == Join(parts[1..], sep);
      SplitJoin(parts[1..], sep);
      assert parts == [""] + parts[1..];
    }
  }

  /** A string without the separator splits into itself alone. */
  lemma SplitWithoutSep(t: string, sep: char)
    requires sep !in t
    ensures Split(t, sep) == [t]
  {
    SplitJoin([t], sep);
  }

  /** One step of `Split`: the first character either ends the first piece or joins it. */
  lemma SplitCons(c: char, rest: string, sep: char)
    ensures Split([c] + rest, sep) ==
      if c == sep then [""] + Split(rest, sep)
      else [[c] + Split(rest, sep)[0]] + Split(rest, sep)[1..]
  {
    assert ([c] + rest)[1..] == rest;
  }

  /** No piece of a split contains the separator. */
  lemma {:induction false} SplitPiecesWithoutSep(s: string, sep: char)
    ensures forall i :: 0 <= i < |Split(s, sep)| ==> sep !in Split(s, sep)[i]
  {
    if s != [] {
      SplitPiecesWithoutSep(s[1..], sep);
      assert s == [s[0]] + s[1..];
      SplitCons(s[0], s[1..], sep);
      var rest := Split(s[1..], sep);
      if s[0] != sep {
        assert sep !in rest[0];
        assert sep !in [s[0]] + rest[0];
      }
    }
  }

  /** Splitting at one occurrence of the separator splits each side independently. */
  lemma {:induction false} SplitConcat(a: string, b: string, sep: char)
    ensures Split(a + [sep] + b, sep) == Split(a, sep) + Split(b, sep)
  {
    if a == [] {
      assert a + [sep] + b == [sep] + b;
      SplitCons(sep, b, sep);
    } else {
      var c, a' := a[0], a[1..];
      SplitConcat(a', b, sep);
      assert a + [sep] + b == [c] + (a' + [sep] + b);
      assert [c] + a' == a;
      SplitConsOnto(c, a' + [sep] + b, Split(a', sep), Split(b, sep), sep);
      SplitConsOnto(c, a', Split(a', sep), [], sep);
    }
  }

  /** `SplitCons` when the split of the rest is known to be `ra + rb`. */
  lemma SplitConsOnto(c: char, x: string, ra: seq<string>, rb: seq<string>, sep: char)
    requires |ra| >= 1 && Split(x, sep) == ra + rb
    ensures Split([c] + x, sep) ==
      if c == sep then [""] + ra + rb else [[c] + ra[0]] + ra[1..] + rb
  {
    SplitCons(c, x, sep);
    if c != sep {
      ExtendFirst([c], ra, rb);
    }
  }

  /** Extending the first piece of a concatenation of piece lists. */
  lemma ExtendFirst(p: string, ra: seq<string>, rb: seq<string>)
    requires |ra| >= 1
    ensures [p + (ra + rb)[0]] + (ra + rb)[1..] == [p + ra[0]] + ra[1..] + rb
  {
    assert (ra + rb)[0] == ra[0];
    assert (ra + rb)[1..] == ra[1..] + rb;
  }

  /** A slice of the right operand of a concatenation, seen through the concatenation. */
  lemma SliceOfRight(x: string, y: string, i: nat, j: nat)
    requires i <= j <= |y|
    ensures (x + y)[|x| + i..|x| + j] == y[i..j]
  {
  }

  /** Where piece `j` starts in `Join(parts, sep)`. */
  function PartOffset(parts: seq<string>, j: nat): nat
    requires j <= |parts|
  {
    if j == 0 then 0 else PartOffset(parts, j - 1) + |parts[j - 1]| + 1
  }

  /** Piece `j` of a join sits at its offset in the joined string. */
  predicate PartAt(parts: seq<string>, sep: char, j: nat)
    requires j < |parts|
  {
    var o := PartOffset(parts, j);
    o + |parts[j]| <= |Join(parts, sep)| && Join(parts, sep)[o..o + |parts[j]|] == parts[j]
  }

  /** Every piece of a join sits at its offset in the joined string. */
  lemma {:induction false} JoinPartAt(parts: seq<string>, sep: char, j: nat)
    requires j < |parts|
    ensures PartOffset(parts, j) + |parts[j]| <= |Join(parts, sep)|
    ensures Join(parts, sep)[PartOffset(parts, j)..PartOffset(parts, j) + |parts[j]|] == parts[j]
  {
    if j > 0 {
      JoinPartAt(parts[1..], sep, j - 1);
      JoinPartAtStep(parts, sep, j);
    }
  }

  /** The induction step of `JoinPartAt`: from the pieces after the first to all pieces. */
  lemma JoinPartAtStep(parts: seq<string>, sep: char, j: nat)
    requires 0 < j < |parts|
    requires PartAt(parts[1..], sep, j - 1)
    ensures PartAt(parts, sep, j)
  {
    var tail := parts[1..];
    assert tail[j - 1] == parts[j];
    TailOffset(parts, j);
    JoinHead(parts, sep);
    var o := PartOffset(tail, j - 1);
    SliceOfRight(parts[0] + [sep], Join(tail, sep), o, o + |parts[j]|);
  }

  lemma {:induction false} TailOffset(parts: seq<string>, j: nat)
    requires 0 < j <= |parts|
    ensures PartOffset(parts, j) == |parts[0]| + 1 + PartOffset(parts[1..], j - 1)
  {
    if j > 1 {
      TailOffset(parts, j - 1);
    }
  }

  /** `s.rstrip(chars)`: drop every trailing character that is in `cs`. */
  function TrimRight(s: string, cs: set<char>): (r: string)
    ensures |r| <= |s| && r == s[..|r|]
    ensures forall i :: |r| <= i < |s| ==> s[i] in cs
    ensures r == [] || r[|r| - 1] !in cs
  {
    if s != [] && s[|s| - 1] in cs then TrimRight(s[..|s| - 1], cs) else s
  }

  /** `s.lstrip(chars)`: drop every leading character that is in `cs`. */
  function TrimLeft(s: string, cs: set<char>): (r: string)
    ensures |r| <= |s| && r == s[|s| - |r|..]
    ensures forall i :: 0 <= i < |s| - |r| ==> s[i] in cs
    ensures r == [] || r[0] !in cs
  {
    if s != [] && s[0] in cs then
      var r := TrimLeft(s[1..], cs);
      assert s[1..][|s| - 1 - |r|..] == s[|s| - |r|..];
      assert forall i :: 1 <= i < |s| - |r| ==> s[i] == s[1..][i - 1];
      r
    else s
  }

  /** `s.strip()` */
  function Strip(s: string): string
  {
    TrimRight(TrimLeft(s, Whitespace), Whitespace)
  }

  /** A string that neither starts nor ends with whitespace is its own `strip()`. */
  lemma StripUnpadded(s: string)
    requires s == [] || (s[0] !in Whitespace && s[|s| - 1] !in Whitespace)
    ensures Strip(s) == s
  {
  }

  /** `strip()` is the contiguous slice of `s` left after the leading and trailing whitespace. */
  lemma StripIsSlice(s: string)
    ensures var d := |s| - |TrimLeft(s, Whitespace)|;
      d + |Strip(s)| <= |s| && Strip(s) == s[d..d + |Strip(s)|]
  {
    var l := TrimLeft(s, Whitespace);
    var d := |s| - |l|;
    var r := TrimRight(l, Whitespace);
    assert Strip(s) == r;
    assert r == l[..|r|];
    assert l == s[d..];
    PrefixOfSuffix(s, d, |r|);
    assert r == s[d..][..|r|];
  }

  lemma PrefixOfSuffix(s: string, d: nat, n: nat)
    requires d + n <= |s|
    ensures s[d..][..n] == s[d..d + n]
  {
  }

  /**
    `strip()` keeps every character that is not whitespace, at its own place
    shifted by the number of leading characters removed (see `StripIsSlice`).
  */
  lemma StripKeeps(s: string, i: nat) returns (j: nat)
    requires i < |s| && s[i] !in Whitespace
    ensures j == i - (|s| - |TrimLeft(s, Whitespace)|) && j < |Strip(s)| && Strip(s)[j] == s[i]
  {
    var l := TrimLeft(s, Whitespace);
    var d := |s| - |l|;
    assert i >= d;
    assert l[i - d] == s[i];
    var r := TrimRight(l, Whitespace);
    assert i - d < |r|;
    j := i - d;
  }

  predicate IsDigit(c: char)
  {
    '0' <= c <= '9'
  }

  predicate AllDigits(s: string)
  {
    forall i :: 0 <= i < |s| ==> IsDigit(s[i])
  }

  /** `s.isdigit()` for ASCII: non-empty and digits only. */
  predicate IsDigits(s: string)
  {
    |s| > 0 && AllDigits(s)
  }

  function DigitValue(c: char): nat
    requires IsDigit(c)
  {
    (c as int - '0' as int) as nat
  }

  function DigitChar(d: nat): (c: char)
    requires d < 10
    ensures IsDigit(c) && DigitValue(c) == d
  {
    ('0' as int + d) as char
  }

  /** `int(s)` for a string of ASCII digits. */
  function DecimalValue(s: string): nat
    requires AllDigits(s)
  {
    if s == [] then 0 else 10 * DecimalValue(s[..|s| - 1]) + DigitValue(s[|s| - 1])
  }

  /** `str(n)` for a natural number. */
  function NatToString(n: nat): (s: string)
    ensures IsDigits(s)
    ensures s[0] == '0' ==> n == 0 && s == "0"
  {
    if n < 10 then [DigitChar(n)] else NatToString(n / 10) + [DigitChar(n % 10)]
  }

  /** `int(str(n)) == n`. */
  lemma {:induction false} DecimalValueOfNatToString(n: nat)
    ensures DecimalValue(NatToString(n)) == n
  {
    if n >= 10 {
      var s := NatToString(n);
      DecimalValueOfNatToString(n / 10);
      assert s[..|s| - 1] == NatToString(n / 10);
    }
  }

  /** Leading zeros do not change the value `int` reads. */
  lemma {:induction false} DecimalValueLeadingZero(s: string)
    requires AllDigits(s)
    ensures AllDigits("0" + s) && DecimalValue("0" + s) == DecimalValue(s)
  {
    if s != [] {
      var t := "0" + s;
      assert t[..|t| - 1] == "0" + s[..|s| - 1];
      DecimalValueLeadingZero(s[..|s| - 1]);
    }
  }

  /** `k` zero digits. */
  function Zeros(k: nat): (z: string)
    ensures |z| == k && forall i :: 0 <= i < k ==> z[i] == '0'
  {
    if k == 0 then "" else "0" + Zeros(k - 1)
  }

  lemma ZerosThenDigits(k: nat, n: nat)
    ensures IsDigits(Zeros(k) + NatToString(n))
  {
    var z, t := Zeros(k), NatToString(n);
    forall i | 0 <= i < |z + t| ensures IsDigit((z + t)[i]) {
      if i >= k {
        assert (z + t)[i] == t[i - k];
      }
    }
  }

  /** Any number of leading zeros leaves the value `int` reads unchanged. */
  lemma {:induction false} ZerosValue(k: nat, s: string)
    requires AllDigits(s)
    ensures AllDigits(Zeros(k) + s) && DecimalValue(Zeros(k) + s) == DecimalValue(s)
  {
    if k == 0 {
      assert Zeros(k) + s == s;
    } else {
      ZerosValue(k - 1, s);
      assert Zeros(k) + s == "0" + (Zeros(k - 1) + s);
      DecimalValueLeadingZero(Zeros(k - 1) + s);
    }
  }
}
