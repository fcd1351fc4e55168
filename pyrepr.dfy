/**
 * The text forms the archive layer relies on: Python's `str` of an integer
 * and of a tuple of integers, the zero-padded `f'{n:04d}'`, and the part of
 * `eval` that reads an integer tuple back. The reader accepts exactly the
 * canonical spelling `str` produces (and the trailing-comma form of a longer
 * tuple); any other text is `None`.
 */
module PyRepr {
  import opened Wrappers

  predicate IsDigit(c: char)
  {
    '0' <= c <= '9'
  }

  predicate AllDigits(s: string)
  {
    forall i :: 0 <= i < |s| ==> IsDigit(s[i])
  }

  function DigitChar(d: nat): (c: char)
    requires d < 10
    ensures IsDigit(c) && c as int - '0' as int == d
  {
    ('0' as int + d) as char
  }

  function DigitValue(c: char): (d: nat)
    requires IsDigit(c)
    ensures d < 10 && DigitChar(d) == c
  {
    c as int - '0' as int
  }

  /** `str(n)` for `n >= 0`: the decimal digits, most significant first, without leading zeros. */
  function NatToString(n: nat): (s: string)
    ensures |s| >= 1 && AllDigits(s)
    ensures s[0] == '0' ==> n == 0 && |s| == 1
  {
    if n < 10 then [DigitChar(n)] else NatToString(n / 10) + [DigitChar(n % 10)]
  }

  /** `int(s)` for a non-empty string of digits (leading zeros allowed). */
  function ParseNat(s: string): (n: nat)
    requires AllDigits(s)
  {
    if s == [] then 0 else ParseNat(s[..|s| - 1]) * 10 + DigitValue(s[|s| - 1])
  }

  lemma {:induction false} ParseNatToString(n: nat)
    ensures ParseNat(NatToString(n)) == n
  {
    var s := NatToString(n);
    if n >= 10 {
      assert s[..|s| - 1] == NatToString(n / 10);
      ParseNatToString(n / 10);
    }
  }

  /** Zeros put in front of a number do not change the number. */
  lemma {:induction false} ParseNatLeadingZeros(k: nat, s: string)
    requires AllDigits(s)
    ensures AllDigits(Zeros(k) + s) && ParseNat(Zeros(k) + s) == ParseNat(s)
  {
    if s == [] {
      assert Zeros(k) + s == Zeros(k);
      ZerosParseToZero(k);
    } else {
      var t := Zeros(k) + s;
      assert t[..|t| - 1] == Zeros(k) + s[..|s| - 1];
      ParseNatLeadingZeros(k, s[..|s| - 1]);
    }
  }

  function Zeros(k: nat): (z: string)
    ensures |z| == k && forall i :: 0 <= i < k ==> z[i] == '0'
  {
    if k == 0 then [] else Zeros(k - 1) + ['0']
  }

  lemma {:induction false} ZerosParseToZero(k: nat)
    ensures AllDigits(Zeros(k)) && ParseNat(Zeros(k)) == 0
  {
    if k > 0 {
      assert Zeros(k)[..k - 1] == Zeros(k - 1);
      ZerosParseToZero(k - 1);
    }
  }

  /** `str(i)` for any integer. */
  function IntToString(i: int): (s: string)
    ensures |s| >= 1 && (s[0] == '-' <==> i < 0) && IsDigit(s[|s| - 1])
    ensures i >= 0 ==> s == NatToString(i)
    ensures i < 0 ==> s == "-" + NatToString(-i)
  {
    if i < 0 then "-" + NatToString(-i) else NatToString(i)
  }

  /** An integer literal as `eval` reads it: an optional minus, then digits with no leading zero. */
  function ParseInt(s: string): (r: Option<int>)
    ensures r.Some? ==> |s| >= 1 && (r.value < 0 ==> s[0] == '-')
  {
    var neg := |s| >= 1 && s[0] == '-';
    var digits := if neg then s[1..] else s;
    if digits == [] || !AllDigits(digits) || (digits[0] == '0' && |digits| > 1) then None
    else if neg then Some(-(ParseNat(digits) as int))
    else Some(ParseNat(digits))
  }

  lemma ParseIntToString(i: int)
    ensures ParseInt(IntToString(i)) == Some(i)
  {
    var s := IntToString(i);
    if i < 0 {
      var d := NatToString(-i);
      assert s[0] == '-' && s[1..] == d;
      ParseNatToString(-i);
      assert ParseInt(s) == Some(-(ParseNat(d) as int));
    } else {
      var d := NatToString(i);
      assert s == d && IsDigit(d[0]);
      ParseNatToString(i);
      assert ParseInt(s) == Some(ParseNat(d));
    }
  }

  /** `f'{n:04d}'`: the decimal digits padded with zeros to width 4, after the sign for a negative number. */
  function Pad4(n: int): (s: string)
    ensures |s| >= 4
  {
    if n >= 0 then
      var d := NatToString(n);
      if |d| < 4 then Zeros(4 - |d|) + d else d
    else
      var d := NatToString(-n);
      "-" + (if |d| < 3 then Zeros(3 - |d|) + d else d)
  }

  /** The padded number reads back as the number it was made from. */
  lemma Pad4Parses(n: int)
    ensures n >= 0 ==> AllDigits(Pad4(n)) && ParseNat(Pad4(n)) == n
    ensures n < 0 ==> Pad4(n)[0] == '-' && AllDigits(Pad4(n)[1..]) && ParseNat(Pad4(n)[1..]) == -n
  {
    if n >= 0 {
      var d := NatToString(n);
      ParseNatToString(n);
      if |d| < 4 {
        ParseNatLeadingZeros(4 - |d|, d);
      }
    } else {
      var d := NatToString(-n);
      ParseNatToString(-n);
      var body := if |d| < 3 then Zeros(3 - |d|) + d else d;
      assert Pad4(n)[1..] == body;
      if |d| < 3 {
        ParseNatLeadingZeros(3 - |d|, d);
      }
    }
  }

  /** Different numbers are padded to different strings. */
  lemma Pad4Injective(m: int, n: int)
    requires Pad4(m) == Pad4(n)
    ensures m == n
  {
    Pad4Parses(m);
    Pad4Parses(n);
  }

  /** The items of a non-empty tuple joined by `", "`. */
  function JoinItems(t: seq<int>): (s: string)
    requires |t| >= 1
    ensures |s| >= 1 && IsDigit(s[|s| - 1])
  {
    if |t| == 1 then IntToString(t[0]) else IntToString(t[0]) + ", " + JoinItems(t[1..])
  }

  /** `str(t)` of a tuple of integers: `()`, `(5,)`, `(16, 16)`. */
  function TupleToString(t: seq<int>): (s: string)
    ensures |s| >= 2 && s[0] == '(' && s[|s| - 1] == ')'
  {
    if t == [] then "()"
    else if |t| == 1 then "(" + IntToString(t[0]) + ",)"
    else "(" + JoinItems(t) + ")"
  }

  /** The position of the first comma of `s`, or `|s|` when there is none. */
  function FirstComma(s: string): (i: nat)
    ensures i <= |s| && (i < |s| ==> s[i] == ',')
    ensures forall j :: 0 <= j < i ==> s[j] != ','
  {
    if s == [] then 0 else if s[0] == ',' then 0 else 1 + FirstComma(s[1..])
  }

  /** `int, int, ..., int` with `", "` between the items. */
  function ParseItems(s: string): (r: Option<seq<int>>)
    ensures r.Some? ==> |r.value| >= 1
    decreases |s|
  {
    var i := FirstComma(s);
    var head := ParseInt(s[..i]);
    if head.None? then None
    else if i == |s| then Some([head.value])
    else if i + 1 < |s| && s[i + 1] == ' ' then
      var tail := ParseItems(s[i + 2..]);
      if tail.None? then None else Some([head.value] + tail.value)
    else None
  }

  /**
   * `tuple(eval(s))` for the strings an integer tuple prints as. A single
   * item without its comma is an integer, which `tuple()` refuses.
   */
  function ParseTuple(s: string): (r: Option<seq<int>>)
  {
    if |s| < 2 || s[0] != '(' || s[|s| - 1] != ')' then None else ParseInner(s[1..|s| - 1])
  }

  /** What `tuple(eval(...))` makes of the text between the parentheses. */
  function ParseInner(inner: string): (r: Option<seq<int>>)
  {
    if inner == [] then Some([])
    else if inner[|inner| - 1] == ',' then ParseItems(inner[..|inner| - 1])
    else
      var xs := ParseItems(inner);
      if xs.Some? && |xs.value| >= 2 then xs else None
  }

  lemma NoCommaInInt(i: int)
    ensures forall j :: 0 <= j < |IntToString(i)| ==> IntToString(i)[j] != ','
  {
    var s := IntToString(i);
    if i < 0 {
      assert forall j :: 1 <= j < |s| ==> s[j] == NatToString(-i)[j - 1];
    }
  }

  lemma {:induction false} FirstCommaAfter(a: string, b: string)
    requires forall j :: 0 <= j < |a| ==> a[j] != ','
    requires b != [] && b[0] == ','
    ensures FirstComma(a + b) == |a|
  {
    if a != [] {
      assert (a + b)[1..] == a[1..] + b;
      FirstCommaAfter(a[1..], b);
    }
  }

  /** One item followed by `", "` and more items. */
  lemma ParseItemsCons(a: string, rest: string, x: int, xs: seq<int>)
    requires forall j :: 0 <= j < |a| ==> a[j] != ','
    requires ParseInt(a) == Some(x) && ParseItems(rest) == Some(xs)
    ensures ParseItems(a + ", " + rest) == Some([x] + xs)
  {
    var s := a + ", " + rest;
    assert s == a + (", " + rest);
    FirstCommaAfter(a, ", " + rest);
    assert s[..|a|] == a;
    assert s[|a| + 2..] == rest;
  }

  /** A single item, with no comma. */
  lemma ParseItemsSingle(a: string, x: int)
    requires forall j :: 0 <= j < |a| ==> a[j] != ','
    requires ParseInt(a) == Some(x)
    ensures ParseItems(a) == Some([x])
  {
    assert FirstComma(a) == |a|;
    assert a[..|a|] == a;
  }

  lemma {:induction false} ParseJoinItems(t: seq<int>)
    requires |t| >= 1
    ensures ParseItems(JoinItems(t)) == Some(t)
  {
    ParseIntToString(t[0]);
    NoCommaInInt(t[0]);
    if |t| == 1 {
      ParseItemsSingle(IntToString(t[0]), t[0]);
      assert t == [t[0]];
    } else {
      var x, xs := t[0], t[1..];
      assert t == [x] + xs;
      ParseJoinItems(xs);
      ParseItemsCons(IntToString(x), JoinItems(xs), x, xs);
    }
  }

  /** The text between the parentheses is what the reader reads. */
  lemma ParseTupleParens(inner: string)
    ensures ParseTuple("(" + inner + ")") == ParseInner(inner)
  {
    var s := "(" + inner + ")";
    assert s[1..|s| - 1] == inner;
  }

  lemma ParseOneTuple(x: int)
    ensures ParseTuple(TupleToString([x])) == Some([x])
  {
    var a := IntToString(x);
    var inner := a + ",";
    assert TupleToString([x]) == "(" + inner + ")";
    ParseTupleParens(inner);
    assert inner[..|inner| - 1] == a;
    ParseIntToString(x);
    NoCommaInInt(x);
    ParseItemsSingle(a, x);
  }

  lemma ParseLongTuple(t: seq<int>)
    requires |t| >= 2
    ensures ParseTuple(TupleToString(t)) == Some(t)
  {
    assert TupleToString(t) == "(" + JoinItems(t) + ")";
    ParseTupleParens(JoinItems(t));
    ParseJoinItems(t);
  }

  /** `tuple(eval(str(t))) == t` for every tuple of integers. */
  lemma ParseTupleToString(t: seq<int>)
    ensures ParseTuple(TupleToString(t)) == Some(t)
  {
    if |t| == 1 {
      assert t == [t[0]];
      ParseOneTuple(t[0]);
    } else if |t| >= 2 {
      ParseLongTuple(t);
    } else {
      ParseTupleParens("");
    }
  }
}
