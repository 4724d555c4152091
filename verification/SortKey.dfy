/**
 * Fractional index keys: base-62 strings whose lexicographic order is the intended order, with a key always available
 * between any two. A key is a magnitude head, the integer digits the head declares, and an optional fraction.
 */
module SortKey {
  import opened Prelude

  type Key = string

  const ALPHABET: string := "0123456789ABCDEFGHIJKLMNOPQRSTUVWXYZabcdefghijklmnopqrstuvwxyz"
  const BASE: nat := 62

  predicate IsDigit(c: char) {
    '0' <= c <= '9' || 'A' <= c <= 'Z' || 'a' <= c <= 'z'
  }

  function DigitIndex(c: char): (i: nat)
    requires IsDigit(c)
    ensures i < BASE
  {
    if c <= '9' then c as int - '0' as int
    else if c <= 'Z' then c as int - 'A' as int + 10
    else c as int - 'a' as int + 36
  }

  function DigitAt(i: nat): (c: char)
    requires i < BASE
    ensures IsDigit(c) && DigitIndex(c) == i
  {
    if i < 10 then ('0' as int + i) as char
    else if i < 36 then ('A' as int + (i - 10)) as char
    else ('a' as int + (i - 36)) as char
  }

  /** Digit order and character order coincide. */
  lemma DigitOrder(c: char, d: char)
    requires IsDigit(c) && IsDigit(d)
    ensures c < d <==> DigitIndex(c) < DigitIndex(d)
    ensures c == d <==> DigitIndex(c) == DigitIndex(d)
  {
  }

  predicate AllDigits(s: string) {
    forall i :: 0 <= i < |s| ==> IsDigit(s[i])
  }

  /** Byte-wise comparison, the order of the stored column. */
  predicate Less(a: string, b: string) {
    b != "" && (a == "" || a[0] < b[0] || (a[0] == b[0] && Less(a[1..], b[1..])))
  }

  /** The two strings part at i, the first one downwards. */
  predicate PartAt(a: string, b: string, i: int) {
    0 <= i < |a| && i < |b| && a[..i] == b[..i] && a[i] < b[i]
  }

  lemma {:induction false} PartMeansLess(a: string, b: string, i: int)
    requires PartAt(a, b, i)
    ensures Less(a, b)
    decreases i
  {
    if i > 0 {
      assert a[0] == a[..i][0] == b[..i][0] == b[0];
      assert a[1..][..i - 1] == a[..i][1..] == b[..i][1..] == b[1..][..i - 1];
      PartMeansLess(a[1..], b[1..], i - 1);
    }
  }

  lemma {:induction false} LessSplits(a: string, b: string)
    requires Less(a, b)
    ensures (a <= b && a != b) || exists i :: PartAt(a, b, i)
  {
    if a != "" {
      if a[0] < b[0] {
        assert PartAt(a, b, 0);
      } else {
        LessSplits(a[1..], b[1..]);
        if a[1..] <= b[1..] {
          assert a == [a[0]] + a[1..] && b == [b[0]] + b[1..];
        } else {
          var i :| PartAt(a[1..], b[1..], i);
          assert a[..i + 1] == [a[0]] + a[1..][..i] && b[..i + 1] == [b[0]] + b[1..][..i];
          assert PartAt(a, b, i + 1);
        }
      }
    }
  }

  lemma {:induction false} PrefixLess(a: string, tail: string)
    requires tail != ""
    ensures Less(a, a + tail)
  {
    if a != "" {
      assert (a + tail)[1..] == a[1..] + tail;
      PrefixLess(a[1..], tail);
    }
  }

  lemma {:induction false} CommonPrefix(p: string, a: string, b: string)
    ensures Less(p + a, p + b) <==> Less(a, b)
  {
    if p == "" {
      assert p + a == a && p + b == b;
    } else {
      assert (p + a)[1..] == p[1..] + a && (p + b)[1..] == p[1..] + b;
      CommonPrefix(p[1..], a, b);
    }
  }

  lemma {:induction false} LessIrreflexive(a: string)
    ensures !Less(a, a)
  {
    if a != "" { LessIrreflexive(a[1..]); }
  }

  lemma {:induction false} LessTransitive(a: string, b: string, c: string)
    requires Less(a, b) && Less(b, c)
    ensures Less(a, c)
  {
    if a != "" && a[0] == b[0] == c[0] {
      LessTransitive(a[1..], b[1..], c[1..]);
    }
  }

  lemma {:induction false} LessTotal(a: string, b: string)
    ensures Less(a, b) || a == b || Less(b, a)
  {
    if a != "" && b != "" && a[0] == b[0] {
      LessTotal(a[1..], b[1..]);
      assert a == [a[0]] + a[1..] && b == [b[0]] + b[1..];
    }
  }

  /** The length of the integer part a head declares, head included. */
  function IntegerLen(head: char): Option<nat> {
    if 'a' <= head <= 'z' then Some(head as int - 'a' as int + 2)
    else if 'A' <= head <= 'Z' then Some('Z' as int - head as int + 2)
    else None
  }

  /** A bare integer part: a head and exactly the digits it declares. */
  predicate IsInteger(x: string) {
    x != "" && IntegerLen(x[0]) == Some(|x|) && AllDigits(x)
  }

  /** A fraction: digits, the last of them not zero, so that no two strings denote the same position. */
  predicate IsFraction(f: string) {
    AllDigits(f) && (f != "" ==> f[|f| - 1] != '0')
  }

  predicate Valid(k: Key) {
    && k != ""
    && IntegerLen(k[0]).Some?
    && IntegerLen(k[0]).value <= |k|
    && AllDigits(k)
    && IsFraction(Fraction(k))
  }

  function IntegerPart(k: Key): string
    requires k != "" && IntegerLen(k[0]).Some? && IntegerLen(k[0]).value <= |k|
  {
    k[..IntegerLen(k[0]).value]
  }

  function Fraction(k: Key): string
    requires k != "" && IntegerLen(k[0]).Some? && IntegerLen(k[0]).value <= |k|
  {
    k[IntegerLen(k[0]).value..]
  }

  lemma ValidParts(k: Key)
    requires Valid(k)
    ensures IsInteger(IntegerPart(k)) && IsFraction(Fraction(k)) && k == IntegerPart(k) + Fraction(k)
  {
  }

  lemma JoinValid(x: string, f: string)
    requires IsInteger(x) && IsFraction(f)
    ensures Valid(x + f) && IntegerPart(x + f) == x && Fraction(x + f) == f
  {
    assert (x + f)[0] == x[0];
    assert (x + f)[|x|..] == f;
  }

  /** Equal heads declare equal lengths, so no integer part is a proper prefix of another. */
  lemma IntegerPrefix(x: string, y: string)
    requires IsInteger(x) && IsInteger(y)
    ensures x <= y ==> x == y
  {
    if x <= y {
      assert x[0] == y[0];
      assert y[..|x|] == y;
    }
  }

  /** Different integer parts part within both, whatever follows them. */
  lemma IntegersPart(x: string, y: string, f: string, g: string)
    requires IsInteger(x) && IsInteger(y) && Less(x, y)
    ensures Less(x + f, y + g)
  {
    LessSplits(x, y);
    IntegerPrefix(x, y);
    var i :| PartAt(x, y, i);
    assert (x + f)[..i] == x[..i] && (y + g)[..i] == y[..i];
    PartMeansLess(x + f, y + g, i);
  }

  /** Digits plus one, and whether the addition carried out of them. */
  function Successor(digits: string): (string, bool)
    requires AllDigits(digits)
  {
    if digits == "" then ("", true)
    else
      var n := |digits| - 1;
      var d := DigitIndex(digits[n]) + 1;
      if d == BASE then
        var (rest, carry) := Successor(digits[..n]);
        (rest + "0", carry)
      else (digits[..n] + [DigitAt(d)], false)
  }

  /** Digits minus one, and whether the subtraction borrowed from beyond them. */
  function Predecessor(digits: string): (string, bool)
    requires AllDigits(digits)
  {
    if digits == "" then ("", true)
    else
      var n := |digits| - 1;
      var d := DigitIndex(digits[n]);
      if d == 0 then
        var (rest, borrow) := Predecessor(digits[..n]);
        (rest + "z", borrow)
      else (digits[..n] + [DigitAt(d - 1)], false)
  }

  lemma {:induction false} SuccessorGrows(digits: string)
    requires AllDigits(digits)
    ensures var (r, carry) := Successor(digits);
      AllDigits(r) && |r| == |digits| && (!carry ==> exists i :: PartAt(digits, r, i))
  {
    if digits != "" {
      var n := |digits| - 1;
      var (r, carry) := Successor(digits);
      if DigitIndex(digits[n]) + 1 == BASE {
        SuccessorGrows(digits[..n]);
        var (rest, c) := Successor(digits[..n]);
        if !c {
          var i :| PartAt(digits[..n], rest, i);
          assert digits[..i] == digits[..n][..i] && r[..i] == rest[..i];
          assert PartAt(digits, r, i);
        }
      } else {
        DigitOrder(digits[n], r[n]);
        assert r[..n] == digits[..n];
        assert PartAt(digits, r, n);
      }
    }
  }

  lemma {:induction false} PredecessorShrinks(digits: string)
    requires AllDigits(digits)
    ensures var (r, borrow) := Predecessor(digits);
      && AllDigits(r) && |r| == |digits|
      && (!borrow ==> exists i :: PartAt(r, digits, i))
      && (borrow <==> forall i :: 0 <= i < |digits| ==> digits[i] == '0')
  {
    if digits != "" {
      var n := |digits| - 1;
      var (r, borrow) := Predecessor(digits);
      DigitOrder(digits[n], '0');
      if DigitIndex(digits[n]) == 0 {
        PredecessorShrinks(digits[..n]);
        var (rest, b) := Predecessor(digits[..n]);
        if !b {
          var i :| PartAt(rest, digits[..n], i);
          assert digits[..i] == digits[..n][..i] && r[..i] == rest[..i];
          assert PartAt(r, digits, i);
          var j :| 0 <= j < n && digits[..n][j] != '0';
          assert digits[j] != '0';
        } else {
          assert forall i :: 0 <= i < n ==> digits[i] == digits[..n][i];
        }
      } else {
        DigitOrder(r[n], digits[n]);
        assert r[..n] == digits[..n];
        assert PartAt(r, digits, n);
      }
    }
  }

  /** The addition as it runs: a carry walks from the last digit while digits overflow. */
  method AddOne(digits: string) returns (r: string, carry: bool)
    requires AllDigits(digits)
    ensures (r, carry) == Successor(digits)
  {
    r, carry := digits, true;
    var i := |digits|;
    assert digits[..i] == digits && r[i..] == "";
    assert Successor(digits).0 + "" == Successor(digits).0;
    while carry && i > 0
      invariant 0 <= i <= |digits| == |r|
      invariant r[..i] == digits[..i]
      invariant Successor(digits) == (if carry then (Successor(digits[..i]).0 + r[i..], Successor(digits[..i]).1)
                                      else (r, false))
    {
      i := i - 1;
      assert digits[..i + 1][..i] == digits[..i];
      assert r[i] == r[..i + 1][i] == digits[..i + 1][i];
      ghost var done := r[i + 1..];
      var d := DigitIndex(r[i]) + 1;
      if d == BASE {
        r := r[i := '0'];
        assert r[i..] == "0" + done;
        assert Successor(digits[..i]).0 + "0" + done == Successor(digits[..i]).0 + r[i..];
      } else {
        r := r[i := DigitAt(d)];
        carry := false;
        assert r == digits[..i] + [DigitAt(d)] + done;
      }
    }
    assert carry ==> r == "" + r[0..];
  }

  method SubtractOne(digits: string) returns (r: string, borrow: bool)
    requires AllDigits(digits)
    ensures (r, borrow) == Predecessor(digits)
  {
    r, borrow := digits, true;
    var i := |digits|;
    assert digits[..i] == digits && r[i..] == "";
    assert Predecessor(digits).0 + "" == Predecessor(digits).0;
    while borrow && i > 0
      invariant 0 <= i <= |digits| == |r|
      invariant r[..i] == digits[..i]
      invariant Predecessor(digits) == (if borrow then (Predecessor(digits[..i]).0 + r[i..], Predecessor(digits[..i]).1)
                                        else (r, false))
    {
      i := i - 1;
      assert digits[..i + 1][..i] == digits[..i];
      assert r[i] == r[..i + 1][i] == digits[..i + 1][i];
      ghost var done := r[i + 1..];
      var d := DigitIndex(r[i]);
      if d == 0 {
        r := r[i := 'z'];
        assert r[i..] == "z" + done;
        assert Predecessor(digits[..i]).0 + "z" + done == Predecessor(digits[..i]).0 + r[i..];
      } else {
        r := r[i := DigitAt(d - 1)];
        borrow := false;
        assert r == digits[..i] + [DigitAt(d - 1)] + done;
      }
    }
    assert borrow ==> r == "" + r[0..];
  }

  /** The next integer part, rolling the magnitude up on overflow; None when the space above is exhausted. */
  function Increment(x: string): Option<string>
    requires IsInteger(x)
  {
    var (digits, carry) := Successor(x[1..]);
    if !carry then Some([x[0]] + digits)
    else if x[0] == 'Z' then Some("a0")
    else if x[0] == 'z' then None
    else
      SuccessorGrows(x[1..]);
      var h := (x[0] as int + 1) as char;
      Some(if h > 'a' then [h] + digits + "0" else [h] + digits[..|digits| - 1])
  }

  /** The previous integer part, rolling the magnitude down on underflow; None when the space below is exhausted. */
  function Decrement(x: string): Option<string>
    requires IsInteger(x)
  {
    var (digits, borrow) := Predecessor(x[1..]);
    if !borrow then Some([x[0]] + digits)
    else if x[0] == 'a' then Some("Zz")
    else if x[0] == 'A' then None
    else
      PredecessorShrinks(x[1..]);
      var h := (x[0] as int - 1) as char;
      Some(if h < 'Z' then [h] + digits + "z" else [h] + digits[..|digits| - 1])
  }

  lemma IncrementGrows(x: string)
    requires IsInteger(x)
    ensures Increment(x).Some? ==> IsInteger(Increment(x).value) && Less(x, Increment(x).value)
  {
    SuccessorGrows(x[1..]);
    var (digits, carry) := Successor(x[1..]);
    if !carry {
      var i :| PartAt(x[1..], digits, i);
      var y := [x[0]] + digits;
      assert x[..i + 1] == [x[0]] + x[1..][..i] && y[..i + 1] == [x[0]] + digits[..i];
      PartMeansLess(x, y, i + 1);
    }
  }

  lemma DecrementShrinks(x: string)
    requires IsInteger(x)
    ensures Decrement(x).Some? ==> IsInteger(Decrement(x).value) && Less(Decrement(x).value, x)
  {
    PredecessorShrinks(x[1..]);
    var (digits, borrow) := Predecessor(x[1..]);
    if !borrow {
      var i :| PartAt(digits, x[1..], i);
      BorrowWithin(x, digits, i);
    } else {
      BorrowBeyond(x);
    }
  }

  lemma BorrowWithin(x: string, digits: string, i: int)
    requires IsInteger(x) && AllDigits(digits) && |digits| == |x| - 1 && PartAt(digits, x[1..], i)
    ensures IsInteger([x[0]] + digits) && Less([x[0]] + digits, x)
  {
    var y := [x[0]] + digits;
    assert x[..i + 1] == [x[0]] + x[1..][..i] && y[..i + 1] == [x[0]] + digits[..i];
    PartMeansLess(y, x, i + 1);
  }

  lemma BorrowBeyond(x: string)
    requires IsInteger(x) && Predecessor(x[1..]).1
    ensures Decrement(x).Some? ==> IsInteger(Decrement(x).value) && Less(Decrement(x).value, x)
  {
    PredecessorShrinks(x[1..]);
    hide Predecessor;
  }

  /** The bottom of the space: the lowest magnitude with nothing but zeros. */
  predicate IsBottom(x: string) {
    x != "" && x[0] == 'A' && forall i :: 1 <= i < |x| ==> x[i] == '0'
  }

  lemma OnlyBottomHasNoPredecessor(x: string)
    requires IsInteger(x)
    ensures Decrement(x).None? <==> IsBottom(x)
  {
    PredecessorShrinks(x[1..]);
    hide Predecessor;
    assert forall i :: 0 <= i < |x[1..]| ==> x[1..][i] == x[i + 1];
    assert forall i :: 1 <= i < |x| ==> x[i] == x[1..][i - 1];
  }

  /** How far a, continued with zeros, agrees with b. */
  function CommonLength(a: string, b: string): (n: nat)
    ensures n <= |b|
    ensures n < |b| ==> (if n < |a| then a[n] else '0') != b[n]
    ensures forall i :: 0 <= i < n ==> (if i < |a| then a[i] else '0') == b[i]
  {
    if b == "" || (if a == "" then '0' else a[0]) != b[0] then 0
    else 1 + CommonLength(if a == "" then "" else a[1..], b[1..])
  }

  /** A fraction strictly between a and b; an empty b stands for the top of the space. */
  function Midpoint(a: string, b: string): string
    requires IsFraction(a) && IsFraction(b) && (b == "" || Less(a, b))
    decreases |a| + |b|, if b == "" then 0 else 1
  {
    var n := CommonLength(a, b);
    if b != "" && n > 0 then
      SuffixLess(a, b, n);
      b[..n] + Midpoint(if n < |a| then a[n..] else "", b[n..])
    else
      var digitA := if a == "" then 0 else DigitIndex(a[0]);
      var digitB := if b == "" then BASE else DigitIndex(b[0]);
      if digitB - digitA > 1 then [DigitAt((digitA + digitB) / 2)]
      else if |b| > 1 then b[..1]
      else [DigitAt(digitA)] + Midpoint(if a == "" then "" else a[1..], "")
  }

  /** Past the common part both ends are still fractions, and still in order. */
  lemma SuffixLess(a: string, b: string, n: nat)
    requires IsFraction(a) && IsFraction(b) && Less(a, b) && n == CommonLength(a, b)
    ensures n < |b|
    ensures var tail := if n < |a| then a[n..] else "";
      IsFraction(tail) && IsFraction(b[n..]) && Less(tail, b[n..])
  {
    LessSplits(a, b);
    hide CommonLength, Less, IsDigit;
    if a <= b && a != b {
      PrefixCommonLength(a, b, n);
    } else {
      var i :| PartAt(a, b, i);
      PartCommonLength(a, b, i, n);
    }
    FractionSuffix(b, n);
    if n < |a| { FractionSuffix(a, n); }
  }

  lemma FractionSuffix(f: string, n: nat)
    requires IsFraction(f) && n < |f|
    ensures IsFraction(f[n..])
  {
    hide IsDigit;
    assert forall j :: 0 <= j < |f[n..]| ==> f[n..][j] == f[n + j];
  }

  lemma PrefixCommonLength(a: string, b: string, n: nat)
    requires a <= b && a != b && IsFraction(b) && n == CommonLength(a, b)
    ensures |a| <= n < |b| && Less("", b[n..])
  {
    hide CommonLength, IsDigit;
    assert forall j :: 0 <= j < |a| ==> a[j] == b[j];
    assert b[|b| - 1] != '0';
  }

  lemma PartCommonLength(a: string, b: string, i: int, n: nat)
    requires PartAt(a, b, i) && n == CommonLength(a, b)
    ensures n == i && Less(a[n..], b[n..])
  {
    hide CommonLength;
    assert forall j :: 0 <= j < i ==> a[j] == a[..i][j] == b[..i][j] == b[j];
  }

  /** What a midpoint must satisfy. */
  predicate Halfway(a: string, m: string, b: string) {
    m != "" && IsFraction(m) && Less(a, m) && (b != "" ==> Less(m, b))
  }

  /** A midpoint is a proper fraction strictly between its ends. */
  lemma {:induction false} MidpointBetween(a: string, b: string)
    requires IsFraction(a) && IsFraction(b) && (b == "" || Less(a, b))
    ensures Halfway(a, Midpoint(a, b), b)
    decreases |a| + |b|, if b == "" then 0 else 1
  {
    var n := CommonLength(a, b);
    if b != "" && n > 0 {
      SuffixLess(a, b, n);
      var tail := if n < |a| then a[n..] else "";
      MidpointBetween(tail, b[n..]);
      PrefixedHalfway(a, b, n, tail, Midpoint(tail, b[n..]));
    } else {
      var digitA := if a == "" then 0 else DigitIndex(a[0]);
      var digitB := if b == "" then BASE else DigitIndex(b[0]);
      if b != "" { FirstDigitsPart(a, b); }
      if digitB - digitA > 1 {
        MiddleDigit(a, b);
      } else if |b| > 1 {
        FirstDigitAlone(a, b);
      } else {
        var below := if a == "" then "" else a[1..];
        if a != "" { assert IsFraction(below); }
        MidpointBetween(below, "");
        LowerDigit(a, b, below, Midpoint(below, ""));
      }
    }
  }

  lemma PrefixedHalfway(a: string, b: string, n: nat, tail: string, rest: string)
    requires IsFraction(a) && IsFraction(b) && 0 < n < |b| && n == CommonLength(a, b)
    requires tail == (if n < |a| then a[n..] else "")
    requires Halfway(tail, rest, b[n..])
    ensures Halfway(a, b[..n] + rest, b)
  {
    hide CommonLength, Less, IsDigit;
    assert b == b[..n] + b[n..];
    CommonPrefix(b[..n], rest, b[n..]);
    PrefixedFraction(b[..n], rest);
    AboveCommonPart(a, b, n, tail, rest);
  }

  lemma PrefixedFraction(p: string, rest: string)
    requires AllDigits(p) && IsFraction(rest) && rest != ""
    ensures IsFraction(p + rest)
  {
    hide IsDigit;
    assert (p + rest)[|p + rest| - 1] == rest[|rest| - 1];
  }

  lemma AboveCommonPart(a: string, b: string, n: nat, tail: string, rest: string)
    requires n < |b| && n == CommonLength(a, b) && rest != ""
    requires tail == (if n < |a| then a[n..] else "")
    requires Less(tail, rest)
    ensures Less(a, b[..n] + rest)
  {
    hide CommonLength, Less;
    if n < |a| {
      assert a == b[..n] + tail;
      CommonPrefix(b[..n], tail, rest);
    } else {
      ProperPrefixLess(a, b[..n], rest);
    }
  }

  /** Anything that starts with a and goes on is above a. */
  lemma ProperPrefixLess(a: string, p: string, rest: string)
    requires |a| <= |p| && rest != ""
    requires forall i :: 0 <= i < |a| ==> a[i] == p[i]
    ensures Less(a, p + rest)
  {
    hide Less;
    assert p + rest == a + (p[|a|..] + rest);
    PrefixLess(a, p[|a|..] + rest);
  }

  lemma FirstDigitsPart(a: string, b: string)
    requires IsFraction(a) && IsFraction(b) && Less(a, b) && CommonLength(a, b) == 0
    ensures DigitIndex(b[0]) > if a == "" then 0 else DigitIndex(a[0])
  {
    DigitOrder(if a == "" then '0' else a[0], b[0]);
    DigitOrder('0', b[0]);
  }

  lemma MiddleDigit(a: string, b: string)
    requires IsFraction(a) && IsFraction(b)
    requires (if b == "" then BASE else DigitIndex(b[0])) - (if a == "" then 0 else DigitIndex(a[0])) > 1
    ensures var digitA, digitB := if a == "" then 0 else DigitIndex(a[0]), if b == "" then BASE else DigitIndex(b[0]);
      Halfway(a, [DigitAt((digitA + digitB) / 2)], b)
  {
    var digitA, digitB := if a == "" then 0 else DigitIndex(a[0]), if b == "" then BASE else DigitIndex(b[0]);
    var mid := DigitAt((digitA + digitB) / 2);
    DigitOrder('0', mid);
    if a != "" { DigitOrder(a[0], mid); }
    if b != "" { DigitOrder(mid, b[0]); }
  }

  lemma FirstDigitAlone(a: string, b: string)
    requires IsFraction(a) && IsFraction(b) && |b| > 1
    requires DigitIndex(b[0]) > if a == "" then 0 else DigitIndex(a[0])
    ensures Halfway(a, b[..1], b)
  {
    DigitOrder('0', b[0]);
    if a != "" { DigitOrder(a[0], b[0]); }
    assert b == b[..1] + b[1..];
    PrefixLess(b[..1], b[1..]);
  }

  lemma LowerDigit(a: string, b: string, below: string, rest: string)
    requires IsFraction(a) && IsFraction(b) && below == (if a == "" then "" else a[1..])
    requires b != "" ==> DigitIndex(b[0]) > if a == "" then 0 else DigitIndex(a[0])
    requires Halfway(below, rest, "")
    ensures Halfway(a, [DigitAt(if a == "" then 0 else DigitIndex(a[0]))] + rest, b)
  {
    var d := if a == "" then '0' else a[0];
    DigitOrder(DigitAt(DigitIndex(d)), d);
    if b != "" { DigitOrder(d, b[0]); }
    hide DigitAt, DigitIndex;
    var m := [d] + rest;
    assert m[1..] == rest && AllDigits(m);
  }

  datatype Growth = GrowsUp | GrowsDown

  /** The key of the first row of an empty list. */
  function Seed(g: Growth): Key {
    if g == GrowsDown then "c000" else "a0"
  }

  lemma SeedsValid()
    ensures forall g :: Valid(Seed(g))
  {
    assert Fraction("c000") == "" && Fraction("a0") == "";
  }

  /** A key strictly between two others; "" before everything or after everything. None is the error return. */
  function Between(prev: Key, next: Key): Option<Key> {
    if (prev != "" && !Valid(prev)) || (next != "" && !Valid(next)) then None
    else if prev != "" && next != "" && !Less(prev, next) then None
    else if prev == "" then
      if next == "" then Some(Seed(GrowsUp))
      else
        ValidParts(next);
        if Less(IntegerPart(next), next) then Some(IntegerPart(next)) else Decrement(IntegerPart(next))
    else
      ValidParts(prev);
      var ia, fa := IntegerPart(prev), Fraction(prev);
      if next == "" then
        match Increment(ia)
        case Some(k) => Some(k)
        case None => Some(ia + Midpoint(fa, ""))
      else
        ValidParts(next);
        var ib, fb := IntegerPart(next), Fraction(next);
        if ia == ib then
          CommonPrefix(ia, fa, fb);
          Some(ia + Midpoint(fa, fb))
        else
          match Increment(ia)
          case None => None
          case Some(k) => if Less(k, next) then Some(k) else Some(ia + Midpoint(fa, ""))
  }

  /** The topmost magnitude filled with the last digit is above every other integer part. */
  lemma TopIsGreatest(x: string, y: string)
    requires IsInteger(x) && IsInteger(y)
    requires forall i :: 0 <= i < |x| ==> x[i] == 'z'
    ensures !Less(x, y)
  {
    if Less(x, y) {
      LessSplits(x, y);
      IntegerPrefix(x, y);
      assert false;
    }
  }

  /** An integer part that is not the greatest has a next one. */
  lemma NothingAboveTop(x: string, y: string)
    requires IsInteger(x) && IsInteger(y) && Less(x, y)
    ensures Increment(x).Some?
  {
    SuccessorFull(x[1..]);
    if x[0] == 'z' && Successor(x[1..]).1 {
      assert forall i :: 1 <= i < |x| ==> x[i] == x[1..][i - 1];
      TopIsGreatest(x, y);
    }
  }

  lemma {:induction false} SuccessorFull(digits: string)
    requires AllDigits(digits)
    ensures Successor(digits).1 ==> forall i :: 0 <= i < |digits| ==> digits[i] == 'z'
  {
    if digits != "" && Successor(digits).1 {
      var n := |digits| - 1;
      SuccessorFull(digits[..n]);
      DigitOrder(digits[n], 'z');
      assert forall i :: 0 <= i < n ==> digits[i] == digits[..n][i];
    }
  }

  /** What Between needs of its arguments: well-formed keys in order, and room below when it prepends. */
  predicate Placeable(prev: Key, next: Key) {
    && (prev == "" || Valid(prev))
    && (next == "" || Valid(next))
    && (prev != "" && next != "" ==> Less(prev, next))
    && (prev == "" ==> !IsBottom(next))
  }

  /** Between fails exactly on malformed or inverted bounds and below the bottom key; otherwise its key is well formed
      and strictly between the bounds. */
  lemma BetweenIsBetween(prev: Key, next: Key)
    ensures Between(prev, next).Some? <==> Placeable(prev, next)
    ensures Between(prev, next).Some? ==>
      var k := Between(prev, next).value;
      Valid(k) && (prev != "" ==> Less(prev, k)) && (next != "" ==> Less(k, next))
  {
    if prev == "" && next != "" && Valid(next) {
      BeforeIsBelow(next);
    } else if prev != "" && next == "" && Valid(prev) {
      AfterIsAbove(prev);
    } else if prev != "" && next != "" && Valid(prev) && Valid(next) && Less(prev, next) {
      BetweenKeys(prev, next);
    } else if prev == "" && next == "" {
      assert Fraction("a0") == "";
    }
  }

  lemma BeforeIsBelow(next: Key)
    requires Valid(next)
    ensures Between("", next).Some? <==> !IsBottom(next)
    ensures Between("", next).Some? ==> Valid(Between("", next).value) && Less(Between("", next).value, next)
  {
    ValidParts(next);
    var ib, fb := IntegerPart(next), Fraction(next);
    if fb == "" {
      assert ib == next;
      LessIrreflexive(next);
      DecrementShrinks(ib);
      OnlyBottomHasNoPredecessor(ib);
      if Decrement(ib).Some? {
        JoinValid(Decrement(ib).value, "");
        assert Decrement(ib).value + "" == Decrement(ib).value;
      }
    } else {
      PrefixLess(ib, fb);
      JoinValid(ib, "");
      assert ib + "" == ib;
      assert fb[|fb| - 1] == next[|next| - 1];
    }
  }

  lemma AfterIsAbove(prev: Key)
    requires Valid(prev)
    ensures Between(prev, "").Some? && Valid(Between(prev, "").value) && Less(prev, Between(prev, "").value)
  {
    ValidParts(prev);
    var ia, fa := IntegerPart(prev), Fraction(prev);
    match Increment(ia) {
      case Some(k) =>
        IncrementGrows(ia);
        JoinValid(k, "");
        assert k + "" == k;
        IntegersPart(ia, k, fa, "");
      case None =>
        ExtendFraction(ia, fa);
    }
  }

  /** A larger fraction on the same integer part is a larger key. */
  lemma ExtendFraction(ia: string, fa: string)
    requires IsInteger(ia) && IsFraction(fa)
    ensures Valid(ia + Midpoint(fa, "")) && Less(ia + fa, ia + Midpoint(fa, ""))
  {
    MidpointBetween(fa, "");
    hide Midpoint;
    CommonPrefix(ia, fa, Midpoint(fa, ""));
    JoinValid(ia, Midpoint(fa, ""));
  }

  lemma BetweenKeys(prev: Key, next: Key)
    requires Valid(prev) && Valid(next) && Less(prev, next)
    ensures Between(prev, next).Some?
    ensures var k := Between(prev, next).value; Valid(k) && Less(prev, k) && Less(k, next)
  {
    ValidParts(prev);
    ValidParts(next);
    var ia, fa, ib, fb := IntegerPart(prev), Fraction(prev), IntegerPart(next), Fraction(next);
    if ia == ib {
      CommonPrefix(ia, fa, fb);
      MidpointBetween(fa, fb);
      var m := Midpoint(fa, fb);
      CommonPrefix(ia, fa, m);
      CommonPrefix(ia, m, fb);
      JoinValid(ia, m);
    } else {
      LessTotal(ia, ib);
      if Less(ib, ia) {
        IntegersPart(ib, ia, fb, fa);
        LessTransitive(prev, next, prev);
        LessIrreflexive(prev);
      }
      NothingAboveTop(ia, ib);
      IncrementGrows(ia);
      var k := Increment(ia).value;
      IntegersPart(ia, k, fa, "");
      assert k + "" == k;
      JoinValid(k, "");
      if !Less(k, next) {
        ExtendFraction(ia, fa);
        IntegersPart(ia, ib, Midpoint(fa, ""), fb);
      }
    }
  }
}
