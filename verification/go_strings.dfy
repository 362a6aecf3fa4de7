/**
 The few results and string operations of the Go library that the driver relies on.
 Strings are byte strings: one char per byte.
 */
module GoStrings {

  datatype Option<+T> = None | Some(value: T)

  ghost predicate IsBytes(s: string) {
    forall i :: 0 <= i < |s| ==> s[i] < 256 as char
  }

  predicate HasPrefix(s: string, prefix: string) {
    prefix <= s
  }

  /** `sub` stands in `s` at offset i. */
  predicate OccursAt(s: string, sub: string, i: nat) {
    i + |sub| <= |s| && s[i..i + |sub|] == sub
  }

  predicate Contains(s: string, sub: string) {
    exists i: nat | i <= |s| :: OccursAt(s, sub, i)
  }

  lemma ContainsMiddle(before: string, sub: string, after: string)
    ensures Contains(before + sub + after, sub)
  {
    assert OccursAt(before + sub + after, sub, |before|);
  }

  /** Offset of the first occurrence of byte c, or the length if there is none. */
  function IndexByte(s: string, c: char): (n: nat)
    ensures n <= |s|
    ensures n < |s| ==> s[n] == c
    ensures c !in s[..n]
  {
    if s == "" || s[0] == c then 0 else
      var n := 1 + IndexByte(s[1..], c);
      assert s[..n] == [s[0]] + s[1..][..n - 1];
      n
  }

  lemma {:induction false} IndexByteFirst(a: string, c: char, b: string)
    requires c !in a
    ensures IndexByte(a + [c] + b, c) == |a|
  {
    if a != "" {
      IndexByteFirst(a[1..], c, b);
      assert (a + [c] + b)[1..] == a[1..] + [c] + b;
    }
  }

  // ----- White space

  predicate ByteAt(s: string, i: nat, b: int)
    requires 0 <= b < 256
  {
    i < |s| && s[i] == b as char
  }

  /**
   Width in bytes of the white space character the text starts with, 0 if it starts with
   none: the ASCII ones, then the UTF-8 forms of the Unicode ones.
   */
  function SpaceWidth(s: string): (w: nat)
    ensures w <= |s|
  {
    if s == "" then 0
    else if s[0] in {' ', '\t', '\n', '\r', 11 as char, 12 as char} then 1
    else if ByteAt(s, 0, 0xC2) && (ByteAt(s, 1, 0x85) || ByteAt(s, 1, 0xA0)) then 2
    else if ByteAt(s, 0, 0xE1) && ByteAt(s, 1, 0x9A) && ByteAt(s, 2, 0x80) then 3
    else if ByteAt(s, 0, 0xE2) && ByteAt(s, 1, 0x80) && |s| > 2
        && (0x80 as char <= s[2] <= 0x8A as char || s[2] in {0xA8 as char, 0xA9 as char, 0xAF as char}) then 3
    else if ByteAt(s, 0, 0xE2) && ByteAt(s, 1, 0x81) && ByteAt(s, 2, 0x9F) then 3
    else if ByteAt(s, 0, 0xE3) && ByteAt(s, 1, 0x80) && ByteAt(s, 2, 0x80) then 3
    else 0
  }

  predicate AllSpace(s: string) {
    s == "" || (SpaceWidth(s) > 0 && AllSpace(s[SpaceWidth(s)..]))
  }

  function TrimLeft(s: string): string {
    if SpaceWidth(s) > 0 then TrimLeft(s[SpaceWidth(s)..]) else s
  }

  /** Without the white space the text ends in. */
  function TrimRight(s: string): string {
    if AllSpace(s) then "" else [s[0]] + TrimRight(s[1..])
  }

  function TrimSpace(s: string): string {
    TrimRight(TrimLeft(s))
  }

  lemma SpaceWidthAgain(s: string, t: string)
    requires SpaceWidth(s) > 0 && s[..SpaceWidth(s)] <= t
    ensures SpaceWidth(t) == SpaceWidth(s)
  {
    var w := SpaceWidth(s);
    assert forall i :: 0 <= i < w ==> s[..w][i] == s[i] == t[i];
  }

  lemma SpaceBefore(s: string, w: nat, rest: string)
    requires w == SpaceWidth(s) > 0 && AllSpace(rest)
    ensures AllSpace(s[..w] + rest)
  {
    var all := s[..w] + rest;
    SpaceWidthAgain(s, all);
    assert all[w..] == rest;
  }

  /** t is s without white space before it. */
  ghost predicate LeftTrimmed(s: string, t: string) {
    SpaceWidth(t) == 0 && exists a :: s == a + t && AllSpace(a)
  }

  lemma LeftTrimmedMore(s: string, w: nat, t: string)
    requires w == SpaceWidth(s) > 0 && LeftTrimmed(s[w..], t)
    ensures LeftTrimmed(s, t)
  {
    var a :| s[w..] == a + t && AllSpace(a);
    SpaceBefore(s, w, a);
    assert s == s[..w] + s[w..] == (s[..w] + a) + t;
  }

  lemma {:induction false} TrimLeftMeans(s: string)
    ensures LeftTrimmed(s, TrimLeft(s))
  {
    var w := SpaceWidth(s);
    if w == 0 {
      assert s == "" + s && AllSpace("");
    } else {
      TrimLeftMeans(s[w..]);
      LeftTrimmedMore(s, w, TrimLeft(s[w..]));
    }
  }

  /** t is s without the white space behind it, all of it. */
  ghost predicate RightTrimmed(s: string, t: string) {
    t <= s && AllSpace(s[|t|..]) && forall k :: 0 <= k < |t| ==> !AllSpace(s[k..])
  }

  lemma RightTrimmedMore(s: string, t: string)
    requires s != "" && !AllSpace(s) && RightTrimmed(s[1..], t)
    ensures RightTrimmed(s, [s[0]] + t)
  {
    var r := [s[0]] + t;
    assert s[|r|..] == s[1..][|t|..];
    forall k | 0 <= k < |r| ensures !AllSpace(s[k..]) {
      assert s[0..] == s;
      assert k > 0 ==> s[k..] == s[1..][k - 1..];
    }
  }

  lemma {:induction false} TrimRightMeans(s: string)
    ensures RightTrimmed(s, TrimRight(s))
  {
    if AllSpace(s) {
      assert s[0..] == s;
    } else {
      TrimRightMeans(s[1..]);
      RightTrimmedMore(s, TrimRight(s[1..]));
    }
  }

  /** White space goes at both ends, all of it, and nothing else goes. */
  lemma TrimSpaceMeans(s: string)
    ensures exists mid :: LeftTrimmed(s, mid) && RightTrimmed(mid, TrimSpace(s))
  {
    TrimLeftMeans(s);
    TrimRightMeans(TrimLeft(s));
  }

  // ----- Decimal numbers

  const MAX_INT := 0x7fff_ffff_ffff_ffff

  function Itoa(n: nat): (s: string)
    ensures s != ""
  {
    if n < 10 then [n as char + '0'] else Itoa(n / 10) + [(n % 10) as char + '0']
  }

  predicate IsDigit(c: char) {
    '0' <= c <= '9'
  }

  function DigitsValue(s: string): (r: Option<nat>)
    ensures r.Some? <==> forall c :: c in s ==> IsDigit(c)
  {
    if s == "" then Some(0)
    else
      var front := DigitsValue(s[..|s| - 1]);
      assert s == s[..|s| - 1] + [s[|s| - 1]];
      if front.Some? && IsDigit(s[|s| - 1]) then Some(front.value * 10 + (s[|s| - 1] - '0') as nat) else None
  }

  /** An optional sign and at least one digit, within the range of a 64-bit int. */
  function Atoi(s: string): (r: Option<int>)
    ensures r.Some? ==> -MAX_INT - 1 <= r.value <= MAX_INT
  {
    var negative := s != "" && s[0] == '-';
    var digits := if s != "" && (s[0] == '-' || s[0] == '+') then s[1..] else s;
    match DigitsValue(digits)
    case Some(v) =>
      if digits == "" then None
      else if negative then (if v <= MAX_INT + 1 then Some(-(v as int)) else None)
      else (if v <= MAX_INT then Some(v) else None)
    case None => None
  }

  lemma {:induction false} DigitsOfItoa(n: nat)
    ensures DigitsValue(Itoa(n)) == Some(n)
  {
    if n < 10 {
      var d := n as char + '0';
      assert Itoa(n) == [d] && [d][..0] == "";
      assert DigitsValue("") == Some(0);
    } else {
      DigitsOfItoa(n / 10);
      var s := Itoa(n);
      assert s[..|s| - 1] == Itoa(n / 10);
    }
  }

  lemma AtoiOfItoa(n: nat)
    requires n <= MAX_INT
    ensures Atoi(Itoa(n)) == Some(n)
  {
    DigitsOfItoa(n);
    assert Itoa(n)[0] in Itoa(n);
  }
}
