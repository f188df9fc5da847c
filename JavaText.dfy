/** The few pieces of Java's string library the core depends on:
    `StringUtils.stripToEmpty`, `String.equalsIgnoreCase` and
    `Integer.parseInt`, restricted to ASCII. */
module JavaText {
  import opened Base

  /** The range of Java's 32-bit `int`. */
  const IntMin: int := -0x8000_0000
  const IntMax: int := 0x7FFF_FFFF

  predicate InIntRange(n: int) {
    IntMin <= n <= IntMax
  }

  /** `Character.isWhitespace` on the ASCII range. */
  predicate IsWhitespace(c: char) {
    c == ' ' || c == '\t' || c == '\n' || c == '\r' || c == '\U{000B}' || c == '\U{000C}'
    || ('\U{001C}' <= c <= '\U{001F}')
  }

  /** Drops leading whitespace. */
  function StripStart(s: string): (r: string)
    ensures |r| <= |s|
  {
    if s != [] && IsWhitespace(s[0]) then StripStart(s[1..]) else s
  }

  /** What `StripStart` keeps is a suffix of `s` that does not start with
      whitespace, and everything it drops is whitespace. */
  lemma {:induction false} StripStartSpec(s: string)
    ensures var r := StripStart(s);
      && r == s[|s| - |r|..]
      && (r == [] || !IsWhitespace(r[0]))
      && (forall i :: 0 <= i < |s| - |r| ==> IsWhitespace(s[i]))
  {
    if s != [] && IsWhitespace(s[0]) {
      StripStartSpec(s[1..]);
      var r := StripStart(s);
      assert forall i :: 1 <= i < |s| - |r| ==> s[1..][i - 1] == s[i];
      assert s[1..][|s| - 1 - |r|..] == s[|s| - |r|..];
    }
  }

  /** Drops trailing whitespace. */
  function StripEnd(s: string): (r: string)
    ensures |r| <= |s|
  {
    if s != [] && IsWhitespace(s[|s| - 1]) then StripEnd(s[..|s| - 1]) else s
  }

  /** What `StripEnd` keeps is a prefix of `s` that does not end with
      whitespace, and everything it drops is whitespace. */
  lemma {:induction false} StripEndSpec(s: string)
    ensures var r := StripEnd(s);
      && r == s[..|r|]
      && (r == [] || !IsWhitespace(r[|r| - 1]))
      && (forall i :: |r| <= i < |s| ==> IsWhitespace(s[i]))
  {
    if s != [] && IsWhitespace(s[|s| - 1]) {
      var t := s[..|s| - 1];
      StripEndSpec(t);
      var r := StripEnd(s);
      assert forall i :: |r| <= i < |t| ==> t[i] == s[i];
      assert t[..|r|] == s[..|r|];
    }
  }

  /** `StringUtils.stripToEmpty`: null becomes "", otherwise whitespace is
      removed at both ends. */
  function StripToEmpty(s: Option<string>): (r: string)
    ensures r == [] || (!IsWhitespace(r[0]) && !IsWhitespace(r[|r| - 1]))
    ensures s.None? ==> r == []
    ensures s.Some? ==> |r| <= |s.value|
  {
    match s
    case None => []
    case Some(t) =>
      var front := StripStart(t);
      StripStartSpec(t);
      StripEndSpec(front);
      var r := StripEnd(front);
      assert r != [] ==> r[0] == front[0];
      r
  }

  /** Stripping what is already stripped changes nothing. */
  lemma StripToEmptyIdempotent(s: Option<string>)
    ensures StripToEmpty(Some(StripToEmpty(s))) == StripToEmpty(s)
  {
    var r := StripToEmpty(s);
    assert StripStart(r) == r;
    assert StripEnd(r) == r;
  }

  /** Case folding of `String.equalsIgnoreCase`, on ASCII letters. */
  function ToLower(c: char): (r: char)
    ensures 'A' <= c <= 'Z' ==> r as int == c as int + 32
    ensures !('A' <= c <= 'Z') ==> r == c
  {
    if 'A' <= c <= 'Z' then (c as int + 32) as char else c
  }

  /** `s` with every letter folded to lower case. */
  function Lowered(s: string): (r: string)
    ensures |r| == |s|
  {
    if s == [] then [] else Lowered(s[..|s| - 1]) + [ToLower(s[|s| - 1])]
  }

  /** `String.equalsIgnoreCase`: equal lengths and equal characters after folding. */
  predicate EqualsIgnoreCase(a: string, b: string) {
    Lowered(a) == Lowered(b)
  }

  /** Folding works character by character. */
  lemma {:induction false} LoweredAt(s: string, i: nat)
    requires i < |s|
    ensures Lowered(s)[i] == ToLower(s[i])
  {
    var init := s[..|s| - 1];
    assert Lowered(s) == Lowered(init) + [ToLower(s[|s| - 1])];
    if i < |s| - 1 {
      assert init[i] == s[i];
      LoweredAt(init, i);
    }
  }

  /** Case-insensitive equality compares lengths and folded characters. */
  lemma EqualsIgnoreCaseByCharacters(a: string, b: string)
    ensures EqualsIgnoreCase(a, b) <==> |a| == |b| && forall i :: 0 <= i < |a| ==> ToLower(a[i]) == ToLower(b[i])
  {
    if |a| == |b| {
      forall i | 0 <= i < |a|
        ensures Lowered(a)[i] == ToLower(a[i]) && Lowered(b)[i] == ToLower(b[i])
      {
        LoweredAt(a, i);
        LoweredAt(b, i);
      }
    }
  }

  lemma EqualsIgnoreCaseIsEquivalence(a: string, b: string, c: string)
    ensures EqualsIgnoreCase(a, a)
    ensures EqualsIgnoreCase(a, b) ==> EqualsIgnoreCase(b, a)
    ensures EqualsIgnoreCase(a, b) && EqualsIgnoreCase(b, c) ==> EqualsIgnoreCase(a, c)
  {
  }

  predicate IsDigit(c: char) {
    '0' <= c <= '9'
  }

  predicate AllDigits(s: string) {
    forall i :: 0 <= i < |s| ==> IsDigit(s[i])
  }

  /** The value of a string of decimal digits, most significant first. */
  function DigitsValue(s: string): nat
    requires AllDigits(s)
  {
    if s == [] then 0 else DigitsValue(s[..|s| - 1]) * 10 + (s[|s| - 1] as int - '0' as int)
  }

  /** `Integer.parseInt`: an optional '+' or '-', then at least one decimal
      digit, and a value that fits in an `int`; anything else (null included)
      is a NumberFormatException, here None. */
  function ParseInt(s: Option<string>): (r: Option<int>)
    ensures r.Some? ==> InIntRange(r.value)
    ensures s.None? || s == Some([]) ==> r.None?
    ensures r.Some? && r.value < 0 ==> s.value[0] == '-'
  {
    match s
    case None => None
    case Some(t) =>
      if t == [] then None
      else
        var signed := t[0] == '-' || t[0] == '+';
        var digits := if signed then t[1..] else t;
        if digits == [] || !AllDigits(digits) then None
        else
          var magnitude: int := DigitsValue(digits);
          var v := if t[0] == '-' then -magnitude else magnitude;
          if InIntRange(v) then Some(v) else None
  }

  predicate IsSign(c: char) {
    c == '-' || c == '+'
  }

  /** `t` is an optional '+' or '-' followed by one or more ASCII digits. */
  predicate IsIntLiteral(t: string) {
    && |t| >= 1
    && (IsSign(t[0]) ==> |t| >= 2)
    && forall i :: (if IsSign(t[0]) then 1 else 0) <= i < |t| ==> IsDigit(t[i])
  }

  /** The signed value an integer literal denotes. */
  function LiteralValue(t: string): int
    requires IsIntLiteral(t)
  {
    var digits := if IsSign(t[0]) then t[1..] else t;
    assert forall i :: 0 <= i < |digits| ==> digits[i] == t[i + |t| - |digits|];
    var magnitude: int := DigitsValue(digits);
    if t[0] == '-' then -magnitude else magnitude
  }

  /** `Integer.parseInt` accepts exactly the integer literals whose value
      fits in an `int`, and returns that value; every other string (a lone
      sign, a non-digit, an empty string, a value out of range) is a
      NumberFormatException. */
  lemma ParseIntSpec(t: string)
    ensures ParseInt(Some(t)) == if IsIntLiteral(t) && InIntRange(LiteralValue(t)) then Some(LiteralValue(t)) else None
  {
    if t != [] {
      var digits := if IsSign(t[0]) then t[1..] else t;
      assert forall i :: 0 <= i < |digits| ==> digits[i] == t[i + |t| - |digits|];
      if IsIntLiteral(t) {
        assert AllDigits(digits);
      }
    }
  }

  /** A decimal number outside the `int` range does not parse. */
  lemma ParseIntOutOfRange(n: int)
    requires !InIntRange(n)
    ensures ParseInt(Some(IntToString(n))) == None
  {
    var t := IntToString(n);
    if n < 0 {
      assert t[1..] == NatToString(-n);
      DigitsValueOfNatToString(-n);
    } else {
      assert IsDigit(t[0]);
      DigitsValueOfNatToString(n);
    }
  }

  /** A few strings `getAgentTTLMax` and the period getters may meet. */
  lemma ParseIntExamples()
    ensures ParseInt(Some("-")) == None && ParseInt(Some("+")) == None
    ensures ParseInt(Some("1a")) == None && ParseInt(Some(" 7")) == None
    ensures ParseInt(Some("+7")) == Some(7) && ParseInt(Some("-07")) == Some(-7)
    ensures ParseInt(Some(IntToString(IntMax + 1))) == None
  {
    assert "+7"[1..] == "7";
    assert "-07"[1..] == "07";
    assert "07"[..1] == "0";
    assert !IsDigit('a') && "1a"[1] == 'a';
    ParseIntOutOfRange(IntMax + 1);
  }

  function DigitChar(d: nat): (c: char)
    requires d < 10
    ensures IsDigit(c) && c as int - '0' as int == d
  {
    ('0' as int + d) as char
  }

  /** Decimal digits of `n`, without leading zeros. */
  function NatToString(n: nat): (s: string)
    ensures s != [] && AllDigits(s)
  {
    if n < 10 then [DigitChar(n)] else NatToString(n / 10) + [DigitChar(n % 10)]
  }

  /** `Integer.toString`: decimal, with a leading '-' for negative values. */
  function IntToString(n: int): (s: string)
  {
    if n < 0 then "-" + NatToString(-n) else NatToString(n)
  }

  lemma {:induction false} DigitsValueOfNatToString(n: nat)
    ensures DigitsValue(NatToString(n)) == n
  {
    if n >= 10 {
      var s := NatToString(n);
      assert s[..|s| - 1] == NatToString(n / 10);
      DigitsValueOfNatToString(n / 10);
    }
  }

  /** Parsing reads back every `int` that Java prints. */
  lemma ParseIntRoundTrip(n: int)
    requires InIntRange(n)
    ensures ParseInt(Some(IntToString(n))) == Some(n)
  {
    var t := IntToString(n);
    if n < 0 {
      assert t[1..] == NatToString(-n);
      DigitsValueOfNatToString(-n);
    } else {
      assert IsDigit(t[0]);
      DigitsValueOfNatToString(n);
    }
  }
}
