// Money text and minor units: what parseMoneyToMinorUnits accepts, what
// formatMinorUnitsToMoney prints, and that the two are inverse to each other.
module Money {
  import opened Wrappers

  const MONEY_SCALE: nat := 2

  predicate IsDigit(c: char) { '0' <= c <= '9' }

  predicate AllDigits(s: string) { forall i :: 0 <= i < |s| ==> IsDigit(s[i]) }

  // The characters JavaScript's trim removes.
  predicate IsSpace(c: char) {
    var code := c as int;
    || 9 <= code <= 13 || code == 32 || code == 160 || code == 0x1680
    || 0x2000 <= code <= 0x200a || code == 0x2028 || code == 0x2029
    || code == 0x202f || code == 0x205f || code == 0x3000 || code == 0xfeff
  }

  function TrimLeft(s: string): string {
    if s != "" && IsSpace(s[0]) then TrimLeft(s[1..]) else s
  }

  function TrimRight(s: string): string {
    if s != "" && IsSpace(s[|s|-1]) then TrimRight(s[..|s|-1]) else s
  }

  function Trim(s: string): string { TrimRight(TrimLeft(s)) }

  function Unsigned(s: string): string { if s != "" && s[0] == '-' then s[1..] else s }

  // The position of the first '.', or the length.
  function DotAt(s: string): (k: nat)
    ensures k <= |s|
  {
    if s == "" || s[0] == '.' then 0 else 1 + DotAt(s[1..])
  }

  // \d+(\.\d{1,2})?
  predicate MatchesUnsigned(u: string) {
    var k := DotAt(u);
    && k > 0 && AllDigits(u[..k])
    && (k == |u| || (1 <= |u| - k - 1 <= MONEY_SCALE && AllDigits(u[k+1..])))
  }

  // ^-?\d+(\.\d{1,2})?$
  predicate MatchesPattern(s: string) { MatchesUnsigned(Unsigned(s)) }

  // BigInt of a text of digits.
  function DigitsToNat(s: string): nat
    requires AllDigits(s)
  {
    if s == "" then 0 else 10 * DigitsToNat(s[..|s|-1]) + (s[|s|-1] - '0') as nat
  }

  // toString of a non-negative number.
  function NatToDigits(n: nat): (s: string)
    ensures s != "" && AllDigits(s)
    ensures n < 10 ==> |s| == 1
    ensures n > 0 ==> s[0] != '0'
  {
    if n < 10 then [('0' as int + n) as char]
    else NatToDigits(n / 10) + [('0' as int + n % 10) as char]
  }

  function Zeros(n: nat): (z: string)
    ensures |z| == n && AllDigits(z)
    ensures forall i :: 0 <= i < n ==> z[i] == '0'
  {
    seq(n, _ => '0')
  }

  function PadEnd(s: string, n: nat): string { if |s| < n then s + Zeros(n - |s|) else s }

  function PadStart(s: string, n: nat): string { if |s| < n then Zeros(n - |s|) + s else s }

  // `unsigned.split('.')` and the digits put together.
  function ReadUnsigned(u: string): nat
    requires MatchesUnsigned(u)
  {
    var k := DotAt(u);
    var fraction := if k == |u| then "" else u[k+1..];
    PadKeepsDigits(fraction);
    DigitsToNat(u[..k] + PadEnd(fraction, MONEY_SCALE))
  }

  function ParseUnsigned(u: string): Option<int> { if MatchesUnsigned(u) then Some(ReadUnsigned(u)) else None }

  // None is the `Invalid money amount` error.
  function Parse(value: string): Option<int> {
    var normalized := Trim(value);
    match ParseUnsigned(Unsigned(normalized))
    case None => None
    case Some(minorUnits) => Some(if normalized[0] == '-' then -minorUnits else minorUnits)
  }

  function Format(minorUnits: int): string {
    var raw := PadStart(NatToDigits(Absolute(minorUnits)), MONEY_SCALE + 1);
    (if minorUnits < 0 then "-" else "") + raw[..|raw|-MONEY_SCALE] + "." + raw[|raw|-MONEY_SCALE..]
  }

  function Absolute(n: int): nat { if n < 0 then -n else n }

  lemma PadKeepsDigits(s: string)
    ensures AllDigits(s) ==> AllDigits(PadEnd(s, MONEY_SCALE))
  {
  }

  // ---- Digits ----

  lemma {:induction false} DigitsOfNat(n: nat)
    ensures DigitsToNat(NatToDigits(n)) == n
    decreases n
  {
    if n >= 10 {
      DigitsOfNat(n / 10);
      assert NatToDigits(n)[..|NatToDigits(n)|-1] == NatToDigits(n / 10);
    }
  }

  // Digits with no leading zero are the digits of their value.
  lemma {:induction false} NatOfDigits(s: string)
    requires s != "" && AllDigits(s) && (s[0] == '0' ==> |s| == 1)
    ensures NatToDigits(DigitsToNat(s)) == s
    decreases |s|
  {
    var init := s[..|s|-1];
    if init != "" {
      NatOfDigits(init);
      LeadingDigit(init);
      assert s == init + [s[|s|-1]];
    } else {
      assert DigitsToNat(init) == 0;
      assert s == [s[0]];
    }
  }

  lemma {:induction false} LeadingDigit(s: string)
    requires s != "" && AllDigits(s) && s[0] != '0'
    ensures DigitsToNat(s) > 0
    decreases |s|
  {
    if |s| > 1 {
      LeadingDigit(s[..|s|-1]);
    }
  }

  lemma {:induction false} LeadingZeros(n: nat, s: string)
    requires AllDigits(s)
    ensures AllDigits(Zeros(n) + s) && DigitsToNat(Zeros(n) + s) == DigitsToNat(s)
    decreases n + |s|
  {
    var t := Zeros(n) + s;
    if s != "" {
      LeadingZeros(n, s[..|s|-1]);
      assert t[..|t|-1] == Zeros(n) + s[..|s|-1];
    } else if n > 0 {
      LeadingZeros(n - 1, s);
      assert t[..n-1] == Zeros(n - 1) + s;
    }
  }

  lemma AppendDigits(whole: string, a: char, b: char)
    requires AllDigits(whole) && IsDigit(a) && IsDigit(b)
    ensures AllDigits(whole + [a, b])
    ensures DigitsToNat(whole + [a, b]) == 100 * DigitsToNat(whole) + 10 * (a - '0') as nat + (b - '0') as nat
  {
    var s := whole + [a, b];
    assert s[..|s|-1] == whole + [a];
    assert (whole + [a])[..|whole|] == whole;
  }

  // ---- What the accepted texts mean ----

  // Sign, whole part and fraction, put together as text.
  function Text(negative: bool, whole: string, fraction: string): string {
    (if negative then "-" else "") + whole + Tail(fraction)
  }

  // A fraction of no, one or two digits, as hundredths.
  function Hundredths(fraction: string): nat
    requires AllDigits(fraction) && |fraction| <= MONEY_SCALE
  {
    if fraction == "" then 0
    else if |fraction| == 1 then 10 * (fraction[0] - '0') as nat
    else 10 * (fraction[0] - '0') as nat + (fraction[1] - '0') as nat
  }

  lemma {:induction false} DotAfterDigits(whole: string, rest: string)
    requires AllDigits(whole) && (rest == "" || rest[0] == '.')
    ensures DotAt(whole + rest) == |whole|
    decreases |whole|
  {
    if whole == "" {
      assert whole + rest == rest;
    } else {
      DotAfterDigits(whole[1..], rest);
      assert (whole + rest)[1..] == whole[1..] + rest;
    }
  }

  lemma {:induction false} DotIsThere(s: string)
    ensures DotAt(s) < |s| ==> s[DotAt(s)] == '.'
    decreases |s|
  {
    if s != "" && s[0] != '.' {
      DotIsThere(s[1..]);
    }
  }

  lemma TrimKeeps(s: string)
    requires s != "" && !IsSpace(s[0]) && !IsSpace(s[|s|-1])
    ensures Trim(s) == s
  {
  }

  function Tail(fraction: string): string { if fraction == "" then "" else "." + fraction }

  // Where such a text is split.
  lemma SplitText(whole: string, fraction: string)
    requires AllDigits(whole)
    ensures var u := whole + Tail(fraction);
            && DotAt(u) == |whole| && u[..|whole|] == whole
            && (fraction == "" ==> |u| == |whole|)
            && (fraction != "" ==> |u| == |whole| + 1 + |fraction| && u[|whole|+1..] == fraction)
  {
    DotAfterDigits(whole, Tail(fraction));
  }

  lemma PaddedValue(whole: string, fraction: string)
    requires AllDigits(whole) && AllDigits(fraction) && |fraction| <= MONEY_SCALE
    ensures AllDigits(whole + PadEnd(fraction, MONEY_SCALE))
    ensures DigitsToNat(whole + PadEnd(fraction, MONEY_SCALE)) == 100 * DigitsToNat(whole) + Hundredths(fraction)
  {
    var padded := PadEnd(fraction, MONEY_SCALE);
    assert padded == [padded[0], padded[1]];
    AppendDigits(whole, padded[0], padded[1]);
  }

  lemma ReadDigits(u: string, whole: string, fraction: string, value: int)
    requires DotAt(u) == |whole| && whole != "" && AllDigits(whole) && u[..|whole|] == whole
    requires if fraction == "" then |u| == |whole|
             else |u| == |whole| + 1 + |fraction| && u[|whole|+1..] == fraction
    requires AllDigits(fraction) && |fraction| <= MONEY_SCALE
    requires AllDigits(whole + PadEnd(fraction, MONEY_SCALE))
    requires value == DigitsToNat(whole + PadEnd(fraction, MONEY_SCALE))
    ensures ParseUnsigned(u) == Some(value)
  {
  }

  lemma ReadText(whole: string, fraction: string, value: int)
    requires whole != "" && AllDigits(whole) && AllDigits(fraction) && |fraction| <= MONEY_SCALE
    requires value == 100 * DigitsToNat(whole) + Hundredths(fraction)
    ensures ParseUnsigned(whole + Tail(fraction)) == Some(value)
  {
    SplitText(whole, fraction);
    PaddedValue(whole, fraction);
    ReadDigits(whole + Tail(fraction), whole, fraction, value);
  }

  // A sign, digits and at most two more digits are read as whole * 100 + hundredths.
  lemma ParseText(negative: bool, whole: string, fraction: string, value: int)
    requires whole != "" && AllDigits(whole) && AllDigits(fraction) && |fraction| <= MONEY_SCALE
    requires value == 100 * DigitsToNat(whole) + Hundredths(fraction)
    ensures Parse(Text(negative, whole, fraction)) == Some(if negative then -value else value)
  {
    ReadText(whole, fraction, value);
    ParseSigned(negative, whole, fraction, value);
  }

  // A text of that form is read as the number it stands for.
  lemma ParseOf(s: string, negative: bool, whole: string, fraction: string, n: int)
    requires whole != "" && AllDigits(whole) && AllDigits(fraction) && |fraction| <= MONEY_SCALE
    requires s == Text(negative, whole, fraction)
    requires n == (if negative then -(100 * DigitsToNat(whole) + Hundredths(fraction))
        else 100 * DigitsToNat(whole) + Hundredths(fraction))
    ensures Parse(s) == Some(n)
  {
    ParseText(negative, whole, fraction, if negative then -n else n);
  }

  lemma ParseSigned(negative: bool, whole: string, fraction: string, value: int)
    requires whole != "" && AllDigits(whole) && AllDigits(fraction)
    requires ParseUnsigned(whole + Tail(fraction)) == Some(value)
    ensures Parse(Text(negative, whole, fraction)) == Some(if negative then -value else value)
  {
    TextIsTrimmed(negative, whole, fraction);
    TextSign(negative, whole, fraction);
    ParseTrimmed(Text(negative, whole, fraction), whole + Tail(fraction), negative, value);
  }

  lemma TextSign(negative: bool, whole: string, fraction: string)
    requires whole != "" && AllDigits(whole)
    ensures var s := Text(negative, whole, fraction);
            s != "" && (s[0] == '-' <==> negative) && Unsigned(s) == whole + Tail(fraction)
  {
    var s, u := Text(negative, whole, fraction), whole + Tail(fraction);
    assert s == (if negative then "-" else "") + u;
    assert u[0] == whole[0];
  }

  lemma ParseTrimmed(s: string, u: string, negative: bool, value: int)
    requires Trim(s) == s && s != "" && (s[0] == '-' <==> negative) && Unsigned(s) == u
    requires ParseUnsigned(u) == Some(value)
    ensures Parse(s) == Some(if negative then -value else value)
  {
  }

  // Sign, digits and at most two digits of fraction.
  ghost predicate IsMoneyText(s: string) {
    exists negative, whole, fraction :: Splits(s, negative, whole, fraction)
  }

  predicate Splits(s: string, negative: bool, whole: string, fraction: string) {
    && whole != "" && AllDigits(whole) && AllDigits(fraction) && |fraction| <= MONEY_SCALE
    && s == Text(negative, whole, fraction)
  }

  // Exactly these texts, up to surrounding space, are accepted.
  lemma ParseAccepts(value: string)
    ensures Parse(value).Some? <==> IsMoneyText(Trim(value))
  {
    var s := Trim(value);
    if MatchesPattern(s) {
      PatternSplits(s);
    }
    if IsMoneyText(s) {
      var negative, whole, fraction :| Splits(s, negative, whole, fraction);
      TextSign(negative, whole, fraction);
      ReadText(whole, fraction, 100 * DigitsToNat(whole) + Hundredths(fraction));
    }
  }

  lemma PatternSplits(s: string)
    requires MatchesPattern(s)
    ensures IsMoneyText(s)
  {
    var whole, fraction := UnsignedSplits(Unsigned(s));
    assert s == (if s[0] == '-' then "-" else "") + (whole + Tail(fraction));
    assert Splits(s, s[0] == '-', whole, fraction);
  }

  lemma UnsignedSplits(u: string) returns (whole: string, fraction: string)
    requires MatchesUnsigned(u)
    ensures whole != "" && AllDigits(whole) && AllDigits(fraction) && |fraction| <= MONEY_SCALE
    ensures u == whole + Tail(fraction)
  {
    var k := DotAt(u);
    DotIsThere(u);
    whole := u[..k];
    fraction := if k == |u| then "" else u[k+1..];
  }

  lemma TextIsTrimmed(negative: bool, whole: string, fraction: string)
    requires whole != "" && AllDigits(whole) && AllDigits(fraction)
    ensures Trim(Text(negative, whole, fraction)) == Text(negative, whole, fraction)
  {
    var s := Text(negative, whole, fraction);
    assert s[|s|-1] == if fraction == "" then whole[|whole|-1] else fraction[|fraction|-1];
    TrimKeeps(s);
  }

  // ---- Round trips ----

  // The digits of the printed text, at least three.
  function Raw(n: nat): (raw: string)
    ensures |raw| >= 3 && AllDigits(raw)
    ensures raw[0] == '0' ==> |raw| == 3
  {
    PadStart(NatToDigits(n), MONEY_SCALE + 1)
  }

  lemma RawValue(n: nat)
    ensures DigitsToNat(Raw(n)) == n
  {
    var digits := NatToDigits(n);
    DigitsOfNat(n);
    if |digits| < 3 {
      LeadingZeros(3 - |digits|, digits);
    }
  }

  // The printed text as sign, whole part and two digits.
  lemma FormatParts(n: int)
    ensures var raw := Raw(Absolute(n));
            var whole, fraction := raw[..|raw|-2], raw[|raw|-2..];
            && Format(n) == Text(n < 0, whole, fraction)
            && 100 * DigitsToNat(whole) + Hundredths(fraction) == Absolute(n)
  {
    var raw := Raw(Absolute(n));
    var whole, fraction := raw[..|raw|-2], raw[|raw|-2..];
    RawValue(Absolute(n));
    assert raw == whole + [fraction[0], fraction[1]];
    AppendDigits(whole, fraction[0], fraction[1]);
  }

  // Every number of minor units is read back from its printed text.
  lemma ParseFormat(n: int)
    ensures Parse(Format(n)) == Some(n)
  {
    var raw := Raw(Absolute(n));
    FormatParts(n);
    ParseOf(Format(n), n < 0, raw[..|raw|-2], raw[|raw|-2..], n);
  }

  // The printed form: no leading zero but a single one, exactly two digits of
  // fraction, and no negative zero.
  predicate Canonical(s: string) {
    var u := Unsigned(s);
    && |u| >= 4 && u[|u|-3] == '.'
    && AllDigits(u[..|u|-3]) && AllDigits(u[|u|-2..])
    && (u[0] == '0' ==> |u| == 4)
    && s != "-0.00"
  }

  // Format prints exactly the canonical texts: a canonical text is the one text
  // printed for the number it is read as.
  lemma CanonicalIsPrinted(s: string)
    ensures Canonical(s) <==> exists n :: s == Format(n)
    ensures Canonical(s) ==> Parse(s).Some? && Format(Parse(s).value) == s
  {
    if n :| s == Format(n) {
      PrintedIsCanonical(n);
    }
    if Canonical(s) {
      CanonicalText(s);
    }
  }

  lemma PrintedIsCanonical(n: int)
    ensures Canonical(Format(n))
  {
    var raw := Raw(Absolute(n));
    var whole, fraction := raw[..|raw|-2], raw[|raw|-2..];
    FormatParts(n);
    TextIsCanonical(n < 0, whole, fraction);
  }

  lemma TextIsCanonical(negative: bool, whole: string, fraction: string)
    requires whole != "" && AllDigits(whole) && (whole[0] == '0' ==> |whole| == 1)
    requires AllDigits(fraction) && |fraction| == 2
    requires negative ==> 100 * DigitsToNat(whole) + Hundredths(fraction) > 0
    ensures Canonical(Text(negative, whole, fraction))
  {
    var s, u := Text(negative, whole, fraction), whole + Tail(fraction);
    TextSign(negative, whole, fraction);
    assert u[..|u|-3] == whole && u[|u|-2..] == fraction && u[|u|-3] == '.';
    if s == "-0.00" {
      ZeroText(u, whole, fraction);
    }
  }

  lemma ZeroText(u: string, whole: string, fraction: string)
    requires whole != "" && AllDigits(whole) && AllDigits(fraction) && |fraction| == 2
    requires u == whole + Tail(fraction) && |u| == 4 && u[0] == u[2] == u[3] == '0'
    ensures 100 * DigitsToNat(whole) + Hundredths(fraction) == 0
  {
    assert whole[0] == u[0] && fraction[0] == u[2] && fraction[1] == u[3];
    assert whole[..0] == "";
  }

  lemma CanonicalText(s: string)
    requires Canonical(s)
    ensures Parse(s).Some? && Format(Parse(s).value) == s
  {
    var negative, whole, fraction := CanonicalParts(s);
    var absolute := 100 * DigitsToNat(whole) + Hundredths(fraction);
    var n := if negative then -absolute else absolute;
    ParseOf(s, negative, whole, fraction, n);
    RawOfParts(whole, fraction, absolute);
    PrintRaw(n, whole, fraction);
  }

  lemma CanonicalParts(s: string) returns (negative: bool, whole: string, fraction: string)
    requires Canonical(s)
    ensures whole != "" && AllDigits(whole) && (whole[0] == '0' ==> |whole| == 1)
    ensures AllDigits(fraction) && |fraction| == 2 && s == Text(negative, whole, fraction)
    ensures negative ==> 100 * DigitsToNat(whole) + Hundredths(fraction) > 0
  {
    var u := Unsigned(s);
    negative, whole, fraction := s[0] == '-', u[..|u|-3], u[|u|-2..];
    assert u == whole + Tail(fraction);
    assert s == Text(negative, whole, fraction);
    if negative && 100 * DigitsToNat(whole) + Hundredths(fraction) == 0 {
      NegativeZero(s, whole, fraction);
    }
  }

  lemma RawOfParts(whole: string, fraction: string, n: nat)
    requires whole != "" && AllDigits(whole) && (whole[0] == '0' ==> |whole| == 1)
    requires AllDigits(fraction) && |fraction| == 2
    requires n == 100 * DigitsToNat(whole) + Hundredths(fraction)
    ensures Raw(n) == whole + fraction
  {
    assert fraction == [fraction[0], fraction[1]];
    AppendDigits(whole, fraction[0], fraction[1]);
    CanonicalDigits(whole + fraction, n);
  }

  lemma PrintRaw(n: int, whole: string, fraction: string)
    requires |fraction| == 2 && Raw(Absolute(n)) == whole + fraction
    ensures Format(n) == Text(n < 0, whole, fraction)
  {
    var raw := whole + fraction;
    assert raw[..|raw|-2] == whole && raw[|raw|-2..] == fraction;
    FormatParts(n);
  }

  lemma NegativeZero(s: string, whole: string, fraction: string)
    requires whole != "" && AllDigits(whole) && (whole[0] == '0' ==> |whole| == 1)
    requires AllDigits(fraction) && |fraction| == 2
    requires s == Text(true, whole, fraction)
    requires 100 * DigitsToNat(whole) + Hundredths(fraction) == 0
    ensures s == "-0.00"
  {
    if whole[0] != '0' {
      LeadingDigit(whole);
    }
    assert whole == "0" && fraction == "00";
  }

  // Three or more digits, padded with zeros only up to three, are printed as they are.
  lemma CanonicalDigits(raw: string, n: nat)
    requires |raw| >= 3 && AllDigits(raw) && (raw[0] == '0' ==> |raw| == 3) && n == DigitsToNat(raw)
    ensures Raw(n) == raw
  {
    var k := if raw[0] != '0' then 0 else if raw[1] != '0' then 1 else 2;
    var tail := raw[k..];
    assert raw == Zeros(k) + tail;
    LeadingZeros(k, tail);
    assert NatToDigits(n) == tail by { NatOfDigits(tail); }
    assert k > 0 ==> |tail| == 3 - k;
  }

  // Printing what was read gives a canonical text with the same value.
  lemma FormatParse(value: string)
    requires Parse(value).Some?
    ensures Canonical(Format(Parse(value).value))
    ensures Parse(Format(Parse(value).value)) == Parse(value)
  {
    ParseFormat(Parse(value).value);
    CanonicalIsPrinted(Format(Parse(value).value));
  }

  lemma ParseWhole(whole: string)
    requires whole != "" && AllDigits(whole)
    ensures Parse(whole) == Some(100 * DigitsToNat(whole))
  {
    assert Text(false, whole, "") == whole;
    ParseOf(whole, false, whole, "", 100 * DigitsToNat(whole));
  }

  // The text of a whole number is read as a number of major units: what the transfer
  // coordinator registers for a leg is a hundred times the minor units it moves.
  lemma ParsePlainNumber(n: nat)
    ensures Parse(NatToDigits(n)) == Some(100 * n)
  {
    ParseWhole(NatToDigits(n));
    DigitsOfNat(n);
  }
}
