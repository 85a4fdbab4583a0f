/**
 * Twitch user records: the lenient `view_count` decoder, which reads an
 * `i32` from a JSON string and ignores any other JSON value, and the
 * one-line printout of a stored user.
 */
module TwitchUserData {
  import opened Wrappers

  const I32Min: int := -0x8000_0000
  const I32Max: int := 0x7FFF_FFFF

  /** `std::num::IntErrorKind`, as far as parsing an `i32` can produce it. */
  datatype IntErrorKind = Empty | InvalidDigit | PosOverflow | NegOverflow

  predicate IsDigit(c: char) {
    '0' <= c <= '9'
  }

  function DigitValue(c: char): nat
    requires IsDigit(c)
  {
    c as int - '0' as int
  }

  predicate AllDigits(s: string) {
    forall i :: 0 <= i < |s| ==> IsDigit(s[i])
  }

  /** The number a digit string denotes, read from its last digit backwards. */
  function Value(s: string): nat
    requires AllDigits(s)
  {
    if s == [] then 0 else Value(s[..|s| - 1]) * 10 + DigitValue(s[|s| - 1])
  }

  function Pow10(n: nat): (p: nat)
    ensures p >= 1
  {
    if n == 0 then 1 else 10 * Pow10(n - 1)
  }

  /** The leading digit carries the weight of the digits after it. */
  lemma {:induction false} ValueFront(s: string)
    requires |s| > 0 && AllDigits(s)
    ensures Value(s) == DigitValue(s[0]) * Pow10(|s| - 1) + Value(s[1..])
    decreases |s|
  {
    if |s| > 1 {
      var init := s[..|s| - 1];
      ValueFront(init);
      assert init[1..] == s[1..][..|s[1..]| - 1];
      assert init[0] == s[0];
      var x := Value(init[1..]);
      var last := DigitValue(s[|s| - 1]);
      AppendDigit(DigitValue(s[0]), Pow10(|s| - 2), x, last);
      assert Value(s[1..]) == x * 10 + last;
    } else {
      assert s[..|s| - 1] == [];
    }
  }

  lemma AppendDigit(d: int, p: int, x: int, last: int)
    ensures (d * p + x) * 10 + last == d * (10 * p) + (x * 10 + last)
  {
  }

  /**
   * The digit loop of `i32::from_str`: each character must be a digit, and
   * the running value, multiplied by ten, gains the digit when positive or
   * loses it when negative; leaving the `i32` range is an overflow.
   */
  function Accumulate(digits: string, acc: int, negative: bool): (r: Result<int, IntErrorKind>)
    requires I32Min <= acc <= I32Max
    ensures r.Ok? ==> I32Min <= r.value <= I32Max
    decreases |digits|
  {
    if digits == [] then Ok(acc)
    else if !IsDigit(digits[0]) then Err(InvalidDigit)
    else
      var next := if negative then acc * 10 - DigitValue(digits[0]) else acc * 10 + DigitValue(digits[0]);
      if next < I32Min then Err(NegOverflow)
      else if next > I32Max then Err(PosOverflow)
      else Accumulate(digits[1..], next, negative)
  }

  /** `i32::from_str`: an optional sign, then at least one digit. */
  function ParseI32(s: string): (r: Result<int, IntErrorKind>)
    ensures r.Ok? ==> I32Min <= r.value <= I32Max
    ensures s == [] ==> r == Err(Empty)
  {
    if s == [] then Err(Empty)
    else if (s[0] == '+' || s[0] == '-') && |s| == 1 then Err(InvalidDigit)
    else if s[0] == '-' then Accumulate(s[1..], 0, true)
    else if s[0] == '+' then Accumulate(s[1..], 0, false)
    else Accumulate(s, 0, false)
  }

  /** Shifting one digit from the remaining string into the running value keeps the total. */
  lemma ShiftDigit(acc: int, d: int, p: int, rest: int)
    ensures acc * (10 * p) + (d * p + rest) == (acc * 10 + d) * p + rest
    ensures acc * (10 * p) - (d * p + rest) == (acc * 10 - d) * p - rest
  {
  }

  /** Once the running value has left the `i32` range upwards, more digits only take it further. */
  lemma AboveStaysAbove(next: int, p: int, rest: int)
    requires next > I32Max && p >= 1 && rest >= 0
    ensures next * p + rest > I32Max
  {
    assert next * p == next + next * (p - 1);
  }

  /** Once the running value has left the `i32` range downwards, more digits only take it further. */
  lemma BelowStaysBelow(next: int, p: int, rest: int)
    requires next < I32Min && p >= 1 && rest >= 0
    ensures next * p - rest < I32Min
  {
    assert next * p == next + next * (p - 1);
  }

  /**
   * On a digit string and a non-negative start, the loop yields
   * `acc * 10^n + value` when that fits, and an overflow otherwise: the
   * running value only grows, so the last step is the largest.
   */
  lemma {:induction false} AccumulatePositive(digits: string, acc: int)
    requires AllDigits(digits) && 0 <= acc <= I32Max
    ensures var total := acc * Pow10(|digits|) + Value(digits);
            Accumulate(digits, acc, false) == if total <= I32Max then Ok(total) else Err(PosOverflow)
    decreases |digits|
  {
    if digits == [] {
      assert acc * Pow10(0) + Value(digits) == acc;
    } else {
      var d := DigitValue(digits[0]);
      var next := acc * 10 + d;
      var p := Pow10(|digits| - 1);
      var rest := Value(digits[1..]);
      ValueFront(digits);
      assert Pow10(|digits|) == 10 * p;
      ShiftDigit(acc, d, p, rest);
      assert acc * Pow10(|digits|) + Value(digits) == next * p + rest;
      assert Pow10(|digits[1..]|) == p;
      if next <= I32Max {
        assert Accumulate(digits, acc, false) == Accumulate(digits[1..], next, false);
        AccumulatePositive(digits[1..], next);
      } else {
        assert Accumulate(digits, acc, false) == Err(PosOverflow);
        AboveStaysAbove(next, p, rest);
      }
    }
  }

  /** The mirror image for a negative number: the running value only falls. */
  lemma {:induction false} AccumulateNegative(digits: string, acc: int)
    requires AllDigits(digits) && I32Min <= acc <= 0
    ensures var total := acc * Pow10(|digits|) - Value(digits);
            Accumulate(digits, acc, true) == if total >= I32Min then Ok(total) else Err(NegOverflow)
    decreases |digits|
  {
    if digits == [] {
      assert acc * Pow10(0) - Value(digits) == acc;
    } else {
      var d := DigitValue(digits[0]);
      var next := acc * 10 - d;
      var p := Pow10(|digits| - 1);
      var rest := Value(digits[1..]);
      ValueFront(digits);
      assert Pow10(|digits|) == 10 * p;
      ShiftDigit(acc, d, p, rest);
      assert acc * Pow10(|digits|) - Value(digits) == next * p - rest;
      assert Pow10(|digits[1..]|) == p;
      if next >= I32Min {
        assert Accumulate(digits, acc, true) == Accumulate(digits[1..], next, true);
        AccumulateNegative(digits[1..], next);
      } else {
        assert Accumulate(digits, acc, true) == Err(NegOverflow);
        BelowStaysBelow(next, p, rest);
      }
    }
  }

  /** A non-empty digit string parses to its value when that fits in an `i32`, and overflows otherwise. */
  lemma ParseDigits(digits: string)
    requires |digits| > 0 && AllDigits(digits)
    ensures ParseI32(digits) == if Value(digits) <= I32Max then Ok(Value(digits)) else Err(PosOverflow)
    ensures ParseI32("+" + digits) == ParseI32(digits)
    ensures var v: int := Value(digits);
            ParseI32("-" + digits) == if -v >= I32Min then Ok(-v) else Err(NegOverflow)
  {
    AccumulatePositive(digits, 0);
    assert ("+" + digits)[1..] == digits;
    assert ("-" + digits)[1..] == digits;
    AccumulateNegative(digits, 0);
  }

  /** The digit loop fails on any character that is not a digit. */
  lemma {:induction false} AccumulateOkAllDigits(digits: string, acc: int, negative: bool)
    requires I32Min <= acc <= I32Max
    requires Accumulate(digits, acc, negative).Ok?
    ensures AllDigits(digits)
    decreases |digits|
  {
    if digits != [] {
      var next := if negative then acc * 10 - DigitValue(digits[0]) else acc * 10 + DigitValue(digits[0]);
      AccumulateOkAllDigits(digits[1..], next, negative);
      assert forall i :: 1 <= i < |digits| ==> digits[i] == digits[1..][i - 1];
    }
  }

  /**
   * The converse of `ParseDigits`: whatever parses is an optional `+` or
   * `-` followed by at least one digit, and its value is the digits' value
   * with that sign.
   */
  lemma ParseI32Accepts(s: string)
    requires ParseI32(s).Ok?
    ensures s != []
    ensures var digits := if s[0] == '+' || s[0] == '-' then s[1..] else s;
            && |digits| > 0 && AllDigits(digits)
            && ParseI32(s).value == var v: int := Value(digits); if s[0] == '-' then -v else v
  {
    if s[0] == '+' || s[0] == '-' {
      AccumulateOkAllDigits(s[1..], 0, s[0] == '-');
      AccumulatePositive(s[1..], 0);
      AccumulateNegative(s[1..], 0);
    } else {
      AccumulateOkAllDigits(s, 0, false);
      AccumulatePositive(s, 0);
    }
  }

  function DigitChar(d: nat): (c: char)
    requires d < 10
    ensures IsDigit(c) && DigitValue(c) == d
  {
    ('0' as int + d) as char
  }

  /** The decimal digits of `n`, without leading zeros. */
  function Digits(n: nat): (s: string)
    ensures |s| > 0 && AllDigits(s) && Value(s) == n
  {
    if n < 10 then
      var s := [DigitChar(n)];
      assert s[..0] == [];
      s
    else
      var s := Digits(n / 10) + [DigitChar(n % 10)];
      assert s[..|s| - 1] == Digits(n / 10);
      s
  }

  /** `i32::to_string`: a minus sign for negative numbers, then the digits. */
  function ShowI32(n: int): string {
    if n < 0 then "-" + Digits(-n) else Digits(n)
  }

  /** Every `i32` printed in decimal parses back to itself. */
  lemma ParseShowRoundTrip(n: int)
    requires I32Min <= n <= I32Max
    ensures ParseI32(ShowI32(n)) == Ok(n)
  {
    if n < 0 {
      ParseDigits(Digits(-n));
    } else {
      ParseDigits(Digits(n));
    }
  }

  /** One past the largest `i32` overflows, and text that is not a number is an invalid digit. */
  lemma OutOfRangeAndGarbage()
    ensures ParseI32(ShowI32(I32Max + 1)) == Err(PosOverflow)
    ensures ParseI32("-" + Digits(-(I32Min - 1))) == Err(NegOverflow)
    ensures ParseI32("12a") == Err(InvalidDigit)
    ensures ParseI32("-") == Err(InvalidDigit)
  {
    ParseDigits(Digits(I32Max + 1));
    ParseDigits(Digits(-(I32Min - 1)));
    assert "12a"[1..] == "2a" && "2a"[1..] == "a";
  }

  /** The JSON values the decoder can meet. */
  datatype JsonValue =
    | JNull
    | JBool(b: bool)
    | JNumber(n: real)
    | JString(s: string)
    | JArray(items: seq<JsonValue>)
    | JObject(members: seq<(string, JsonValue)>)

  /**
   * Why decoding `view_count` fails: the string is not an `i32`, or the
   * field's value is an array or an object, which the string deserializer
   * rejects without consuming it, so the enclosing struct decoder meets `[`
   * or `{` where it expects `,` or `}`.
   */
  datatype ViewCountError = NotAnI32(kind: IntErrorKind) | ExpectedCommaOrBrace

  /**
   * Decoding `view_count` through `string_or_number`: a JSON string must
   * parse as an `i32`, and a parse failure is a decoding error; `null`, a
   * boolean or a number is consumed and gives `None`; an array or an object
   * is left unconsumed, so decoding the record fails.
   */
  function StringOrNumber(v: JsonValue): (r: Result<Option<int>, ViewCountError>)
    ensures (v.JNull? || v.JBool? || v.JNumber?) ==> r == Ok(None)
    ensures (v.JArray? || v.JObject?) ==> r == Err(ExpectedCommaOrBrace)
    ensures v.JString? ==> (r.Ok? <==> ParseI32(v.s).Ok?)
    ensures v.JString? && r.Ok? ==> r.value == Some(ParseI32(v.s).value)
    ensures v.JString? && r.Err? ==> r.error == NotAnI32(ParseI32(v.s).error)
  {
    match v
    case JString(text) =>
      (match ParseI32(text)
       case Ok(n) => Ok(Some(n))
       case Err(kind) => Err(NotAnI32(kind)))
    case JArray(_) => Err(ExpectedCommaOrBrace)
    case JObject(_) => Err(ExpectedCommaOrBrace)
    case _ => Ok(None)
  }

  /**
   * A view count written as a string round-trips, the same count as a JSON
   * number is dropped, and an array makes the decode fail.
   */
  lemma ViewCountForms(n: int)
    requires I32Min <= n <= I32Max
    ensures StringOrNumber(JString(ShowI32(n))) == Ok(Some(n))
    ensures StringOrNumber(JNumber(n as real)) == Ok(None)
    ensures StringOrNumber(JArray([JString(ShowI32(n))])) == Err(ExpectedCommaOrBrace)
  {
    ParseShowRoundTrip(n);
  }

  /** A stored user, as the web API keeps it. */
  datatype UserTwitchData = UserTwitchData(
    unxid: string,
    twitchId: string,
    twitchLogin: string,
    twitchDescription: Option<string>,
    twitchImage: Option<string>,
    twitchEmail: string,
    broadcastType: Option<string>,
    viewCount: Option<string>,
    twitchCreated: Option<string>,
    appCreated: string)

  /** `Display for UserTwitchData`: five fields in a fixed order. */
  function Display(u: UserTwitchData): string {
    "UserTwitchData: unxid: " + u.unxid + ", twitch_id: " + u.twitchId + ", twitch_login: " + u.twitchLogin
    + ", twitch_email: " + u.twitchEmail + ", app_created: " + u.appCreated
  }

  /** The printout shows unxid, twitch_id, twitch_login, twitch_email and app_created, and nothing of the other fields. */
  lemma DisplayShowsFiveFields(u: UserTwitchData, v: UserTwitchData)
    requires u.unxid == v.unxid && u.twitchId == v.twitchId && u.twitchLogin == v.twitchLogin
    requires u.twitchEmail == v.twitchEmail && u.appCreated == v.appCreated
    ensures Display(u) == Display(v)
  {
  }
}
