/**
 * The REST handlers of vermi-backend/controllers/tankController.js:
 * `getTanksByLocation`, `getAllLocations` and `getTanksByIds`, with the
 * comma-separated id parsing of the last one (`split(',')` then
 * `parseInt(id, 10)`).  The device database is an oracle; query parameters
 * are strings, `""` standing for an absent one.
 */
module TankController {
  import opened Base

  // ---------------------------------------------------------------------
  // parseInt(s, 10)

  /** A JavaScript number as `parseInt` can produce it: an integer or `NaN`. */
  datatype Parsed = Int(n: int) | NaN

  /** Number of decimal digits at the start of `s`. */
  function LeadingDigits(s: string): (n: nat)
    ensures n <= |s|
    ensures forall i :: 0 <= i < n ==> IsDigit(s[i])
    ensures n < |s| ==> !IsDigit(s[n])
  {
    if s == [] || !IsDigit(s[0]) then 0 else 1 + LeadingDigits(s[1..])
  }

  /** The value of a string of decimal digits. */
  function DigitsValue(d: string): nat
    requires forall i :: 0 <= i < |d| ==> IsDigit(d[i])
  {
    if d == [] then 0
    else
      var c := d[|d| - 1];
      assert IsDigit(c);
      10 * DigitsValue(d[..|d| - 1]) + (c as int - '0' as int)
  }

  /** `s` without its leading whitespace. */
  function AfterSpaces(s: string): string {
    s[LeadingSpaces(s)..]
  }

  /** `t` without a leading sign. */
  function Unsigned(t: string): (u: string)
    ensures |u| <= |t|
  {
    if t != [] && (t[0] == '+' || t[0] == '-') then t[1..] else t
  }

  /** The value of the digits at the start of `u`, if there are any. */
  function Magnitude(u: string): (m: Option<nat>)
    ensures m.None? <==> LeadingDigits(u) == 0
  {
    var k := LeadingDigits(u);
    if k == 0 then None else Some(DigitsValue(u[..k]))
  }

  /**
   * `parseInt(s, 10)`: skip leading whitespace, take an optional sign, then
   * as many decimal digits as follow; `NaN` when there are none.
   */
  function ParseInt(s: string): (r: Parsed)
    ensures r.NaN? <==> LeadingDigits(Unsigned(AfterSpaces(s))) == 0
  {
    var t := AfterSpaces(s);
    match Magnitude(Unsigned(t))
    case None => NaN
    case Some(v) => Int(if t != [] && t[0] == '-' then -(v as int) else v)
  }

  /** `NatToString` yields a digit string whose value is the number. */
  lemma {:induction false} DigitsValueOfNatToString(n: nat)
    ensures DigitsValue(NatToString(n)) == n
    decreases n
  {
    if n >= 10 {
      DigitsValueOfNatToString(n / 10);
      var s := NatToString(n);
      assert s[..|s| - 1] == NatToString(n / 10);
    }
  }

  lemma {:induction false} LeadingDigitsAll(d: string)
    requires forall i :: 0 <= i < |d| ==> IsDigit(d[i])
    ensures LeadingDigits(d) == |d|
  {
    if d != [] {
      LeadingDigitsAll(d[1..]);
    }
  }

  /** Nothing is skipped before a non-space character. */
  lemma NoLeadingSpace(s: string)
    requires s != [] && !IsSpace(s[0])
    ensures AfterSpaces(s) == s
  {
    assert LeadingSpaces(s) == 0;
  }

  /** A non-empty digit string is all magnitude. */
  lemma MagnitudeOfDigits(d: string)
    requires d != [] && forall i :: 0 <= i < |d| ==> IsDigit(d[i])
    ensures Magnitude(d) == Some(DigitsValue(d))
  {
    LeadingDigitsAll(d);
    assert d[..|d|] == d;
  }

  /** A non-empty digit string parses to its value. */
  lemma ParseDigits(d: string)
    requires d != [] && forall i :: 0 <= i < |d| ==> IsDigit(d[i])
    ensures ParseInt(d) == Int(DigitsValue(d))
  {
    assert IsDigit(d[0]);
    NoLeadingSpace(d);
    assert Unsigned(d) == d;
    MagnitudeOfDigits(d);
  }

  /** A minus sign followed by digits parses to their negated value. */
  lemma ParseNegativeDigits(d: string)
    requires Magnitude(d).Some?
    ensures ParseInt("-" + d) == Int(-(Magnitude(d).value as int))
  {
    MinusSign(d);
  }

  /** A leading minus is no space and is the sign that `Unsigned` drops. */
  lemma MinusSign(d: string)
    ensures AfterSpaces("-" + d) == "-" + d && ("-" + d)[0] == '-'
    ensures Unsigned("-" + d) == d
  {
    var m := "-" + d;
    assert m[0] == '-';
    NoLeadingSpace(m);
    assert m[1..] == d;
  }

  /** `parseInt(String(i), 10) == i`: printing an integer and parsing it back gives it again. */
  lemma ParseIntOfString(i: int)
    ensures ParseInt(IntToString(i)) == Int(i)
  {
    var n: nat := if i < 0 then -i else i;
    DigitsValueOfNatToString(n);
    if i < 0 {
      MagnitudeOfDigits(NatToString(n));
      ParseNegativeDigits(NatToString(n));
    } else {
      ParseDigits(NatToString(n));
    }
  }

  /** Whitespace and a sign are skipped, trailing text is ignored, text without digits is `NaN`. */
  lemma ParseIntExamples(a: string, c: string)
    requires a == " 12abc" && c == "abc"
    ensures ParseInt(a) == Int(12)
    ensures ParseInt(c) == NaN
  {
    assert LeadingSpaces(a[1..]) == 0;
    assert LeadingSpaces(a) == 1;
    var t := a[1..];
    assert t == "12abc";
    assert LeadingDigits(t[2..]) == 0;
    assert LeadingDigits(t) == 2;
    assert t[..2] == "12";
    assert DigitsValue("12"[..1]) == 1;
    assert LeadingSpaces(c) == 0 && c[0..] == c;
  }

  // ---------------------------------------------------------------------
  // the ids parameter

  /** `idsParam.split(',').map(id => parseInt(id, 10))` */
  function ParseIds(param: string): (ids: seq<Parsed>)
    ensures |ids| == |Split(param, ',')|
    ensures forall i :: 0 <= i < |ids| ==> ids[i] == ParseInt(Split(param, ',')[i])
  {
    var parts := Split(param, ',');
    seq(|parts|, i requires 0 <= i < |parts| => ParseInt(parts[i]))
  }

  /** One id per comma-separated segment: one more than there are commas. */
  lemma ParseIdsCount(param: string)
    ensures |ParseIds(param)| == Count(param, ',') + 1
  {
    SplitCount(param, ',');
  }

  /** `ids.join(',')` for a list of integers. */
  function JoinIds(ids: seq<int>): string {
    Join(seq(|ids|, i requires 0 <= i < |ids| => IntToString(ids[i])), ',')
  }

  lemma IntToStringHasNoComma(i: int)
    ensures ',' !in IntToString(i)
  {
    var d := NatToString(if i < 0 then -i else i);
    assert forall k :: 0 <= k < |d| ==> d[k] != ',';
    if i < 0 {
      assert IntToString(i) == "-" + d;
    }
  }

  /** A list of integers written with commas parses back to the same list. */
  lemma ParseIdsOfJoin(ids: seq<int>)
    requires ids != []
    ensures ParseIds(JoinIds(ids)) == seq(|ids|, i requires 0 <= i < |ids| => Int(ids[i]))
  {
    var parts := seq(|ids|, i requires 0 <= i < |ids| => IntToString(ids[i]));
    forall k | 0 <= k < |parts| ensures ',' !in parts[k] {
      IntToStringHasNoComma(ids[k]);
    }
    SplitJoin(parts, ',');
    forall k | 0 <= k < |ids| ensures ParseIds(JoinIds(ids))[k] == Int(ids[k]) {
      ParseIntOfString(ids[k]);
    }
  }

  // ---------------------------------------------------------------------
  // the handlers

  datatype Query = TanksAt(locationId: string) | AllLocations | TanksWithIds(ids: seq<Parsed>)

  /** A handler's reply: the rows as found, a 400 message, or the 500 body. */
  datatype Reply<T> =
    | Rows(rows: seq<T>)
    | BadRequest(message: string)
    | ServerError(message: string, error: Option<string>)
    | NoReply

  /**
   * The `catch` block, shared by the three handlers; a thrown `null` sends
   * nothing in development, and an `undefined` `error` key is dropped.
   */
  function QueryFailed<T>(message: string, thrown: Thrown, development: bool): (r: Reply<T>)
    ensures r.NoReply? <==> development && thrown.ThrownNull?
    ensures r.ServerError? ==> r.message == message && (r.error.Some? <==> development && thrown.ThrownValue?)
    ensures r.ServerError? && r.error.Some? ==> r.error.value == thrown.message
  {
    if !development then ServerError(message, None)
    else if thrown.ThrownNull? then NoReply
    else if thrown.ThrownNoMessage? then ServerError(message, None)
    else ServerError(message, Some(thrown.message))
  }

  /** `getTanksByLocation` */
  method GetTanksByLocation<T>(locationId: string, development: bool, answer: Result<seq<T>>)
    returns (reply: Reply<T>, query: Option<Query>)
    ensures locationId == "" ==> reply == BadRequest("locationId is required") && query == None
    ensures locationId != "" ==> query == Some(TanksAt(locationId))
    ensures locationId != "" && answer.Ok? ==> reply == Rows(answer.value)
    ensures locationId != "" && answer.Err? ==>
              reply == QueryFailed("Error fetching tanks by location", answer.thrown, development)
  {
    if locationId == "" {
      return BadRequest("locationId is required"), None;
    }
    query := Some(TanksAt(locationId));
    if answer.Ok? {
      reply := Rows(answer.value);
    } else {
      reply := QueryFailed("Error fetching tanks by location", answer.thrown, development);
    }
  }

  /** `getAllLocations` */
  method GetAllLocations<T>(development: bool, answer: Result<seq<T>>) returns (reply: Reply<T>, query: Query)
    ensures query == AllLocations
    ensures answer.Ok? ==> reply == Rows(answer.value)
    ensures answer.Err? ==> reply == QueryFailed("Error fetching locations", answer.thrown, development)
  {
    query := AllLocations;
    if answer.Ok? {
      reply := Rows(answer.value);
    } else {
      reply := QueryFailed("Error fetching locations", answer.thrown, development);
    }
  }

  /** `getTanksByIds` */
  method GetTanksByIds<T>(idsParam: string, development: bool, answer: Result<seq<T>>)
    returns (reply: Reply<T>, query: Option<Query>)
    ensures idsParam == "" ==> reply == BadRequest("ids query param is required") && query == None
    ensures idsParam != "" ==> query == Some(TanksWithIds(ParseIds(idsParam)))
    ensures idsParam != "" ==> |query.value.ids| == Count(idsParam, ',') + 1
    ensures idsParam != "" && answer.Ok? ==> reply == Rows(answer.value)
    ensures idsParam != "" && answer.Err? ==> reply == QueryFailed("Error fetching tanks by ids", answer.thrown, development)
  {
    if idsParam == "" {
      return BadRequest("ids query param is required"), None;
    }
    var ids := ParseIds(idsParam);
    ParseIdsCount(idsParam);
    query := Some(TanksWithIds(ids));
    if answer.Ok? {
      reply := Rows(answer.value);
    } else {
      reply := QueryFailed("Error fetching tanks by ids", answer.thrown, development);
    }
  }
}
