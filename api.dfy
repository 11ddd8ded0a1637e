/**
 * The data-service records and the basho calendar helpers of src/api.rs.
 * The HTTP calls are not modelled here: their outcomes reach the core as
 * `Result` values (see DataLoad). The clock, the weekday of a month's first
 * day and the parsed start date from the service are parameters.
 */
module Api {
  import opened Wrappers
  import opened RustStd

  // ---------------------------------------------------------------- records

  datatype YushoEntry = YushoEntry(division: string, rikishiId: U32, shikonaEn: string, shikonaJp: string)

  datatype SanshoEntry = SanshoEntry(awardType: string, rikishiId: U32, shikonaEn: string, shikonaJp: string)

  /** Tournament metadata. */
  datatype Basho = Basho(
    date: Option<string>,
    location: Option<string>,
    startDate: Option<string>,
    endDate: Option<string>,
    yusho: Option<seq<YushoEntry>>,
    sansho: Option<seq<SanshoEntry>>)

  /** One bout from a wrestler's point of view; `result` is the raw outcome token. */
  datatype MatchRecord = MatchRecord(
    result: string,
    opponentShikonaEn: string,
    opponentShikonaJp: string,
    kimarite: Option<string>)

  /** One wrestler on one side of the ranking list. */
  datatype BanzukeEntry = BanzukeEntry(
    side: string,
    rikishiId: U32,
    shikonaEn: string,
    rankValue: U32,
    rank: string,
    record: Option<seq<MatchRecord>>)

  datatype BanzukeResponse = BanzukeResponse(
    bashoId: string,
    division: string,
    east: seq<BanzukeEntry>,
    west: seq<BanzukeEntry>)

  /** One bout of the day's schedule. */
  datatype TorikumiEntry = TorikumiEntry(
    id: string,
    bashoId: string,
    division: string,
    day: U8,
    matchNo: U8,
    eastId: U32,
    eastShikona: string,
    eastRank: string,
    westId: U32,
    westShikona: string,
    westRank: string,
    kimarite: Option<string>,
    winnerId: Option<U32>,
    winnerEn: Option<string>,
    winnerJp: Option<string>)

  datatype TorikumiResponse = TorikumiResponse(
    date: string,
    location: Option<string>,
    startDate: string,
    endDate: string,
    torikumi: Option<seq<TorikumiEntry>>)

  /** Wrestler profile payload; its fields are not part of this model (the controller only stores it). */
  datatype RikishiDetails = RikishiDetails

  /** Head-to-head payload; its fields are not part of this model (the controller only stores it). */
  datatype HeadToHeadResponse = HeadToHeadResponse

  // ---------------------------------------------------------------- calendar

  /** A calendar date (chrono's `NaiveDate`). */
  datatype Date = Date(year: int, month: nat, day: nat)

  /** chrono's representable years: `i32::MIN >> 13` to `i32::MAX >> 13`. */
  const MIN_YEAR: int := -262144
  const MAX_YEAR: int := 262143

  predicate IsLeapYear(y: int) {
    y % 4 == 0 && (y % 100 != 0 || y % 400 == 0)
  }

  function DaysInMonth(y: int, m: nat): nat
    requires 1 <= m <= 12
  {
    if m == 2 then (if IsLeapYear(y) then 29 else 28)
    else if m == 4 || m == 6 || m == 9 || m == 11 then 30
    else 31
  }

  /** `NaiveDate::from_ymd_opt`: the date, when it exists in chrono's calendar. */
  function FromYmdOpt(y: int, m: nat, d: nat): Option<Date> {
    if MIN_YEAR <= y <= MAX_YEAR && 1 <= m <= 12 && 1 <= d <= DaysInMonth(y, m)
    then Some(Date(y, m, d))
    else None
  }

  predicate IsCalendarDate(d: Date) {
    FromYmdOpt(d.year, d.month, d.day) == Some(d)
  }

  /** Day `d` of a month whose 1st falls `weekdayOfFirst` days after a Sunday is itself a Sunday. */
  predicate IsSunday(weekdayOfFirst: nat, d: int) {
    d >= 1 && (weekdayOfFirst + d - 1) % 7 == 0
  }

  /** Lexicographic `<` on (year, month) pairs, as Rust compares tuples. */
  predicate YmLt(a: (int, int), b: (int, int)) {
    a.0 < b.0 || (a.0 == b.0 && a.1 < b.1)
  }

  // ---------------------------------------------------------------- basho months

  /** The six tournament months: January, March, May, July, September, November. */
  predicate IsBashoMonth(m: int) {
    m == 1 || m == 3 || m == 5 || m == 7 || m == 9 || m == 11
  }

  const BASHO_MONTHS: seq<nat> := [1, 3, 5, 7, 9, 11]

  /** `SumoApi::get_basho_name`. */
  function GetBashoName(month: U32): (name: string)
    ensures IsBashoMonth(month) <==> name != "Unknown Basho"
  {
    match month
    case 1 => "Hatsu Basho"
    case 3 => "Haru Basho"
    case 5 => "Natsu Basho"
    case 7 => "Nagoya Basho"
    case 9 => "Aki Basho"
    case 11 => "Kyushu Basho"
    case _ => "Unknown Basho"
  }

  /** Each tournament month has its own name. */
  lemma BashoNamesDistinct(m1: U32, m2: U32)
    requires IsBashoMonth(m1) && IsBashoMonth(m2) && m1 != m2
    ensures GetBashoName(m1) != GetBashoName(m2)
  {
  }

  /** The English month name used by `format_basho_date`. */
  function MonthName(month: nat): (name: string)
    ensures IsBashoMonth(month) <==> name != "Unknown"
  {
    match month
    case 1 => "January"
    case 3 => "March"
    case 5 => "May"
    case 7 => "July"
    case 9 => "September"
    case 11 => "November"
    case _ => "Unknown"
  }

  /** The largest candidate that is at most `bound`: `iter().filter(|m| m <= bound).max()`. */
  function MaxAtMost(candidates: seq<nat>, bound: nat): (r: Option<nat>)
    ensures r.Some? ==> r.value in candidates && r.value <= bound
    ensures r.Some? ==> forall c :: c in candidates && c <= bound ==> c <= r.value
    ensures r.None? ==> forall c :: c in candidates ==> c > bound
  {
    if candidates == [] then None
    else
      assert forall c :: c in candidates <==> c == candidates[0] || c in candidates[1..];
      var rest := MaxAtMost(candidates[1..], bound);
      if candidates[0] > bound then rest
      else if rest.Some? && rest.value >= candidates[0] then rest
      else Some(candidates[0])
  }

  /**
   * `most_recent_basho_ym`: the latest tournament (year, month) that is not
   * after the given (year, month).
   */
  function MostRecentBashoYm(year: int, month: U32): (r: (int, U32))
    ensures IsBashoMonth(r.1)
    ensures IsBashoMonth(month) ==> r == (year, month)
    ensures r == (year, month) || YmLt(r, (year, month))
    ensures month >= 1 ==> r.0 == year && r.1 <= month
    ensures month >= 1 ==> forall b :: IsBashoMonth(b) && b <= month ==> b <= r.1
    ensures month == 0 ==> r == (year - 1, 11)
  {
    assert forall b :: IsBashoMonth(b) ==> b in BASHO_MONTHS;
    if IsBashoMonth(month) then (year, month)
    else
      match MaxAtMost(BASHO_MONTHS, month)
      case Some(m) => (year, m)
      case None => (year - 1, 11)
  }

  /** The unit tests of src/api.rs for `most_recent_basho_ym`. */
  lemma MostRecentBashoYmExamples()
    ensures MostRecentBashoYm(2025, 10) == (2025, 9)
    ensures MostRecentBashoYm(2025, 12) == (2025, 11)
    ensures MostRecentBashoYm(2025, 2) == (2025, 1)
    ensures MostRecentBashoYm(2025, 1) == (2025, 1)
    ensures MostRecentBashoYm(2025, 3) == (2025, 3)
  {
    assert IsBashoMonth(9) && IsBashoMonth(11) && IsBashoMonth(1);
  }

  // ---------------------------------------------------------------- basho ids

  /** `format!("{}{:02}", year, month)`: the YYYYMM id of a tournament. */
  function BashoIdOf(year: int, month: nat): string {
    IntToString(year) + Pad2(month)
  }

  /** `get_current_basho_id`, with today's (year, month) as parameters instead of the clock. */
  function CurrentBashoId(todayYear: int, todayMonth: U32): (id: string)
    ensures 1001 <= todayYear <= 9999 ==>
              var (y, m) := MostRecentBashoYm(todayYear, todayMonth);
              |id| == 6 && AllDigits(id) && DigitsValue(id[..4]) == y && DigitsValue(id[4..]) == m
  {
    var (y, m) := MostRecentBashoYm(todayYear, todayMonth);
    // Both branches print the same id; the guard only brings in the digit facts
    // of `BashoIdOfDigits`, which hold for four-digit years.
    if 1000 <= y <= 9999 then
      BashoIdOfDigits(y, m);
      BashoIdOf(y, m)
    else BashoIdOf(y, m)
  }

  /** A four-digit year and a month below 100 give six ASCII digits that read back as that year and month. */
  lemma {:induction false} BashoIdOfDigits(year: int, month: nat)
    requires 1000 <= year <= 9999 && 1 <= month <= 99
    ensures |BashoIdOf(year, month)| == 6 && AllDigits(BashoIdOf(year, month))
    ensures DigitsValue(BashoIdOf(year, month)[..4]) == year
    ensures DigitsValue(BashoIdOf(year, month)[4..]) == month
  {
    var ys, ms := NatToString(year), Pad2(month);
    NatToStringLength(year);
    NatToStringDigits(year);
    NatToStringLength(month);
    NatToStringDigits(month);
    var id := ys + ms;
    assert id[..4] == ys;
    assert id[4..] == ms;
    if month < 10 {
      assert ms == ['0', DigitChar(month)];
      assert ms[..1] == ['0'];
      assert DigitsValue(ms) == DigitsValue(['0']) * 10 + month;
    }
  }

  /** The id printed for a four-digit tournament year parses back, through the same `FromStr` calls, to that year and month. */
  lemma BashoIdOfParses(year: int, month: nat)
    requires 1000 <= year <= 9999 && 1 <= month <= 99
    ensures |BashoIdOf(year, month)| == 6 && ByteLen(BashoIdOf(year, month)) == 6
    ensures ByteSlice(BashoIdOf(year, month), 0, 4) == Some(BashoIdOf(year, month)[..4])
    ensures ByteSlice(BashoIdOf(year, month), 4, 6) == Some(BashoIdOf(year, month)[4..])
    ensures ParseSigned(BashoIdOf(year, month)[..4], I32_MIN, I32_MAX) == Some(year)
    ensures ParseUnsigned(BashoIdOf(year, month)[..4], U32_MAX) == Some(year)
    ensures ParseUnsigned(BashoIdOf(year, month)[4..], U32_MAX) == Some(month)
  {
    var id := BashoIdOf(year, month);
    BashoIdOfDigits(year, month);
    AsciiByteSlice(id, 0, 4);
    AsciiByteSlice(id, 4, 6);
    AsciiOffsets(id);
    assert id[..4] == id[0..4];
    assert id[4..] == id[4..6];
  }

  /**
   * `SumoApi::format_basho_date`. A six-byte id becomes "<MonthName> <year>",
   * with 0 for a field that does not parse; any other id comes back as it is.
   * `None` stands for the panic of slicing at byte 4 inside a character.
   */
  function FormatBashoDate(bashoId: string): (r: Option<string>)
    ensures ByteLen(bashoId) != 6 ==> r == Some(bashoId)
    ensures r.None? <==> ByteLen(bashoId) == 6 && CharIndexAt(bashoId, 4).None?
    ensures ByteLen(bashoId) == 6 && CharIndexAt(bashoId, 4).Some? ==>
              var k := CharIndexAt(bashoId, 4).value;
              r == Some(MonthName(ParseUnsigned(bashoId[k..], U32_MAX).GetOr(0)) + " " +
                        NatToString(ParseUnsigned(bashoId[..k], U32_MAX).GetOr(0)))
  {
    CharIndexAtEnd(bashoId);
    if ByteLen(bashoId) != 6 then Some(bashoId)
    else
      assert CharIndexAt(bashoId, 4).Some? ==>
               && ByteSlice(bashoId, 0, 4) == Some(bashoId[..CharIndexAt(bashoId, 4).value])
               && ByteSlice(bashoId, 4, 6) == Some(bashoId[CharIndexAt(bashoId, 4).value..]) by {
        if CharIndexAt(bashoId, 4).Some? {
          var k := CharIndexAt(bashoId, 4).value;
          assert bashoId[0..k] == bashoId[..k];
          assert bashoId[k..|bashoId|] == bashoId[k..];
        }
      }
      match (ByteSlice(bashoId, 0, 4), ByteSlice(bashoId, 4, 6))
      case (Some(ys), Some(ms)) =>
        var year := ParseUnsigned(ys, U32_MAX).GetOr(0);
        var month := ParseUnsigned(ms, U32_MAX).GetOr(0);
        Some(MonthName(month) + " " + NatToString(year))
      case _ => None
  }

  /** A YYYYMM id prints as its month's name and its year. */
  lemma FormatBashoDateOfId(year: int, month: nat)
    requires 1000 <= year <= 9999 && 1 <= month <= 99
    ensures FormatBashoDate(BashoIdOf(year, month)) == Some(MonthName(month) + " " + NatToString(year))
  {
    BashoIdOfParses(year, month);
    ParseUnsignedRoundTrip(year, U32_MAX);
  }

  /** A six-character ASCII id shows the month named by its last two characters and the year of its first four, 0 where a field does not parse. */
  lemma FormatAsciiId(id: string)
    requires IsAscii(id) && |id| == 6
    ensures FormatBashoDate(id) ==
              Some(MonthName(ParseUnsigned(id[4..], U32_MAX).GetOr(0)) + " " + NatToString(ParseUnsigned(id[..4], U32_MAX).GetOr(0)))
  {
    AsciiOffsets(id);
    assert CharIndexAt(id, 4) == Some(4);
  }

  /** A year field that does not parse prints as 0, and a month field that does not parse names no month. */
  lemma FormatBashoDateFallback(id: string)
    requires IsAscii(id) && |id| == 6
    ensures !IsAsciiDigit(id[0]) && id[0] != '+' ==>
              FormatBashoDate(id) == Some(MonthName(ParseUnsigned(id[4..], U32_MAX).GetOr(0)) + " 0")
    ensures !IsAsciiDigit(id[4]) && id[4] != '+' ==>
              FormatBashoDate(id) == Some("Unknown " + NatToString(ParseUnsigned(id[..4], U32_MAX).GetOr(0)))
  {
    FormatAsciiId(id);
    if !IsAsciiDigit(id[0]) && id[0] != '+' {
      assert id[..4][0] == id[0];
      assert ParseUnsigned(id[..4], U32_MAX) == None;
      var m := MonthName(ParseUnsigned(id[4..], U32_MAX).GetOr(0));
      assert NatToString(0) == "0";
      assert m + " " + "0" == m + " 0";
    }
    if !IsAsciiDigit(id[4]) && id[4] != '+' {
      assert id[4..][0] == id[4];
      assert ParseUnsigned(id[4..], U32_MAX) == None;
      var y := NatToString(ParseUnsigned(id[..4], U32_MAX).GetOr(0));
      assert MonthName(0) == "Unknown";
      assert "Unknown" + " " + y == "Unknown " + y;
    }
  }

  // ---------------------------------------------------------------- start day

  /**
   * `approximate_basho_start`: the second Sunday of the month, given the
   * weekday of its 1st (days after Sunday, as `num_days_from_sunday`).
   */
  function ApproximateBashoStart(year: int, month: U32, weekdayOfFirst: nat): (r: Option<Date>)
    requires weekdayOfFirst < 7
    ensures r.Some? <==> FromYmdOpt(year, month, 1).Some?
    ensures r.Some? ==> r.value.year == year && r.value.month == month && 8 <= r.value.day <= 14
    ensures r.Some? ==> IsSunday(weekdayOfFirst, r.value.day) && IsSunday(weekdayOfFirst, r.value.day - 7)
    ensures r.Some? ==> forall d :: 1 <= d < r.value.day && IsSunday(weekdayOfFirst, d) ==> d == r.value.day - 7
  {
    match FromYmdOpt(year, month, 1)
    case None => None
    case Some(_) =>
      var daysToFirstSunday := (7 - weekdayOfFirst) % 7;
      var firstSundayDay := 1 + daysToFirstSunday;
      var secondSundayDay := firstSundayDay + 7;
      FromYmdOpt(year, month, secondSundayDay)
  }

  /** The unit test of src/api.rs: 1 September 2025 is a Monday, so the start is 14 September. */
  lemma ApproximateSecondSunday()
    ensures ApproximateBashoStart(2025, 9, 1) == Some(Date(2025, 9, 14))
  {
  }

  // ---------------------------------------------------------------- current day

  /**
   * The day number for a tournament that started `daysSinceStart` days ago:
   * 1 before it starts, 15 once it is over, otherwise the 1-based day.
   */
  function DayFromOffset(daysSinceStart: int): (day: U8)
    ensures 1 <= day <= 15
    ensures daysSinceStart < 0 ==> day == 1
    ensures daysSinceStart > 14 ==> day == 15
    ensures 0 <= daysSinceStart <= 14 ==> day == daysSinceStart + 1
  {
    if daysSinceStart < 0 then 1
    else if daysSinceStart > 14 then 15
    else daysSinceStart + 1
  }

  /** A later date never gives an earlier day. */
  lemma DayFromOffsetMonotone(a: int, b: int)
    requires a <= b
    ensures DayFromOffset(a) <= DayFromOffset(b)
  {
  }

  /**
   * The (year, month) that `get_current_day` reads from an id: an id of at
   * least six bytes gives its first four and next two bytes, each falling
   * back to today's value when it does not parse; a shorter id means today.
   * `None` stands for the panic of a slice inside a character.
   */
  function BashoYm(bashoId: string, today: Date): Option<(int, int)> {
    if ByteLen(bashoId) >= 6 then
      match (ByteSlice(bashoId, 0, 4), ByteSlice(bashoId, 4, 6))
      case (Some(ys), Some(ms)) =>
        Some((ParseSigned(ys, I32_MIN, I32_MAX).GetOr(today.year), ParseUnsigned(ms, U32_MAX).GetOr(today.month)))
      case _ => None
    else Some((today.year, today.month))
  }

  /**
   * `get_current_day` without the clock: `today` is the current date,
   * `weekdayOfFirst` the weekday of the 1st of today's month, and
   * `apiStartOffset` the days between the service's start date and today
   * (`None` when the fetch fails or the date is missing or unparseable).
   */
  function CurrentDay(bashoId: string, today: Date, weekdayOfFirst: nat, apiStartOffset: Option<int>): (r: Option<U8>)
    requires IsCalendarDate(today) && weekdayOfFirst < 7
    ensures r.None? <==> BashoYm(bashoId, today).None?
    ensures r.Some? ==> 1 <= r.value <= 15
    ensures BashoYm(bashoId, today).Some? && YmLt(BashoYm(bashoId, today).value, (today.year, today.month)) ==> r == Some(15)
    ensures BashoYm(bashoId, today).Some? && YmLt((today.year, today.month), BashoYm(bashoId, today).value) ==> r == Some(1)
    ensures BashoYm(bashoId, today) == Some((today.year, today.month)) && apiStartOffset.Some? ==>
              r == Some(DayFromOffset(apiStartOffset.value))
  {
    match BashoYm(bashoId, today)
    case None => None
    case Some(ym) =>
      var now := (today.year, today.month);
      if YmLt(ym, now) then Some(15)
      else if YmLt(now, ym) then Some(1)
      else
        var daysSinceStart :=
          match apiStartOffset
          case Some(offset) => offset
          case None =>
            var start :=
              match ApproximateBashoStart(today.year, today.month, weekdayOfFirst)
              case Some(d) => d
              case None => Date(ym.0, ym.1, 10);
            today.day - start.day;
        Some(DayFromOffset(daysSinceStart))
  }

  /**
   * Without a start date from the service, the day counts from the second
   * Sunday of the current month.
   */
  lemma CurrentDayApproximated(bashoId: string, today: Date, weekdayOfFirst: nat)
    requires IsCalendarDate(today) && weekdayOfFirst < 7
    requires BashoYm(bashoId, today) == Some((today.year, today.month))
    ensures ApproximateBashoStart(today.year, today.month, weekdayOfFirst).Some?
    ensures CurrentDay(bashoId, today, weekdayOfFirst, None)
            == Some(DayFromOffset(today.day - ApproximateBashoStart(today.year, today.month, weekdayOfFirst).value.day))
  {
  }

  /**
   * Started without `--basho`, the viewer picks the latest tournament; outside
   * a tournament month that tournament is over, so the day is 15.
   */
  lemma DefaultBashoOutsideTournamentMonth(today: Date, weekdayOfFirst: nat, apiStartOffset: Option<int>)
    requires IsCalendarDate(today) && weekdayOfFirst < 7
    requires 1000 <= today.year <= 9999 && !IsBashoMonth(today.month)
    ensures CurrentDay(CurrentBashoId(today.year, today.month), today, weekdayOfFirst, apiStartOffset) == Some(15)
  {
    var (y, m) := MostRecentBashoYm(today.year, today.month);
    BashoIdOfParses(y, m);
    assert BashoYm(CurrentBashoId(today.year, today.month), today) == Some((y, m));
  }

  /** In a tournament month the default tournament is the current one, so the day comes from its start date. */
  lemma DefaultBashoInTournamentMonth(today: Date, weekdayOfFirst: nat, apiStartOffset: int)
    requires IsCalendarDate(today) && weekdayOfFirst < 7
    requires 1000 <= today.year <= 9999 && IsBashoMonth(today.month)
    ensures CurrentDay(CurrentBashoId(today.year, today.month), today, weekdayOfFirst, Some(apiStartOffset))
            == Some(DayFromOffset(apiStartOffset))
  {
    BashoIdOfParses(today.year, today.month);
    assert BashoYm(CurrentBashoId(today.year, today.month), today) == Some((today.year, today.month));
  }
}
