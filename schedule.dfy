/**
 * The schedule policy: how a sync's schedule type, interval and unit, or raw
 * cron expression, become the cron-style trigger string handed to the
 * orchestration engine (`Sync#schedule_cron_expression`).
 */
module Schedule {
  import opened Wrappers
  import opened Decimal

  /** The `schedule_type` enum. */
  datatype ScheduleType = Manual | Interval | CronExpression

  /** The interval units the cron derivation recognises. */
  datatype IntervalUnit = Minutes | Hours | Days

  /** The schedule columns of a sync; a `nil` unit is `None`. */
  datatype ScheduleConfig = ScheduleConfig(
    scheduleType: ScheduleType,
    syncInterval: int,
    syncIntervalUnit: Option<string>,
    cronExpression: string)

  datatype ScheduleError =
    | MissingIntervalUnit              // `nil.downcase` raises NoMethodError
    | InvalidIntervalUnit(unit: string) // ArgumentError "Invalid sync_interval_unit: <unit>"

  function LowerChar(c: char): char {
    if 'A' <= c <= 'Z' then (c as int + 32) as char else c
  }

  /** `String#downcase` on ASCII letters. */
  function Downcase(s: string): string {
    seq(|s|, i requires 0 <= i < |s| => LowerChar(s[i]))
  }

  function UnitName(u: IntervalUnit): string {
    match u
    case Minutes => "minutes"
    case Hours => "hours"
    case Days => "days"
  }

  /** The unit a raw `sync_interval_unit` denotes, compared after lower-casing. */
  function ParseUnit(raw: string): Option<IntervalUnit> {
    var lower := Downcase(raw);
    if lower == "minutes" then Some(Minutes)
    else if lower == "hours" then Some(Hours)
    else if lower == "days" then Some(Days)
    else None
  }

  /** A raw unit is recognised exactly when its lower-case form is a unit name. */
  lemma ParseUnitSpec(raw: string, u: IntervalUnit)
    ensures ParseUnit(raw) == Some(u) <==> Downcase(raw) == UnitName(u)
  {
  }

  /** The cron pattern for every `n` units. */
  function CronFor(n: int, u: IntervalUnit): string {
    match u
    case Minutes => "*/" + IntToString(n) + " * * * *"
    case Hours => "0 */" + IntToString(n) + " * * *"
    case Days => "0 0 */" + IntToString(n) + " * *"
  }

  /**
   * `schedule_cron_expression`: the stored expression verbatim for a
   * cron-expression schedule; otherwise the pattern derived from the interval
   * and its lower-cased unit. A manual schedule is not special-cased here.
   */
  function ScheduleCronExpression(cfg: ScheduleConfig): (r: Result<string, ScheduleError>)
    ensures cfg.scheduleType == CronExpression ==> r == Ok(cfg.cronExpression)
    ensures r.Err? ==> cfg.scheduleType != CronExpression
    ensures cfg.scheduleType != CronExpression && cfg.syncIntervalUnit.None? ==>
              r == Err(MissingIntervalUnit)
    ensures r.Err? && cfg.syncIntervalUnit.Some? ==>
              r.error == InvalidIntervalUnit(cfg.syncIntervalUnit.value)
    ensures r.Ok? && cfg.scheduleType != CronExpression ==>
              && cfg.syncIntervalUnit.Some? && ParseUnit(cfg.syncIntervalUnit.value).Some?
              && r.value == CronFor(cfg.syncInterval, ParseUnit(cfg.syncIntervalUnit.value).value)
    ensures r.Err? <==>
              (cfg.scheduleType != CronExpression &&
               (cfg.syncIntervalUnit.None? || ParseUnit(cfg.syncIntervalUnit.value).None?))
  {
    if cfg.scheduleType == CronExpression then Ok(cfg.cronExpression)
    else match cfg.syncIntervalUnit
      case None => Err(MissingIntervalUnit)
      case Some(raw) =>
        match ParseUnit(raw)
        case Some(u) => Ok(CronFor(cfg.syncInterval, u))
        case None => Err(InvalidIntervalUnit(raw))
  }

  // ---- Reading a derived trigger back ----

  /** The part of `s` between prefix `pre` and suffix `suf`, when `s` has both. */
  function Between(s: string, pre: string, suf: string): Option<string> {
    if |pre| + |suf| <= |s| && s[..|pre|] == pre && s[|s| - |suf|..] == suf
    then Some(s[|pre|..|s| - |suf|])
    else None
  }

  /** Recovers the interval and unit from a trigger made by `CronFor`; `None` for anything else. */
  function ParseIntervalCron(s: string): Option<(int, IntervalUnit)> {
    var m := Between(s, "*/", " * * * *");
    var h := Between(s, "0 */", " * * *");
    var d := Between(s, "0 0 */", " * *");
    if m.Some? && ParseInt(m.value).Some? then Some((ParseInt(m.value).value, Minutes))
    else if h.Some? && ParseInt(h.value).Some? then Some((ParseInt(h.value).value, Hours))
    else if d.Some? && ParseInt(d.value).Some? then Some((ParseInt(d.value).value, Days))
    else None
  }

  lemma BetweenOfConcat(pre: string, mid: string, suf: string)
    ensures Between(pre + mid + suf, pre, suf) == Some(mid)
  {
    var s := pre + mid + suf;
    assert s[..|pre|] == pre;
    assert s[|s| - |suf|..] == suf;
    assert s[|pre|..|s| - |suf|] == mid;
  }

  /** A string whose character at `k` differs from `pre`'s has no prefix `pre`. */
  lemma NotBetween(s: string, pre: string, suf: string, k: nat)
    requires k < |pre| && k < |s| && s[k] != pre[k]
    ensures Between(s, pre, suf) == None
  {
    if |pre| <= |s| {
      assert s[..|pre|][k] != pre[k];
    }
  }

  /** Every derived trigger encodes exactly its interval and unit. */
  lemma {:induction false} CronForRoundTrip(n: int, u: IntervalUnit)
    ensures ParseIntervalCron(CronFor(n, u)) == Some((n, u))
  {
    var digits := IntToString(n);
    var s := CronFor(n, u);
    IntToStringRoundTrip(n);
    match u
    case Minutes =>
      BetweenOfConcat("*/", digits, " * * * *");
    case Hours =>
      assert s == "0 */" + digits + " * * *";
      NotBetween(s, "*/", " * * * *", 0);
      BetweenOfConcat("0 */", digits, " * * *");
    case Days =>
      assert s == "0 0 */" + digits + " * *";
      NotBetween(s, "*/", " * * * *", 0);
      NotBetween(s, "0 */", " * * *", 2);
      BetweenOfConcat("0 0 */", digits, " * *");
  }

  /** Two interval schedules share a trigger only when they have the same interval and unit. */
  lemma CronForInjective(n1: int, u1: IntervalUnit, n2: int, u2: IntervalUnit)
    ensures CronFor(n1, u1) == CronFor(n2, u2) <==> n1 == n2 && u1 == u2
  {
    CronForRoundTrip(n1, u1);
    CronForRoundTrip(n2, u2);
  }

  /**
   * For an interval schedule the derived trigger is exactly `CronFor` of the
   * stored interval and the unit the raw unit names, whatever its letter case,
   * and it reads back as that interval and unit.
   */
  lemma IntervalTrigger(cfg: ScheduleConfig, s: string)
    requires cfg.scheduleType != CronExpression
    requires ScheduleCronExpression(cfg) == Ok(s)
    ensures cfg.syncIntervalUnit.Some? && ParseUnit(cfg.syncIntervalUnit.value).Some?
    ensures s == CronFor(cfg.syncInterval, ParseUnit(cfg.syncIntervalUnit.value).value)
    ensures ParseIntervalCron(s) == Some((cfg.syncInterval, ParseUnit(cfg.syncIntervalUnit.value).value))
    ensures Downcase(cfg.syncIntervalUnit.value) == UnitName(ParseUnit(cfg.syncIntervalUnit.value).value)
  {
    CronForRoundTrip(cfg.syncInterval, ParseUnit(cfg.syncIntervalUnit.value).value);
  }

  /**
   * The validations on the schedule columns: an interval schedule needs a
   * positive interval and a unit, a cron schedule an expression that is not blank.
   */
  predicate ScheduleValid(cfg: ScheduleConfig) {
    && (cfg.scheduleType == Interval ==> cfg.syncInterval > 0 && cfg.syncIntervalUnit.Some?)
    && (cfg.scheduleType == CronExpression ==> !Blank(cfg.cronExpression))
  }

  /** A validated cron or interval schedule whose unit is one of the enum's names always yields a trigger. */
  lemma ValidScheduleHasTrigger(cfg: ScheduleConfig)
    requires ScheduleValid(cfg) && cfg.scheduleType != Manual
    requires cfg.scheduleType == Interval ==>
               cfg.syncIntervalUnit.value in {"minutes", "hours", "days"}
    ensures ScheduleCronExpression(cfg).Ok?
    ensures |ScheduleCronExpression(cfg).value| > 0
  {
    if cfg.scheduleType == Interval {
      var raw := cfg.syncIntervalUnit.value;
      assert Downcase(raw) == raw;
    }
  }

  /** The worked examples: 5 minutes, 2 hours, 1 day, an upper-case unit, and an unknown unit. */
  lemma ScheduleCronExpressionExamples()
    ensures ScheduleCronExpression(ScheduleConfig(Interval, 5, Some("minutes"), "")) == Ok("*/5 * * * *")
    ensures ScheduleCronExpression(ScheduleConfig(Interval, 2, Some("hours"), "")) == Ok("0 */2 * * *")
    ensures ScheduleCronExpression(ScheduleConfig(Interval, 1, Some("days"), "")) == Ok("0 0 */1 * *")
    ensures ScheduleCronExpression(ScheduleConfig(Interval, 15, Some("MINUTES"), "")) == Ok("*/15 * * * *")
    ensures ScheduleCronExpression(ScheduleConfig(Interval, 1, Some("weeks"), "")) == Err(InvalidIntervalUnit("weeks"))
    ensures ScheduleCronExpression(ScheduleConfig(CronExpression, 1, Some("weeks"), "5 4 * * *")) == Ok("5 4 * * *")
  {
    assert Downcase("minutes") == "minutes";
    assert Downcase("hours") == "hours";
    assert Downcase("days") == "days";
    assert Downcase("MINUTES") == "minutes";
    assert Downcase("weeks") == "weeks";
    assert IntToString(1) == "1" && IntToString(2) == "2" && IntToString(5) == "5";
    assert NatToString(15) == NatToString(1) + [DigitChar(5)];
    assert IntToString(15) == "15";
    assert ParseUnit("minutes") == Some(Minutes) && ParseUnit("MINUTES") == Some(Minutes);
    assert ParseUnit("hours") == Some(Hours) && ParseUnit("days") == Some(Days);
    assert CronFor(5, Minutes) == "*/5 * * * *";
    assert CronFor(15, Minutes) == "*/15 * * * *";
    assert CronFor(2, Hours) == "0 */2 * * *";
    assert CronFor(1, Days) == "0 0 */1 * *";
  }
}
