/**
 * The trigger converter: a mission's timing becomes a five-field cron
 * expression (minute, hour, day of month, month, day of week). The
 * expressions are strings, as the scheduler builds them; `ParseCron` reads one
 * back into a structured pattern, so that what each expression means can be
 * stated field by field.
 */
module Cron {
  import opened Domain
  import opened Text

  const InvalidFrequency: string := "Invalid recurrence frequency"

  /** One field of a cron expression. */
  datatype CronField =
    | Any                // `*`
    | At(value: nat)     // `n`
    | Every(step: nat)   // `*/n`

  datatype CronPattern = CronPattern(
    minute: CronField, hour: CronField, dayOfMonth: CronField, month: CronField, dayOfWeek: CronField)

  function ParseField(s: string): (r: Option<CronField>)
    ensures s == "*" ==> r == Some(Any)
  {
    if s == "*" then Some(Any)
    else if |s| >= 2 && s[..2] == "*/" then
      match ParseNat(s[2..])
      case Some(n) => Some(Every(n))
      case None => None
    else
      match ParseNat(s)
      case Some(n) => Some(At(n))
      case None => None
  }

  /** Reads an expression of exactly five space-separated fields. */
  function ParseCron(s: string): (r: Option<CronPattern>)
    ensures r.Some? ==> |Fields(s)| == 5
  {
    var f := Fields(s);
    if |f| != 5 then None
    else match (ParseField(f[0]), ParseField(f[1]), ParseField(f[2]), ParseField(f[3]), ParseField(f[4]))
      case (Some(a), Some(b), Some(c), Some(d), Some(e)) => Some(CronPattern(a, b, c, d, e))
      case _ => None
  }

  /** `convertToCronExpression`: fire at the date's minute, hour, day and month. */
  function ConvertToCronExpression(date: CalendarTime): string {
    Join([NatToString(date.minute), NatToString(date.hour), NatToString(date.dayOfMonth),
          NatToString(date.month + 1), "*"])
  }

  /** The interval a rule uses: its own, or 1 when it has none. */
  function IntervalOf(rule: RecurrenceRule): (i: nat)
    ensures rule.interval.None? ==> i == 1
    ensures rule.interval.Some? ==> i == rule.interval.value
  {
    match rule.interval
    case None => 1
    case Some(i) => i
  }

  /**
   * `generateRecurringCronExpression`: the interval is used as the day step
   * for `daily`, as the weekday for `weekly` and as the day of the month for
   * `monthly`; any other frequency, or none, is an error.
   */
  function GenerateRecurringCronExpression(rule: RecurrenceRule): (r: Result)
    ensures r.Success? <==> rule.frequency.Some? && rule.frequency.value in FrequencyNames
    ensures r.Failure? ==> r.error == InvalidFrequency
  {
    var i := IntervalOf(rule);
    match rule.frequency
    case Some("daily") => Success(Join(["0", "0", "*/" + NatToString(i), "*", "*"]))
    case Some("weekly") => Success(Join(["0", "0", "*", "*", NatToString(i)]))
    case Some("monthly") => Success(Join(["0", "0", NatToString(i), "*", "*"]))
    case _ => Failure(InvalidFrequency)
  }

  datatype Result = Success(expression: string) | Failure(error: string)

  lemma ParseFieldNat(n: nat)
    ensures ParseField(NatToString(n)) == Some(At(n))
  {
    ParseNatToString(n);
    var s := NatToString(n);
    assert s != "*" by { assert IsDigit(s[0]); }
    assert !(|s| >= 2 && s[..2] == "*/") by { assert IsDigit(s[0]); }
  }

  lemma ParseFieldStep(n: nat)
    ensures ParseField("*/" + NatToString(n)) == Some(Every(n))
  {
    ParseNatToString(n);
    var s := "*/" + NatToString(n);
    assert s[..2] == "*/";
    assert s[2..] == NatToString(n);
  }

  /**
   * The one-time trigger has exactly five fields: the date's minute, hour and
   * day of month, its month shifted from 0-11 to 1-12, and any weekday; no
   * year appears in it.
   */
  lemma OneTimeTrigger(date: CalendarTime)
    ensures Fields(ConvertToCronExpression(date)) ==
      [NatToString(date.minute), NatToString(date.hour), NatToString(date.dayOfMonth),
       NatToString(date.month + 1), "*"]
    ensures ParseCron(ConvertToCronExpression(date)) ==
      Some(CronPattern(At(date.minute), At(date.hour), At(date.dayOfMonth), At(date.month + 1), Any))
  {
    NatToStringNoSpace(date.minute);
    NatToStringNoSpace(date.hour);
    NatToStringNoSpace(date.dayOfMonth);
    NatToStringNoSpace(date.month + 1);
    FieldsJoin([NatToString(date.minute), NatToString(date.hour), NatToString(date.dayOfMonth),
                NatToString(date.month + 1), "*"]);
    ParseFieldNat(date.minute);
    ParseFieldNat(date.hour);
    ParseFieldNat(date.dayOfMonth);
    ParseFieldNat(date.month + 1);
  }

  /** The pattern each supported frequency yields, given the interval `i` in use. */
  function RecurringPattern(frequency: string, i: nat): (p: CronPattern)
    requires frequency in FrequencyNames
    ensures p.minute == At(0) && p.hour == At(0) && p.month == Any
    ensures frequency == "daily" ==> p.dayOfMonth == Every(i) && p.dayOfWeek == Any
    ensures frequency == "weekly" ==> p.dayOfMonth == Any && p.dayOfWeek == At(i)
    ensures frequency == "monthly" ==> p.dayOfMonth == At(i) && p.dayOfWeek == Any
  {
    if frequency == "daily" then CronPattern(At(0), At(0), Every(i), Any, Any)
    else if frequency == "weekly" then CronPattern(At(0), At(0), Any, Any, At(i))
    else CronPattern(At(0), At(0), At(i), Any, Any)
  }

  /**
   * A recurring trigger fires at minute 0 of hour 0; `daily` every `i`-th
   * day of the month, `weekly` on weekday `i`, `monthly` on day `i`, where
   * `i` is the rule's interval or 1 when it has none.
   */
  lemma RecurringTrigger(rule: RecurrenceRule)
    requires rule.frequency.Some? && rule.frequency.value in FrequencyNames
    ensures GenerateRecurringCronExpression(rule).Success?
    ensures ParseCron(GenerateRecurringCronExpression(rule).expression) ==
      Some(RecurringPattern(rule.frequency.value, IntervalOf(rule)))
  {
    var i := IntervalOf(rule);
    var n := NatToString(i);
    NatToStringNoSpace(i);
    ParseFieldNat(0);
    ParseFieldNat(i);
    assert NatToString(0) == "0";
    match rule.frequency.value
    case "daily" =>
      ParseFieldStep(i);
      assert NoSpace("*/" + n);
      FieldsJoin(["0", "0", "*/" + n, "*", "*"]);
    case "weekly" =>
      FieldsJoin(["0", "0", "*", "*", n]);
    case "monthly" =>
      FieldsJoin(["0", "0", n, "*", "*"]);
  }

  /** The same rule always yields the same expression, whatever else the mission holds. */
  lemma RecurringDependsOnlyOnRule(r1: RecurrenceRule, r2: RecurrenceRule)
    requires r1.frequency == r2.frequency && IntervalOf(r1) == IntervalOf(r2)
    ensures GenerateRecurringCronExpression(r1) == GenerateRecurringCronExpression(r2)
  {
  }
}
