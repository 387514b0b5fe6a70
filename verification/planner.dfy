/**
 * The metrics sampling planner: the query step chosen from the requested
 * window. Durations are Go `time.Duration` values, integer nanoseconds.
 */
module SamplingPlanner {

  const Nanosecond: int := 1
  const Second: int := 1_000_000_000 * Nanosecond
  const Minute: int := 60 * Second
  const Hour: int := 60 * Minute
  const Day: int := 24 * Hour

  /** The window used when the `time` query parameter is missing or does not parse. */
  const DefaultPeriod: int := Hour

  /**
   * The step for a window of length `period`: the first row of the policy
   * whose inclusive lower bound `period` reaches, or one minute.
   */
  function Step(period: int): (step: int)
    ensures step in {Minute, 2 * Minute, 3 * Minute, 5 * Minute, 10 * Minute}
  {
    if period >= Day then 10 * Minute
    else if period >= 12 * Hour then 5 * Minute
    else if period >= 6 * Hour then 3 * Minute
    else if period >= 3 * Hour then 2 * Minute
    else Minute
  }

  /** A policy row: windows of at least `atLeast` are sampled every `step`. */
  datatype Rule = Rule(atLeast: int, step: int)

  /** The policy as a table, tried top-down. */
  const Policy: seq<Rule> := [
    Rule(Day, 10 * Minute),
    Rule(12 * Hour, 5 * Minute),
    Rule(6 * Hour, 3 * Minute),
    Rule(3 * Hour, 2 * Minute)
  ]

  /** The step of the first rule that `period` reaches, or `fallback` when none does. */
  function FirstMatch(rules: seq<Rule>, period: int, fallback: int): int
  {
    if rules == [] then fallback
    else if period >= rules[0].atLeast then rules[0].step
    else FirstMatch(rules[1..], period, fallback)
  }

  /** The if/else chain is exactly the policy table read top-down, with one minute as the fallback. */
  lemma StepFollowsPolicy(period: int)
    ensures Step(period) == FirstMatch(Policy, period, Minute)
  {
    var p := Policy;
    assert p[1..][1..] == p[2..] && p[2..][1..] == p[3..] && p[3..][1..] == p[4..] == [];
    assert FirstMatch(p[3..], period, Minute) == if period >= 3 * Hour then 2 * Minute else Minute;
    assert FirstMatch(p[2..], period, Minute) ==
      if period >= 6 * Hour then 3 * Minute else FirstMatch(p[3..], period, Minute);
    assert FirstMatch(p[1..], period, Minute) ==
      if period >= 12 * Hour then 5 * Minute else FirstMatch(p[2..], period, Minute);
  }

  /** Each band of the table, with its inclusive lower bound. */
  lemma StepBands(period: int)
    ensures Day <= period ==> Step(period) == 10 * Minute
    ensures 12 * Hour <= period < Day ==> Step(period) == 5 * Minute
    ensures 6 * Hour <= period < 12 * Hour ==> Step(period) == 3 * Minute
    ensures 3 * Hour <= period < 6 * Hour ==> Step(period) == 2 * Minute
    ensures period < 3 * Hour ==> Step(period) == Minute
  {
  }

  /** A longer window never gets a finer step. */
  lemma StepMonotone(p: int, q: int)
    requires p <= q
    ensures Step(p) <= Step(q)
  {
  }

  /**
   * Below one day the step keeps the number of samples per stream under
   * 288 (the finest band, under three hours at one minute, stays under 180).
   */
  lemma StepBoundsSamples(period: int)
    requires 0 <= period < Day
    ensures period < 288 * Step(period)
    ensures period < 3 * Hour ==> period < 180 * Step(period)
  {
  }

  /** The default one-hour window is sampled every minute. */
  lemma DefaultStep()
    ensures Step(DefaultPeriod) == Minute
  {
  }
}
