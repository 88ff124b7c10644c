/** The weekly score of orchestrator/ledger.py, over the reals before rounding. */
module Fitness {
  import opened Wrappers

  datatype Status = Done | Failed | InfraFailed | Pending | Stale

  datatype Verdict = Unchecked | Pass | Fail

  /** One non-canary row of the window. */
  datatype Row = Row(status: Status, verdict: Verdict, interventions: nat, cost: real, tokens: nat)

  const W_COMPLETION := 0.35
  const W_ACCURACY := 0.30
  const W_INTERVENTION := 0.25
  const W_COST := 0.10
  const COST_TARGET := 0.50

  predicate Terminal(r: Row) { r.status.Done? || r.status.Failed? || r.status.InfraFailed? }

  function Count(rows: seq<Row>, p: Row -> bool): nat {
    if rows == [] then 0 else Count(rows[..|rows| - 1], p) + if p(rows[|rows| - 1]) then 1 else 0
  }

  predicate Completed(r: Row) { r.status.Done? }
  predicate Checked(r: Row) { Terminal(r) && !r.verdict.Unchecked? }
  predicate Passed(r: Row) { Terminal(r) && r.verdict.Pass? }
  predicate Worked(r: Row) { Terminal(r) && (r.status.Done? || r.tokens > 0) }
  predicate Intervened(r: Row) { Terminal(r) && r.interventions > 0 }

  function Interventions(rows: seq<Row>): nat {
    if rows == [] then 0
    else Interventions(rows[..|rows| - 1]) + if Terminal(rows[|rows| - 1]) then rows[|rows| - 1].interventions else 0
  }

  function Cost(rows: seq<Row>): real {
    if rows == [] then 0.0
    else Cost(rows[..|rows| - 1]) + if Terminal(rows[|rows| - 1]) then rows[|rows| - 1].cost else 0.0
  }

  function Ratio(a: nat, b: nat): (r: real)
    requires a <= b && b > 0
    ensures 0.0 <= r <= 1.0
  {
    (a as real) / (b as real)
  }

  /** What the score depends on. */
  datatype Sums = Sums(total: nat, terminal: nat, completed: nat, checked: nat, passed: nat, interventions: nat,
      cost: real, worked: bool, intervened: bool)

  function SumsOf(rows: seq<Row>): Sums {
    Sums(|rows|, Count(rows, Terminal), Count(rows, Completed), Count(rows, Checked), Count(rows, Passed),
         Interventions(rows), Cost(rows), Count(rows, Worked) > 0, Count(rows, Intervened) > 0)
  }

  ghost predicate SumsOk(s: Sums) {
    && s.completed <= s.terminal <= s.total && s.passed <= s.checked <= s.terminal
    && (s.intervened <==> s.interventions > 0)
    && (s.terminal == 0 ==> s.interventions == 0 && s.cost == 0.0 && !s.worked)
  }

  lemma {:induction false} SumsAreOk(rows: seq<Row>)
    ensures SumsOk(SumsOf(rows))
  {
    if rows != [] { SumsAreOk(rows[..|rows| - 1]); }
  }

  function Accuracy(s: Sums): real
    requires SumsOk(s)
  {
    if s.checked == 0 then 0.0 else Ratio(s.passed, s.checked)
  }

  function InterventionNorm(s: Sums): real {
    if s.terminal == 0 then 0.0
    else if s.interventions >= s.terminal then 1.0 else Ratio(s.interventions, s.terminal)
  }

  function AverageCost(s: Sums): real { if s.terminal == 0 then 0.0 else s.cost / (s.terminal as real) }

  function CostEfficiency(s: Sums): real {
    var average := AverageCost(s);
    if average > 0.0 then (if COST_TARGET >= average then 1.0 else COST_TARGET / average)
    else if s.worked then 1.0 else 0.0
  }

  function Score(s: Sums): real
    requires SumsOk(s) && s.total > 0
  {
    W_COMPLETION * Ratio(s.completed, s.total) + W_ACCURACY * Accuracy(s)
    + W_INTERVENTION * (1.0 - InterventionNorm(s)) + W_COST * CostEfficiency(s)
  }

  /** The share of the score awarded although nothing measured it. */
  function Floor(s: Sums): real {
    W_INTERVENTION * (1.0 - InterventionNorm(s)) * (if s.intervened then 0.0 else 1.0)
    + W_COST * (if AverageCost(s) > 0.0 || s.worked then 0.0 else CostEfficiency(s))
  }

  /** `weekly_fitness`: no rows, no score. */
  function WeeklyFitness(rows: seq<Row>): Option<real> {
    SumsAreOk(rows);
    if rows == [] then None else Some(Score(SumsOf(rows)))
  }

  // ---------------------------------------------------------------- bounds

  /** The score of any window is in [0, 1]. */
  lemma FitnessInUnit(rows: seq<Row>)
    requires rows != []
    ensures WeeklyFitness(rows).Some? && 0.0 <= WeeklyFitness(rows).value <= 1.0
  {
    var s := SumsOf(rows);
    SumsAreOk(rows);
  }

  /** The floor is exact: a quarter as long as no terminal row records an intervention, and
      nothing otherwise.  Its cost part is always zero. */
  lemma FloorIsAQuarterOrZero(rows: seq<Row>)
    ensures Floor(SumsOf(rows)) == if Count(rows, Intervened) == 0 then 0.25 else 0.0
  {
    var s := SumsOf(rows);
    SumsAreOk(rows);
    if s.terminal > 0 && s.interventions == 0 { assert Ratio(0, s.terminal) == 0.0; }
  }

  /** The score never falls below the floor reported with it. */
  lemma FitnessAboveFloor(rows: seq<Row>)
    requires rows != []
    ensures WeeklyFitness(rows).Some? && WeeklyFitness(rows).value >= Floor(SumsOf(rows))
  {
    var s := SumsOf(rows);
    SumsAreOk(rows);
    FloorIsAQuarterOrZero(rows);
    if s.terminal > 0 && s.interventions == 0 { assert Ratio(0, s.terminal) == 0.0; }
  }

  // ---------------------------------------------------------------- what each row is worth

  lemma {:induction false} CountAround(a: seq<Row>, r: Row, b: seq<Row>, p: Row -> bool)
    ensures Count(a + [r] + b, p) == Count(a + b, p) + if p(r) then 1 else 0
    decreases |b|
  {
    if b == [] {
      assert a + [r] + b == a + [r] && (a + [r])[..|a|] == a && a + b == a;
    } else {
      var front := b[..|b| - 1];
      CountAround(a, r, front, p);
      assert (a + [r] + b)[..|a + [r] + b| - 1] == a + [r] + front && (a + b)[..|a + b| - 1] == a + front;
    }
  }

  lemma InterventionsSnoc(a: seq<Row>, r: Row)
    ensures Interventions(a + [r]) == Interventions(a) + if Terminal(r) then r.interventions else 0
  {
    assert (a + [r])[..|a|] == a;
  }

  lemma CostSnoc(a: seq<Row>, r: Row)
    ensures Cost(a + [r]) == Cost(a) + if Terminal(r) then r.cost else 0.0
  {
    assert (a + [r])[..|a|] == a;
  }

  lemma {:induction false} TotalsAround(a: seq<Row>, r: Row, b: seq<Row>)
    ensures Interventions(a + [r] + b) == Interventions(a + b) + if Terminal(r) then r.interventions else 0
    ensures Cost(a + [r] + b) == Cost(a + b) + if Terminal(r) then r.cost else 0.0
    decreases |b|
  {
    hide Terminal, Cost, Interventions;
    if b == [] {
      InterventionsSnoc(a, r);
      CostSnoc(a, r);
      assert a + [r] + b == a + [r] && a + b == a;
    } else {
      var front, last := b[..|b| - 1], b[|b| - 1];
      TotalsAround(a, r, front);
      InterventionsSnoc(a + [r] + front, last);
      InterventionsSnoc(a + front, last);
      CostSnoc(a + [r] + front, last);
      CostSnoc(a + front, last);
      assert a + [r] + b == a + [r] + front + [last] && a + b == a + front + [last];
    }
  }

  /** What one row adds to the sums, wherever it stands in the window. */
  lemma RowAdds(a: seq<Row>, r: Row, b: seq<Row>)
    ensures var s, s' := SumsOf(a + b), SumsOf(a + [r] + b);
            var ended := r.status in {Done, Failed, InfraFailed};
            && s'.total == s.total + 1 && s'.terminal == s.terminal + (if ended then 1 else 0)
            && s'.completed == s.completed + (if r.status == Done then 1 else 0)
            && s'.checked == s.checked + (if ended && r.verdict in {Pass, Fail} then 1 else 0)
            && s'.passed == s.passed + (if ended && r.verdict == Pass then 1 else 0)
            && s'.interventions == s.interventions + (if ended then r.interventions else 0)
            && s'.cost == s.cost + (if ended then r.cost else 0.0)
            && (s'.worked <==> s.worked || r.status == Done || (ended && r.tokens > 0))
            && (s'.intervened <==> s.intervened || (ended && r.interventions > 0))
  {
    CountAround(a, r, b, Terminal);
    CountAround(a, r, b, Completed);
    CountAround(a, r, b, Checked);
    CountAround(a, r, b, Passed);
    CountAround(a, r, b, Worked);
    CountAround(a, r, b, Intervened);
    TotalsAround(a, r, b);
  }

  lemma RatioRises(a: nat, b: nat)
    requires a < b
    ensures Ratio(a + 1, b) == Ratio(a, b) + 1.0 / (b as real)
  {
    var x, y := a as real, b as real;
    assert (x + 1.0) / y == x / y + 1.0 / y;
  }

  /** A verdict that turns from fail to pass is worth 0.30, shared among the checked rows. */
  lemma PassIsWorth(a: seq<Row>, r: Row, b: seq<Row>)
    requires r.status in {Done, Failed, InfraFailed} && r.verdict == Fail
    ensures var s := SumsOf(a + [r] + b);
            && s.checked > 0
            && WeeklyFitness(a + [r] + b).Some? && WeeklyFitness(a + [r.(verdict := Pass)] + b).Some?
            && WeeklyFitness(a + [r.(verdict := Pass)] + b).value
               == WeeklyFitness(a + [r] + b).value + 0.30 * (1.0 / (s.checked as real))
  {
    SumsAreOk(a + [r] + b);
    SumsAreOk(a + [r.(verdict := Pass)] + b);
    RowAdds(a, r, b);
    RowAdds(a, r.(verdict := Pass), b);
    SumsAreOk(a + b);
    var s := SumsOf(a + [r] + b);
    RatioRises(s.passed, s.checked);
    hide SumsOf, Ratio;
  }

  /** A row with work in it that is completed instead of failed is worth 0.35, shared among all rows. */
  lemma CompletionIsWorth(a: seq<Row>, r: Row, b: seq<Row>)
    requires r.status in {Failed, InfraFailed} && r.tokens > 0
    ensures WeeklyFitness(a + [r] + b).Some? && WeeklyFitness(a + [r.(status := Done)] + b).Some?
    ensures WeeklyFitness(a + [r.(status := Done)] + b).value
            == WeeklyFitness(a + [r] + b).value + 0.35 * (1.0 / (|a + [r] + b| as real))
  {
    SumsAreOk(a + [r] + b);
    SumsAreOk(a + [r.(status := Done)] + b);
    RowAdds(a, r, b);
    RowAdds(a, r.(status := Done), b);
    SumsAreOk(a + b);
    var s := SumsOf(a + [r] + b);
    RatioRises(s.completed, s.total);
    hide SumsOf, Ratio;
  }

  ghost predicate Perfect(rows: seq<Row>) {
    forall i | 0 <= i < |rows| :: rows[i].status == Done && rows[i].verdict == Pass && rows[i].interventions == 0
  }

  lemma {:induction false} PerfectSums(rows: seq<Row>)
    requires Perfect(rows)
    ensures var s, n := SumsOf(rows), |rows|;
            s == Sums(n, n, n, n, n, 0, s.cost, n > 0, false)
  {
    if rows != [] {
      var front, last := rows[..|rows| - 1], rows[|rows| - 1];
      PerfectSums(front);
      RowAdds(front, last, []);
      assert front + [last] + [] == rows && front + [] == front;
      hide SumsOf;
    }
  }

  /** A week of completed, passed and unaided tasks scores 1 as long as a task costs at most half a
      dollar on average, and beyond that loses what its cost exceeds that by, out of a tenth. */
  lemma PerfectWeek(rows: seq<Row>)
    requires rows != [] && Perfect(rows) && Cost(rows) >= 0.0
    ensures var n := |rows| as real;
            WeeklyFitness(rows) == Some(
              if Cost(rows) <= 0.50 * n then 1.0 else 0.90 + 0.10 * (0.50 / (Cost(rows) / n)))
  {
    SumsAreOk(rows);
    PerfectSums(rows);
    PerfectScore(|rows|, Cost(rows));
    hide SumsOf, Score, Cost;
  }

  lemma AverageIsBelow(cost: real, n: real)
    requires n > 0.0
    ensures cost <= 0.50 * n <==> cost / n <= 0.50
    ensures cost > 0.0 <==> cost / n > 0.0
  {
    assert cost == (cost / n) * n;
  }

  lemma PerfectScore(n: nat, cost: real)
    requires n > 0 && cost >= 0.0
    ensures Score(Sums(n, n, n, n, n, 0, cost, true, false))
            == if cost <= 0.50 * (n as real) then 1.0 else 0.90 + 0.10 * (0.50 / (cost / (n as real)))
  {
    var s := Sums(n, n, n, n, n, 0, cost, true, false);
    AverageIsBelow(cost, n as real);
    WholeRatio(n);
    assert InterventionNorm(s) == 0.0 by { assert s.interventions == 0; NoneOf(n); }
    assert AverageCost(s) == cost / (n as real);
    hide AverageCost, InterventionNorm, Ratio;
  }

  lemma WholeRatio(n: nat)
    requires n > 0
    ensures Ratio(n, n) == 1.0
  {
  }

  lemma NoneOf(n: nat)
    requires n > 0
    ensures Ratio(0, n) == 0.0
  {
  }

  ghost predicate Hopeless(rows: seq<Row>) {
    forall i | 0 <= i < |rows| ::
      rows[i].status == Failed && rows[i].verdict == Fail && rows[i].interventions > 0 && rows[i].tokens == 0
      && rows[i].cost == 0.0
  }

  lemma {:induction false} HopelessSums(rows: seq<Row>)
    requires Hopeless(rows)
    ensures var s, n := SumsOf(rows), |rows|;
            s == Sums(n, n, 0, n, 0, s.interventions, 0.0, false, n > 0) && s.interventions >= n
  {
    if rows != [] {
      var front, last := rows[..|rows| - 1], rows[|rows| - 1];
      HopelessSums(front);
      RowAdds(front, last, []);
      assert front + [last] + [] == rows && front + [] == front;
      hide SumsOf;
    }
  }

  /** The lower bound is reached too. */
  lemma HopelessWeek(rows: seq<Row>)
    requires rows != [] && Hopeless(rows)
    ensures WeeklyFitness(rows) == Some(0.0)
  {
    SumsAreOk(rows);
    HopelessSums(rows);
    assert Ratio(0, |rows|) == 0.0;
  }

  // ---------------------------------------------------------------- unfinished work

  lemma RatioFalls(a: nat, b: nat)
    requires a <= b && b > 0
    ensures Ratio(a, b + 1) <= Ratio(a, b)
    ensures a > 0 ==> Ratio(a, b + 1) < Ratio(a, b)
  {
    var x, y := a as real, b as real;
    assert x / y - x / (y + 1.0) == x / (y * (y + 1.0));
  }

  /** Scheduling work and not doing it never pays: a pending or stale row never raises the score,
      and lowers it as soon as anything was completed. */
  lemma UnfinishedNeverRaises(rows: seq<Row>, r: Row)
    requires rows != [] && !Terminal(r)
    ensures WeeklyFitness(rows).Some? && WeeklyFitness(rows + [r]).Some?
    ensures WeeklyFitness(rows + [r]).value <= WeeklyFitness(rows).value
    ensures Count(rows, Completed) > 0 ==> WeeklyFitness(rows + [r]).value < WeeklyFitness(rows).value
  {
    SumsAreOk(rows);
    SumsAreOk(rows + [r]);
    RatioFalls(Count(rows, Completed), |rows|);
  }

  /** A window in which no row was resolved scores exactly the floor. */
  lemma NothingRanScoresTheFloor(rows: seq<Row>)
    requires rows != [] && Count(rows, Terminal) == 0
    ensures WeeklyFitness(rows) == Some(0.25)
  {
    SumsAreOk(rows);
    assert Ratio(0, |rows|) == 0.0;
  }
}
