/** Selector drift detection (scrapequeue/pipeline/drift.py): a run whose rows per
    page fall far below a rolling baseline is SUSPECT, an accepted run moves the
    baseline by a truncating moving average.  Rates are exact reals. */
module Drift {
  import opened Wrappers

  datatype Baseline = Baseline(rowsPerPage: nat, samples: nat)

  datatype Verdict = Verdict(suspect: bool, observed: real, baseline: Option<nat>)

  /** The whole part of a non-negative rate. */
  function Truncate(x: real): (n: nat)
    requires 0.0 <= x
    ensures n as real <= x < n as real + 1.0
  {
    x.Floor
  }

  /** The baseline after one accepted run that observed `o` rows per page. */
  function Blend(b: nat, o: real): nat
    requires 0.0 <= o
  {
    Truncate(0.7 * b as real + 0.3 * o)
  }

  /** A run of rate `o` is accepted against baseline `b`. */
  predicate Passes(b: nat, o: real, minRatio: real) {
    o >= b as real * minRatio
  }

  function Verify(baseline: Option<Baseline>, rows: nat, pages: int, minRatio: real): Verdict {
    if pages <= 0 then Verdict(true, 0.0, None)
    else
      var observed := rows as real / pages as real;
      match baseline
      case None => Verdict(false, observed, None)
      case Some(b) => Verdict(!Passes(b.rowsPerPage, observed, minRatio), observed, Some(b.rowsPerPage))
  }

  function Updated(baseline: Option<Baseline>, rows: nat, pages: int): Option<Baseline> {
    if pages <= 0 then baseline
    else
      var observed := rows as real / pages as real;
      match baseline
      case None => Some(Baseline(Truncate(observed), 1))
      case Some(b) => Some(Baseline(Blend(b.rowsPerPage, observed), b.samples + 1))
  }

  /** The drift half of finalising a run: check, then update unless suspect. */
  function Judge(baseline: Option<Baseline>, rows: nat, pages: nat, minRatio: real): (r: (Verdict, Option<Baseline>)) {
    var verdict := Verify(baseline, rows, pages, minRatio);
    (verdict, if verdict.suspect then baseline else Updated(baseline, rows, pages))
  }

  /** The drift_baselines table. */
  class DriftBaselines {
    var table: map<string, Baseline>
    const minRatio: real

    constructor (minRatio: real)
      ensures table == map[] && this.minRatio == minRatio
    {
      this.minRatio := minRatio;
      table := map[];
    }

    function Get(target: string): Option<Baseline>
      reads this
    {
      if target in table then Some(table[target]) else None
    }

    method Check(target: string, rows: nat, pages: int) returns (verdict: Verdict)
      ensures verdict == Verify(Get(target), rows, pages, minRatio)
    {
      if pages <= 0 {
        return Verdict(true, 0.0, None);
      }
      var observed := rows as real / pages as real;
      if target !in table {
        return Verdict(false, observed, None);
      }
      var floor := table[target].rowsPerPage as real * minRatio;
      if observed < floor {
        return Verdict(true, observed, Some(table[target].rowsPerPage));
      }
      verdict := Verdict(false, observed, Some(table[target].rowsPerPage));
    }

    method UpdateBaseline(target: string, rows: nat, pages: int)
      modifies this
      ensures Get(target) == Updated(old(Get(target)), rows, pages)
      ensures table - {target} == old(table) - {target}
    {
      if pages <= 0 {
        return;
      }
      var observed := rows as real / pages as real;
      if target !in table {
        table := table[target := Baseline(Truncate(observed), 1)];
        return;
      }
      var blended := 0.7 * table[target].rowsPerPage as real + 0.3 * observed;
      table := table[target := Baseline(Truncate(blended), table[target].samples + 1)];
    }
  }

  // ----- dynamics under repeated runs at one rate -----

  /** Exactly the baselines that a run of rate `o` leaves where they are. */
  ghost predicate AtRest(b: nat, o: real) {
    o - 10.0 / 3.0 < b as real <= o
  }

  lemma FixedPoints(b: nat, o: real)
    requires 0.0 <= o
    ensures Blend(b, o) == b <==> AtRest(b, o)
  {
  }

  /** The baseline after `n` runs at rate `o`, each checked before it may update. */
  function AfterRuns(b: nat, o: real, minRatio: real, n: nat): nat
    requires 0.0 <= o
    decreases n
  {
    if n == 0 then b
    else AfterRuns(if Passes(b, o, minRatio) then Blend(b, o) else b, o, minRatio, n - 1)
  }

  /** Where an accepted series ends: reached from above it is floor(o), reached
      from below it is floor(o - 7/3), and in between nothing moves. */
  function Limit(b: nat, o: real): (l: nat)
    requires 0.0 <= o
    ensures AtRest(l, o)
  {
    if b as real > o then Truncate(o)
    else if b as real > o - 10.0 / 3.0 then b
    else Truncate(o - 7.0 / 3.0)
  }

  function Distance(b: nat, o: real): nat
    requires 0.0 <= o
  {
    if b <= Limit(b, o) then Limit(b, o) - b else b - Limit(b, o)
  }

  lemma BlendApproaches(b: nat, o: real)
    requires 0.0 <= o && !AtRest(b, o)
    ensures Limit(Blend(b, o), o) == Limit(b, o)
    ensures Distance(Blend(b, o), o) < Distance(b, o)
  {
  }

  lemma StaysAccepted(b: nat, o: real, minRatio: real)
    requires 0.0 <= o && 0.0 <= minRatio <= 1.0 && Passes(b, o, minRatio)
    ensures Passes(Blend(b, o), o, minRatio)
  {
    var b' := Blend(b, o);
    if b' as real <= o {
      assert b' as real * minRatio <= b' as real;
    } else {
      assert (b as real - b' as real) * minRatio >= 0.0;
    }
  }

  /** A series whose first run is accepted is accepted throughout and lands on
      Limit after at most Distance runs, for good. */
  lemma {:induction false} Converges(b: nat, o: real, minRatio: real, n: nat)
    requires 0.0 <= o && 0.0 <= minRatio <= 1.0
    requires Passes(b, o, minRatio) && Distance(b, o) <= n
    ensures AfterRuns(b, o, minRatio, n) == Limit(b, o)
    decreases n
  {
    FixedPoints(b, o);
    if n > 0 {
      StaysAccepted(b, o, minRatio);
      if AtRest(b, o) {
        Converges(b, o, minRatio, n - 1);
      } else {
        BlendApproaches(b, o);
        Converges(Blend(b, o), o, minRatio, n - 1);
      }
    }
  }

  /** A rate that is refused once is refused for ever: the baseline never follows it. */
  lemma {:induction false} RefusedForEver(b: nat, o: real, minRatio: real, n: nat)
    requires 0.0 <= o && !Passes(b, o, minRatio)
    ensures AfterRuns(b, o, minRatio, n) == b
  {
    if n > 0 {
      RefusedForEver(b, o, minRatio, n - 1);
    }
  }

  /** Whatever a run reports, finalising it moves the baseline only if it is
      accepted, and then never below floor((0.7 + 0.3 * minRatio) * b). */
  lemma OneRunDropIsBounded(b: Baseline, rows: nat, pages: nat, minRatio: real)
    requires 0.0 <= minRatio
    ensures var (verdict, b') := Judge(Some(b), rows, pages, minRatio);
            && (verdict.suspect <==> pages == 0 || rows as real < b.rowsPerPage as real * minRatio * pages as real)
            && (verdict.suspect ==> b' == Some(b))
            && (!verdict.suspect ==>
                  && b'.Some?
                  && b'.value.rowsPerPage >= Truncate((0.7 + 0.3 * minRatio) * b.rowsPerPage as real)
                  && b'.value.samples == b.samples + 1)
  {
    if pages > 0 {
      QuotientBelow(rows as real, pages as real, b.rowsPerPage as real * minRatio);
    }
  }

  /** The first run of a target is accepted and sets its baseline to the whole rows per
      page; `observed` is what the run reports. */
  lemma FirstBaseline(rows: nat, pages: nat, minRatio: real)
    requires pages > 0
    ensures var (verdict, b) := Judge(None, rows, pages, minRatio);
            && !verdict.suspect && verdict.baseline == None && verdict.observed * pages as real == rows as real
            && b.Some? && b.value.samples == 1
            && 0.0 <= rows as real - b.value.rowsPerPage as real * pages as real < pages as real
  {
    var o := rows as real / pages as real;
    RateIsPositive(rows, pages);
    WholeQuotient(o, rows as real, pages as real, Truncate(o) as real);
  }

  lemma RateIsPositive(rows: nat, pages: nat)
    requires pages > 0
    ensures rows as real / pages as real >= 0.0
    ensures (rows as real / pages as real) * pages as real == rows as real
  {
  }

  lemma WholeQuotient(o: real, x: real, d: real, n: real)
    requires d > 0.0 && o * d == x && n <= o < n + 1.0
    ensures 0.0 <= x - n * d < d
  {
    var part := o - n;
    PartOf(part, d);
    assert part * d == x - n * d;
  }

  lemma PartOf(part: real, d: real)
    requires 0.0 <= part < 1.0 && d > 0.0
    ensures 0.0 <= part * d < d
  {
    assert (1.0 - part) * d > 0.0;
    assert (1.0 - part) * d == d - part * d;
  }

  /** An accepted run of rate o moves the baseline to the whole part of seven tenths of
      the old one and three tenths of o. */
  lemma AcceptedRunBlends(b: Baseline, rows: nat, pages: nat, minRatio: real, o: real)
    requires pages > 0 && o == rows as real / pages as real && !Judge(Some(b), rows, pages, minRatio).0.suspect
    ensures var b' := Judge(Some(b), rows, pages, minRatio).1.value.rowsPerPage as real;
            && 10.0 * b' <= 7.0 * b.rowsPerPage as real + 3.0 * o < 10.0 * b' + 10.0
            && Judge(Some(b), rows, pages, minRatio).1.value.samples == b.samples + 1
  {
    RateIsPositive(rows, pages);
    assert Judge(Some(b), rows, pages, minRatio).1 == Some(Baseline(Blend(b.rowsPerPage, o), b.samples + 1));
  }

  /** The same run again and again, each time judged. */
  function Series(b: Baseline, rows: nat, pages: nat, minRatio: real, n: nat): Baseline
    decreases n
  {
    if n == 0 then b
    else
      var next := Judge(Some(b), rows, pages, minRatio).1;
      Series(if next.Some? then next.value else b, rows, pages, minRatio, n - 1)
  }

  /** So the dynamics are those of the judged runs. */
  lemma {:induction false} SeriesIsAfterRuns(b: Baseline, rows: nat, pages: nat, minRatio: real, n: nat)
    requires pages > 0
    ensures rows as real / pages as real >= 0.0
    ensures Series(b, rows, pages, minRatio, n).rowsPerPage
            == AfterRuns(b.rowsPerPage, rows as real / pages as real, minRatio, n)
    decreases n
  {
    RateIsPositive(rows, pages);
    if n > 0 {
      SeriesIsAfterRuns(Judge(Some(b), rows, pages, minRatio).1.value, rows, pages, minRatio, n - 1);
    }
  }

  lemma QuotientBelow(x: real, d: real, bound: real)
    requires d > 0.0
    ensures x / d < bound <==> x < bound * d
  {
    assert x == (x / d) * d;
    if x / d < bound {
      assert (bound - x / d) * d > 0.0;
    } else {
      assert (x / d - bound) * d >= 0.0;
    }
  }
}
