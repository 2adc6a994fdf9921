/** When a download's progress is worth a message (src/update.rs). */
module Throttle {
  import opened Common

  const U8_MAX: nat := 255

  function Percent(downloaded: nat, total: nat): nat
    requires total > 0
  {
    (if downloaded < total then downloaded else total) * 100 / total
  }

  /** The percentage to report after `downloaded` of `total`, or none. */
  function Due(last: Option<nat>, step: nat, downloaded: nat, total: nat): Option<nat> {
    if total == 0 then None else
      var percent := Percent(downloaded, total);
      var far := if last.None? then true
                 else percent == 100 || percent >= (if last.value + step > U8_MAX then U8_MAX else last.value + step);
      if far && last != Some(percent) then Some(percent) else None
  }

  class ProgressThrottle {
    var lastReported: Option<nat>
    const step: nat

    constructor (step: nat)
      ensures lastReported == None && this.step == if step == 0 then 1 else step
    {
      lastReported, this.step := None, if step == 0 then 1 else step;
    }

    method Take(downloaded: nat, total: nat) returns (report: Option<nat>)
      modifies this
      ensures report == Due(old(lastReported), step, downloaded, total)
      ensures lastReported == if report.Some? then report else old(lastReported)
    {
      if total == 0 {
        return None;
      }
      var percent := Percent(downloaded, total);
      var far := true;
      if lastReported.Some? && percent != 100 {
        var next := lastReported.value + step;
        far := percent >= if next > U8_MAX then U8_MAX else next;
      }
      if far && lastReported != Some(percent) {
        lastReported := Some(percent);
        return Some(percent);
      }
      report := None;
    }
  }

  /** Everything reported over a whole download, from how far it had come at each chunk. */
  function Reports(last: Option<nat>, step: nat, total: nat, positions: seq<nat>): seq<nat>
    decreases |positions|
  {
    if positions == [] then [] else
      var due := Due(last, step, positions[0], total);
      (if due.Some? then [due.value] else [])
      + Reports(if due.Some? then due else last, step, total, positions[1..])
  }

  function LastOf(last: Option<nat>, reports: seq<nat>): Option<nat> {
    if reports == [] then last else Some(reports[|reports| - 1])
  }

  lemma {:induction false} ReportsOneMore(last: Option<nat>, step: nat, total: nat, positions: seq<nat>, p: nat)
    ensures
      var before := Reports(last, step, total, positions);
      var due := Due(LastOf(last, before), step, p, total);
      Reports(last, step, total, positions + [p]) == before + if due.Some? then [due.value] else []
    decreases |positions|
  {
    hide Due;
    if positions == [] {
      assert [p][1..] == [] && positions + [p] == [p];
    } else {
      var due := Due(last, step, positions[0], total);
      assert (positions + [p])[1..] == positions[1..] + [p];
      ReportsOneMore(if due.Some? then due else last, step, total, positions[1..], p);
    }
  }

  predicate Increasing(positions: seq<nat>) {
    forall i, j :: 0 <= i < j < |positions| ==> positions[i] < positions[j]
  }

  /** Each at least a step past the one before, or the 100 that ends it. */
  predicate Spaced(reports: seq<nat>, step: nat) {
    (forall i :: 0 <= i < |reports| ==> reports[i] <= 100)
    && (forall i :: 0 <= i < |reports| - 1 ==> reports[i] < reports[i + 1])
    && (forall i :: 0 <= i < |reports| - 1 ==> reports[i] + step <= reports[i + 1] || reports[i + 1] == 100)
  }

  lemma Cancel(x: nat, y: nat, d: nat)
    requires x * d < y * d
    ensures x < y
  {
    assert (y - x) * d > 0;
  }

  /** Integer division, as the largest multiple that fits. */
  lemma QuotientAtLeast(a: nat, d: nat, q: nat)
    requires d > 0 && q * d <= a
    ensures q <= a / d
  {
    assert a < (a / d + 1) * d;
    Cancel(q, a / d + 1, d);
  }

  lemma QuotientBelow(a: nat, d: nat, q: nat)
    requires d > 0 && a < q * d
    ensures a / d < q
  {
    assert a / d * d <= a;
    Cancel(a / d, q, d);
  }

  lemma QuotientGrows(a: nat, b: nat, d: nat)
    requires d > 0 && a <= b
    ensures a / d <= b / d
  {
    assert a / d * d <= a;
    QuotientAtLeast(b, d, a / d);
  }

  lemma WholeQuotient(d: nat)
    requires d > 0
    ensures d * 100 / d == 100
  {
    QuotientAtLeast(d * 100, d, 100);
    QuotientBelow(d * 100, d, 101);
  }

  lemma PercentGrows(a: nat, b: nat, total: nat)
    requires total > 0 && a <= b
    ensures Percent(a, total) <= Percent(b, total) <= 100
    ensures b < total ==> Percent(b, total) < 100
    ensures b >= total ==> Percent(b, total) == 100
  {
    var x, y := (if a < total then a else total), if b < total then b else total;
    QuotientGrows(x * 100, y * 100, total);
    QuotientGrows(y * 100, total * 100, total);
    WholeQuotient(total);
    if b < total {
      QuotientBelow(y * 100, total, 100);
    }
  }

  lemma SpacedOneMore(reports: seq<nat>, step: nat, due: nat)
    requires Spaced(reports, step) && due <= 100
    requires reports != [] ==>
               reports[|reports| - 1] < due && (reports[|reports| - 1] + step <= due || due == 100)
    ensures Spaced(reports + [due], step)
  {
    var all := reports + [due];
    forall i | 0 <= i < |all| - 1
      ensures all[i] < all[i + 1] && (all[i] + step <= all[i + 1] || all[i + 1] == 100)
    {
      if i < |reports| - 1 {
        assert all[i] == reports[i] && all[i + 1] == reports[i + 1];
      }
    }
  }

  /** No report runs ahead of the download, and each is far enough past the one before. */
  lemma {:induction false} ReportsAreSpaced(step: nat, total: nat, positions: seq<nat>)
    requires step > 0 && total > 0 && Increasing(positions)
    ensures
      var reports := Reports(None, step, total, positions);
      && Spaced(reports, step)
      && (reports != [] ==>
            positions != [] && reports[|reports| - 1] <= Percent(positions[|positions| - 1], total))
    decreases |positions|
  {
    if positions != [] {
      var n := |positions| - 1;
      var before := Reports(None, step, total, positions[..n]);
      ReportsAreSpaced(step, total, positions[..n]);
      assert positions[..n] + [positions[n]] == positions;
      ReportsOneMore(None, step, total, positions[..n], positions[n]);
      PercentGrows(if n > 0 then positions[n - 1] else 0, positions[n], total);
      var due := Due(LastOf(None, before), step, positions[n], total);
      if due.Some? {
        SpacedOneMore(before, step, due.value);
      }
    }
  }

  /**
   Exactly what is reported: the first position, and then each that is a whole step past the last
   report, or is the end, and says something new. (That the step saturates never matters.)
   */
  lemma ReportedExactlyWhen(step: nat, total: nat, positions: seq<nat>, p: nat)
    requires step > 0 && total > 0
    ensures
      var before := Reports(None, step, total, positions);
      var percent := (if p < total then p else total) * 100 / total;
      var due := before == []
                 || (percent != before[|before| - 1]
                     && (percent == 100 || percent >= before[|before| - 1] + step));
      Reports(None, step, total, positions + [p]) == before + if due then [percent] else []
  {
    ReportsOneMore(None, step, total, positions, p);
    PercentGrows(p, p, total);
  }

  /** So a download is never a whole step ahead of what has been said of it. */
  lemma NoStepGoesUnsaid(step: nat, total: nat, positions: seq<nat>)
    requires step > 0 && total > 0 && positions != []
    ensures
      var reports := Reports(None, step, total, positions);
      var last := positions[|positions| - 1];
      reports != [] && (if last < total then last else total) * 100 / total < reports[|reports| - 1] + step
  {
    var n := |positions| - 1;
    ReportedExactlyWhen(step, total, positions[..n], positions[n]);
    assert positions[..n] + [positions[n]] == positions;
  }

  lemma {:induction false} SpacedClimbs(reports: seq<nat>, step: nat, k: nat)
    requires Spaced(reports, step) && k < |reports| && reports[k] < 100
    ensures reports[k] >= k * step
  {
    if k > 0 {
      assert reports[k - 1] < reports[k - 1 + 1];
      SpacedClimbs(reports, step, k - 1);
      assert reports[k - 1] + step <= reports[k - 1 + 1];
      assert k * step == (k - 1) * step + step;
    }
  }

  lemma SpacedIsFew(reports: seq<nat>, step: nat)
    requires step > 0 && Spaced(reports, step)
    ensures |reports| <= 99 / step + 2
  {
    if |reports| > 2 {
      var k := |reports| - 2;
      assert reports[k] < reports[k + 1];
      SpacedClimbs(reports, step, k);
      QuotientAtLeast(99, step, k);
    }
  }

  /**
   Over a whole download of known size: reports climb, a step at a time but for the last,
   there are few of them, and one that arrives whole reports 100 exactly once, at the end.
   */
  lemma WholeDownloadReports(step: nat, total: nat, positions: seq<nat>)
    requires step > 0 && total > 0 && Increasing(positions)
    ensures
      var reports := Reports(None, step, total, positions);
      && Spaced(reports, step)
      && |reports| <= 99 / step + 2
      && (positions != [] && positions[|positions| - 1] == total ==>
            && reports != [] && reports[|reports| - 1] == 100
            && forall i :: 0 <= i < |reports| - 1 ==> reports[i] < 100)
  {
    var reports := Reports(None, step, total, positions);
    ReportsAreSpaced(step, total, positions);
    SpacedIsFew(reports, step);
    if positions != [] && positions[|positions| - 1] == total {
      ArrivalIsReported(step, total, positions[..|positions| - 1]);
      assert positions[..|positions| - 1] + [total] == positions;
      forall i | 0 <= i < |reports| - 1 ensures reports[i] < 100 {
        assert reports[i] < reports[i + 1];
      }
    }
  }

  lemma ArrivalIsReported(step: nat, total: nat, before: seq<nat>)
    requires step > 0 && total > 0 && Increasing(before) && forall i :: 0 <= i < |before| ==> before[i] < total
    ensures Reports(None, step, total, before + [total]) == Reports(None, step, total, before) + [100]
  {
    ReportsAreSpaced(step, total, before);
    ReportsOneMore(None, step, total, before, total);
    PercentGrows(total, total, total);
    if before != [] {
      PercentGrows(before[|before| - 1], before[|before| - 1], total);
    }
  }
}
