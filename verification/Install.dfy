/**
 Downloading an image and committing it, once it is known to be whole (src/install.rs).

 The network, the flash and the connection kept alive meanwhile may each do anything: how
 opens, reads, ESP-IDF's calls and progress calls end are arbitrary functions and lists. The
 agent's pump is one thing that progress may be told to, and the rest are anything at all.
 */
module Install {
  import opened Checksum
  import opened Common
  import opened Http
  import opened Throttle
  import opened Updates
  import Link
  import Ota
  import Protocol
  import Pump
  import World

  /** Seconds before each retry, and the most a `Retry-After` is heeded. */
  const RETRIES: nat := 3

  function RetryWait(tried: nat): nat
    requires tried < RETRIES
  {
    if tried == 0 then 5 else if tried == 1 then 15 else 45
  }

  const RETRY_AFTER_MAX: nat := 120

  datatype Report = Report(bytes: nat, checksum: string)

  datatype ProgressCall = Tick | Reported(percent: nat) | Waited(seconds: nat)

  /**
   What is told how an install gets on: the agent's pump, or else anything, whose n-th answer is
   `answers(n)`. Once it has failed it is told nothing more.
   */
  class Progress {
    const pump: Pump.Pump?
    const answers: nat -> bool
    var calls: seq<ProgressCall>
    var failed: bool

    constructor (answers: nat -> bool)
      ensures pump == null && this.answers == answers && calls == [] && !failed
    {
      pump, this.answers, calls, failed := null, answers, [], false;
    }

    constructor Pumping(pump: Pump.Pump)
      ensures this.pump == pump && calls == [] && !failed
    {
      this.pump, answers, calls, failed := pump, _ => true, [], false;
    }

    // What telling the pump may change.
    function Pumps(): set<Pump.Pump> { if pump == null then {} else {pump} }
    function Links(): set<Link.Link> { if pump == null then {} else {pump.link} }
    function Worlds(): set<World.World> { if pump == null then {} else {pump.world} }

    ghost predicate Live()
      reads this, Pumps(), Links(), Worlds()
    {
      pump != null ==>
        && pump.Ready()
        && if failed then Pump.Broken(pump.world.h)
           else Pump.Flowing(pump.world.h, pump.lastHeartbeat, pump.lastLog)
    }

    /** What of a session its pump never touches. */
    ghost function Aside(): Option<Protocol.History>
      reads Pumps(), Worlds()
    {
      if pump == null then None
      else Some(pump.world.h.(link := Protocol.NO_CHANNELS, duty := Protocol.Idle))
    }

    method Tell(call: ProgressCall) returns (ok: bool)
      requires Live() && !failed
      modifies this`calls, this`failed, Pumps(), Links()`next, Links()`heartbeatRef
      modifies Worlds()`run, Worlds()`h, Worlds()`clock
      ensures Live() && failed == !ok && Aside() == old(Aside())
      ensures calls == old(calls) + [call]
      ensures pump == null ==> ok == answers(|old(calls)|)
      ensures pump != null && call.Tick? ==>
                old(pump.world.run) + [Protocol.Clock(Protocol.Tick, old(pump.world.clock))] <= pump.world.run
      ensures pump != null && call.Reported? ==>
                var said := Protocol.Outgoing(old(pump.world.h).link, Protocol.Progress(false, call.percent), ok);
                pump.world.run == old(pump.world.run) + [said]
      ensures pump != null && call.Waited? && ok ==>
                pump.world.clock >= old(pump.world.clock) + call.seconds * 1_000
    {
      hide World.Kept, Protocol.Next, Protocol.Allowed;
      if pump == null {
        ok := answers(|calls|);
      } else {
        match call {
          case Tick => ok := pump.Tick();
          case Reported(percent) => ok := pump.Report(percent);
          case Waited(seconds) => ok := pump.Wait(seconds * 1_000);
        }
      }
      calls, failed := calls + [call], !ok;
    }
  }

  function ReportsIn(calls: seq<ProgressCall>): seq<nat> {
    if calls == [] then [] else
      ReportsIn(calls[..|calls| - 1])
      + if calls[|calls| - 1].Reported? then [calls[|calls| - 1].percent] else []
  }

  lemma OneMoreReport(calls: seq<ProgressCall>, call: ProgressCall)
    ensures ReportsIn(calls + [call]) == ReportsIn(calls) + if call.Reported? then [call.percent] else []
  {
    assert (calls + [call])[..|calls|] == calls;
  }

  function TicksIn(calls: seq<ProgressCall>): nat {
    if calls == [] then 0 else TicksIn(calls[..|calls| - 1]) + if calls[|calls| - 1].Tick? then 1 else 0
  }

  lemma OneMoreTick(calls: seq<ProgressCall>, call: ProgressCall)
    ensures TicksIn(calls + [call]) == TicksIn(calls) + if call.Tick? then 1 else 0
  {
    assert (calls + [call])[..|calls|] == calls;
  }

  // ---------- Opening, and trying again ----------

  predicate WorthRetrying(e: Error) {
    e.Download? || (e.DownloadStatus? && (e.status == 408 || e.status == 429 || 500 <= e.status <= 599))
  }

  function Min(a: nat, b: nat): nat { if a < b then a else b }
  function Max(a: nat, b: nat): nat { if a < b then b else a }

  function WaitFor(backoff: nat, e: Error): nat {
    if e.DownloadStatus? && e.retryAfter.Some?
    then Max(backoff, Min(e.retryAfter.value, RETRY_AFTER_MAX))
    else backoff
  }

  /** How opening ends, how many openings it took, and the waits between them. */
  datatype Opening = Opening(result: Result<Option<nat>, Error>, openings: nat, waits: seq<ProgressCall>)

  /** Opening from the `tried`-th retry on, when `patience` waits go well and any after them do not. */
  function OpenFrom(opens: OpenOutcomes, n: nat, patience: nat, tried: nat): Opening
    requires tried <= RETRIES
    decreases RETRIES - tried
  {
    match opens(n)
    case Ok(length) => Opening(Ok(length), 1, [])
    case Err(e) =>
      if tried == RETRIES || !WorthRetrying(e) then Opening(Err(e), 1, []) else
        var wait := Waited(WaitFor(RetryWait(tried), e));
        if patience == 0 then Opening(Err(TransportFailed), 1, [wait]) else
          var rest := OpenFrom(opens, n + 1, patience - 1, tried + 1);
          Opening(rest.result, 1 + rest.openings, [wait] + rest.waits)
  }

  /** The `i`-th attempt from the `n`-th on failed, and was worth this wait and another. */
  predicate RetriedAt(opens: OpenOutcomes, n: nat, i: nat, wait: ProgressCall)
    requires i < RETRIES
  {
    && opens(n + i).Err? && WorthRetrying(opens(n + i).error)
    && wait == Waited(WaitFor(RetryWait(i), opens(n + i).error))
  }

  /** Every attempt so far did. */
  predicate Retried(opens: OpenOutcomes, n: nat, tried: nat, waits: seq<ProgressCall>)
    requires tried <= RETRIES
  {
    |waits| == tried && forall i :: 0 <= i < tried ==> RetriedAt(opens, n, i, waits[i])
  }

  lemma OpenUnfolds(opens: OpenOutcomes, n: nat, patience: nat, tried: nat)
    requires tried <= RETRIES
    ensures
      var o := OpenFrom(opens, n, patience, tried);
      if opens(n).Ok? || tried == RETRIES || !WorthRetrying(opens(n).error) then
        o == Opening(opens(n), 1, [])
      else
        var wait := Waited(WaitFor(RetryWait(tried), opens(n).error));
        if patience == 0 then o == Opening(Err(TransportFailed), 1, [wait]) else
          var more := OpenFrom(opens, n + 1, patience - 1, tried + 1);
          o == Opening(more.result, 1 + more.openings, [wait] + more.waits)
  {}

  lemma {:induction false} OpensAfterRetries(
    opens: OpenOutcomes, n: nat, tried: nat, waits: seq<ProgressCall>, from: nat)
    requires from <= tried <= RETRIES && Retried(opens, n, tried, waits)
    ensures
      var rest := OpenFrom(opens, n + tried, 0, tried);
      OpenFrom(opens, n + from, tried - from, from)
      == Opening(rest.result, tried - from + rest.openings, waits[from..] + rest.waits)
    decreases tried - from
  {
    hide OpenFrom, WorthRetrying, WaitFor, RetryWait;
    var rest := OpenFrom(opens, n + tried, 0, tried);
    if from == tried {
      assert waits[from..] + rest.waits == rest.waits;
    } else {
      OpensAfterRetries(opens, n, tried, waits, from + 1);
      OpenUnfolds(opens, n + from, tried - from, from);
      assert waits[from..] + rest.waits == [waits[from]] + (waits[from + 1..] + rest.waits);
    }
  }

  /** What is left of opening after some retries: one more attempt, and it may be one more wait. */
  lemma OpeningNow(opens: OpenOutcomes, n: nat, tried: nat, waits: seq<ProgressCall>)
    requires tried <= RETRIES && Retried(opens, n, tried, waits)
    ensures
      var attempt := opens(n + tried);
      var opening := OpenFrom(opens, n, tried, 0);
      if attempt.Ok? || tried == RETRIES || !WorthRetrying(attempt.error) then
        opening == Opening(attempt, tried + 1, waits)
      else
        var wait := Waited(WaitFor(RetryWait(tried), attempt.error));
        && opening == Opening(Err(TransportFailed), tried + 1, waits + [wait])
        && Retried(opens, n, tried + 1, waits + [wait])
  {
    hide OpenFrom, WorthRetrying, WaitFor, RetryWait;
    OpensAfterRetries(opens, n, tried, waits, 0);
    OpenUnfolds(opens, n + tried, 0, tried);
    assert waits[0..] == waits && waits + [] == waits;
    if opens(n + tried).Err? && tried < RETRIES && WorthRetrying(opens(n + tried).error) {
      OneMoreRetry(opens, n, tried, waits, Waited(WaitFor(RetryWait(tried), opens(n + tried).error)));
    }
  }

  lemma OneMoreRetry(opens: OpenOutcomes, n: nat, tried: nat, waits: seq<ProgressCall>, wait: ProgressCall)
    requires tried < RETRIES && Retried(opens, n, tried, waits) && RetriedAt(opens, n, tried, wait)
    ensures Retried(opens, n, tried + 1, waits + [wait])
  {
    hide RetriedAt;
  }

  lemma NothingRetried(opens: OpenOutcomes, n: nat)
    ensures Retried(opens, n, 0, [])
  {}

  method OpenUrl(http: HttpStream, progress: Progress) returns (r: Result<Option<nat>, Error>, ghost patience: nat)
    requires progress.Live() && !progress.failed
    modifies http`openings, http`broken, progress, progress.Pumps()
    modifies progress.Links()`next, progress.Links()`heartbeatRef
    modifies progress.Worlds()`run, progress.Worlds()`h, progress.Worlds()`clock
    ensures progress.Live() && progress.Aside() == old(progress.Aside())
    ensures r.Ok? ==> !http.broken
    ensures
      var opening := OpenFrom(http.opens, old(http.openings), patience, 0);
      && r == opening.result
      && http.openings == old(http.openings) + opening.openings
      && progress.calls == old(progress.calls) + opening.waits
      && |opening.waits| == patience + if progress.failed then 1 else 0
  {
    hide Retried, OpenFrom, WorthRetrying, WaitFor, RetryWait, Progress.Live, Progress.Aside;
    var tried := 0;
    ghost var n, told, waits := http.openings, progress.calls, [];
    NothingRetried(http.opens, n);
    while true
      invariant 0 <= tried <= RETRIES && http.openings == n + tried
      invariant progress.Live() && !progress.failed && progress.Aside() == old(progress.Aside())
      invariant Retried(http.opens, n, tried, waits) && |waits| == tried && progress.calls == told + waits
      decreases RETRIES - tried
    {
      OpeningNow(http.opens, n, tried, waits);
      patience := tried;
      var attempt := http.Open();
      if attempt.Ok? || tried == RETRIES || !WorthRetrying(attempt.error) {
        return attempt, patience;
      }
      var wait := Waited(WaitFor(RetryWait(tried), attempt.error));
      assert told + (waits + [wait]) == (told + waits) + [wait];
      var ok := progress.Tell(wait);
      if !ok {
        return Err(TransportFailed), patience;
      }
      waits, tried := waits + [wait], tried + 1;
    }
  }

  /** The backoff, or longer if the server said so, but never for over two minutes. */
  ghost function Heeding(backoff: nat, e: Error): nat {
    if e.DownloadStatus? && e.retryAfter.Some? && e.retryAfter.value > backoff then
      if e.retryAfter.value > 120 then 120 else e.retryAfter.value
    else backoff
  }

  /**
   The waits are 5, 15 and 45 seconds, or as long as the server asked if that is longer, up to two
   minutes; and each follows a failure that may pass.
   */
  lemma {:induction false} WaitsAreBounded(opens: OpenOutcomes, n: nat, patience: nat, tried: nat, i: nat)
    requires tried <= RETRIES && i < |OpenFrom(opens, n, patience, tried).waits|
    ensures tried + i < RETRIES && i <= patience
    ensures opens(n + i).Err? && MayPass(opens(n + i).error)
    ensures
      var e := opens(n + i).error;
      var backoff := match tried + i case 0 => 5 case 1 => 15 case _ => 45;
      OpenFrom(opens, n, patience, tried).waits[i] == Waited(Heeding(backoff, e))
      && backoff <= Heeding(backoff, e) <= 120
    decreases i
  {
    hide OpenFrom;
    OpenUnfolds(opens, n, patience, tried);
    if i > 0 {
      WaitsAreBounded(opens, n + 1, patience - 1, tried + 1, i - 1);
    }
  }

  /**
   At most four attempts. Opening stops at the first success, the first failure not worth
   retrying, or the fourth, with that attempt's answer -- unless a wait fails, the one that more
   than `patience` would take.
   */
  lemma {:induction false} OpeningIsBounded(opens: OpenOutcomes, n: nat, patience: nat, tried: nat)
    requires tried <= RETRIES
    ensures
      var o := OpenFrom(opens, n, patience, tried);
      && 1 <= o.openings <= 4 - tried
      && o.openings - 1 <= |o.waits| <= o.openings
      && (o.result.Ok? <==> opens(n + o.openings - 1).Ok?)
      && (forall i :: 0 <= i < |o.waits| ==> o.waits[i].Waited?)
      && (if |o.waits| == o.openings then
            |o.waits| == patience + 1 && o.result == Err(TransportFailed)
          else
            var last := opens(n + o.openings - 1);
            && o.result == last && |o.waits| <= patience
            && (last.Err? ==> tried + o.openings == 4 || !MayPass(last.error)))
    decreases RETRIES - tried
  {
    hide OpenFrom, WaitFor, RetryWait;
    OpenUnfolds(opens, n, patience, tried);
    if opens(n).Err? && tried < RETRIES && WorthRetrying(opens(n).error) && patience > 0 {
      OpeningIsBounded(opens, n + 1, patience - 1, tried + 1);
    }
  }

  // ---------- Copying ----------

  /** The sink after a copy: what it took is the front of the body, and it is not finished. */
  ghost predicate Took(before: Ota.Writer, after: Ota.Writer, taken: seq<byte>) {
    && Ota.Valid(after)
    && Ota.Fed(after.calls) == Ota.Fed(before.calls) + taken
    && Ota.Boots(after.calls) == Ota.Boots(before.calls)
    && after.finishes == before.finishes
  }

  lemma WriteTook(before: Ota.Writer, w: Ota.Writer, taken: seq<byte>, chunk: seq<byte>, o: Ota.Outcomes)
    requires Took(before, w, taken)
    ensures
      var (w', ok) := Ota.Write(w, chunk, o);
      Took(before, w', taken + if ok then chunk else [])
  {
    Ota.WriteKeepsValid(w, chunk, o);
    Ota.WriteFeeds(w, chunk, o);
    assert Ota.Fed(before.calls) + taken + chunk == Ota.Fed(before.calls) + (taken + chunk);
  }

  /** Every report so far, and the throttle in step with them. */
  ghost predicate InStep(
    before: seq<ProgressCall>, calls: seq<ProgressCall>, expected: Option<nat>, step: nat, positions: seq<nat>,
    last: Option<nat>)
  {
    var reports := if expected.Some? then Reports(None, step, expected.value, positions) else [];
    && ReportsIn(calls) == ReportsIn(before) + reports
    && last == LastOf(None, reports)
  }

  /** After a chunk: the connection's turn, then whether too much has come, then the report. */
  method Follow(progress: Progress, throttle: ProgressThrottle, expected: Option<nat>, written: nat,
                ghost before: seq<ProgressCall>, ghost positions: seq<nat>)
    returns (failure: Option<Error>, ghost positions': seq<nat>)
    requires InStep(before, progress.calls, expected, throttle.step, positions, throttle.lastReported)
    requires progress.Live() && !progress.failed
    modifies throttle, progress, progress.Pumps()
    modifies progress.Links()`next, progress.Links()`heartbeatRef
    modifies progress.Worlds()`run, progress.Worlds()`h, progress.Worlds()`clock
    ensures progress.Live() && progress.Aside() == old(progress.Aside())
    ensures InStep(before, progress.calls, expected, throttle.step, positions', throttle.lastReported)
    ensures positions' == positions || positions' == positions + [written]
    ensures failure.None? && expected.Some? ==> written <= expected.value && positions' == positions + [written]
    ensures TicksIn(progress.calls) == TicksIn(old(progress.calls)) + 1
    ensures failure.None? <==> !progress.failed && (expected.Some? ==> written <= expected.value)
    ensures failure.Some? ==> failure.value == if progress.failed then TransportFailed else Download
  {
    hide InStep, TicksIn, ReportsIn, Reports, Progress.Live, Progress.Aside;
    positions' := positions;
    OneMoreTick(progress.calls, Tick);
    TickStaysInStep(before, progress.calls, expected, throttle.step, positions, throttle.lastReported);
    var ok := progress.Tell(Tick);
    if !ok {
      return Some(TransportFailed), positions';
    }
    if expected.None? {
      return None, positions';
    }
    if written > expected.value {
      return Some(Download), positions';
    }
    ReportStaysInStep(before, progress.calls, expected.value, throttle.step, positions, throttle.lastReported, written);
    positions' := positions + [written];
    var due := throttle.Take(written, expected.value);
    if due.Some? {
      OneMoreTick(progress.calls, Reported(due.value));
      ok := progress.Tell(Reported(due.value));
      if !ok {
        return Some(TransportFailed), positions';
      }
    }
    return None, positions';
  }

  lemma TickStaysInStep(
    before: seq<ProgressCall>, calls: seq<ProgressCall>, expected: Option<nat>, step: nat, positions: seq<nat>,
    last: Option<nat>)
    requires InStep(before, calls, expected, step, positions, last)
    ensures InStep(before, calls + [Tick], expected, step, positions, last)
  {
    OneMoreReport(calls, Tick);
  }

  lemma ReportStaysInStep(
    before: seq<ProgressCall>, calls: seq<ProgressCall>, total: nat, step: nat, positions: seq<nat>,
    last: Option<nat>, written: nat)
    requires InStep(before, calls, Some(total), step, positions, last)
    ensures
      var due := Due(last, step, written, total);
      if due.Some? then InStep(before, calls + [Reported(due.value)], Some(total), step, positions + [written], due)
      else InStep(before, calls, Some(total), step, positions + [written], last)
  {
    ReportsOneMore(None, step, total, positions, written);
    var due := Due(last, step, written, total);
    if due.Some? {
      OneMoreReport(calls, Reported(due.value));
    }
  }

  /** A flash that does all it is asked to, and a slot that is not finished with. */
  ghost predicate Ready(o: Ota.Outcomes, slot: Ota.Slot) { Ota.Sturdy(o) && !slot.Finished? }

  /** A chunk to the sink, which takes all of it or none. */
  method PassOn(sink: Ota.OtaWriter, chunk: seq<byte>, ghost before: Ota.Writer, ghost taken: seq<byte>)
    returns (ok: bool)
    requires Took(before, sink.Get(), taken)
    modifies sink
    ensures Took(before, sink.Get(), taken + if ok then chunk else [])
    ensures Ota.Feeds(sink.calls) == Ota.Feeds(old(sink.calls)) + if ok && chunk != [] then 1 else 0
    ensures chunk != [] && Ready(sink.outcomes, old(sink.slot)) ==> ok && sink.slot.Open?
  {
    if Ready(sink.outcomes, sink.slot) {
      Ota.ASturdyFlashTakesAll(sink.Get(), chunk, sink.outcomes);
    }
    Ota.WriteFeeds(sink.Get(), chunk, sink.outcomes);
    WriteTook(before, sink.Get(), taken, chunk, sink.outcomes);
    ok := sink.WriteChunk(chunk);
  }

  /** The places progress was looked at are places the body came to. */
  predicate Along(positions: seq<nat>, body: seq<byte>, expected: Option<nat>) {
    && Increasing(positions)
    && (forall i :: 0 <= i < |positions| ==> positions[i] <= |body|)
    && (expected.Some? ==> |body| <= expected.value + CHUNK_SIZE)
  }

  /** What was reported is what the throttle made of places the body came to, none far past the end. */
  ghost predicate Informed(
    expected: Option<nat>, step: nat, told: seq<ProgressCall>, calls: seq<ProgressCall>, body: seq<byte>,
    positions: seq<nat>)
  {
    && Along(positions, body, expected)
    && ReportsIn(calls) == ReportsIn(told)
       + (if expected.Some? then Reports(None, step, expected.value, positions) else [])
  }

  /** What a copy can see of the world at one moment. */
  datatype Scene = Scene(
    received: seq<byte>, broken: bool, sink: Ota.Writer, calls: seq<ProgressCall>, failed: bool,
    last: Option<nat>, absorbed: seq<byte>)

  function Look(http: HttpStream, sink: Ota.OtaWriter, progress: Progress, throttle: ProgressThrottle,
                hasher: Sha256): Scene
    reads http, sink, progress, throttle, hasher
  {
    Scene(http.received, http.broken, sink.Get(), progress.calls, progress.failed, throttle.lastReported,
          hasher.absorbed)
  }

  /** From `a` to `b` the copy has read `body`, of which the sink took `taken`. */
  ghost predicate Copied(
    a: Scene, b: Scene, expected: Option<nat>, step: nat, body: seq<byte>, taken: seq<byte>, positions: seq<nat>)
  {
    && b.received == a.received + body && b.absorbed == body
    && taken <= body && Took(a.sink, b.sink, taken)
    && InStep(a.calls, b.calls, expected, step, positions, b.last)
    && Along(positions, body, expected)
    && Ticked(a.sink, b.sink, a.calls, b.calls)
  }

  /** A tick for each chunk the sink took. */
  predicate Ticked(before: Ota.Writer, after: Ota.Writer, told: seq<ProgressCall>, calls: seq<ProgressCall>) {
    TicksIn(calls) + Ota.Feeds(before.calls) == TicksIn(told) + Ota.Feeds(after.calls)
  }

  /** Nothing has failed: no read, no write, no call to the agent; and not too much has come. */
  predicate Faultless(b: Scene, expected: Option<nat>, body: seq<byte>, taken: seq<byte>) {
    !b.broken && !b.failed && taken == body && (expected.Some? ==> |body| <= expected.value)
  }

  /** ... and may go on: nothing has failed. */
  ghost predicate Sound(expected: Option<nat>, body: seq<byte>, taken: seq<byte>, positions: seq<nat>) {
    && taken == body
    && (expected.Some? ==> |body| <= expected.value)
    && (body != [] && expected.Some? ==> positions != [] && positions[|positions| - 1] == |body|)
  }

  lemma AlongMore(positions: seq<nat>, body: seq<byte>, chunk: seq<byte>, expected: Option<nat>)
    requires Along(positions, body, expected) && chunk != [] && |chunk| <= CHUNK_SIZE
    requires expected.Some? ==> |body| <= expected.value
    ensures Along(positions, body + chunk, expected) && Along(positions + [|body + chunk|], body + chunk, expected)
  {}

  datatype Turn = Again | Finished | Failed(error: Error)

  /** What is to blame for a copy that did not go well: the agent's calls, the sink, the stream, or the length. */
  function Culprit(failed: bool, took: bool, cut: Option<Error>): Error {
    if failed then TransportFailed else if !took then OtaFailed else if cut.Some? then cut.value else Download
  }

  /** From the `from`-th on, these are the chunks that have been read, and what they make. */
  ghost predicate Drawn(chunks: Chunks, from: nat, next: nat, pieces: seq<seq<byte>>, body: seq<byte>) {
    Gives(chunks, from, pieces) && body == Concat(pieces) && next == from + |pieces|
  }

  /** The body is what those chunks make; it is done when there are no more, and broken when there is no reading on. */
  ghost predicate Stops(chunks: Chunks, from: nat, done: bool, broken: bool, pieces: seq<seq<byte>>, body: seq<byte>) {
    && Gives(chunks, from, pieces) && body == Concat(pieces)
    && (done ==> GivesAll(chunks, from, pieces))
    && (broken ==> Cut(chunks, from + |pieces|).Some?)
  }

  function Fault(chunks: Chunks, k: nat, broken: bool): Option<Error> { if broken then Cut(chunks, k) else None }

  /** Once round: a chunk read, hashed, passed on, and reported on. */
  method CopyChunk(
    http: HttpStream, sink: Ota.OtaWriter, progress: Progress, throttle: ProgressThrottle, hasher: Sha256,
    expected: Option<nat>, written: nat,
    ghost a: Scene, ghost from: nat, ghost pieces: seq<seq<byte>>, ghost body: seq<byte>, ghost positions: seq<nat>)
    returns (turn: Turn, count: nat, ghost pieces': seq<seq<byte>>, ghost body': seq<byte>, ghost taken: seq<byte>,
             ghost positions': seq<nat>)
    requires http.next <= |http.chunks| && written == |body|
    requires Copied(a, Look(http, sink, progress, throttle, hasher), expected, throttle.step, body, body, positions)
    requires Sound(expected, body, body, positions)
    requires Faultless(Look(http, sink, progress, throttle, hasher), expected, body, body)
    requires progress.Live() && Drawn(http.chunks, from, http.next, pieces, body)
    modifies http`next, http`received, http`broken, sink, throttle, hasher, progress, progress.Pumps()
    modifies progress.Links()`next, progress.Links()`heartbeatRef
    modifies progress.Worlds()`run, progress.Worlds()`h, progress.Worlds()`clock
    ensures progress.Live() && progress.Aside() == old(progress.Aside())
    ensures old(http.next) <= http.next <= |http.chunks| && (turn.Again? ==> old(http.next) < http.next)
    ensures Copied(a, Look(http, sink, progress, throttle, hasher), expected, throttle.step, body', taken, positions')
    ensures !turn.Failed? ==> Sound(expected, body', taken, positions') && count == |body'|
    ensures !turn.Failed? <==>
              Faultless(Look(http, sink, progress, throttle, hasher), expected, body', taken)
    ensures turn.Again? ==> Drawn(http.chunks, from, http.next, pieces', body')
    ensures Stops(http.chunks, from, turn.Finished?, http.broken, pieces', body')
    ensures turn.Failed? ==>
              turn.error == Culprit(progress.failed, taken == body', Fault(http.chunks, from + |pieces'|, http.broken))
    ensures Ready(sink.outcomes, old(sink.slot)) ==>
              && taken == body' && Ready(sink.outcomes, sink.slot)
              && (body' != body || old(sink.slot).Open? ==> sink.slot.Open?)
  {
    hide Took, InStep, TicksIn, Along, Ota.Sturdy, Gives, Concat, Progress.Live, Progress.Aside;
    pieces', body', taken, positions', count := pieces, body, body, positions, written;
    var chunk := http.Read();
    if chunk.Err? {
      return Failed(chunk.error), count, pieces', body', taken, positions';
    }
    assert http.received == a.received + (body + chunk.value);
    if chunk.value == [] {
      return Finished, count, pieces', body', taken, positions';
    }
    AlongMore(positions, body, chunk.value, expected);
    OneMoreGiven(http.chunks, from, pieces, chunk.value);
    pieces', body' := pieces + [chunk.value], body + chunk.value;
    hasher.Update(chunk.value);
    var ok := PassOn(sink, chunk.value, a.sink, taken);
    if !ok {
      assert taken + [] == taken;
      return Failed(OtaFailed), count, pieces', body', taken, positions';
    }
    taken, count := body', written + |chunk.value|;
    var failure;
    failure, positions' := Follow(progress, throttle, expected, count, a.calls, positions);
    turn := if failure.Some? then Failed(failure.value) else Again;
  }

  /**
   Round and round until the body ends or something fails. If nothing does, the sink has taken
   exactly what was read, and the checksum is of exactly that.
   */
  method Copy(
    http: HttpStream, sink: Ota.OtaWriter, expected: Option<nat>, step: nat, progress: Progress, digest: Digest)
    returns (r: Result<Report, Error>, ghost pieces: seq<seq<byte>>, ghost body: seq<byte>, ghost taken: seq<byte>,
             ghost positions: seq<nat>)
    requires http.next <= |http.chunks| && Ota.Valid(sink.Get()) && !http.broken
    requires progress.Live() && !progress.failed
    modifies http`next, http`received, http`broken, sink, progress, progress.Pumps()
    modifies progress.Links()`next, progress.Links()`heartbeatRef
    modifies progress.Worlds()`run, progress.Worlds()`h, progress.Worlds()`clock
    ensures progress.Live() && progress.Aside() == old(progress.Aside())
    ensures http.received == old(http.received) + body
    ensures taken <= body && Took(old(sink.Get()), sink.Get(), taken)
    ensures Informed(expected, Max(step, 1), old(progress.calls), progress.calls, body, positions)
    ensures Ticked(old(sink.Get()), sink.Get(), old(progress.calls), progress.calls)
    ensures r.Ok? ==> Sound(expected, body, taken, positions) && r.value == Report(|body|, HexUpper(digest(body)))
    ensures r.Ok? <==>
              !http.broken && !progress.failed && taken == body && (expected.Some? ==> |body| <= expected.value)
    ensures Stops(http.chunks, old(http.next), r.Ok?, http.broken, pieces, body)
    ensures r.Err? ==>
              var cut := Fault(http.chunks, old(http.next) + |pieces|, http.broken);
              r.error == Culprit(progress.failed, taken == body, cut)
    ensures Ready(sink.outcomes, old(sink.slot)) ==> taken == body && (body != [] ==> sink.slot.Open?)
  {
    hide Copied, Sound, Faultless, Ticked, Took, Informed, HexUpper, Ota.Valid, Ota.Sturdy, Culprit, Fault, Cut;
    hide Gives, Drawn, Stops, Progress.Live, Progress.Aside;
    var throttle := new ProgressThrottle(step);
    var hasher := new Sha256(digest);
    var written: nat := 0;
    pieces, body, taken, positions := [], [], [], [];
    ghost var a, from := Look(http, sink, progress, throttle, hasher), http.next;
    CopyStarts(a, expected, throttle.step);
    NothingDrawn(http.chunks, from);
    var turn := Again;
    while turn.Again?
      invariant http.next <= |http.chunks| && fresh(throttle) && fresh(hasher)
      invariant throttle.step == Max(step, 1) && hasher.digest == digest
      invariant progress.Live() && progress.Aside() == old(progress.Aside())
      invariant Copied(a, Look(http, sink, progress, throttle, hasher), expected, throttle.step, body, taken, positions)
      invariant !turn.Failed? ==> Sound(expected, body, taken, positions) && written == |body|
      invariant !turn.Failed? <==>
                  Faultless(Look(http, sink, progress, throttle, hasher), expected, body, taken)
      invariant turn.Again? ==> Drawn(http.chunks, from, http.next, pieces, body)
      invariant Stops(http.chunks, from, turn.Finished?, http.broken, pieces, body)
      invariant turn.Failed? ==>
                  var cut := Fault(http.chunks, from + |pieces|, http.broken);
                  turn.error == Culprit(progress.failed, taken == body, cut)
      invariant Ready(sink.outcomes, old(sink.slot)) ==>
                  taken == body && Ready(sink.outcomes, sink.slot) && (body != [] ==> sink.slot.Open?)
      decreases |http.chunks| - http.next, turn.Again?
    {
      SoundMeans(expected, body, taken, positions);
      turn, written, pieces, body, taken, positions :=
        CopyChunk(http, sink, progress, throttle, hasher, expected, written, a, from, pieces, body, positions);
    }
    CopiedMeans(a, Look(http, sink, progress, throttle, hasher), expected, throttle.step, body, taken, positions);
    FaultlessMeans(Look(http, sink, progress, throttle, hasher), expected, body, taken);
    if turn.Failed? {
      return Err(turn.error), pieces, body, taken, positions;
    }
    var hex := hasher.FinalizeHexUpper();
    r := Ok(Report(written, hex));
  }

  lemma NothingDrawn(chunks: Chunks, from: nat)
    requires from <= |chunks|
    ensures Drawn(chunks, from, from, [], []) && Stops(chunks, from, false, false, [], [])
  {}

  lemma FaultlessMeans(b: Scene, expected: Option<nat>, body: seq<byte>, taken: seq<byte>)
    ensures Faultless(b, expected, body, taken) <==>
              !b.broken && !b.failed && taken == body && (expected.Some? ==> |body| <= expected.value)
  {}

  lemma SoundMeans(expected: Option<nat>, body: seq<byte>, taken: seq<byte>, positions: seq<nat>)
    requires Sound(expected, body, taken, positions)
    ensures taken == body
  {}

  lemma CopiedMeans(
    a: Scene, b: Scene, expected: Option<nat>, step: nat, body: seq<byte>, taken: seq<byte>, positions: seq<nat>)
    requires Copied(a, b, expected, step, body, taken, positions)
    ensures b.received == a.received + body && b.absorbed == body
    ensures taken <= body && Took(a.sink, b.sink, taken)
    ensures Ticked(a.sink, b.sink, a.calls, b.calls)
    ensures Informed(expected, step, a.calls, b.calls, body, positions)
  {
    hide Took, Ticked, Along, Reports, ReportsIn;
  }

  lemma CopyStarts(a: Scene, expected: Option<nat>, step: nat)
    requires Ota.Valid(a.sink) && a.last.None? && a.absorbed == [] && !a.broken && !a.failed
    ensures Copied(a, a, expected, step, [], [], []) && Sound(expected, [], [], [])
    ensures Faultless(a, expected, [], [])
  {
    assert a.received + [] == a.received && Ota.Fed(a.sink.calls) + [] == Ota.Fed(a.sink.calls);
    assert ReportsIn(a.calls) + [] == ReportsIn(a.calls);
  }

  // ---------- Verifying ----------

  /** NervesHub's size is preferred to the server's. */
  function Expected(update: Update, opening: Opening): Option<nat> {
    if update.size.Some? then update.size
    else if opening.result.Ok? then opening.result.value
    else None
  }

  lemma {:induction false} WaitsReportNothing(calls: seq<ProgressCall>, waits: seq<ProgressCall>)
    requires forall i :: 0 <= i < |waits| ==> waits[i].Waited?
    ensures ReportsIn(calls + waits) == ReportsIn(calls) && TicksIn(calls + waits) == TicksIn(calls)
  {
    if waits == [] {
      assert calls + waits == calls;
    } else {
      var n := |waits| - 1;
      assert calls + waits == (calls + waits[..n]) + [waits[n]];
      OneMoreReport(calls + waits[..n], waits[n]);
      OneMoreTick(calls + waits[..n], waits[n]);
      WaitsReportNothing(calls, waits[..n]);
    }
  }

  /** Opening reports nothing and ticks for nothing. */
  lemma OpeningIsQuiet(opens: OpenOutcomes, n: nat, patience: nat, told: seq<ProgressCall>)
    ensures
      var opening := OpenFrom(opens, n, patience, 0);
      && ReportsIn(told + opening.waits) == ReportsIn(told) && TicksIn(told + opening.waits) == TicksIn(told)
  {
    hide OpenFrom;
    OpeningIsBounded(opens, n, patience, 0);
    WaitsReportNothing(told, OpenFrom(opens, n, patience, 0).waits);
  }

  lemma NothingReported(expected: Option<nat>, step: nat, told: seq<ProgressCall>, calls: seq<ProgressCall>)
    requires ReportsIn(calls) == ReportsIn(told)
    ensures Informed(expected, step, told, calls, [], [])
  {
    assert ReportsIn(told) + [] == ReportsIn(told);
  }

  lemma InformedSince(
    expected: Option<nat>, step: nat, told: seq<ProgressCall>, since: seq<ProgressCall>, calls: seq<ProgressCall>,
    body: seq<byte>, positions: seq<nat>)
    requires Informed(expected, step, since, calls, body, positions) && ReportsIn(since) == ReportsIn(told)
    ensures Informed(expected, step, told, calls, body, positions)
  {}

  /** What is said to be wrong with a body that is not whole: its length, or else its checksum. */
  function Complaint(expected: Option<nat>, body: seq<byte>): Error {
    if body == [] || (expected.Some? && |body| != expected.value) then Download else ChecksumMismatch
  }

  /** The checks on a body that has been copied, in order. */
  method Check(
    update: Update, expected: Option<nat>, report: Report, ghost announced: Option<nat>, ghost body: seq<byte>,
    digest: Digest)
    returns (failure: Option<Error>)
    requires report == Report(|body|, HexUpper(digest(body)))
    requires expected == if update.size.Some? then update.size else announced
    ensures failure.None? <==> Whole(update, announced, body, digest)
    ensures failure.Some? ==> failure.value == Complaint(expected, body)
  {
    hide HexUpper, ParseHex, Matches;
    if expected.Some? && report.bytes != expected.value {
      return Some(Download);
    }
    if report.bytes == 0 {
      return Some(Download);
    }
    if update.checksum.Some? {
      MatchIsTheDigest(update.checksum.value, digest(body));
      if !Matches(update.checksum.value, report.checksum) {
        return Some(ChecksumMismatch);
      }
    }
    failure := None;
  }

  /**
   Exactly when a download succeeds: it was opened, nothing failed since -- no read, no write, no
   call to the agent -- and the body is whole. Nothing else stops it, and nothing less will do.
   */
  ghost predicate Fetched(
    update: Update, opening: Opening, broken: bool, failed: bool, body: seq<byte>, taken: seq<byte>, digest: Digest)
  {
    && opening.result.Ok? && !broken && !failed && taken == body
    && Whole(update, opening.result.value, body, digest)
  }

  /** All of it in terms of the last answer to an opening, and whether a call to the agent had failed by then. */
  lemma FetchedMeans(
    update: Update, opens: OpenOutcomes, n: nat, patience: nat, broken: bool, failed: bool, body: seq<byte>,
    taken: seq<byte>, digest: Digest)
    ensures
      var opening := OpenFrom(opens, n, patience, 0);
      var answer := opens(n + opening.openings - 1);
      && opening.openings > 0 && (opening.result.Ok? || answer.Ok? ==> opening.result == answer)
      && |opening.waits| <= 4 && (answer.Ok? ==> |opening.waits| <= patience)
      && Expected(update, opening)
         == (if update.size.Some? then update.size else if answer.Ok? then answer.value else None)
      && (Fetched(update, opening, broken, failed, body, taken, digest) <==>
            answer.Ok? && !broken && !failed && taken == body && Whole(update, answer.value, body, digest))
      && (answer.Err? && |opening.waits| == patience + (if failed then 1 else 0) ==>
            opening.result == if failed then Err(TransportFailed) else answer)
  {
    hide OpenFrom, ParseHex, MayPass;
    OpeningIsBounded(opens, n, patience, 0);
  }

  /** Nothing went wrong in the copying: what came was read to its end. */
  predicate Through(broken: bool, failed: bool, expected: Option<nat>, body: seq<byte>, taken: seq<byte>) {
    !broken && !failed && taken == body && (expected.Some? ==> |body| <= expected.value)
  }

  /** What is to blame for a download that failed once it was open. */
  function Blamed(expected: Option<nat>, failed: bool, took: bool, cut: Option<Error>, body: seq<byte>): Error {
    if !failed && took && cut.None? then Complaint(expected, body) else Culprit(failed, took, cut)
  }

  method DownloadImage(
    update: Update, http: HttpStream, sink: Ota.OtaWriter, step: nat, progress: Progress, digest: Digest)
    returns (r: Result<Report, Error>, ghost pieces: seq<seq<byte>>, ghost body: seq<byte>, ghost taken: seq<byte>,
             ghost positions: seq<nat>, ghost patience: nat)
    requires http.next <= |http.chunks| && Ota.Valid(sink.Get())
    requires progress.Live() && !progress.failed
    modifies http, sink, progress, progress.Pumps()
    modifies progress.Links()`next, progress.Links()`heartbeatRef
    modifies progress.Worlds()`run, progress.Worlds()`h, progress.Worlds()`clock
    ensures progress.Live() && progress.Aside() == old(progress.Aside())
    ensures http.received == old(http.received) + body
    ensures taken <= body && Took(old(sink.Get()), sink.Get(), taken)
    ensures Ticked(old(sink.Get()), sink.Get(), old(progress.calls), progress.calls)
    ensures
      var opening := OpenFrom(http.opens, old(http.openings), patience, 0);
      var expected := Expected(update, opening);
      && http.openings == old(http.openings) + opening.openings
      && (opening.result.Err? ==>
            && r == Err(opening.result.error) && progress.calls == old(progress.calls) + opening.waits
            && |opening.waits| == patience + if progress.failed then 1 else 0)
      && Informed(expected, Max(step, 1), old(progress.calls), progress.calls, body, positions)
      && (r.Ok? ==> r.value == Report(|body|, HexUpper(digest(body))))
      && (r.Ok? && expected.Some? ==> positions != [] && positions[|positions| - 1] == expected.value)
      && (r.Ok? <==> Fetched(update, opening, http.broken, progress.failed, body, taken, digest))
      && Stops(http.chunks, old(http.next),
               opening.result.Ok? && Through(http.broken, progress.failed, expected, body, taken),
               opening.result.Ok? && http.broken, pieces, body)
      && (r.Err? && opening.result.Ok? ==>
            var cut := Fault(http.chunks, old(http.next) + |pieces|, http.broken);
            r.error == Blamed(expected, progress.failed, taken == body, cut, body))
    ensures Ready(sink.outcomes, old(sink.slot)) ==> taken == body && (body != [] ==> sink.slot.Open?)
  {
    hide OpenFrom, Took, Informed, HexUpper, ParseHex, ReportsIn, TicksIn, Ota.Valid, Ota.Sturdy, Gives, Cut;
    hide Progress.Live, Progress.Aside;
    pieces, body, taken, positions := [], [], [], [];
    NothingDrawn(http.chunks, http.next);
    ghost var told, n := progress.calls, http.openings;
    TookNothing(sink.Get());
    assert http.received + [] == http.received;
    var length;
    length, patience := OpenUrl(http, progress);
    OpeningIsQuiet(http.opens, n, patience, told);
    ghost var since := progress.calls;
    if length.Err? {
      NothingReported(Expected(update, OpenFrom(http.opens, n, patience, 0)), Max(step, 1), told, since);
      return Err(length.error), pieces, body, taken, positions, patience;
    }
    OpeningIsBounded(http.opens, n, patience, 0);
    var expected := if update.size.Some? then update.size else length.value;
    r, pieces, body, taken, positions := Copy(http, sink, expected, step, progress, digest);
    InformedSince(expected, Max(step, 1), told, since, progress.calls, body, positions);
    if r.Err? {
      return;
    }
    var failure := Check(update, expected, r.value, length.value, body, digest);
    if failure.Some? {
      r := Err(failure.value);
    }
  }

  lemma TookNothing(w: Ota.Writer)
    requires Ota.Valid(w)
    ensures Took(w, w, [])
  {
    assert Ota.Fed(w.calls) + [] == Ota.Fed(w.calls);
  }

  /** A sink finished the one way or the other; only committing may have booted it, and once. */
  ghost predicate Ended(before: Ota.Writer, after: Ota.Writer, committed: bool) {
    && Ota.Valid(after)
    && after.finishes == before.finishes + [if committed then Ota.Committed else Ota.Aborted]
    && Ota.Boots(before.calls) <= Ota.Boots(after.calls) <= Ota.Boots(before.calls) + if committed then 1 else 0
  }

  /** A sink nobody has committed before boots no patch that did not finalize well. */
  lemma EndedBootsNoBadPatch(before: Ota.Writer, after: Ota.Writer, committed: bool)
    requires Ended(before, after, committed)
    ensures before.finishes == [] ==> !Ota.BootsUnpatched(after.calls)
  {
    if before.finishes == [] {
      Ota.OneMoreFinish([], if committed then Ota.Committed else Ota.Aborted);
      Ota.FirstCommitBootsNoBadPatch(after);
    }
  }

  lemma CommittingEnds(before: Ota.Writer, w: Ota.Writer, taken: seq<byte>, o: Ota.Outcomes)
    requires Took(before, w, taken)
    ensures
      var (w', ok) := Ota.Commit(w, o);
      && Ended(before, w', true) && Ota.Fed(w'.calls) == Ota.Fed(before.calls) + taken
      && Ota.Feeds(w'.calls) == Ota.Feeds(w.calls)
      && (ok ==> Ota.Boots(w'.calls) == Ota.Boots(before.calls) + 1)
      && (before.finishes == [] ==> !Ota.BootsUnpatched(w'.calls))
  {
    Ota.CommitKeepsValid(w, o);
    Ota.CommitFeedsNothing(w, o);
    EndedBootsNoBadPatch(before, Ota.Commit(w, o).0, true);
  }

  lemma AbortingEnds(before: Ota.Writer, w: Ota.Writer, taken: seq<byte>)
    requires Took(before, w, taken)
    ensures
      var w' := Ota.Abort(w);
      && Ended(before, w', false) && Ota.Fed(w'.calls) == Ota.Fed(before.calls) + taken
      && Ota.Feeds(w'.calls) == Ota.Feeds(w.calls) && w'.slot.Finished?
      && (before.finishes == [] ==> !Ota.BootsUnpatched(w'.calls))
  {
    Ota.AbortKeepsValid(w);
    Ota.AbortFeedsNothing(w);
    EndedBootsNoBadPatch(before, Ota.Abort(w), false);
  }

  /** Committed if it is good, and aborted if it is not; the sink takes no more either way. */
  method Conclude(sink: Ota.OtaWriter, good: bool, ghost before: Ota.Writer, ghost taken: seq<byte>)
    returns (committed: bool)
    requires Took(before, sink.Get(), taken)
    modifies sink
    ensures Ended(before, sink.Get(), good)
    ensures sink.Get() == if good then Ota.Commit(old(sink.Get()), sink.outcomes).0 else Ota.Abort(old(sink.Get()))
    ensures committed == (good && Ota.Commit(old(sink.Get()), sink.outcomes).1)
    ensures committed ==> Ota.Boots(sink.calls) == Ota.Boots(before.calls) + 1
    ensures Ota.Fed(sink.calls) == Ota.Fed(before.calls) + taken
    ensures Ota.Feeds(sink.calls) == Ota.Feeds(old(sink.calls))
    ensures before.finishes == [] ==> !Ota.BootsUnpatched(sink.calls)
  {
    hide Took, Ended, Ota.Commit, Ota.Abort, Ota.BootsUnpatched;
    if good {
      CommittingEnds(before, sink.Get(), taken, sink.outcomes);
      committed := sink.CommitImage();
    } else {
      AbortingEnds(before, sink.Get(), taken);
      sink.AbortImage();
      committed := false;
    }
  }

  /**
   The whole of an update, for every outcome of the network, the flash and the agent's calls.

   The sink is committed exactly when the download succeeded: the last opening did, nothing failed
   since, and the body is whole. It is aborted exactly when it did not; so an error goes without an
   abort just when there was nothing to download or the commit failed. The boot slot moves only for
   an image that arrived whole and is the one advertised, of which the sink took exactly the bytes
   that were read; and, of a sink not committed before, only once a patch has finalized well. The
   sink never takes more than a chunk past what was expected, and the agent has its turn after every
   chunk. The stream is read to its end unless something fails, and that is what is blamed.
   */
  method InstallUpdate(
    update: Update, http: HttpStream, sink: Ota.OtaWriter, step: nat, progress: Progress, digest: Digest)
    returns (r: Result<Report, Error>, ghost pieces: seq<seq<byte>>, ghost body: seq<byte>, ghost taken: seq<byte>,
             ghost positions: seq<nat>, ghost patience: nat,
             ghost filled: Ota.Writer)   // the sink, before it was committed or aborted
    requires http.next <= |http.chunks| && Ota.Valid(sink.Get())
    requires progress.Live() && !progress.failed
    modifies http, sink, progress, progress.Pumps()
    modifies progress.Links()`next, progress.Links()`heartbeatRef
    modifies progress.Worlds()`run, progress.Worlds()`h, progress.Worlds()`clock
    ensures progress.Live() && progress.Aside() == old(progress.Aside())
    ensures !(update.available && update.url.Some? && update.uuid.Some?) ==>
              && r == Err(Download) && sink.Get() == old(sink.Get()) && progress.calls == old(progress.calls)
              && http.openings == old(http.openings) && http.received == old(http.received)
    ensures update.Actionable() ==>
              var opening := OpenFrom(http.opens, old(http.openings), patience, 0);
              && http.openings == old(http.openings) + opening.openings > old(http.openings)
              && |opening.waits| <= 4 && (!progress.failed ==> |opening.waits| <= patience)
    ensures update.Actionable() ==>
              var answer := http.opens(http.openings - 1);
              var fetched := answer.Ok? && !http.broken && !progress.failed && taken == body
                             && Whole(update, answer.value, body, digest);
              && Ended(old(sink.Get()), sink.Get(), fetched)
              && sink.Get() == (if fetched then Ota.Commit(filled, sink.outcomes).0 else Ota.Abort(filled))
              && (r.Ok? <==> fetched && Ota.Commit(filled, sink.outcomes).1)
              && (r.Ok? ==> Ota.Boots(sink.calls) == Ota.Boots(old(sink.calls)) + 1
                            && r.value == Report(|body|, HexUpper(digest(body))))
              && (Ready(sink.outcomes, old(sink.slot)) ==> taken == body && (fetched ==> r.Ok?))
    ensures r.Ok? ==>
              var answer := http.opens(http.openings - 1);
              && update.available && update.url.Some? && update.uuid.Some? && answer.Ok? && body != []
              && (update.size.Some? ==> |body| == update.size.value)
              && (update.size.None? && answer.value.Some? ==> |body| == answer.value.value)
              && (update.checksum.Some? ==> ParseHex(update.checksum.value) == Some(digest(body)))
    ensures update.Actionable() ==>
              && http.received == old(http.received) + body && taken <= body
              && Ota.Fed(sink.calls) == Ota.Fed(old(sink.calls)) + taken
              && Ticked(old(sink.Get()), sink.Get(), old(progress.calls), progress.calls)
              && (old(sink.finishes) == [] ==> !Ota.BootsUnpatched(sink.calls))
    ensures update.Actionable() ==>
              var answer := http.opens(http.openings - 1);
              var expected := if update.size.Some? then update.size else if answer.Ok? then answer.value else None;
              && Informed(expected, Max(step, 1), old(progress.calls), progress.calls, body, positions)
              && (r.Ok? && expected.Some? ==> positions != [] && positions[|positions| - 1] == expected.value)
              && Stops(http.chunks, old(http.next),
                       answer.Ok? && Through(http.broken, progress.failed, expected, body, taken),
                       answer.Ok? && http.broken, pieces, body)
              && (r.Err? && answer.Err? ==> r.error == if progress.failed then TransportFailed else answer.error)
              && (r.Err? && answer.Ok? ==>
                    var cut := Fault(http.chunks, old(http.next) + |pieces|, http.broken);
                    var fetched := !http.broken && !progress.failed && taken == body
                                   && Whole(update, answer.value, body, digest);
                    r.error == if fetched then OtaFailed
                               else Blamed(expected, progress.failed, taken == body, cut, body))
  {
    hide Took, Ended, Fetched, OpenFrom, Informed, HexUpper, ParseHex, Expected, TicksIn, Stops, Blamed, Through;
    hide Ota.Valid, Ota.Commit, Ota.Abort, Ota.BootsUnpatched, Ota.Sturdy, Cut;
    hide Progress.Live, Progress.Aside;
    pieces, body, taken, positions, patience, filled := [], [], [], [], 0, sink.Get();
    if !update.Actionable() {
      return Err(Download), pieces, body, taken, positions, patience, filled;
    }
    ghost var before, n := sink.Get(), http.openings;
    r, pieces, body, taken, positions, patience := DownloadImage(update, http, sink, step, progress, digest);
    filled := sink.Get();
    FetchedMeans(update, http.opens, n, patience, http.broken, progress.failed, body, taken, digest);
    if r.Ok? && Ready(sink.outcomes, old(sink.slot)) {
      Ota.ASturdyFlashCommits(sink.Get(), sink.outcomes);
    }
    var committed := Conclude(sink, r.Ok?, before, taken);
    if r.Ok? && !committed {
      r := Err(OtaFailed);
    }
  }

  /** Which opening is answered, if any is. */
  lemma AnswersMean(opens: OpenOutcomes, patience: nat, announced: Option<nat>)
    ensures
      var o := OpenFrom(opens, 0, patience, 0);
      && (o.result.Ok? ==> Answers(opens, o.result.value))
      && (Answers(opens, announced) && |o.waits| <= patience ==> o.result == Ok(announced))
  {
    hide OpenFrom, MayPass, Heeding;
    OpeningIsBounded(opens, 0, patience, 0);
    var o := OpenFrom(opens, 0, patience, 0);
    var last := o.openings - 1;
    forall j: nat | j < |o.waits| ensures opens(j).Err? && MayPass(opens(j).error) {
      WaitsAreBounded(opens, 0, patience, 0, j);
    }
    if o.result.Ok? {
      assert AnswersAt(opens, last, o.result.value);
    }
    if Answers(opens, announced) && |o.waits| <= patience {
      var i: nat :| i < 4 && AnswersAt(opens, i, announced);
    }
  }

  /** An install with a sink of its own that succeeds has put the image in place. */
  lemma SuccessIsInPlace(
    update: Update, announced: Option<nat>, pieces: seq<seq<byte>>, body: seq<byte>, job: Job, digest: Digest,
    w: Ota.Writer)
    requires update.Actionable() && Answers(job.opens, announced) && Whole(update, announced, body, digest)
    requires GivesAll(job.chunks, 0, pieces) && body == Concat(pieces)
    requires Ended(Ota.NEW_WRITER, w, true) && Ota.Fed(w.calls) == Ota.Fed(Ota.NEW_WRITER.calls) + body
    requires Ota.Boots(w.calls) == Ota.Boots(Ota.NEW_WRITER.calls) + 1 && !Ota.BootsUnpatched(w.calls)
    ensures InPlace(Image(update, announced, body, w), job, digest)
  {
    hide Ota.Valid, Ota.BootsUnpatched, Whole, Answers, GivesAll;
    assert Delivers(job.chunks, body);
    assert Ota.Fed(Ota.NEW_WRITER.calls) + body == body;
  }

  lemma InstallableMeans(update: Update, job: Job, digest: Digest)
    requires Installable(update, job, digest)
    ensures update.Actionable() && Ota.Sturdy(job.flash)
  {}

  /** What a server gives that was read through is whole, if what it has to give is. */
  lemma ThroughIsWhole(
    update: Update, answer: Result<Option<nat>, Error>, job: Job, digest: Digest, broken: bool,
    pieces: seq<seq<byte>>, body: seq<byte>)
    requires Installable(update, job, digest)
    requires forall announced :: Answers(job.opens, announced) ==> answer == Ok(announced)
    requires
      var expected := if update.size.Some? then update.size else if answer.Ok? then answer.value else None;
      Stops(job.chunks, 0, answer.Ok? && Through(broken, false, expected, body, body), answer.Ok? && broken,
            pieces, body)
    ensures answer.Ok? && !broken && Whole(update, answer.value, body, digest)
  {
    hide Answers, ParseHex, Gives, GivesAll, Cut;
    var announced, whole :| Serves(update, announced, whole, job, digest);
    var all: seq<seq<byte>> :| GivesAll(job.chunks, 0, all) && whole == Concat(all);
    GivenInOrder(job.chunks, 0, pieces, all);
    assert answer == Ok(announced);
  }

  /**
   An install begun afresh: a stream and a sink of its own, and whoever is to be told. Success is having
   the image in place. And it does succeed, if the server gives the image and the flash takes it, unless
   the agent is told something that fails.
   */
  method InstallAfresh(
    update: Update, job: Job, step: nat, progress: Progress, digest: Digest)
    returns (ok: bool, ghost image: Image)
    requires progress.Live() && !progress.failed
    modifies progress, progress.Pumps()
    modifies progress.Links()`next, progress.Links()`heartbeatRef
    modifies progress.Worlds()`run, progress.Worlds()`h, progress.Worlds()`clock
    ensures progress.Live() && progress.Aside() == old(progress.Aside())
    ensures ok ==> !progress.failed && InPlace(image, job, digest) && image.update == update
    ensures !progress.failed && Installable(update, job, digest) ==> ok
  {
    hide Ended, Fetched, OpenFrom, Informed, HexUpper, Expected, TicksIn, InPlace, ParseHex, Blamed;
    hide Ota.Valid, Ota.Commit, Ota.Abort, Ota.BootsUnpatched, Ota.Sturdy, Progress.Live, Progress.Aside;
    hide Serves, Installable, Answers, Gives, GivesAll, Cut;
    var http := new HttpStream(job.opens, job.chunks);
    var sink := new Ota.OtaWriter(job.flash);
    Ota.NewWriterIsValid();
    var r;
    ghost var pieces, body, taken, positions, patience, filled;
    r, pieces, body, taken, positions, patience, filled := InstallUpdate(update, http, sink, step, progress, digest);
    ok := r.Ok?;
    ghost var answer := if http.openings > 0 then job.opens(http.openings - 1) else Err(Download);
    image := Image(update, if answer.Ok? then answer.value else None, body, sink.Get());
    if ok {
      FetchedMeans(update, job.opens, 0, patience, http.broken, progress.failed, body, taken, digest);
      AnswersMean(job.opens, patience, None);
      SuccessIsInPlace(update, answer.value, pieces, body, job, digest, sink.Get());
    } else if !progress.failed && Installable(update, job, digest) {
      InstallableMeans(update, job, digest);
      FetchedMeans(update, job.opens, 0, patience, http.broken, progress.failed, body, taken, digest);
      forall announced | Answers(job.opens, announced) ensures answer == Ok(announced) {
        AnswersMean(job.opens, patience, announced);
      }
      ThroughIsWhole(update, answer, job, digest, http.broken, pieces, body);
    }
  }

  /**
   What its caller must know: a failed commit is not followed by an abort. With a patch whose
   finalize fails, that leaves the slot open and its handle live.
   */
  lemma AFailedCommitLeavesTheSlotOpen(w: Ota.Writer, o: Ota.Outcomes)
    requires Ota.Valid(w)
    ensures
      var (w', ok) := Ota.Commit(w, o);
      && (w'.slot.Open? <==> w.mode.Patch? && !o(|w.calls|))
      && (w'.slot.Open? ==> !ok && Ota.Replay(w'.calls).ota.Live?)
  {
    Ota.CommitLeavesOpen(w, o);
    Ota.CommitKeepsValid(w, o);
  }
}
