/**
 Writing an image, or a patch against the running one, to the inactive slot (src/ota.rs).

 ESP-IDF is not modelled, only how its calls may end: the outcome of the n-th call is any
 function of n. What the writer has called is kept, and compared with an automaton of when
 each call is allowed.
 */
module Ota {
  import opened Common

  const ESP_IMAGE_MAGIC: byte := 0xE9

  datatype Slot = Unopened | Open | Finished

  datatype Mode = Undecided | Image | Patch

  /** A call into ESP-IDF, and whether it succeeded. */
  datatype Call =
    | OtaBegin(ok: bool)
    | OtaWrite(bytes: seq<byte>, ok: bool)
    | OtaEnd(ok: bool)
    | OtaAbort
    | SetBootPartition(ok: bool)
    | RunningPartition(ok: bool)
    | DeltaInit(ok: bool)
    | DeltaFeed(patch: seq<byte>, ok: bool)
    | DeltaFinalize(ok: bool)
    | DeltaDeinit

  datatype Finish = Committed | Aborted

  datatype Writer = Writer(slot: Slot, mode: Mode, written: nat, calls: seq<Call>, finishes: seq<Finish>)

  const NEW_WRITER := Writer(Unopened, Undecided, 0, [], [])

  type Outcomes = nat -> bool

  // ---------- What each method does ----------

  function Classify(first: byte): Mode { if first == ESP_IMAGE_MAGIC then Image else Patch }

  function Called(w: Writer, call: Call): Writer { w.(calls := w.calls + [call]) }

  function OpenSlot(w: Writer, o: Outcomes): (Writer, bool) {
    var ok := o(|w.calls|);
    (Called(w, OtaBegin(ok)).(slot := if ok then Open else w.slot), ok)
  }

  function BeginPatch(w: Writer, o: Outcomes): (Writer, bool) {
    if !w.slot.Open? then (w, false) else
      var running := o(|w.calls|);
      var w := Called(w, RunningPartition(running));
      if !running then (w, false) else
        var ok := o(|w.calls|);
        (Called(w, DeltaInit(ok)).(mode := if ok then Patch else w.mode), ok)
  }

  function Decide(w: Writer, first: byte, o: Outcomes): (Writer, bool) {
    if !w.mode.Undecided? then (w, true)
    else if Classify(first).Image? then (w.(mode := Image), true)
    else BeginPatch(w, o)
  }

  function FeedChunk(w: Writer, chunk: seq<byte>, o: Outcomes): (Writer, bool) {
    if !w.mode.Patch? && !w.slot.Open? then (w, false) else
      var ok := o(|w.calls|);
      var w := Called(w, if w.mode.Patch? then DeltaFeed(chunk, ok) else OtaWrite(chunk, ok));
      (if ok then w.(written := w.written + |chunk|) else w, ok)
  }

  function Write(w: Writer, chunk: seq<byte>, o: Outcomes): (Writer, bool) {
    if chunk == [] then (w, true) else
      var (w, ready) := if w.slot.Unopened? then OpenSlot(w, o) else (w, true);
      if !ready then (w, false) else
        var (w, decided) := Decide(w, chunk[0], o);
        if !decided then (w, false) else FeedChunk(w, chunk, o)
  }

  function FinishPatch(w: Writer, o: Outcomes): (Writer, bool) {
    if !w.mode.Patch? then (w, true) else
      var ok := o(|w.calls|);
      (Called(Called(w, DeltaFinalize(ok)), DeltaDeinit).(mode := Image), ok)
  }

  function EndSlot(w: Writer, o: Outcomes): (Writer, bool) {
    if !w.slot.Open? then (w.(slot := Finished), false) else
      var ended := o(|w.calls|);
      var w := Called(w, OtaEnd(ended)).(slot := Finished);
      if !ended then (w, false) else
        var ok := o(|w.calls|);
        (Called(w, SetBootPartition(ok)), ok)
  }

  function Commit(w: Writer, o: Outcomes): (Writer, bool) {
    var w := w.(finishes := w.finishes + [Committed]);
    var (w, finished) := FinishPatch(w, o);
    if !finished then (w, false) else EndSlot(w, o)
  }

  function Abort(w: Writer): Writer {
    var w := w.(finishes := w.finishes + [Aborted]);
    var w := if w.mode.Patch? then Called(w, DeltaDeinit).(mode := Image) else w;
    (if w.slot.Open? then Called(w, OtaAbort) else w).(slot := Finished)
  }

  class OtaWriter {
    const outcomes: Outcomes
    var slot: Slot
    var mode: Mode
    var written: nat
    var calls: seq<Call>
    var finishes: seq<Finish>

    function Get(): Writer
      reads this
    {
      Writer(slot, mode, written, calls, finishes)
    }

    constructor (outcomes: Outcomes)
      ensures Get() == NEW_WRITER && this.outcomes == outcomes
    {
      this.outcomes := outcomes;
      slot, mode, written, calls, finishes := Unopened, Undecided, 0, [], [];
    }

    method OpenTheSlot() returns (ok: bool)
      modifies this
      ensures (Get(), ok) == OpenSlot(old(Get()), outcomes)
    {
      ok := outcomes(|calls|);
      calls := calls + [OtaBegin(ok)];
      if ok {
        slot := Open;
      }
    }

    method BeginThePatch() returns (ok: bool)
      modifies this
      ensures (Get(), ok) == BeginPatch(old(Get()), outcomes)
    {
      if !slot.Open? {
        return false;
      }
      ok := outcomes(|calls|);
      calls := calls + [RunningPartition(ok)];
      if !ok {
        return;
      }
      ok := outcomes(|calls|);
      calls := calls + [DeltaInit(ok)];
      if ok {
        mode := Patch;
      }
    }

    method WriteChunk(chunk: seq<byte>) returns (ok: bool)
      modifies this
      ensures (Get(), ok) == Write(old(Get()), chunk, outcomes)
    {
      if chunk == [] {
        return true;
      }
      if slot.Unopened? {
        ok := OpenTheSlot();
        if !ok {
          return;
        }
      }
      // The first byte of the whole download decides, not that of each chunk.
      if mode.Undecided? {
        if Classify(chunk[0]).Image? {
          mode := Image;
        } else {
          ok := BeginThePatch();
          if !ok {
            return;
          }
        }
      }
      if !mode.Patch? && !slot.Open? {
        return false;
      }
      ok := outcomes(|calls|);
      calls := calls + [if mode.Patch? then DeltaFeed(chunk, ok) else OtaWrite(chunk, ok)];
      if ok {
        written := written + |chunk|;
      }
    }

    method CommitImage() returns (ok: bool)
      modifies this
      ensures (Get(), ok) == Commit(old(Get()), outcomes)
    {
      finishes := finishes + [Committed];
      if mode.Patch? {
        ok := outcomes(|calls|);
        calls := calls + [DeltaFinalize(ok)];
        calls := calls + [DeltaDeinit];
        mode := Image;
        if !ok {
          return;
        }
      }
      var was := slot;
      slot := Finished;
      if !was.Open? {
        return false;
      }
      ok := outcomes(|calls|);
      calls := calls + [OtaEnd(ok)];
      if !ok {
        return;
      }
      ok := outcomes(|calls|);
      calls := calls + [SetBootPartition(ok)];
    }

    method AbortImage()
      modifies this
      ensures Get() == Abort(old(Get()))
    {
      finishes := finishes + [Aborted];
      if mode.Patch? {
        calls := calls + [DeltaDeinit];
        mode := Image;
      }
      if slot.Open? {
        calls := calls + [OtaAbort];
      }
      slot := Finished;
    }
  }

  // ---------- When each call is allowed ----------

  datatype Handle = Never | Live | Released

  /** The two handles; whether a patch was finalized, and well; the image ended well; a boot slot set. */
  datatype Idf = Idf(ota: Handle, delta: Handle, finalized: bool, patched: bool, ended: bool, booted: bool)

  const FRESH := Idf(Never, Never, false, false, false, false)

  predicate Allowed(s: Idf, call: Call) {
    match call
    case OtaBegin(_) => s.ota.Never?
    case OtaWrite(_, _) => s.ota.Live? && !s.delta.Live?
    case OtaEnd(_) => s.ota.Live? && (s.delta.Never? || (s.delta.Released? && s.finalized))
    case OtaAbort => s.ota.Live? && !s.delta.Live?
    case SetBootPartition(_) => s.ended && !s.booted
    case RunningPartition(_) => true
    case DeltaInit(_) => s.ota.Live? && s.delta.Never?
    case DeltaFeed(_, _) => s.ota.Live? && s.delta.Live? && !s.finalized
    case DeltaFinalize(_) => s.ota.Live? && s.delta.Live? && !s.finalized
    case DeltaDeinit => s.delta.Live?
  }

  function After(s: Idf, call: Call): Idf {
    match call
    case OtaBegin(ok) => if ok then s.(ota := Live) else s
    case OtaEnd(ok) => s.(ota := Released, ended := ok)
    case OtaAbort => s.(ota := Released)
    case SetBootPartition(_) => s.(booted := true)
    case DeltaInit(ok) => if ok then s.(delta := Live) else s
    case DeltaFinalize(ok) => s.(finalized := true, patched := ok)
    case DeltaDeinit => s.(delta := Released)
    case _ => s
  }

  function Replay(calls: seq<Call>): Idf {
    if calls == [] then FRESH else After(Replay(calls[..|calls| - 1]), calls[|calls| - 1])
  }

  predicate Legal(calls: seq<Call>) {
    calls == [] || (Legal(calls[..|calls| - 1]) && Allowed(Replay(calls[..|calls| - 1]), calls[|calls| - 1]))
  }

  lemma OneMoreCall(calls: seq<Call>, call: Call)
    ensures Replay(calls + [call]) == After(Replay(calls), call)
    ensures Legal(calls + [call]) <==> Legal(calls) && Allowed(Replay(calls), call)
  {
    assert (calls + [call])[..|calls|] == calls;
  }

  function Commits(finishes: seq<Finish>): nat {
    if finishes == [] then 0 else
      Commits(finishes[..|finishes| - 1]) + if finishes[|finishes| - 1].Committed? then 1 else 0
  }

  lemma OneMoreFinish(finishes: seq<Finish>, f: Finish)
    ensures Commits(finishes + [f]) == Commits(finishes) + if f.Committed? then 1 else 0
  {
    assert (finishes + [f])[..|finishes|] == finishes;
  }

  /** What the first commit, and no other, makes of the image. */
  predicate FirstCommitIsSound(s: Idf, commits: nat) {
    && (commits == 0 ==> !s.finalized && !s.booted)
    && (commits <= 1 && s.booted ==> s.delta.Never? || s.patched)
  }

  /** The writer's own state agrees with what it has called. */
  predicate Valid(w: Writer) {
    var s := Replay(w.calls);
    && Legal(w.calls)
    && (w.slot.Unopened? ==> s.ota.Never? && w.mode.Undecided?)
    && (w.slot.Open? <==> s.ota.Live?)
    && (w.mode.Patch? <==> s.delta.Live?)
    && (w.mode.Undecided? ==> s.delta.Never?)
    && (w.mode.Patch? ==> w.slot.Open? && !s.finalized)
    && (w.slot.Open? && s.delta.Released? ==> s.finalized)
    && (s.delta.Never? ==> !s.finalized)
    && (s.booted ==> s.ended) && (s.ended ==> s.ota.Released?)
    && FirstCommitIsSound(s, Commits(w.finishes))
  }

  lemma OpenKeepsValid(w: Writer, o: Outcomes)
    requires Valid(w) && w.slot.Unopened?
    ensures Valid(OpenSlot(w, o).0) && (OpenSlot(w, o).1 ==> OpenSlot(w, o).0.slot.Open?)
  {
    OneMoreCall(w.calls, OtaBegin(o(|w.calls|)));
  }

  lemma DecideKeepsValid(w: Writer, first: byte, o: Outcomes)
    requires Valid(w) && !w.slot.Unopened?
    ensures Valid(Decide(w, first, o).0)
    ensures Decide(w, first, o).1 ==> !Decide(w, first, o).0.mode.Undecided?
    ensures Decide(w, first, o).0.slot == w.slot
  {
    if w.mode.Undecided? && Classify(first).Patch? && w.slot.Open? {
      var running := o(|w.calls|);
      OneMoreCall(w.calls, RunningPartition(running));
      var w1 := Called(w, RunningPartition(running));
      OneMoreCall(w1.calls, DeltaInit(o(|w1.calls|)));
    }
  }

  lemma FeedKeepsValid(w: Writer, chunk: seq<byte>, o: Outcomes)
    requires Valid(w) && !w.slot.Unopened? && !w.mode.Undecided?
    ensures Valid(FeedChunk(w, chunk, o).0)
  {
    var ok := o(|w.calls|);
    OneMoreCall(w.calls, if w.mode.Patch? then DeltaFeed(chunk, ok) else OtaWrite(chunk, ok));
  }

  lemma WriteKeepsValid(w: Writer, chunk: seq<byte>, o: Outcomes)
    requires Valid(w)
    ensures Valid(Write(w, chunk, o).0)
  {
    if chunk != [] {
      if w.slot.Unopened? {
        OpenKeepsValid(w, o);
      }
      var (w1, ready) := if w.slot.Unopened? then OpenSlot(w, o) else (w, true);
      if ready {
        DecideKeepsValid(w1, chunk[0], o);
        var (w2, decided) := Decide(w1, chunk[0], o);
        if decided {
          FeedKeepsValid(w2, chunk, o);
        }
      }
    }
  }

  /** Ending the slot now would end a patch that worked, if it is the first commit that asks. */
  predicate MayEndFirst(w: Writer) {
    var s := Replay(w.calls);
    && Commits(w.finishes) > 0
    && (Commits(w.finishes) == 1 && w.slot.Open? && !w.mode.Patch? ==> s.delta.Never? || s.patched)
  }

  lemma FinishPatchKeepsValid(w: Writer, o: Outcomes)
    requires Valid(w) && MayEndFirst(w)
    ensures
      var (w', ok) := FinishPatch(w, o);
      Valid(w') && !w'.mode.Patch? && (ok ==> MayEndFirst(w'))
  {
    if w.mode.Patch? {
      var ok := o(|w.calls|);
      OneMoreCall(w.calls, DeltaFinalize(ok));
      OneMoreCall(w.calls + [DeltaFinalize(ok)], DeltaDeinit);
    }
  }

  lemma EndKeepsValid(w: Writer, o: Outcomes)
    requires Valid(w) && !w.mode.Patch? && MayEndFirst(w)
    ensures Valid(EndSlot(w, o).0) && !EndSlot(w, o).0.mode.Patch?
  {
    if w.slot.Open? {
      var ended := o(|w.calls|);
      OneMoreCall(w.calls, OtaEnd(ended));
      var w1 := Called(w, OtaEnd(ended));
      OneMoreCall(w1.calls, SetBootPartition(o(|w1.calls|)));
    }
  }

  lemma CommitKeepsValid(w: Writer, o: Outcomes)
    requires Valid(w)
    ensures Valid(Commit(w, o).0) && !Commit(w, o).0.mode.Patch?
  {
    var w0 := w.(finishes := w.finishes + [Committed]);
    OneMoreFinish(w.finishes, Committed);
    FinishPatchKeepsValid(w0, o);
    if FinishPatch(w0, o).1 {
      EndKeepsValid(FinishPatch(w0, o).0, o);
    }
  }

  lemma AbortKeepsValid(w: Writer)
    requires Valid(w)
    ensures Valid(Abort(w)) && !Abort(w).mode.Patch? && Abort(w).slot.Finished?
  {
    OneMoreFinish(w.finishes, Aborted);
    OneMoreCall(w.calls, DeltaDeinit);
    var calls := if w.mode.Patch? then w.calls + [DeltaDeinit] else w.calls;
    OneMoreCall(calls, OtaAbort);
  }

  // ---------- Every sequence of calls on the writer ----------

  datatype Op = Feed(chunk: seq<byte>) | DoCommit | DoAbort

  function Perform(w: Writer, op: Op, o: Outcomes): Writer {
    match op
    case Feed(chunk) => Write(w, chunk, o).0
    case DoCommit => Commit(w, o).0
    case DoAbort => Abort(w)
  }

  function PerformAll(w: Writer, ops: seq<Op>, o: Outcomes): Writer
    decreases |ops|
  {
    if ops == [] then w else PerformAll(Perform(w, ops[0], o), ops[1..], o)
  }

  /**
   Whatever is asked of the writer, in whatever order, and however ESP-IDF's calls end, each
   call is made only when it is allowed, and no delta handle outlives a commit or an abort.
   */
  lemma {:induction false} EveryCallIsAllowed(w: Writer, ops: seq<Op>, o: Outcomes)
    requires Valid(w)
    ensures Legal(PerformAll(w, ops, o).calls) && Valid(PerformAll(w, ops, o))
    ensures ops != [] && !ops[|ops| - 1].Feed? ==> !Replay(PerformAll(w, ops, o).calls).delta.Live?
    decreases |ops|
  {
    if ops != [] {
      match ops[0] {
        case Feed(chunk) => WriteKeepsValid(w, chunk, o);
        case DoCommit => CommitKeepsValid(w, o);
        case DoAbort => AbortKeepsValid(w);
      }
      EveryCallIsAllowed(Perform(w, ops[0], o), ops[1..], o);
      if |ops| > 1 {
        assert ops[|ops| - 1] == ops[1..][|ops| - 2];
      }
    }
  }

  lemma NewWriterIsValid()
    ensures Valid(NEW_WRITER)
  {}

  /** An empty chunk touches nothing, and nothing is written once the update is finished. */
  lemma SlotIsLeftAlone(w: Writer, chunk: seq<byte>, o: Outcomes)
    requires Valid(w) && (chunk == [] || w.slot.Finished?)
    ensures Write(w, chunk, o).0.calls == w.calls
    ensures chunk != [] ==> !Write(w, chunk, o).1
  {}

  // What allowed calls come to, without the automaton.

  predicate Ends(call: Call) { call.OtaEnd? || call.OtaAbort? }

  predicate UsesSlot(call: Call) {
    call.OtaBegin? || call.OtaWrite? || Ends(call) || call.DeltaInit? || call.DeltaFeed? || call.DeltaFinalize?
  }

  predicate UsesDelta(call: Call) {
    call.DeltaInit? || call.DeltaFeed? || call.DeltaFinalize? || call.DeltaDeinit?
  }

  lemma {:induction false} ReleasedStaysReleased(calls: seq<Call>, i: nat)
    requires i <= |calls| && Legal(calls)
    ensures Replay(calls[..i]).ota.Released? ==> Replay(calls).ota.Released?
    ensures Replay(calls[..i]).delta.Released? ==> Replay(calls).delta.Released?
    ensures Replay(calls[..i]).booted ==> Replay(calls).booted
    ensures Replay(calls[..i]).ota.Live? ==> !Replay(calls).ota.Never?
  {
    if i < |calls| {
      var n := |calls| - 1;
      assert calls[..n][..i] == calls[..i];
      ReleasedStaysReleased(calls[..n], i);
    } else {
      assert calls[..i] == calls;
    }
  }

  lemma {:induction false} LegalPrefix(calls: seq<Call>, i: nat)
    requires i < |calls| && Legal(calls)
    ensures Legal(calls[..i]) && Allowed(Replay(calls[..i]), calls[i]) && Legal(calls[..i + 1])
    ensures Replay(calls[..i + 1]) == After(Replay(calls[..i]), calls[i])
  {
    if i < |calls| - 1 {
      assert calls[..|calls| - 1][..i] == calls[..i] && calls[..|calls| - 1][..i + 1] == calls[..i + 1];
      LegalPrefix(calls[..|calls| - 1], i);
    } else {
      assert calls[..i + 1] == calls;
    }
  }

  /** At most one slot is begun, and ended or aborted; at most one delta handle, released once. */
  lemma HandlesAreUsedOnce(calls: seq<Call>, i: nat, j: nat)
    requires Legal(calls) && i < j < |calls|
    ensures Ends(calls[i]) ==> !UsesSlot(calls[j])
    ensures calls[i] == OtaBegin(true) ==> !calls[j].OtaBegin?
    ensures calls[i].DeltaDeinit? ==> !UsesDelta(calls[j])
    ensures calls[i].SetBootPartition? ==> !calls[j].SetBootPartition?
  {
    LegalPrefix(calls, i);
    LegalPrefix(calls, j);
    assert calls[..j][..i + 1] == calls[..i + 1];
    ReleasedStaysReleased(calls[..j], i + 1);
  }

  lemma {:induction false} EndedMeans(calls: seq<Call>)
    requires Legal(calls)
    ensures Replay(calls).ended ==> OtaEnd(true) in calls
    ensures Replay(calls).finalized ==> exists ok :: DeltaFinalize(ok) in calls
  {
    if calls != [] {
      EndedMeans(calls[..|calls| - 1]);
    }
  }

  /** The boot slot is only ever set after the image has been ended, and found good. */
  lemma BootOnlyAfterEnd(calls: seq<Call>, j: nat)
    requires Legal(calls) && j < |calls| && calls[j].SetBootPartition?
    ensures OtaEnd(true) in calls[..j]
  {
    LegalPrefix(calls, j);
    EndedMeans(calls[..j]);
  }

  /** A slot that was patched is only ended after the patch was finalized, whatever came of that. */
  lemma FinalizeBeforeEnd(calls: seq<Call>, i: nat, j: nat)
    requires Legal(calls) && i < j < |calls| && calls[i] == DeltaInit(true) && calls[j].OtaEnd?
    ensures exists ok :: DeltaFinalize(ok) in calls[..j]
  {
    LegalPrefix(calls, i);
    LegalPrefix(calls, j);
    assert calls[..j][..i + 1] == calls[..i + 1];
    DeltaStaysBegun(calls[..j], i + 1);
    EndedMeans(calls[..j]);
  }

  lemma {:induction false} DeltaStaysBegun(calls: seq<Call>, i: nat)
    requires i <= |calls| && Legal(calls) && !Replay(calls[..i]).delta.Never?
    ensures !Replay(calls).delta.Never?
  {
    if i < |calls| {
      assert calls[..|calls| - 1][..i] == calls[..i];
      DeltaStaysBegun(calls[..|calls| - 1], i);
    } else {
      assert calls[..i] == calls;
    }
  }

  // ---------- A patch that did not finalize ----------

  /** What the automaton holds, as membership among the calls. */
  lemma {:induction false} ReplayMeans(calls: seq<Call>)
    requires Legal(calls)
    ensures Replay(calls).booted <==> exists ok :: SetBootPartition(ok) in calls
    ensures !Replay(calls).delta.Never? <==> DeltaInit(true) in calls
    ensures Replay(calls).patched <==> DeltaFinalize(true) in calls
    ensures Replay(calls).finalized <==> exists ok :: DeltaFinalize(ok) in calls
  {
    if calls != [] {
      var n := |calls| - 1;
      ReplayMeans(calls[..n]);
      assert forall call :: call in calls <==> call in calls[..n] || call == calls[n];
    }
  }

  /** A boot slot set for a patch that never finalized well. */
  ghost predicate BootsUnpatched(calls: seq<Call>) {
    (exists ok :: SetBootPartition(ok) in calls) && DeltaInit(true) in calls && DeltaFinalize(true) !in calls
  }

  predicate Unpatched(s: Idf) { s.booted && !s.delta.Never? && !s.patched }

  /** A commit gave up on the patch, and left the slot as it was. */
  predicate LeftOpen(w: Writer) { w.slot.Open? && DeltaFinalize(false) in w.calls }

  lemma UnpatchedMeans(w: Writer)
    requires Valid(w)
    ensures Unpatched(Replay(w.calls)) <==> BootsUnpatched(w.calls)
    ensures LeftOpen(w) <==> w.slot.Open? && Replay(w.calls).finalized && !Replay(w.calls).patched
  {
    ReplayMeans(w.calls);
    if DeltaFinalize(true) in w.calls && DeltaFinalize(false) in w.calls {
      FinalizedOnce(w.calls);
    }
  }

  lemma {:induction false} FinalizedOnce(calls: seq<Call>)
    requires Legal(calls)
    ensures !(DeltaFinalize(true) in calls && DeltaFinalize(false) in calls)
  {
    if calls != [] {
      var n := |calls| - 1;
      FinalizedOnce(calls[..n]);
      ReplayMeans(calls[..n]);
      assert forall call :: call in calls <==> call in calls[..n] || call == calls[n];
    }
  }

  /** The slot stays open after a commit exactly when it was patching, and finalizing failed. */
  lemma CommitLeavesOpen(w: Writer, o: Outcomes)
    requires Valid(w)
    ensures Commit(w, o).0.slot.Open? <==> w.mode.Patch? && !o(|w.calls|)
    ensures Commit(w, o).0.slot.Open? ==> LeftOpen(Commit(w, o).0) && !Commit(w, o).1
    ensures !Commit(w, o).0.slot.Open? ==> Commit(w, o).0.slot.Finished?
  {
    if w.mode.Patch? {
      var calls := w.calls + [DeltaFinalize(o(|w.calls|))] + [DeltaDeinit];
      assert calls[|w.calls|] == DeltaFinalize(o(|w.calls|));
    }
  }

  lemma FinishReplays(w: Writer, o: Outcomes)
    requires w.mode.Patch?
    ensures
      var (w', ok) := FinishPatch(w, o);
      && ok == o(|w.calls|) && w'.slot == w.slot
      && Replay(w'.calls) == After(After(Replay(w.calls), DeltaFinalize(ok)), DeltaDeinit)
  {
    hide Replay, After;
    OneMoreCall(w.calls, DeltaFinalize(o(|w.calls|)));
    OneMoreCall(w.calls + [DeltaFinalize(o(|w.calls|))], DeltaDeinit);
  }

  lemma EndReplays(w: Writer, o: Outcomes)
    ensures
      var s, n := Replay(w.calls), |w.calls|;
      Replay(EndSlot(w, o).0.calls)
      == if !w.slot.Open? then s
         else if !o(n) then After(s, OtaEnd(false))
         else After(After(s, OtaEnd(true)), SetBootPartition(o(n + 1)))
  {
    hide Replay, After;
    var n := |w.calls|;
    OneMoreCall(w.calls, OtaEnd(o(n)));
    OneMoreCall(w.calls + [OtaEnd(o(n))], SetBootPartition(o(n + 1)));
  }

  lemma CommitUnpatches(w: Writer, o: Outcomes)
    requires Valid(w)
    ensures Unpatched(Replay(Commit(w, o).0.calls)) <==>
              Unpatched(Replay(w.calls)) || (LeftOpen(w) && o(|w.calls|))
  {
    hide Replay, Legal, FinishPatch, EndSlot, LeftOpen;
    UnpatchedMeans(w);
    var w0 := w.(finishes := w.finishes + [Committed]);
    if w.mode.Patch? {
      FinishReplays(w0, o);
      EndReplays(FinishPatch(w0, o).0, o);
    } else {
      NothingToFinish(w0, o);
      EndReplays(w0, o);
    }
  }

  lemma NothingToFinish(w: Writer, o: Outcomes)
    requires !w.mode.Patch?
    ensures FinishPatch(w, o) == (w, true)
  {}

  lemma AbortUnpatchesNothing(w: Writer)
    requires Valid(w)
    ensures Unpatched(Replay(Abort(w).calls)) <==> Unpatched(Replay(w.calls))
  {
    hide Replay, Legal;
    OneMoreCall(w.calls, DeltaDeinit);
    OneMoreCall(if w.mode.Patch? then w.calls + [DeltaDeinit] else w.calls, OtaAbort);
  }

  /** A write boots nothing, and does not put an open slot right. */
  lemma WriteUnpatchesNothing(w: Writer, chunk: seq<byte>, o: Outcomes)
    requires Valid(w)
    ensures Unpatched(Replay(Write(w, chunk, o).0.calls)) <==> Unpatched(Replay(w.calls))
    ensures LeftOpen(w) ==> LeftOpen(Write(w, chunk, o).0)
  {
    hide Valid, Unpatched, Replay, Write;
    WriteGoesOn(w, chunk, o);
    if w.slot.Finished? || chunk == [] {
      SlotIsLeftAlone(w, chunk, o);
    } else {
      WriteKeepsValid(w, chunk, o);
      UnfinishedIsUnbooted(w);
      UnfinishedIsUnbooted(Write(w, chunk, o).0);
    }
  }

  lemma UnfinishedIsUnbooted(w: Writer)
    requires Valid(w) && !w.slot.Finished?
    ensures !Unpatched(Replay(w.calls))
  {}

  lemma WriteGoesOn(w: Writer, chunk: seq<byte>, o: Outcomes)
    ensures w.calls <= Write(w, chunk, o).0.calls
    ensures w.slot.Open? ==> Write(w, chunk, o).0.slot.Open?
    ensures !w.slot.Finished? ==> !Write(w, chunk, o).0.slot.Finished?
  {}

  lemma PerformUnpatches(w: Writer, op: Op, o: Outcomes)
    requires Valid(w)
    ensures Unpatched(Replay(Perform(w, op, o).calls)) <==>
              Unpatched(Replay(w.calls)) || (op.DoCommit? && LeftOpen(w) && o(|w.calls|))
  {
    hide Valid, Unpatched, LeftOpen, Replay;
    match op
    case Feed(chunk) => WriteUnpatchesNothing(w, chunk, o);
    case DoCommit => CommitUnpatches(w, o);
    case DoAbort => AbortUnpatchesNothing(w);
  }

  lemma {:induction false} PerformOneMore(w: Writer, ops: seq<Op>, op: Op, o: Outcomes)
    ensures PerformAll(w, ops + [op], o) == Perform(PerformAll(w, ops, o), op, o)
    decreases |ops|
  {
    hide Perform;
    if ops == [] {
      assert ops + [op] == [op] && [op][1..] == [];
    } else {
      assert (ops + [op])[1..] == ops[1..] + [op];
      PerformOneMore(Perform(w, ops[0], o), ops[1..], op, o);
    }
  }

  /** What a new writer comes to. */
  function Made(ops: seq<Op>, o: Outcomes): Writer { PerformAll(NEW_WRITER, ops, o) }

  lemma MadeIsValid(ops: seq<Op>, o: Outcomes)
    ensures Valid(Made(ops, o))
  {
    hide Valid, PerformAll, Legal;
    NewWriterIsValid();
    EveryCallIsAllowed(NEW_WRITER, ops, o);
  }

  /** The guard: a commit, of a slot that a failed finalize left open, that ends it well. */
  ghost predicate CommitsLeftOpen(ops: seq<Op>, k: nat, o: Outcomes) {
    k < |ops| && ops[k].DoCommit? && LeftOpen(Made(ops[..k], o)) && o(|Made(ops[..k], o).calls|)
  }

  /**
   Exactly when a slot is booted whose patch never finalized well: when a commit finds it left
   open by a commit before it, and ends it. That is so of every sequence of writes, commits and
   aborts of a new writer, and of every outcome.
   */
  lemma {:induction false} UnpatchedBootsExactly(ops: seq<Op>, o: Outcomes)
    ensures BootsUnpatched(Made(ops, o).calls) <==> exists k :: CommitsLeftOpen(ops, k, o)
  {
    hide Valid, Unpatched, LeftOpen, Replay, BootsUnpatched, PerformAll;
    MadeIsValid(ops, o);
    UnpatchedMeans(Made(ops, o));
    if ops == [] {
      NothingBooted(o);
    } else {
      var n := |ops| - 1;
      var w := Made(ops[..n], o);
      assert ops == ops[..n] + [ops[n]];
      PerformOneMore(NEW_WRITER, ops[..n], ops[n], o);
      MadeIsValid(ops[..n], o);
      UnpatchedMeans(w);
      PerformUnpatches(w, ops[n], o);
      UnpatchedBootsExactly(ops[..n], o);
      CommitsLeftOpenSplit(ops, n, o);
    }
  }

  lemma NothingBooted(o: Outcomes)
    ensures !BootsUnpatched(Made([], o).calls)
  {}

  lemma CommitsLeftOpenSplit(ops: seq<Op>, n: nat, o: Outcomes)
    requires n == |ops| - 1
    ensures (exists k :: CommitsLeftOpen(ops, k, o)) <==>
              (exists k :: CommitsLeftOpen(ops[..n], k, o)) || CommitsLeftOpen(ops, n, o)
  {
    hide Made, LeftOpen;
    forall k: nat | k < n ensures CommitsLeftOpen(ops, k, o) <==> CommitsLeftOpen(ops[..n], k, o) {
      assert ops[..n][..k] == ops[..k];
    }
  }

  function CommitsIn(ops: seq<Op>): nat {
    if ops == [] then 0 else CommitsIn(ops[..|ops| - 1]) + if ops[|ops| - 1].DoCommit? then 1 else 0
  }

  lemma {:induction false} CommitsAreFinishes(ops: seq<Op>, o: Outcomes)
    ensures Commits(Made(ops, o).finishes) == CommitsIn(ops)
  {
    hide Valid, PerformAll, Commits;
    if ops == [] {
      NoCommits(o);
    } else {
      var n := |ops| - 1;
      var w := Made(ops[..n], o);
      assert ops == ops[..n] + [ops[n]];
      PerformOneMore(NEW_WRITER, ops[..n], ops[n], o);
      CommitsAreFinishes(ops[..n], o);
      OneMoreFinish(w.finishes, Committed);
      OneMoreFinish(w.finishes, Aborted);
      PerformFinishes(w, ops[n], o);
    }
  }

  lemma NoCommits(o: Outcomes)
    ensures Commits(Made([], o).finishes) == 0
  {}

  lemma PerformFinishes(w: Writer, op: Op, o: Outcomes)
    ensures Perform(w, op, o).finishes
         == w.finishes + (if op.Feed? then [] else if op.DoCommit? then [Committed] else [Aborted])
  {
    match op
    case Feed(chunk) => WriteFeeds(w, chunk, o); assert w.finishes + [] == w.finishes;
    case DoCommit => CommitFeedsNothing(w, o);
    case DoAbort => AbortFeedsNothing(w);
  }

  /** Committing once at most, no slot is booted for a patch that did not finalize well. */
  lemma OneCommitBootsNoBadPatch(ops: seq<Op>, o: Outcomes)
    requires CommitsIn(ops) <= 1
    ensures !BootsUnpatched(Made(ops, o).calls)
  {
    hide Made, Replay, Legal, BootsUnpatched;
    var w := Made(ops, o);
    MadeIsValid(ops, o);
    CommitsAreFinishes(ops, o);
    UnpatchedMeans(w);
  }

  /** A writer that was asked to commit at most once boots no patch that did not finalize well. */
  lemma FirstCommitBootsNoBadPatch(w: Writer)
    requires Valid(w) && Commits(w.finishes) <= 1
    ensures !BootsUnpatched(w.calls)
  {
    hide Replay, Legal, BootsUnpatched;
    UnpatchedMeans(w);
  }

  lemma {:induction false} FeedsLeaveItOpen(w: Writer, feeds: seq<Op>, o: Outcomes)
    requires Valid(w) && LeftOpen(w) && forall i :: 0 <= i < |feeds| ==> feeds[i].Feed?
    ensures LeftOpen(PerformAll(w, feeds, o))
    decreases |feeds|
  {
    hide Valid, LeftOpen, Write;
    if feeds != [] {
      WriteUnpatchesNothing(w, feeds[0].chunk, o);
      WriteKeepsValid(w, feeds[0].chunk, o);
      FeedsLeaveItOpen(Write(w, feeds[0].chunk, o).0, feeds[1..], o);
    }
  }

  /**
   The other half: after a commit whose finalize failed, with nothing but writes between, the
   next commit boots the slot if ending it works. So it matters that `install` commits once.
   */
  lemma SecondCommitSkipsAFailedFinalize(before: seq<Op>, feeds: seq<Op>, o: Outcomes)
    requires forall i :: 0 <= i < |feeds| ==> feeds[i].Feed?
    requires Made(before, o).mode.Patch? && !o(|Made(before, o).calls|)
    requires o(|Made(before + [DoCommit] + feeds, o).calls|)
    ensures LeftOpen(Made(before + [DoCommit] + feeds, o))
    ensures BootsUnpatched(Made(before + [DoCommit] + feeds + [DoCommit], o).calls)
  {
    hide Valid, LeftOpen, Commit, BootsUnpatched, PerformAll;
    MadeIsValid(before, o);
    CommitLeavesOpen(Made(before, o), o);
    PerformOneMore(NEW_WRITER, before, DoCommit, o);
    MadeIsValid(before + [DoCommit], o);
    PerformSplit(NEW_WRITER, before + [DoCommit], feeds, o);
    FeedsLeaveItOpen(Made(before + [DoCommit], o), feeds, o);
    var ops := before + [DoCommit] + feeds + [DoCommit];
    var k := |ops| - 1;
    assert ops[..k] == before + [DoCommit] + feeds;
    assert CommitsLeftOpen(ops, k, o);
    UnpatchedBootsExactly(ops, o);
  }

  lemma {:induction false} PerformSplit(w: Writer, a: seq<Op>, b: seq<Op>, o: Outcomes)
    ensures PerformAll(w, a + b, o) == PerformAll(PerformAll(w, a, o), b, o)
    decreases |a|
  {
    hide Perform;
    if a == [] {
      assert a + b == b;
    } else {
      assert (a + b)[1..] == a[1..] + b;
      PerformSplit(Perform(w, a[0], o), a[1..], b, o);
    }
  }

  /** And such a commit there is: one byte of a patch, a finalize that fails, and another try. */
  lemma AFailedPatchCanBoot(first: byte) returns (o: Outcomes)
    requires Classify(first).Patch?
    ensures var w := Made([Feed([first]), DoCommit], o); w.slot.Open? && w.finishes == [Committed]
    ensures BootsUnpatched(Made([Feed([first]), DoCommit, DoCommit], o).calls)
  {
    hide Valid, Commit, BootsUnpatched, LeftOpen;
    o := n => n != 4;
    var w := Made([Feed([first])], o);
    FirstByteOfAPatch(first, o);
    assert [Feed([first])] + [DoCommit] == [Feed([first]), DoCommit];
    PerformOneMore(NEW_WRITER, [Feed([first])], DoCommit, o);
    CommitCalls(w, o);
    MadeIsValid([Feed([first])], o);
    CommitLeavesOpen(w, o);
    assert [Feed([first])] + [DoCommit] + [] == [Feed([first]), DoCommit];
    assert [Feed([first])] + [DoCommit] + [] + [DoCommit] == [Feed([first]), DoCommit, DoCommit];
    SecondCommitSkipsAFailedFinalize([Feed([first])], [], o);
  }

  lemma FirstByteOfAPatch(first: byte, o: Outcomes)
    requires Classify(first).Patch? && o(0) && o(1) && o(2) && o(3)
    ensures var w := Made([Feed([first])], o); w.mode.Patch? && |w.calls| == 4 && w.finishes == []
  {
    assert [Feed([first])][1..] == [];
    assert Made([Feed([first])], o) == PerformAll(Perform(NEW_WRITER, Feed([first]), o), [], o);
  }

  lemma CommitCalls(w: Writer, o: Outcomes)
    requires w.mode.Patch? && !o(|w.calls|)
    ensures |Commit(w, o).0.calls| == |w.calls| + 2 && Commit(w, o).0.finishes == w.finishes + [Committed]
  {}

  // ---------- What is fed ----------

  function FedBy(call: Call): seq<byte> {
    match call
    case OtaWrite(bytes, ok) => if ok then bytes else []
    case DeltaFeed(patch, ok) => if ok then patch else []
    case _ => []
  }

  function Fed(calls: seq<Call>): seq<byte> {
    if calls == [] then [] else Fed(calls[..|calls| - 1]) + FedBy(calls[|calls| - 1])
  }

  function Boots(calls: seq<Call>): nat {
    if calls == [] then 0 else
      Boots(calls[..|calls| - 1]) + if calls[|calls| - 1].SetBootPartition? then 1 else 0
  }

  predicate Feeding(call: Call) { (call.OtaWrite? || call.DeltaFeed?) && call.ok }

  /** How many chunks have been taken. */
  function Feeds(calls: seq<Call>): nat {
    if calls == [] then 0 else Feeds(calls[..|calls| - 1]) + if Feeding(calls[|calls| - 1]) then 1 else 0
  }

  lemma OneMoreFed(calls: seq<Call>, call: Call)
    ensures Fed(calls + [call]) == Fed(calls) + FedBy(call)
    ensures Feeds(calls + [call]) == Feeds(calls) + if Feeding(call) then 1 else 0
    ensures Boots(calls + [call]) == Boots(calls) + if call.SetBootPartition? then 1 else 0
  {
    assert (calls + [call])[..|calls|] == calls;
  }

  /** `w'` has come from `w` without feeding, booting or finishing. */
  predicate FeedsNothing(w: Writer, w': Writer) {
    && Fed(w'.calls) == Fed(w.calls) && Feeds(w'.calls) == Feeds(w.calls)
    && Boots(w'.calls) == Boots(w.calls) && w'.finishes == w.finishes && w'.written == w.written
  }

  lemma OpenFeedsNothing(w: Writer, o: Outcomes)
    ensures FeedsNothing(w, OpenSlot(w, o).0)
  {
    OneMoreFed(w.calls, OtaBegin(o(|w.calls|)));
  }

  lemma DecideFeedsNothing(w: Writer, first: byte, o: Outcomes)
    ensures FeedsNothing(w, Decide(w, first, o).0)
  {
    QuietCalls(w.calls, RunningPartition(o(|w.calls|)), DeltaInit(o(|w.calls| + 1)));
  }

  lemma QuietCalls(calls: seq<Call>, a: Call, b: Call)
    requires FedBy(a) == [] && FedBy(b) == [] && !Feeding(a) && !Feeding(b) && !a.SetBootPartition?
    ensures Fed(calls + [a]) == Fed(calls) && Boots(calls + [a]) == Boots(calls)
    ensures Feeds(calls + [a]) == Feeds(calls) && Feeds(calls + [a] + [b]) == Feeds(calls)
    ensures Fed(calls + [a] + [b]) == Fed(calls)
    ensures Boots(calls + [a] + [b]) == Boots(calls) + if b.SetBootPartition? then 1 else 0
  {
    OneMoreFed(calls, a);
    OneMoreFed(calls + [a], b);
  }

  lemma FeedChunkFeeds(w: Writer, chunk: seq<byte>, o: Outcomes)
    ensures
      var (w', ok) := FeedChunk(w, chunk, o);
      && Fed(w'.calls) == Fed(w.calls) + (if ok then chunk else [])
      && Feeds(w'.calls) == Feeds(w.calls) + (if ok then 1 else 0)
      && Boots(w'.calls) == Boots(w.calls) && w'.finishes == w.finishes
      && w'.written == w.written + if ok then |chunk| else 0
  {
    var ok := o(|w.calls|);
    OneMoreFed(w.calls, if w.mode.Patch? then DeltaFeed(chunk, ok) else OtaWrite(chunk, ok));
  }

  /** A write that succeeds feeds its chunk; one that fails feeds nothing; neither boots. */
  lemma WriteFeeds(w: Writer, chunk: seq<byte>, o: Outcomes)
    ensures
      var (w', ok) := Write(w, chunk, o);
      && Fed(w'.calls) == Fed(w.calls) + (if ok then chunk else [])
      && Feeds(w'.calls) == Feeds(w.calls) + (if ok && chunk != [] then 1 else 0)
      && Boots(w'.calls) == Boots(w.calls) && w'.finishes == w.finishes
      && w'.written == w.written + if ok then |chunk| else 0
  {
    if chunk != [] {
      OpenFeedsNothing(w, o);
      var (w1, ready) := if w.slot.Unopened? then OpenSlot(w, o) else (w, true);
      if ready {
        DecideFeedsNothing(w1, chunk[0], o);
        FeedChunkFeeds(Decide(w1, chunk[0], o).0, chunk, o);
      }
    }
  }

  lemma FinishPatchFeedsNothing(w: Writer, o: Outcomes)
    ensures FeedsNothing(w, FinishPatch(w, o).0)
  {
    QuietCalls(w.calls, DeltaFinalize(o(|w.calls|)), DeltaDeinit);
  }

  lemma CommitFeedsNothing(w: Writer, o: Outcomes)
    ensures
      var (w', ok) := Commit(w, o);
      && Fed(w'.calls) == Fed(w.calls) && Feeds(w'.calls) == Feeds(w.calls)
      && Boots(w.calls) <= Boots(w'.calls) <= Boots(w.calls) + 1
      && w'.finishes == w.finishes + [Committed]
      && (ok ==> Boots(w'.calls) == Boots(w.calls) + 1)
  {
    var w0 := w.(finishes := w.finishes + [Committed]);
    FinishPatchFeedsNothing(w0, o);
    EndFeedsNothing(FinishPatch(w0, o).0, o);
  }

  lemma EndFeedsNothing(w: Writer, o: Outcomes)
    ensures
      var (w', ok) := EndSlot(w, o);
      && Fed(w'.calls) == Fed(w.calls) && Feeds(w'.calls) == Feeds(w.calls) && w'.finishes == w.finishes
      && Boots(w.calls) <= Boots(w'.calls) <= Boots(w.calls) + 1
      && (ok ==> Boots(w'.calls) == Boots(w.calls) + 1)
  {
    QuietCalls(w.calls, OtaEnd(o(|w.calls|)), SetBootPartition(o(|w.calls| + 1)));
  }

  lemma AbortFeedsNothing(w: Writer)
    ensures Fed(Abort(w).calls) == Fed(w.calls) && Feeds(Abort(w).calls) == Feeds(w.calls)
    ensures Boots(Abort(w).calls) == Boots(w.calls)
    ensures Abort(w).finishes == w.finishes + [Aborted]
  {
    QuietCalls(w.calls, DeltaDeinit, OtaAbort);
    OneMoreFed(w.calls, OtaAbort);
  }

  // ---------- What succeeds ----------

  predicate Went(call: Call) { call.OtaAbort? || call.DeltaDeinit? || call.ok }

  /** What has been called since, all of which went well. */
  predicate AllWent(calls: seq<Call>) { forall i :: 0 <= i < |calls| ==> Went(calls[i]) }

  function Since(before: Writer, after: Writer): seq<Call>
    requires before.calls <= after.calls
  {
    after.calls[|before.calls|..]
  }

  /** A write fails only because a call did, or because there is no slot left to write to. */
  lemma WriteSucceedsExactly(w: Writer, chunk: seq<byte>, o: Outcomes)
    requires Valid(w)
    ensures
      var (w', ok) := Write(w, chunk, o);
      && w.calls <= w'.calls
      && (ok <==> chunk == [] || (Since(w, w') != [] && AllWent(Since(w, w'))))
      && (ok && chunk != [] ==>
            w'.calls[|w'.calls| - 1] == if w'.mode.Patch? then DeltaFeed(chunk, true) else OtaWrite(chunk, true))
      && (ok && chunk != [] && w.mode.Undecided? ==> (w'.mode.Patch? <==> chunk[0] != 0xE9))
      && (!w.mode.Undecided? ==> w'.mode == w.mode)
  {
    hide Replay, Legal;
    if chunk != [] {
      var (w1, ready) := if w.slot.Unopened? then OpenSlot(w, o) else (w, true);
      OpeningGoes(w, w1, ready, o);
      if ready {
        var (w2, decided) := Decide(w1, chunk[0], o);
        DecidingGoes(w1, w2, decided, chunk[0], o);
        Then(w, w1, w2, decided);
        if decided {
          var (w3, fed) := FeedChunk(w2, chunk, o);
          FeedingGoes(w2, w3, fed, chunk, o);
          Then(w, w2, w3, fed);
        }
      }
    }
  }

  /** It went on from there, to the first call that failed if one did. */
  predicate Goes(before: Writer, after: Writer, ok: bool) {
    && before.calls <= after.calls
    && (ok ==> AllWent(Since(before, after)))
    && (!ok && after.calls != before.calls ==> !Went(after.calls[|after.calls| - 1]))
  }

  lemma Then(w: Writer, w1: Writer, w2: Writer, ok: bool)
    requires Goes(w, w1, true) && Goes(w1, w2, ok) && (!ok ==> w2.calls != w1.calls || w1.calls == w.calls)
    ensures Goes(w, w2, ok)
    ensures !ok && w2.calls != w.calls ==> !AllWent(Since(w, w2))
  {
    assert Since(w, w2) == Since(w, w1) + Since(w1, w2);
    if w2.calls != w.calls {
      assert Since(w, w2)[|Since(w, w2)| - 1] == w2.calls[|w2.calls| - 1];
    }
  }

  lemma OpeningGoes(w: Writer, w1: Writer, ready: bool, o: Outcomes)
    requires (w1, ready) == if w.slot.Unopened? then OpenSlot(w, o) else (w, true)
    ensures Goes(w, w1, ready) && (!ready ==> !AllWent(Since(w, w1)))
    ensures w1.mode == w.mode && (ready ==> w1.calls == w.calls || w1.slot.Open?)
  {
    if w.slot.Unopened? {
      assert Since(w, w1) == [OtaBegin(ready)];
    }
  }

  lemma DecidingGoes(w: Writer, w1: Writer, decided: bool, first: byte, o: Outcomes)
    requires (w1, decided) == Decide(w, first, o)
    ensures Goes(w, w1, decided) && (!decided ==> w1.calls != w.calls || !w.slot.Open?) && w1.slot == w.slot
    ensures decided && w.mode.Undecided? ==> (w1.mode.Patch? <==> first != 0xE9)
    ensures w1.calls != w.calls && decided ==> w1.mode.Patch?
  {
    if w1.calls != w.calls {
      var running := o(|w.calls|);
      assert Since(w, w1)
          == if running then [RunningPartition(true), DeltaInit(decided)] else [RunningPartition(false)];
    }
  }

  lemma FeedingGoes(w: Writer, w1: Writer, fed: bool, chunk: seq<byte>, o: Outcomes)
    requires (w1, fed) == FeedChunk(w, chunk, o)
    ensures Goes(w, w1, fed) && w1.mode == w.mode && (w1.calls == w.calls <==> !w.mode.Patch? && !w.slot.Open?)
    ensures fed ==> w1.calls == w.calls + [if w.mode.Patch? then DeltaFeed(chunk, true) else OtaWrite(chunk, true)]
  {
    if w1.calls != w.calls {
      assert Since(w, w1) == [if w.mode.Patch? then DeltaFeed(chunk, fed) else OtaWrite(chunk, fed)];
    }
  }

  /** A commit fails only because a call did, or because there is no slot to end; and leaves none out. */
  lemma CommitSucceedsExactly(w: Writer, o: Outcomes)
    ensures
      var (w', ok) := Commit(w, o);
      && w.calls <= w'.calls
      && (ok <==> w.slot.Open? && AllWent(Since(w, w')))
      && (ok ==> Since(w, w') == (if w.mode.Patch? then [DeltaFinalize(true), DeltaDeinit] else [])
                                 + [OtaEnd(true), SetBootPartition(true)])
  {
    var (w1, finished) := FinishPatch(w.(finishes := w.finishes + [Committed]), o);
    var (w', ok) := Commit(w, o);
    var patch := if w.mode.Patch? then [DeltaFinalize(o(|w.calls|)), DeltaDeinit] else [];
    assert w1.calls == w.calls + patch;
    if !finished {
      assert Since(w, w')[0] == DeltaFinalize(false);
    } else if w.slot.Open? {
      var ended := o(|w1.calls|);
      var more := [OtaEnd(ended)] + if ended then [SetBootPartition(o(|w1.calls| + 1))] else [];
      assert w'.calls == w.calls + (patch + more);
      assert Since(w, w') == patch + more;
      assert !ended ==> Since(w, w')[|patch|] == OtaEnd(false);
      assert ended ==> Since(w, w')[|patch| + 1] == SetBootPartition(o(|w1.calls| + 1));
    }
  }

  /** An abort lets go of whatever is held, and of nothing else. */
  lemma AbortLetsGo(w: Writer)
    requires Valid(w)
    ensures
      var s, s' := Replay(w.calls), Replay(Abort(w).calls);
      && !s'.ota.Live? && !s'.delta.Live?
      && (s.ota.Live? ==> Abort(w).calls[|Abort(w).calls| - 1] == OtaAbort)
      && (!s.ota.Live? ==> Abort(w).calls == w.calls)
  {
    AbortKeepsValid(w);
    hide Replay, Legal;
  }

  /** A flash, and a bootloader, that do all that they are asked to. */
  ghost predicate Sturdy(o: Outcomes) { forall n: nat :: o(n) }

  /** Such a flash takes every chunk, until the writer is finished with. */
  lemma ASturdyFlashTakesAll(w: Writer, chunk: seq<byte>, o: Outcomes)
    requires Valid(w) && Sturdy(o) && !w.slot.Finished?
    ensures
      var (w', ok) := Write(w, chunk, o);
      ok && !w'.slot.Finished? && (chunk != [] || w.slot.Open? ==> w'.slot.Open?)
  {
    hide Replay, Legal;
  }

  /** And then it commits. */
  lemma ASturdyFlashCommits(w: Writer, o: Outcomes)
    requires Sturdy(o) && w.slot.Open?
    ensures Commit(w, o).1
  {}

  function WriteAll(w: Writer, chunks: seq<seq<byte>>, o: Outcomes): Writer
    decreases |chunks|
  {
    if chunks == [] then w else WriteAll(Write(w, chunks[0], o).0, chunks[1..], o)
  }

  /** What a writer has come to, having been given `bytes` with nothing failing. */
  predicate HasTaken(w: Writer, bytes: seq<byte>) {
    && Fed(w.calls) == bytes && w.written == |bytes|
    && w.mode == (if bytes == [] then Undecided else if bytes[0] == 0xE9 then Image else Patch)
    && w.slot == (if bytes == [] then Unopened else Open)
    && forall i :: 0 <= i < |w.calls| ==>
         (w.calls[i].OtaWrite? ==> w.mode.Image?) && (w.calls[i].DeltaFeed? ==> w.mode.Patch?)
  }

  lemma WriteTakes(w: Writer, bytes: seq<byte>, chunk: seq<byte>, o: Outcomes)
    requires HasTaken(w, bytes) && forall n :: o(n)
    ensures HasTaken(Write(w, chunk, o).0, bytes + chunk) && Write(w, chunk, o).1
  {
    WriteFeeds(w, chunk, o);
    WriteDecides(w, chunk, o);
    if chunk == [] {
      assert bytes + chunk == bytes;
    } else {
      assert (bytes + chunk)[0] == if bytes == [] then chunk[0] else bytes[0];
    }
  }

  lemma WriteDecides(w: Writer, chunk: seq<byte>, o: Outcomes)
    requires (forall n :: o(n)) && !w.slot.Finished? && (w.mode.Patch? ==> w.slot.Open?)
    ensures
      var (w', ok) := Write(w, chunk, o);
      && ok
      && (chunk != [] ==> w'.slot.Open? && w'.mode == if w.mode.Undecided? then Classify(chunk[0]) else w.mode)
      && (forall i :: 0 <= i < |w'.calls| ==>
            || (i < |w.calls| && w'.calls[i] == w.calls[i])
            || ((w'.calls[i].OtaWrite? ==> w'.mode.Image?) && (w'.calls[i].DeltaFeed? ==> w'.mode.Patch?)))
  {}

  /** When nothing fails, only the bytes matter, not how they were cut into chunks. */
  lemma {:induction false} ChunkingDoesNotMatter(w: Writer, bytes: seq<byte>, chunks: seq<seq<byte>>, o: Outcomes)
    requires HasTaken(w, bytes) && forall n :: o(n)
    ensures HasTaken(WriteAll(w, chunks, o), bytes + Concat(chunks))
    decreases |chunks|
  {
    if chunks == [] {
      assert bytes + Concat(chunks) == bytes;
    } else {
      WriteTakes(w, bytes, chunks[0], o);
      ChunkingDoesNotMatter(Write(w, chunks[0], o).0, bytes + chunks[0], chunks[1..], o);
      assert bytes + chunks[0] + Concat(chunks[1..]) == bytes + Concat(chunks);
    }
  }
}
