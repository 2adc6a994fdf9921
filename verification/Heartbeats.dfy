/** Heartbeats: answered before the next, or the session is over (src/agent.rs, src/link.rs). */
module Heartbeats {
  import opened Common
  import opened Decimal
  import opened Protocol
  import opened SessionTheorems

  predicate IsBeat(e: Event) { e.Sent? && e.content.Heartbeat? }

  /** Any reply to that ref will do, whatever its status. */
  predicate Answers(e: Event, ref: string) {
    e.Received? && e.message.topic.Phoenix? && e.message.body.Reply? && e.message.ref == Some(ref)
  }

  predicate NoBeats(run: seq<Event>, from: nat, to: nat)
    requires to <= |run|
  {
    forall k :: from <= k < to ==> !IsBeat(run[k])
  }

  ghost predicate AnsweredBy(run: seq<Event>, i: nat, ref: string) {
    exists k :: i < k < |run| && Answers(run[k], ref)
  }

  /** The link remembers the last heartbeat until it is answered, and no longer. */
  lemma {:induction false} LastBeatIsKnown(c: Config, run: seq<Event>, i: nat)
    requires Lawful(c, run) && i < |run| && IsBeat(run[i]) && NoBeats(run, i + 1, |run|)
    ensures Fold(c, run).link.heartbeat == if AnsweredBy(run, i, run[i].ref) then None else Some(run[i].ref)
    decreases |run|
  {
    hide Next, Allowed, AnsweredBy;
    var n := |run| - 1;
    var h, e := Fold(c, run[..n]), run[n];
    BeatStep(c, h, e);
    if i < n {
      assert run[..n][i] == run[i] && NoBeats(run[..n], i + 1, n) && !IsBeat(e);
      LastBeatIsKnown(c, run[..n], i);
      AnsweredStep(run[..n], e, i, run[i].ref);
      assert run[..n] + [e] == run;
    } else {
      NotAnsweredYet(run, run[i].ref);
    }
  }

  lemma BeatStep(c: Config, h: History, e: Event)
    requires Allowed(c, h, e)
    ensures
      var owed := h.link.heartbeat;
      Next(c, h, e).link.heartbeat
      == if IsBeat(e) then Some(e.ref) else if owed.Some? && Answers(e, owed.value) then None else owed
  {
    hide Next, Allowed, MaySend, NextRef;
    ChannelsStep(c, h, e);
    if e.Sent? {
      SentMeans(c, h, e);
    }
  }

  lemma NotAnsweredYet(run: seq<Event>, ref: string)
    requires run != []
    ensures !AnsweredBy(run, |run| - 1, ref)
  {}

  lemma AnsweredStep(run: seq<Event>, e: Event, i: nat, ref: string)
    requires i < |run|
    ensures AnsweredBy(run + [e], i, ref) <==> AnsweredBy(run, i, ref) || Answers(e, ref)
  {
    var all := run + [e];
    if AnsweredBy(run, i, ref) {
      var k :| i < k < |run| && Answers(run[k], ref);
      assert Answers(all[k], ref);
    }
    if Answers(e, ref) {
      assert Answers(all[|run|], ref);
    }
    if AnsweredBy(all, i, ref) {
      var k :| i < k < |all| && Answers(all[k], ref);
      assert k < |run| ==> Answers(run[k], ref);
    }
  }

  // ---------- Where a heartbeat may be sent ----------

  /** A download has begun, and has not ended. */
  predicate Installing(run: seq<Event>) {
    run != []
    && match run[|run| - 1]
       case Began(ok) => ok
       case Installed(_) => false
       case _ => Installing(run[..|run| - 1])
  }

  predicate InDownload(duty: Duty) { duty.Begun? || duty.Downloading? }

  lemma DownloadStep(c: Config, h: History, e: Event)
    requires Sane(h) && Allowed(c, h, e) && InDownload(Next(c, h, e).duty)
    ensures e == Began(true) || (InDownload(h.duty) && !e.Began? && !e.Installed?)
  {
    hide Next, Allowed, Sane;
    if e.Sent? || e.Clock? {
      DownloadWhenSending(c, h, e);
    } else {
      DownloadOtherwise(c, h, e);
    }
  }

  lemma DownloadWhenSending(c: Config, h: History, e: Event)
    requires Sane(h) && Allowed(c, h, e) && (e.Sent? || e.Clock?) && InDownload(Next(c, h, e).duty)
    ensures InDownload(h.duty)
  {
    hide Next, Allowed, AfterSend, NextRef, Label;
    if e.Sent? {
      SentMeans(c, h, e);
    } else {
      ReadMeans(c, h, e);
    }
  }

  lemma DownloadOtherwise(c: Config, h: History, e: Event)
    requires Sane(h) && Allowed(c, h, e) && !e.Sent? && !e.Clock? && InDownload(Next(c, h, e).duty)
    ensures e == Began(true) || (InDownload(h.duty) && !e.Began? && !e.Installed?)
  {
    hide Calls, Heard, ReaderAfter, MayReceive, Sane, LogsCount, Lingered, OnSent, OnClock, MaySend, MayRead;
    if e.Received? {
      ReceivedCalls(c, h, e.message);
      CallsArePlain(c, h.link, h.reader, e.message);
    }
  }

  lemma {:induction false} DownloadsAreSeen(c: Config, run: seq<Event>)
    requires Lawful(c, run) && InDownload(Fold(c, run).duty)
    ensures Installing(run)
    decreases |run|
  {
    hide Next, Allowed, Sane;
    if run != [] {
      var n := |run| - 1;
      SaneAlways(c, run[..n]);
      DownloadStep(c, Fold(c, run[..n]), run[n]);
      if run[n] != Began(true) {
        DownloadsAreSeen(c, run[..n]);
      }
    }
  }

  lemma BeatingMeans(c: Config, h: History, e: Event)
    requires Sane(h) && Allowed(c, h, e) && IsBeat(e)
    ensures h.due && (h.duty.Downloading? || (h.duty.Idle? && h.link.heartbeat == None))
    ensures e.ref == NextRef(h.link)
  {
    hide NextRef, Label;
  }

  /**
   Outside a download no heartbeat goes out while the last is unanswered: between two of them
   that follow one another there is a reply to the first.
   */
  lemma HeartbeatsAreAnswered(c: Config, run: seq<Event>, i: nat, j: nat)
    requires Lawful(c, run) && i < j < |run| && IsBeat(run[i]) && IsBeat(run[j])
    requires NoBeats(run, i + 1, j) && !Installing(run[..j])
    ensures exists k :: i < k < j && Answers(run[k], run[i].ref)
  {
    hide Next, Sane, Lawful, Fold, Allowed, Installing;
    StepAt(c, run, j);
    var before := run[..j];
    SaneAlways(c, before);
    BeatingMeans(c, Fold(c, before), run[j]);
    if Fold(c, before).duty.Downloading? {
      DownloadsAreSeen(c, before);
    } else {
      LastBeatIsKnown(c, before, i);
      var k :| i < k < |before| && Answers(before[k], run[i].ref);
      assert Answers(run[k], run[i].ref);
    }
  }

  // ---------- Refs ----------

  function Sends(run: seq<Event>): nat {
    if run == [] then 0 else Sends(run[..|run| - 1]) + if run[|run| - 1].Sent? then 1 else 0
  }

  lemma {:induction false} RefsAreCounted(c: Config, run: seq<Event>)
    requires Lawful(c, run)
    ensures Fold(c, run).link.next == Sends(run) % U64
    decreases |run|
  {
    hide Next, Allowed, NextRef, AfterSend, Heard;
    if run != [] {
      var n := |run| - 1;
      RefsAreCounted(c, run[..n]);
      ChannelsStep(c, Fold(c, run[..n]), run[n]);
      OneRefEach(Fold(c, run[..n]).link, run[n], Sends(run[..n]));
    }
  }

  lemma OneRefEach(link: Channels, e: Event, sends: nat)
    requires link.next == sends % U64
    ensures e.Sent? ==> AfterSend(link, e.content).next == (sends + 1) % U64
    ensures e.Received? ==> Heard(link, e.message).next == link.next
  {
    hide NextRef;
  }

  lemma {:induction false} SendsGrow(run: seq<Event>, i: nat)
    requires i < |run| && run[i].Sent?
    ensures Sends(run[..i]) + 1 <= Sends(run)
    decreases |run|
  {
    var n := |run| - 1;
    if i < n {
      assert run[..n][..i] == run[..i];
      SendsGrow(run[..n], i);
    }
  }

  /** The ref of each message is its number, in decimal: the first is 1, and after 2^64 - 1 comes 0. */
  lemma RefsCountMessages(c: Config, run: seq<Event>, i: nat)
    requires Lawful(c, run) && i < |run| && run[i].Sent?
    ensures run[i].ref == Unsigned((Sends(run[..i]) + 1) % 0x1_0000_0000_0000_0000)
  {
    hide Next, Fold, Lawful, MaySend, Label, NextRef, Unsigned, Sends;
    StepAt(c, run, i);
    RefsAreCounted(c, run[..i]);
    NextRefIs(Fold(c, run[..i]).link, Sends(run[..i]));
  }

  lemma NextRefIs(link: Channels, sends: nat)
    requires link.next == sends % U64
    ensures NextRef(link) == Unsigned((sends + 1) % U64)
  {
    hide Unsigned;
  }

  /** While fewer than 2^64 messages have gone out, no two have had the same ref. */
  lemma RefsNeverRepeat(c: Config, run: seq<Event>, i: nat, j: nat)
    requires Lawful(c, run) && i < j < |run| && run[i].Sent? && run[j].Sent? && Sends(run) < U64
    ensures run[i].ref != run[j].ref
  {
    hide Lawful, Sends, Unsigned;
    RefsCountMessages(c, run, i);
    RefsCountMessages(c, run, j);
    assert run[..j][..i] == run[..i];
    SendsGrow(run[..j], i);
    SendsGrow(run, j);
    RefsDiffer(Sends(run[..i]), Sends(run[..j]));
  }

  lemma RefsDiffer(a: nat, b: nat)
    requires a < b && b + 1 < U64
    ensures Unsigned((a + 1) % U64) != Unsigned((b + 1) % U64)
  {
    hide Unsigned;
    if Unsigned((a + 1) % U64) == Unsigned((b + 1) % U64) {
      UnsignedIsInjective((a + 1) % U64, (b + 1) % U64);
    }
  }

  /** A late reply to an older heartbeat leaves the newest unanswered. */
  lemma OldRepliesDoNotCount(c: Config, run: seq<Event>, i: nat, j: nat, reply: Event)
    requires Lawful(c, run) && i < j < |run| && IsBeat(run[i]) && IsBeat(run[j]) && NoBeats(run, j + 1, |run|)
    requires Sends(run) < U64 && Answers(reply, run[i].ref)
    ensures Next(c, Fold(c, run), reply).link.heartbeat == Fold(c, run).link.heartbeat
  {
    hide Next, Lawful, Sends, Fold;
    RefsNeverRepeat(c, run, i, j);
    LastBeatIsKnown(c, run, j);
    ChannelsStep(c, Fold(c, run), reply);
  }

  // ---------- Silence ----------

  /** Nothing is going on that would give the connection an interval afresh. */
  predicate Waiting(h: History, ref: string, since: nat) {
    Steady(h.duty) && Sane(h) && h.link.heartbeat == Some(ref) && h.loop.lastHeartbeat == since
  }

  lemma WaitingStep(c: Config, h: History, e: Event, ref: string, since: nat)
    requires Waiting(h, ref, since) && Allowed(c, h, e) && !e.Began? && !Answers(e, ref)
    ensures Waiting(Next(c, h, e), ref, since)
  {
    hide Next, Allowed, Sane, Steady;
    SaneStep(c, h, e);
    ChannelsStep(c, h, e);
    if e.Sent? {
      SteadyWhenSending(c, h, e);
    } else if e.Clock? {
      SteadyWhenReading(c, h, e);
    } else {
      SteadyOtherwise(c, h, e);
    }
  }

  lemma SteadyWhenSending(c: Config, h: History, e: Event)
    requires Steady(h.duty) && Sane(h) && h.link.heartbeat.Some? && Allowed(c, h, e) && e.Sent?
    ensures Steady(Next(c, h, e).duty) && Next(c, h, e).loop.lastHeartbeat == h.loop.lastHeartbeat && !IsBeat(e)
  {
    hide Next, Allowed, AfterSend, NextRef, Label;
    SentMeans(c, h, e);
  }

  lemma SteadyWhenReading(c: Config, h: History, e: Event)
    requires Steady(h.duty) && Allowed(c, h, e) && e.Clock?
    ensures Steady(Next(c, h, e).duty) && Next(c, h, e).loop.lastHeartbeat == h.loop.lastHeartbeat
  {
    hide Next, Allowed;
    ReadMeans(c, h, e);
  }

  lemma SteadyOtherwise(c: Config, h: History, e: Event)
    requires Steady(h.duty) && Sane(h) && Allowed(c, h, e) && !e.Sent? && !e.Clock? && !e.Began?
    ensures Steady(Next(c, h, e).duty) && Next(c, h, e).loop.lastHeartbeat == h.loop.lastHeartbeat
  {
    hide Calls, MayReceive, Plain, Heard, ReaderAfter, AsksHealth, OnSent, OnClock, MaySend, MayRead;
    if e.Received? {
      CallsArePlain(c, h.link, h.reader, e.message);
    }
  }

  lemma BeatSets(c: Config, h: History, e: Event)
    requires Sane(h) && Allowed(c, h, e) && IsBeat(e) && e.ok && h.duty.Idle?
    ensures Waiting(Next(c, h, e), e.ref, h.turn)
  {
    hide Next, Allowed, Sane, NextRef;
    SaneStep(c, h, e);
    ChannelsStep(c, h, e);
    BeatingMeans(c, h, e);
    BeatAtIdle(c, h, e);
  }

  lemma BeatAtIdle(c: Config, h: History, e: Event)
    requires IsBeat(e) && e.ok && h.duty.Idle?
    ensures Next(c, h, e).duty.Idle? && Next(c, h, e).loop.lastHeartbeat == h.turn
  {
    hide AfterSend;
  }

  lemma {:induction false} WaitingOn(c: Config, run: seq<Event>, from: nat, ref: string, since: nat)
    requires Lawful(c, run) && from <= |run| && Waiting(Fold(c, run[..from]), ref, since)
    requires forall m :: from <= m < |run| ==> !Answers(run[m], ref) && !run[m].Began?
    ensures Waiting(Fold(c, run), ref, since)
    decreases |run|
  {
    hide Next, Allowed, Sane, Waiting;
    if from == |run| {
      assert run[..from] == run;
    } else {
      var n := |run| - 1;
      assert run[..n][..from] == run[..from];
      WaitingOn(c, run[..n], from, ref, since);
      WaitingStep(c, Fold(c, run[..n]), run[n], ref, since);
    }
  }

  lemma TurnIsRead(c: Config, h: History, v: nat)
    ensures Next(c, h, Clock(Turn, v)) == OnClock(c, h, Turn, v)
    ensures Allowed(c, h, Clock(Turn, v)) ==> h.duty.Idle?
  {}

  /** A heartbeat that is due and cannot be sent leaves one way to go. */
  lemma SilenceIsFinal(c: Config, h: History, e: Event, ending: Ending)
    requires h.duty.Idle? && h.due && h.link.heartbeat.Some?
    ensures !Allowed(c, h, e)
    ensures MayEnd(c, h, ending) <==> ending == Failed(NoReply)
  {}

  predicate TurnAt(run: seq<Event>, k: nat, now: nat) { k < |run| && run[k] == Clock(Turn, now) }

  /** Whatever the loop was waiting out, a turn that finds the interval over is the last. */
  lemma SilenceIsNoticed(c: Config, run: seq<Event>, from: nat, k: nat, now: nat, ref: string, since: nat)
    requires Lawful(c, run) && from <= k && TurnAt(run, k, now) && Since(now, since) >= c.heartbeat
    requires Waiting(Fold(c, run[..from]), ref, since)
    requires forall m :: from <= m < k ==> !Answers(run[m], ref) && !run[m].Began?
    ensures k == |run| - 1
    ensures forall ending :: MayEnd(c, Fold(c, run), ending) <==> ending == Failed(NoReply)
  {
    hide Next, Allowed, Sane, Lawful, Fold, MayEnd;
    StepAt(c, run, k);
    assert run[..k][..from] == run[..from];
    WaitingOn(c, run[..k], from, ref, since);
    TurnIsRead(c, Fold(c, run[..k]), now);
    var h := Fold(c, run[..k + 1]);
    if k + 1 < |run| {
      StepAt(c, run, k + 1);
      SilenceIsFinal(c, h, run[k + 1], Finished);
    }
    assert run[..k + 1] == run;
    forall ending ensures MayEnd(c, h, ending) <==> ending == Failed(NoReply) {
      SilenceIsFinal(c, h, run[k], ending);
    }
  }

  /**
   A heartbeat sent from the loop and unanswered a whole interval later ends the session: the
   first turn to read so late a clock is the last thing to happen in it. (An update tried
   meanwhile gives it an interval more: see below.)
   */
  lemma SilenceEndsTheSession(c: Config, run: seq<Event>, i: nat, k: nat, sent: nat, now: nat)
    requires Lawful(c, run) && 0 < i < k && TurnAt(run, i - 1, sent) && TurnAt(run, k, now)
    requires IsBeat(run[i]) && run[i].ok && Since(now, sent) >= c.heartbeat
    requires forall m :: i < m < k ==> !Answers(run[m], run[i].ref) && !run[m].Began?
    ensures k == |run| - 1
    ensures forall ending :: MayEnd(c, Fold(c, run), ending) <==> ending == Failed(NoReply)
  {
    hide Next, Allowed, Sane, Lawful, Fold, MayEnd, Waiting;
    StepAt(c, run, i - 1);
    TurnIsRead(c, Fold(c, run[..i - 1]), sent);
    StepAt(c, run, i);
    SaneAlways(c, run[..i]);
    BeatSets(c, Fold(c, run[..i]), run[i]);
    SilenceIsNoticed(c, run, i + 1, k, now, run[i].ref, sent);
  }

  // ---------- Silence through a failed update ----------

  lemma UnopenedStep(c: Config, h: History, e: Event)
    requires Sane(h) && Allowed(c, h, e) && !Opened(Next(c, h, e).duty)
    ensures !Opened(h.duty) && !IsBeat(e)
  {
    hide Next, Allowed, Sane;
    if e.Sent? || e.Clock? {
      UnopenedWhenSending(c, h, e);
    } else {
      UnopenedOtherwise(c, h, e);
    }
  }

  lemma UnopenedWhenSending(c: Config, h: History, e: Event)
    requires Sane(h) && Allowed(c, h, e) && (e.Sent? || e.Clock?) && !Opened(Next(c, h, e).duty)
    ensures !Opened(h.duty) && !IsBeat(e)
  {
    hide Next, Allowed, AfterSend, NextRef, Label;
    if e.Sent? {
      SentMeans(c, h, e);
    } else {
      ReadMeans(c, h, e);
    }
  }

  lemma UnopenedOtherwise(c: Config, h: History, e: Event)
    requires Allowed(c, h, e) && !e.Sent? && !e.Clock? && !Opened(Next(c, h, e).duty)
    ensures !Opened(h.duty)
  {
    hide Calls, Heard, ReaderAfter, MayReceive, LogsCount, Lingered, OnSent, OnClock, MaySend, MayRead;
    if e.Received? {
      ReceivedCalls(c, h, e.message);
      CallsArePlain(c, h.link, h.reader, e.message);
    }
  }

  /** No heartbeat goes out before the loop begins. */
  lemma {:induction false} NoBeatsYet(c: Config, run: seq<Event>)
    requires Lawful(c, run) && !Opened(Fold(c, run).duty)
    ensures NoBeats(run, 0, |run|)
    decreases |run|
  {
    hide Next, Allowed, Sane;
    if run != [] {
      var n := |run| - 1;
      SaneAlways(c, run[..n]);
      UnopenedStep(c, Fold(c, run[..n]), run[n]);
      NoBeatsYet(c, run[..n]);
      forall k | 0 <= k < |run| ensures !IsBeat(run[k]) {
        assert k < n ==> !IsBeat(run[..n][k]);
      }
    }
  }

  lemma IntervalAfresh(c: Config, h: History, now: nat)
    requires Sane(h) && Allowed(c, h, Clock(BeatsFrom, now)) && Opened(h.duty) && h.link.heartbeat.Some?
    ensures Waiting(Next(c, h, Clock(BeatsFrom, now)), h.link.heartbeat.value, now)
  {
    hide Next, Allowed, Sane;
    SaneStep(c, h, Clock(BeatsFrom, now));
    ReadMeans(c, h, Clock(BeatsFrom, now));
  }

  /**
   Nor does an update let a dead connection be: a failed one gives it an interval afresh, and if
   the last heartbeat, sent during the download or before, is still unanswered when that is over,
   the first turn to find it so is the last thing to happen.
   */
  lemma SilenceOutlastsAFailedUpdate(c: Config, run: seq<Event>, i: nat, r: nat, k: nat, afresh: nat, now: nat)
    requires Lawful(c, run) && i < r < k && TurnAt(run, k, now) && Since(now, afresh) >= c.heartbeat
    requires IsBeat(run[i]) && NoBeats(run, i + 1, r) && run[r] == Clock(BeatsFrom, afresh)
    requires forall m :: i < m < k ==> !Answers(run[m], run[i].ref)
    requires forall m :: r < m < k ==> !run[m].Began?
    ensures k == |run| - 1
    ensures forall ending :: MayEnd(c, Fold(c, run), ending) <==> ending == Failed(NoReply)
  {
    hide Next, Allowed, Sane, Lawful, Fold, MayEnd, Waiting, Opened;
    var before := run[..r];
    StepAt(c, run, r);
    SaneAlways(c, before);
    assert IsBeat(before[i]);
    if !Opened(Fold(c, before).duty) {
      NoBeatsYet(c, before);
    }
    LastBeatIsKnown(c, before, i);
    IntervalAfresh(c, Fold(c, before), afresh);
    SilenceIsNoticed(c, run, r + 1, k, now, run[i].ref, afresh);
  }

  // ---------- While an image comes down ----------

  predicate Pumping(h: History, beat: nat) { h.duty.Downloading? && h.duty.beat == beat }

  lemma PumpingStep(c: Config, h: History, e: Event, beat: nat)
    requires Pumping(h, beat) && Allowed(c, h, e) && !IsBeat(e) && !e.Installed?
    ensures Pumping(Next(c, h, e), beat) && !IsArrival(e)
  {
    hide AfterSend, NextRef, Label, Calls, Heard, ReaderAfter;
  }

  /** Where a download's interval is counted from: its beginning, or a tick that sent a heartbeat. */
  predicate BeatsFromHere(run: seq<Event>, i: nat)
    requires 0 < i <= |run|
  {
    && run[i - 1].Clock?
    && if i < |run| && IsBeat(run[i]) then run[i - 1].why.Tick? && run[i].ok else run[i - 1].why.PumpFrom?
  }

  lemma PumpStarts(c: Config, h: History, e: Event)
    requires Allowed(c, h, e) && e.Clock?
    ensures e.why.PumpFrom? ==> Pumping(Next(c, h, e), e.now)
    ensures e.why.Tick? ==> Next(c, h, e).duty.Downloading? && Next(c, h, e).duty.tick == e.now
    ensures e.why.Tick? ==> Next(c, h, e).due == (Since(e.now, h.duty.beat) >= c.heartbeat)
  {
    hide Next, Allowed;
    ReadMeans(c, h, e);
  }

  lemma PumpBeats(c: Config, h: History, e: Event)
    requires h.duty.Downloading? && IsBeat(e) && e.ok
    ensures Pumping(Next(c, h, e), h.duty.tick)
  {
    hide AfterSend;
  }

  lemma {:induction false} StillPumping(c: Config, run: seq<Event>, i: nat)
    requires Lawful(c, run) && 0 < i <= |run| && BeatsFromHere(run, i)
    requires forall m :: i <= m < |run| ==> !run[m].Installed? && (m == i || !IsBeat(run[m]))
    ensures Pumping(Fold(c, run), run[i - 1].now)
    decreases |run|
  {
    hide Next, Allowed, Pumping;
    var n := |run| - 1;
    var h := Fold(c, run[..n]);
    if i == |run| {
      PumpStarts(c, h, run[n]);
    } else if i == n && IsBeat(run[n]) {
      StepAt(c, run, n - 1);
      assert run[..n - 1 + 1] == run[..n];
      PumpStarts(c, Fold(c, run[..n - 1]), run[n - 1]);
      PumpBeats(c, h, run[n]);
    } else {
      assert run[..n][i - 1] == run[i - 1] && (i < n ==> run[..n][i] == run[i]);
      StillPumping(c, run[..n], i);
      PumpingStep(c, h, run[n], run[i - 1].now);
    }
  }

  /**
   A download never lets an interval go by: the first look at the clock a whole interval after
   the download began, or after a heartbeat in it, is followed at once by a heartbeat, answered
   or not. And nothing is read meanwhile.
   */
  lemma DownloadsKeepBeating(c: Config, run: seq<Event>, i: nat, k: nat)
    requires Lawful(c, run) && 0 < i <= k < |run| && BeatsFromHere(run, i)
    requires forall m :: i <= m < k ==> !run[m].Installed? && (m == i || !IsBeat(run[m]))
    requires !IsBeat(run[i]) || i < k
    ensures !IsArrival(run[k])
    ensures run[k].Clock? && run[k].why.Tick? && Since(run[k].now, run[i - 1].now) >= c.heartbeat && k + 1 < |run| ==>
              IsBeat(run[k + 1])
  {
    hide Next, Allowed, Lawful, Fold;
    StepAt(c, run, k);
    assert run[..k][i - 1] == run[i - 1];
    StillPumping(c, run[..k], i);
    var h := Fold(c, run[..k]);
    ArrivalsWait(c, h, run[k]);
    if run[k].Clock? && run[k].why.Tick? && Since(run[k].now, run[i - 1].now) >= c.heartbeat && k + 1 < |run| {
      PumpStarts(c, h, run[k]);
      StepAt(c, run, k + 1);
      DueMeans(c, Fold(c, run[..k + 1]), run[k + 1]);
    }
  }

  lemma ArrivalsWait(c: Config, h: History, e: Event)
    requires h.duty.Downloading? && Allowed(c, h, e)
    ensures !IsArrival(e)
  {}

  /** A heartbeat that is due is the next thing to happen. */
  lemma DueMeans(c: Config, h: History, e: Event)
    requires h.due && h.duty.Downloading? && Allowed(c, h, e)
    ensures IsBeat(e)
  {
    hide NextRef, Label;
  }
}
