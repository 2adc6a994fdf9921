/** What every turn of the run loop does before it waits for a frame (src/agent.rs). */
module Turns {
  import opened Common
  import opened Protocol
  import opened SessionTheorems
  import opened Endings
  import opened ChannelTheorems
  import opened Heartbeats
  import opened LogTheorems
  import opened Known

  // ---------- Heartbeats ----------

  /** The last heartbeat sent, and no reply to it yet. */
  ghost predicate Unanswered(run: seq<Event>, i: nat) {
    i < |run| && IsBeat(run[i]) && NoBeats(run, i + 1, |run|) && !AnsweredBy(run, i, run[i].ref)
  }

  lemma {:induction false} LastBeat(run: seq<Event>) returns (i: int)
    ensures -1 <= i < |run| && (i >= 0 ==> IsBeat(run[i])) && NoBeats(run, i + 1, |run|)
    decreases |run|
  {
    if run == [] {
      return -1;
    }
    var n := |run| - 1;
    if IsBeat(run[n]) {
      return n;
    }
    i := LastBeat(run[..n]);
    forall k | i + 1 <= k < |run| ensures !IsBeat(run[k]) {
      assert k < n ==> !IsBeat(run[..n][k]);
    }
  }

  lemma {:induction false} NoneSentNoneOwed(c: Config, run: seq<Event>)
    requires Lawful(c, run) && NoBeats(run, 0, |run|)
    ensures Fold(c, run).link.heartbeat == None
    decreases |run|
  {
    hide Next, Allowed, NextRef;
    if run != [] {
      var n := |run| - 1;
      forall k | 0 <= k < n ensures !IsBeat(run[..n][k]) {
        assert !IsBeat(run[k]);
      }
      NoneSentNoneOwed(c, run[..n]);
      ChannelsStep(c, Fold(c, run[..n]), run[n]);
      assert !IsBeat(run[n]);
    }
  }

  lemma HeartbeatIsUnanswered(c: Config, run: seq<Event>)
    requires Lawful(c, run)
    ensures Fold(c, run).link.heartbeat.Some? <==> exists i :: Unanswered(run, i)
  {
    hide Next, Allowed, Fold, Lawful, AnsweredBy;
    var last := LastBeat(run);
    if last < 0 {
      NoneSentNoneOwed(c, run);
    } else {
      LastBeatIsKnown(c, run, last);
      assert !AnsweredBy(run, last, run[last].ref) ==> Unanswered(run, last);
      forall i: nat | Unanswered(run, i) ensures i == last {
        assert IsBeat(run[i]) && IsBeat(run[last]);
      }
    }
  }

  /** All there is to do when a heartbeat is due is to send it, or to give up. */
  lemma DueAtIdle(c: Config, h: History, e: Event, ending: Ending)
    requires h.due && h.duty.Idle? && h.link.heartbeat == None
    ensures Allowed(c, h, e) ==> IsBeat(e)
    ensures !MayEnd(c, h, ending)
  {
    hide NextRef, Label;
  }

  lemma ReadingATurn(c: Config, h: History, now: nat)
    requires Allowed(c, h, Clock(Turn, now))
    ensures h.duty.Idle? && Next(c, h, Clock(Turn, now)).duty.Idle? && Next(c, h, Clock(Turn, now)).link == h.link
    ensures Next(c, h, Clock(Turn, now)).due == (Since(now, h.loop.lastHeartbeat) >= c.heartbeat)
    ensures Next(c, h, Clock(Turn, now)).logging.Unasked? == LogsDue(c, h.link, now, h.loop.lastLog)
  {
    hide LogsDue, JoinsExtensions, JoinsConsole;
  }

  /**
   While heartbeats are answered, they go on being sent: a turn that reads the clock an interval or
   more after the last was sent, or was begun to be counted, sends the next before anything else.
   */
  lemma LoopKeepsBeating(c: Config, run: seq<Event>, now: nat)
    requires Lawful(c, run + [Clock(Turn, now)]) && now >= BeatTime(run) + c.heartbeat
    requires !exists i :: Unanswered(run, i)
    ensures forall e :: Lawful(c, run + [Clock(Turn, now)] + [e]) ==> IsBeat(e)
    ensures forall ending :: !MayEnd(c, Fold(c, run + [Clock(Turn, now)]), ending)
  {
    hide Next, Allowed, Lawful, Fold, MayEnd, Unanswered;
    var turn := run + [Clock(Turn, now)];
    OneMore(c, run, Clock(Turn, now));
    IntervalsAreKnown(c, run);
    HeartbeatIsUnanswered(c, run);
    ReadingATurn(c, Fold(c, run), now);
    forall e ensures Lawful(c, turn + [e]) ==> IsBeat(e) {
      OneMore(c, turn, e);
      DueAtIdle(c, Fold(c, turn), e, Finished);
    }
    forall ending ensures !MayEnd(c, Fold(c, turn), ending) {
      DueAtIdle(c, Fold(c, turn), Quiet, ending);
    }
  }

  /** What is due has only just come to be: the last thing to happen was the reading that found it so. */
  lemma DueIsNew(c: Config, h: History, e: Event)
    requires Sane(h) && Allowed(c, h, e) && Next(c, h, e).due
    ensures e.Clock? && BeatFrom(h, e.why).Some? && Since(e.now, BeatFrom(h, e.why).value) >= c.heartbeat
  {
    hide Calls, Heard, ReaderAfter, AfterSend, DutyAfterSaying, LoopAfterSaying, OwedAfter, Plain;
    hide LimitReached, Lingered, StillWaiting, LogsCount, JoinsExtensions, JoinsConsole, LogsDue, Label, NextRef;
  }

  lemma BeatsFollowReadings(c: Config, run: seq<Event>, j: nat)
    requires Lawful(c, run) && j < |run| && IsBeat(run[j])
    ensures j > 0 && run[j - 1].Clock?
    ensures
      var h := Fold(c, run[..j - 1]);
      BeatFrom(h, run[j - 1].why).Some? && Since(run[j - 1].now, BeatFrom(h, run[j - 1].why).value) >= c.heartbeat
  {
    hide Next, Allowed, Lawful, Fold, Sane;
    StepAt(c, run, j);
    SaneAlways(c, run[..j]);
    BeatingMeans(c, Fold(c, run[..j]), run[j]);
    if j == 0 {
      NothingDueYet(c, run);
    } else {
      StepAt(c, run, j - 1);
      SaneAlways(c, run[..j - 1]);
      assert run[..j - 1 + 1] == run[..j];
      DueIsNew(c, Fold(c, run[..j - 1]), run[j - 1]);
    }
  }

  lemma NothingDueYet(c: Config, run: seq<Event>)
    ensures !Fold(c, run[..0]).due
  {}

  /** Nor are they sent before their time, or while one is unanswered. */
  lemma LoopBeatsOnTime(c: Config, run: seq<Event>, j: nat)
    requires Lawful(c, run) && j < |run| && IsBeat(run[j]) && !Installing(run[..j])
    ensures j > 0 && run[j - 1].Clock? && run[j - 1].why.Turn? && !exists i :: Unanswered(run[..j], i)
    ensures c.heartbeat > 0 ==> run[j - 1].now >= BeatTime(run[..j - 1]) + c.heartbeat
  {
    hide Next, Allowed, Lawful, Fold, Sane, Installing, Unanswered;
    StepAt(c, run, j);
    BeatsFollowReadings(c, run, j);
    PumpedOrNot(c, run[..j], run[j]);
    SaneAlways(c, run[..j]);
    BeatingMeans(c, Fold(c, run[..j]), run[j]);
    HeartbeatIsUnanswered(c, run[..j]);
    StepAt(c, run, j - 1);
    assert run[..j - 1 + 1] == run[..j];
    TicksArePumped(c, Fold(c, run[..j - 1]), run[j - 1]);
    IntervalsAreKnown(c, run[..j - 1]);
  }

  lemma TicksArePumped(c: Config, h: History, e: Event)
    requires Allowed(c, h, e) && e.Clock? && BeatFrom(h, e.why).Some?
    ensures if e.why.Turn? then BeatFrom(h, e.why) == Some(h.loop.lastHeartbeat)
            else e.why.Tick? && BeatFrom(h, e.why) == Some(h.duty.beat) && Next(c, h, e).duty.Downloading?
  {
    hide LogsDue, JoinsExtensions, JoinsConsole, LogFrom;
  }

  /** In a download they come right after a tick an interval late. */
  lemma DownloadBeatsOnTime(c: Config, run: seq<Event>, i: nat, j: nat)
    requires Lawful(c, run) && 0 < i < j < |run| && IsBeat(run[j]) && BeatsFromHere(run, i)
    requires forall m :: i <= m < j ==> !run[m].Installed? && (m == i || !IsBeat(run[m]))
    ensures run[j - 1].Clock? && run[j - 1].why.Tick?
    ensures c.heartbeat > 0 ==> run[j - 1].now >= run[i - 1].now + c.heartbeat
  {
    hide Next, Allowed, Lawful, Fold;
    BeatsFollowReadings(c, run, j);
    StepAt(c, run, j - 1);
    TicksArePumped(c, Fold(c, run[..j - 1]), run[j - 1]);
    assert run[..j - 1][i - 1] == run[i - 1];
    StillPumping(c, run[..j - 1], i);
    var h := Fold(c, run[..j - 1]);
    TurnsAreIdle(c, h, run[j - 1]);
  }

  lemma TurnsAreIdle(c: Config, h: History, e: Event)
    ensures Allowed(c, h, e) && e.Clock? && e.why.Turn? ==> h.duty.Idle?
  {}

  // ---------- Joining, before the turn's reading ----------

  lemma BeforeATurn(c: Config, h: History, now: nat)
    requires Allowed(c, h, Clock(Turn, now)) && Sane(h)
    ensures h.duty.Idle? && (h.link.joined ==> h.loop.confirmed) && (h.loop.joinedAt.Some? ==> h.looked)
    ensures h.link.joined && h.loop.confirmed && c.extensions && (h.link.invited || h.overdue) ==>
              h.loop.extensionsJoined
    ensures h.link.joined && h.loop.confirmed && c.console ==> h.loop.consoleJoined
  {}

  /** The clock was read for it when the join was accepted, and the image is confirmed before anything else. */
  lemma {:induction false} ConfirmedMeansTimed(c: Config, run: seq<Event>)
    requires Lawful(c, run)
    ensures
      var h := Fold(c, run);
      h.loop.confirmed || Confirmation(h.duty) ==> h.loop.joinedAt.Some?
    decreases |run|
  {
    hide Next, Allowed, Sane;
    if run != [] {
      var n := |run| - 1;
      ConfirmedMeansTimed(c, run[..n]);
      SaneAlways(c, run[..n]);
      TimedStep(c, Fold(c, run[..n]), run[n]);
    }
  }

  lemma TimedStep(c: Config, h: History, e: Event)
    requires Sane(h) && Allowed(c, h, e)
    ensures
      var h' := Next(c, h, e);
      && (h.loop.joinedAt.Some? ==> h'.loop.joinedAt.Some?)
      && (h'.loop.confirmed || Confirmation(h'.duty) ==>
            h.loop.confirmed || Confirmation(h.duty) || h'.loop.joinedAt.Some?)
  {
    hide Next, Allowed, Sane;
    TimesStep(c, h, e);
    if !(e.Clock? && e.why.JoinedAt?) {
      ConfirmationNeedsTiming(c, h, e);
    }
  }

  lemma ConfirmationNeedsTiming(c: Config, h: History, e: Event)
    requires Sane(h) && Allowed(c, h, e) && !(e.Clock? && e.why.JoinedAt?)
    ensures Confirmation(Next(c, h, e).duty) || Next(c, h, e).loop.confirmed ==>
              Confirmation(h.duty) || h.loop.confirmed
  {
    hide Next, Allowed, Sane;
    if e.Sent? {
      ConfirmationWhenSending(c, h, e);
    } else if e.Clock? {
      OtherReadingsConfirmNothing(c, h, e);
    } else {
      ConfirmationOtherwise(c, h, e);
    }
  }

  lemma OtherReadingsConfirmNothing(c: Config, h: History, e: Event)
    requires e.Clock? && !e.why.JoinedAt?
    ensures Confirmation(Next(c, h, e).duty) ==> Confirmation(h.duty)
    ensures Next(c, h, e).loop.confirmed == h.loop.confirmed
  {
    hide LogsDue, BeatFrom, LogFrom;
  }

  /** This turn's look at the clock says whether an invitation is overdue. */
  lemma {:induction false} LookingTells(c: Config, run: seq<Event>)
    requires Lawful(c, run) && Fold(c, run).looked
    ensures Fold(c, run).loop.joinedAt.Some?
    ensures Fold(c, run).overdue == (Reading(run, Invitation) >= Reading(run, JoinedAt) + 5000)
    decreases |run|
  {
    hide Next, Allowed, Sane;
    if run != [] {
      var n := |run| - 1;
      var h, e := Fold(c, run[..n]), run[n];
      TimesAreReadings(c, run[..n]);
      SaneAlways(c, run[..n]);
      if h.looked {
        LookingTells(c, run[..n]);
      }
      LookingStep(c, h, e);
    }
  }

  lemma LookingStep(c: Config, h: History, e: Event)
    requires Sane(h) && Allowed(c, h, e) && Next(c, h, e).looked && (h.looked ==> h.loop.joinedAt.Some?)
    ensures Next(c, h, e).loop.joinedAt.Some?
    ensures
      if e.Clock? && e.why.Invitation? then
        && h.loop.joinedAt.Some?
        && Next(c, h, e).overdue == (e.now >= h.loop.joinedAt.value + 5000)
      else
        h.looked && Next(c, h, e).overdue == h.overdue && !(e.Clock? && e.why.JoinedAt?)
  {
    hide OwedAfter, Calls, Heard, ReaderAfter, AfterSend, DutyAfterSaying, LoopAfterSaying, DutyAfterReading;
    hide BeatFrom, LogFrom, LogsDue, Plain, JoinsExtensions, JoinsConsole;
    TimesStep(c, h, e);
  }

  /** An invitation is not forgotten while the session goes on. */
  lemma {:induction false} InvitedUnlessLeaving(c: Config, run: seq<Event>)
    requires Lawful(c, run) && WasInvited(run)
    ensures LastInvitation(run).Some? || Fold(c, run).duty.Leaving?
    decreases |run|
  {
    hide Next, Allowed, Calls;
    var n := |run| - 1;
    var h, e := Fold(c, run[..n]), run[n];
    if !IsInvitation(e) {
      var k :| 0 <= k < |run| && IsInvitation(run[k]);
      assert IsInvitation(run[..n][k]);
      InvitedUnlessLeaving(c, run[..n]);
      if h.duty.Leaving? {
        NothingAfterLeaving(c, h, e);
      }
      if e.Received? {
        ReceivedCalls(c, h, e.message);
        ClosingLeaves(c, h.link, h.reader, e.message);
      }
    }
  }

  /**
   By the time a turn reads the clock: once this session's join has been accepted, the platform
   has been told the image is good, the clock has been looked at for an invitation, the console
   joined if there is one, and the extensions if they were invited, or have been waited for five
   seconds.
   */
  lemma JoinedBeforeTheTurn(c: Config, run: seq<Event>, now: nat)
    requires Lawful(c, run + [Clock(Turn, now)]) && Accepted(run)
    ensures ToldValidated(run) && LookedThisTurn(run)
    ensures c.console ==> Happened(run, ConsoleJoinSent)
    ensures c.extensions && (WasInvited(run) || Reading(run, Invitation) >= Reading(run, JoinedAt) + 5000) ==>
              Happened(run, ExtensionsJoinSent)
  {
    hide Next, Allowed, Lawful, Fold, Sane, Happened, LookedThisTurn, ToldValidated, WasInvited;
    var h := Fold(c, run);
    OneMore(c, run, Clock(Turn, now));
    SaneAlways(c, run);
    BeforeATurn(c, h, now);
    var j, k :| 0 <= j < k && AcceptedBy(run, j, k);
    StaysJoined(c, run, j, k);
    ConfirmedMeansTold(c, run);
    ConfirmedMeansTimed(c, run);
    AsidesAreKnown(c, run);
    JoinedMeansSent(c, run);
    InvitationsAreHeard(c, run);
    LookingTells(c, run);
    if WasInvited(run) {
      InvitedUnlessLeaving(c, run);
    }
  }

  // ---------- The window ----------

  /** What a session with a window stays for: replies, a health check, and the log. */
  ghost predicate Outstanding(c: Config, run: seq<Event>) {
    || (c.extensions && !ExtensionsAnswered(run))
    || (c.health && "health" in AttachedKeys(run) && !HealthAnswered(run))
    || (c.logs && "logging" in AttachedKeys(run) && EmptiedThisTurn(run) == Some(false))
  }

  lemma ReceivingMeans(c: Config, h: History)
    requires MayReceive(c, h)
    ensures h.duty.Idle? && h.timed && (c.control ==> h.control.Some? && h.control != Some(Leave))
    ensures c.window.Some? ==> h.turn < h.loop.started + c.window.value.limit
    ensures c.window.Some? && h.loop.joinedAt.Some? && h.turn >= h.loop.joinedAt.value + c.window.value.linger ==>
              || (c.extensions && !h.link.extensionsUp)
              || (c.health && "health" in h.link.attached && !h.loop.healthAnswered)
              || (c.logs && "logging" in h.link.attached && h.emptied == Some(false))
  {}

  /**
   A bounded session waits for a frame only below its limit; and once it has lingered, only for
   what is outstanding. And no session waits without its application's leave.
   */
  lemma WaitsOnlyForSomething(c: Config, run: seq<Event>, e: Event)
    requires Lawful(c, run + [e]) && IsArrival(e)
    ensures c.control ==> ControlThisTurn(run).Some? && ControlThisTurn(run) != Some(Leave)
    ensures c.window.Some? ==> Reading(run, Turn) < Reading(run, Started) + c.window.value.limit
    ensures c.window.Some? && Accepted(run) ==>
              Reading(run, Turn) < Reading(run, JoinedAt) + c.window.value.linger || Outstanding(c, run)
  {
    hide Next, Allowed, Lawful, Fold, Plain, MayReceive, ExtensionsAnswered, AttachedKeys, HealthAnswered;
    var h := Fold(c, run);
    OneMore(c, run, e);
    SaneAlways(c, run);
    ArrivalIsAllowed(c, h, e);
    ReceivingMeans(c, h);
    TimesAreReadings(c, run);
    AsidesAreKnown(c, run);
    ExtensionsUpIsAnswered(c, run);
    AttachedIsTheLastReply(c, run);
    HealthIsAnswered(c, run);
    if Accepted(run) {
      var j, k :| 0 <= j < k && AcceptedBy(run, j, k);
      StaysJoined(c, run, j, k);
      ConfirmedMeansTimed(c, run);
    }
  }

  lemma FinishingMeans(c: Config, h: History)
    requires MayEnd(c, h, Finished)
    ensures h.duty.Idle? && h.timed
    ensures
      || h.control == Some(Leave)
      || (c.window.Some? && Since(h.turn, h.loop.started) >= c.window.value.limit && h.link.joined)
      || (c.window.Some? && h.loop.joinedAt.Some?
          && Since(h.turn, h.loop.joinedAt.value) >= c.window.value.linger
          && !(c.extensions && !h.link.extensionsUp)
          && !(c.health && "health" in h.link.attached && !h.loop.healthAnswered)
          && !(c.logs && "logging" in h.link.attached && h.emptied != Some(true)))
  {}

  /** Nor does one finish that has anything outstanding, but at its limit or at its application's word. */
  lemma FinishesOnlyWithNothing(c: Config, run: seq<Event>)
    requires Lawful(c, run) && MayEnd(c, Fold(c, run), Finished)
    ensures
      var now := Reading(run, Turn);
      || ControlThisTurn(run) == Some(Leave)
      || (c.window.Some? && Since(now, Reading(run, Started)) >= c.window.value.limit)
      || (c.window.Some? && Since(now, Reading(run, JoinedAt)) >= c.window.value.linger && !Outstanding(c, run)
          && (c.logs && "logging" in AttachedKeys(run) ==> EmptiedThisTurn(run) == Some(true)))
  {
    hide Next, Allowed, Lawful, Fold, Sane, MayEnd, ExtensionsAnswered, AttachedKeys, HealthAnswered;
    FinishingMeans(c, Fold(c, run));
    TimesAreReadings(c, run);
    AsidesAreKnown(c, run);
    ExtensionsUpIsAnswered(c, run);
    AttachedIsTheLastReply(c, run);
    HealthIsAnswered(c, run);
  }

  // ---------- The log ----------

  /** A line each quarter second, or with batches on offer a batch each second. */
  function Pace(run: seq<Event>): nat { if LastInvitation(run) == Some(true) then 1000 else 250 }

  /** The log is asked for lines next, or right after a heartbeat that has gone. */
  predicate AsksTheLog(run: seq<Event>, t: nat) {
    && (t + 1 < |run| ==> run[t + 1].Took? || IsBeat(run[t + 1]))
    && (t + 2 < |run| && IsBeat(run[t + 1]) && run[t + 1].ok ==> run[t + 2].Took?)
  }

  lemma AfterADueReading(c: Config, h: History, e: Event)
    requires h.logging.Unasked? && Allowed(c, h, e) && (h.duty.Idle? || h.duty.Downloading?)
    ensures e.Took? || (IsBeat(e) && h.due)
    ensures IsBeat(e) && e.ok ==>
              var h' := Next(c, h, e);
              h'.logging.Unasked? && !h'.due && (h'.duty.Idle? || h'.duty.Downloading?)
  {
    hide AfterSend, LoopAfterSaying, NextRef, Label, LimitReached, StillWaiting, LogsCount, Lingered;
  }

  lemma ReadingForTheLog(c: Config, h: History, e: Event)
    requires Allowed(c, h, e) && e.Clock? && (e.why.Turn? || (e.why.Tick? && h.duty.Downloading?))
    ensures
      var h', from := Next(c, h, e), if e.why.Turn? then h.loop.lastLog else h.duty.log;
      && (h'.duty.Idle? || h'.duty.Downloading?)
      && (c.logs && "logging" in h.link.attached && e.now >= from + (if h.link.batches then 1000 else 250) ==>
            h'.logging.Unasked?)
  {
    hide JoinsExtensions, JoinsConsole;
  }

  lemma AskedAfter(c: Config, run: seq<Event>, t: nat)
    requires Lawful(c, run) && t < |run| && Fold(c, run[..t + 1]).logging.Unasked?
    requires Fold(c, run[..t + 1]).duty.Idle? || Fold(c, run[..t + 1]).duty.Downloading?
    ensures AsksTheLog(run, t)
  {
    hide Next, Allowed, Lawful, Fold;
    if t + 1 < |run| {
      StepAt(c, run, t + 1);
      AfterADueReading(c, Fold(c, run[..t + 1]), run[t + 1]);
      if t + 2 < |run| && IsBeat(run[t + 1]) && run[t + 1].ok {
        StepAt(c, run, t + 2);
        AfterADueReading(c, Fold(c, run[..t + 2]), run[t + 2]);
      }
    }
  }

  /** Once logging is attached, a turn an interval or more after the last lines went out asks for more. */
  lemma LoopKeepsLogging(c: Config, run: seq<Event>, t: nat, now: nat)
    requires Lawful(c, run) && t < |run| && run[t] == Clock(Turn, now)
    requires c.logs && "logging" in AttachedKeys(run[..t]) && now >= LogTime(run[..t]) + Pace(run[..t])
    ensures AsksTheLog(run, t)
  {
    hide Next, Allowed, Lawful, Fold, AttachedKeys, AsksTheLog;
    StepAt(c, run, t);
    IntervalsAreKnown(c, run[..t]);
    AttachedIsTheLastReply(c, run[..t]);
    InvitationsAreHeard(c, run[..t]);
    ReadingForTheLog(c, Fold(c, run[..t]), run[t]);
    AskedAfter(c, run, t);
  }

  /** So does a download's tick. */
  lemma DownloadsKeepLogging(c: Config, run: seq<Event>, i: nat, t: nat, now: nat)
    requires Lawful(c, run) && i < t < |run| && run[t] == Clock(Tick, now) && PumpLogsFrom(run, i)
    requires forall m :: i < m < t ==> !IsLogs(run[m]) && !run[m].Installed?
    requires c.logs && "logging" in AttachedKeys(run[..t]) && now >= PumpLogTime(run, i) + Pace(run[..t])
    ensures AsksTheLog(run, t)
  {
    hide Next, Allowed, Lawful, Fold, AttachedKeys, AsksTheLog, Installing;
    StepAt(c, run, t);
    assert run[..t][..i] == run[..i] && run[..t][i] == run[i];
    LogTimeStays(c, run[..t], i);
    AttachedIsTheLastReply(c, run[..t]);
    InvitationsAreHeard(c, run[..t]);
    ReadingForTheLog(c, Fold(c, run[..t]), run[t]);
    AskedAfter(c, run, t);
  }

  lemma GivenIsSent(c: Config, h: History, lines: nat, e: Event, ending: Ending)
    requires Allowed(c, h, Took(lines)) && lines > 0
    ensures Allowed(c, Next(c, h, Took(lines)), e) ==> e.Sent? && e.content == Logs(lines)
    ensures !MayEnd(c, Next(c, h, Took(lines)), ending)
  {
    hide NextRef, Label, LimitReached, StillWaiting, LogsCount, Lingered;
  }

  /** And what it gives is sent, at once. */
  lemma LogsTakenAreSent(c: Config, run: seq<Event>, lines: nat)
    requires Lawful(c, run + [Took(lines)]) && lines > 0
    ensures forall e :: Lawful(c, run + [Took(lines)] + [e]) ==> e.Sent? && e.content == Logs(lines)
    ensures forall ending :: !MayEnd(c, Fold(c, run + [Took(lines)]), ending)
  {
    hide Next, Allowed, Lawful, Fold, MayEnd;
    var h := Fold(c, run);
    OneMore(c, run, Took(lines));
    forall e ensures Lawful(c, run + [Took(lines)] + [e]) ==> e.Sent? && e.content == Logs(lines) {
      OneMore(c, run + [Took(lines)], e);
      GivenIsSent(c, h, lines, e, Finished);
    }
    forall ending ensures !MayEnd(c, Fold(c, run + [Took(lines)]), ending) {
      GivenIsSent(c, h, lines, Quiet, ending);
    }
  }
}
