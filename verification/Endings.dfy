/** How sessions end, and that they do (src/agent.rs). */
module Endings {
  import opened Common
  import opened Protocol
  import Console
  import opened SessionTheorems

  // ---------- Readings ----------

  /** The last reading of the clock for `why`, or 0. */
  function Reading(run: seq<Event>, why: Why): nat {
    if run == [] then 0
    else if run[|run| - 1].Clock? && run[|run| - 1].why == why then run[|run| - 1].now
    else Reading(run[..|run| - 1], why)
  }

  /** The times after `e`, which only readings change. */
  predicate TimesFollow(h: History, e: Event, h': History) {
    && h'.turn == (if e.Clock? && e.why.Turn? then e.now else h.turn)
    && h'.loop.started == (if e.Clock? && e.why.Started? then e.now else h.loop.started)
    && h'.loop.joinedAt == (if e.Clock? && e.why.JoinedAt? then Some(e.now) else h.loop.joinedAt)
  }

  lemma TimesStep(c: Config, h: History, e: Event)
    ensures TimesFollow(h, e, Next(c, h, e))
  {
    hide Next, TimesFollow;
    if e.Sent? {
      TimesWhenSending(c, h, e);
    } else if e.Clock? {
      TimesWhenReading(c, h, e);
    } else if IsArrival(e) {
      TimesWhenArriving(c, h, e);
    } else {
      TimesOtherwise(c, h, e);
    }
  }

  lemma TimesWhenSending(c: Config, h: History, e: Event)
    requires e.Sent?
    ensures TimesFollow(h, e, Next(c, h, e))
  {
    hide Next, AfterSend, DutyAfterSaying;
    SayingMeans(c, h, e);
  }

  lemma TimesWhenReading(c: Config, h: History, e: Event)
    requires e.Clock?
    ensures TimesFollow(h, e, Next(c, h, e))
  {}

  lemma TimesWhenArriving(c: Config, h: History, e: Event)
    requires IsArrival(e)
    ensures TimesFollow(h, e, Next(c, h, e))
  {
    hide Calls, Heard, ReaderAfter;
  }

  lemma TimesOtherwise(c: Config, h: History, e: Event)
    requires !e.Sent? && !e.Clock? && !IsArrival(e)
    ensures TimesFollow(h, e, Next(c, h, e))
  {}

  lemma {:induction false} TimesAreReadings(c: Config, run: seq<Event>)
    ensures
      var h := Fold(c, run);
      && h.turn == Reading(run, Turn) && h.loop.started == Reading(run, Started)
      && (h.loop.joinedAt.Some? ==> h.loop.joinedAt.value == Reading(run, JoinedAt))
    decreases |run|
  {
    hide Next;
    if run != [] {
      TimesAreReadings(c, run[..|run| - 1]);
      TimesStep(c, Fold(c, run[..|run| - 1]), run[|run| - 1]);
    }
  }

  // ---------- Finishing ----------

  lemma NoControlStep(c: Config, h: History, e: Event)
    requires !c.control && h.control == None && Allowed(c, h, e)
    ensures Next(c, h, e).control == None
  {
    hide Calls, Heard, ReaderAfter, AfterSend, MaySend, MayReceive, MayRead;
  }

  lemma {:induction false} NoControl(c: Config, run: seq<Event>)
    requires !c.control && Lawful(c, run)
    ensures Fold(c, run).control == None
    decreases |run|
  {
    hide Next, Allowed;
    if run != [] {
      NoControl(c, run[..|run| - 1]);
      NoControlStep(c, Fold(c, run[..|run| - 1]), run[|run| - 1]);
    }
  }

  /**
   A bounded session that finishes was joined, and has told the platform its image is good;
   and either its limit has passed, or it has lingered and nothing is outstanding.
   */
  lemma FinishedMeansDone(c: Config, run: seq<Event>)
    requires Lawful(c, run) && !c.control && MayEnd(c, Fold(c, run), Finished)
    ensures Accepted(run) && ToldValidated(run) && c.window.Some?
    ensures
      var now := Reading(run, Turn);
      || Since(now, Reading(run, Started)) >= c.window.value.limit
      || (Since(now, Reading(run, JoinedAt)) >= c.window.value.linger && NothingOutstanding(c, Fold(c, run)))
  {
    hide Next, Allowed, Lawful, Fold, Accepted, ToldValidated, JoinedAs, Plain;
    NoControl(c, run);
    TimesAreReadings(c, run);
    SaneAlways(c, run);
    ConfirmedMeansTold(c, run);
    JoinIsKnown(c, run);
  }

  // ---------- The bound ----------

  /** Every reading of the clock is later than the one before. */
  predicate ClockAdvances(run: seq<Event>) {
    forall i, j :: 0 <= i < j < |run| && run[i].Clock? && run[j].Clock? ==> run[i].now < run[j].now
  }

  /** The last reading, for whatever it was. */
  function LastClock(run: seq<Event>): Option<nat> {
    if run == [] then None
    else if run[|run| - 1].Clock? then Some(run[|run| - 1].now)
    else LastClock(run[..|run| - 1])
  }

  lemma {:induction false} LastClockIsRead(run: seq<Event>)
    requires LastClock(run).Some?
    ensures exists i :: 0 <= i < |run| && run[i].Clock? && run[i].now == LastClock(run).value
    decreases |run|
  {
    var n := |run| - 1;
    if !run[n].Clock? {
      LastClockIsRead(run[..n]);
      var i :| 0 <= i < n && run[..n][i].Clock? && run[..n][i].now == LastClock(run).value;
      assert run[i].Clock?;
    }
  }

  /** Each arrival has cost a turn, and each turn a later reading. */
  predicate Spends(h: History, arrivals: nat, last: Option<nat>) {
    h.duty.Over? || h.duty.Leaving?
    || if Opened(h.duty) then
         && last.Some? && h.loop.started + arrivals <= last.value
         && (h.timed ==> h.loop.started + arrivals + 1 <= h.turn <= last.value)
       else arrivals == 0 && !h.timed
  }

  lemma SpendsWhenReading(c: Config, h: History, e: Event, arrivals: nat, last: Option<nat>)
    requires Spends(h, arrivals, last) && Allowed(c, h, e) && e.Clock?
    requires last.Some? ==> last.value < e.now
    ensures Spends(Next(c, h, e), arrivals, Some(e.now))
  {
    hide Next, Allowed;
    ReadMeans(c, h, e);
  }

  lemma SpendsWhenArriving(c: Config, h: History, e: Event, arrivals: nat, last: Option<nat>)
    requires Spends(h, arrivals, last) && Allowed(c, h, e) && IsArrival(e) && c.window.Some?
    ensures Spends(Next(c, h, e), arrivals + 1, last) && arrivals + 1 <= c.window.value.limit
  {
    hide Calls, Heard, ReaderAfter;
    if e.Received? {
      CallsArePlain(c, h.link, h.reader, e.message);
    }
  }

  lemma SpendsWhenSending(c: Config, h: History, e: Event, arrivals: nat, last: Option<nat>)
    requires Sane(h) && Spends(h, arrivals, last) && Allowed(c, h, e) && e.Sent?
    ensures Spends(Next(c, h, e), arrivals, last)
  {
    hide Next, Allowed, AfterSend, NextRef, Label;
    SentMeans(c, h, e);
  }

  lemma SpendsOtherwise(c: Config, h: History, e: Event, arrivals: nat, last: Option<nat>)
    requires Sane(h) && Spends(h, arrivals, last) && Allowed(c, h, e)
    requires !e.Sent? && !e.Clock? && !IsArrival(e)
    ensures Spends(Next(c, h, e), arrivals, last)
  {
    hide Plain, MayReceive, OnSent, OnClock, MaySend, MayRead;
  }

  lemma {:induction false} ArrivalsAreSpent(c: Config, run: seq<Event>)
    requires Lawful(c, run) && c.window.Some? && ClockAdvances(run)
    ensures Spends(Fold(c, run), Arrivals(run), LastClock(run)) && Arrivals(run) <= c.window.value.limit
    decreases |run|
  {
    hide Next, Allowed, Sane, Spends;
    if run == [] {
      SpendsNothingYet(c);
    } else {
      var n := |run| - 1;
      var h, e := Fold(c, run[..n]), run[n];
      ArrivalsAreSpent(c, run[..n]);
      SaneAlways(c, run[..n]);
      if e.Clock? {
        if LastClock(run[..n]).Some? {
          LastClockIsRead(run[..n]);
        }
        SpendsWhenReading(c, h, e, Arrivals(run[..n]), LastClock(run[..n]));
      } else if IsArrival(e) {
        SpendsWhenArriving(c, h, e, Arrivals(run[..n]), LastClock(run[..n]));
      } else if e.Sent? {
        SpendsWhenSending(c, h, e, Arrivals(run[..n]), LastClock(run[..n]));
      } else {
        SpendsOtherwise(c, h, e, Arrivals(run[..n]), LastClock(run[..n]));
      }
    }
  }

  lemma SpendsNothingYet(c: Config)
    ensures Spends(Start(c), 0, None)
  {}

  /**
   While every reading of the clock is later than the one before, a bounded session waits for
   no more frames than its limit has milliseconds, whatever the server sends and however much of
   it. (An update that is being installed reads no frames, and is waited for.) That the session
   ends besides is its loop's to show: `Session.Agent.SessionWithin`.
   */
  lemma BoundedSessionsEnd(c: Config, run: seq<Event>)
    requires Lawful(c, run) && c.window.Some? && ClockAdvances(run)
    ensures Arrivals(run) <= c.window.value.limit
  {
    ArrivalsAreSpent(c, run);
  }

  // ---------- Restarting ----------

  /** Said, on the device channel or at the console, and sent. */
  predicate Announces(e: Event) { e.Sent? && e.ok && SaysRebooting(e.content) }

  lemma PausingMeans(c: Config, h: History, e: Event)
    requires Sane(h) && Allowed(c, h, e) && Next(c, h, e).duty.Pausing?
    ensures Announces(e)
  {
    hide Next, Allowed, Sane;
    if e.Sent? {
      PartingWhenSending(c, h, e);
    } else {
      PartingOtherwise(c, h, e);
    }
  }

  lemma RestartingMeans(c: Config, h: History, e: Event)
    requires Sane(h) && Allowed(c, h, e) && Next(c, h, e).duty.Restarting?
    ensures if e.Sent? then e.ok && e.content.Rebooting? else e == Slept(250) && h.duty.Pausing?
  {
    hide Next, Allowed, Sane;
    if e.Sent? {
      PartingWhenSending(c, h, e);
    } else {
      PartingOtherwise(c, h, e);
    }
  }

  lemma PartingWhenSending(c: Config, h: History, e: Event)
    requires Sane(h) && Allowed(c, h, e) && e.Sent?
    ensures Next(c, h, e).duty.Pausing? ==> Announces(e)
    ensures Next(c, h, e).duty.Restarting? ==> e.ok && e.content.Rebooting?
  {
    hide Next, Allowed, AfterSend, NextRef, Label;
    SentMeans(c, h, e);
  }

  lemma PartingOtherwise(c: Config, h: History, e: Event)
    requires Sane(h) && Allowed(c, h, e) && !e.Sent?
    ensures !Next(c, h, e).duty.Pausing?
    ensures Next(c, h, e).duty.Restarting? ==> e == Slept(250) && h.duty.Pausing?
  {
    hide Calls, Heard, ReaderAfter, Plain, LimitReached, Lingered, StillWaiting, LogsCount;
    hide OnSent, MaySend;
    if e.Received? {
      CallsNoParting(c, h.link, h.reader, e.message);
    }
  }

  lemma CallsNoParting(c: Config, link: Channels, reader: Console.Reader, m: Message)
    ensures
      var duty := Calls(c, link, reader, m);
      !duty.Pausing? && !duty.Restarting? && !duty.Over?
  {
    hide Console.Feed;
  }

  /**
   A restart is the last thing in a session, and what asked for it has been told: right
   before it went `rebooting`, or that or the console's word for it and a quarter second.
   */
  lemma RestartsAreAnnounced(c: Config, run: seq<Event>, i: nat)
    requires Lawful(c, run) && i < |run| && run[i].Restarted?
    ensures i == |run| - 1 && i > 0
    ensures if run[i - 1].Sent? then run[i - 1].ok && run[i - 1].content.Rebooting?
            else i > 1 && run[i - 1] == Slept(250) && Announces(run[i - 2])
  {
    hide Next, Allowed, Sane, Lawful, Fold;
    StepAt(c, run, i);
    RestartIsLast(c, Fold(c, run[..i]));
    if i + 1 < |run| {
      StepAt(c, run, i + 1);
      NothingAfterLeaving(c, Fold(c, run[..i + 1]), run[i + 1]);
    }
    RestartFollows(c, run[..i]);
  }

  lemma RestartIsLast(c: Config, h: History)
    ensures Allowed(c, h, Restarted) ==> h.duty.Restarting?
    ensures Next(c, h, Restarted).duty == Over(RebootingNow)
  {}

  lemma RestartFollows(c: Config, run: seq<Event>)
    requires Lawful(c, run) && Fold(c, run).duty.Restarting?
    ensures run != []
    ensures
      var last := run[|run| - 1];
      if last.Sent? then last.ok && last.content.Rebooting?
      else last == Slept(250) && |run| > 1 && Announces(run[|run| - 2])
  {
    hide Next, Allowed, Sane;
    if run != [] {
      var n := |run| - 1;
      SaneAlways(c, run[..n]);
      RestartingMeans(c, Fold(c, run[..n]), run[n]);
      if !run[n].Sent? && n > 0 {
        SaneAlways(c, run[..n][..n - 1]);
        PausingMeans(c, Fold(c, run[..n][..n - 1]), run[n - 1]);
      }
    }
  }

  lemma RebootingMeans(c: Config, h: History, e: Event)
    requires Sane(h) && Allowed(c, h, e) && Next(c, h, e).duty == Over(RebootingNow)
    ensures e == Restarted
  {
    hide Next, Allowed, Sane;
    if e.Sent? {
      OverWhenSending(c, h, e);
    } else {
      OverOtherwise(c, h, e);
    }
  }

  lemma OverWhenSending(c: Config, h: History, e: Event)
    requires Sane(h) && Allowed(c, h, e) && e.Sent?
    ensures Next(c, h, e).duty != Over(RebootingNow)
  {
    hide Next, Allowed, AfterSend, NextRef, Label;
    SentMeans(c, h, e);
  }

  lemma OverOtherwise(c: Config, h: History, e: Event)
    requires Sane(h) && Allowed(c, h, e) && !e.Sent? && Next(c, h, e).duty == Over(RebootingNow)
    ensures e == Restarted
  {
    hide Calls, Heard, ReaderAfter, Plain, LimitReached, Lingered, StillWaiting, LogsCount;
    hide OnSent, MaySend;
    if e.Received? {
      CallsNoParting(c, h.link, h.reader, e.message);
    }
  }

  /** A session says it is rebooting exactly when it has restarted the device. */
  lemma RebootingIffRestarted(c: Config, run: seq<Event>)
    requires Lawful(c, run)
    ensures MayEnd(c, Fold(c, run), RebootingNow) <==> run != [] && run[|run| - 1] == Restarted
  {
    hide Next, Allowed, Sane;
    if run != [] {
      var n := |run| - 1;
      SaneAlways(c, run[..n]);
      RestartIsLast(c, Fold(c, run[..n]));
      if Fold(c, run).duty == Over(RebootingNow) {
        RebootingMeans(c, Fold(c, run[..n]), run[n]);
      }
    }
  }

  /** What is said, in order, once an image has been installed; and nothing else is done. */
  predicate Farewell(n: nat, e: Event) {
    match n
    case 0 => e.Sent? && e.content == Progress(true, 100)
    case 1 => e.Sent? && e.content == Told(Completed)
    case 2 => e.Sent? && e.content == Rebooting
    case 3 => e == Slept(250)
    case 4 => e == Restarted
    case _ => false
  }

  function FarewellDuty(n: nat): Duty {
    match n
    case 0 => FAREWELL
    case 1 => FAREWELL.after
    case 2 => FAREWELL.after.after
    case 3 => Pausing
    case 4 => Restarting
    case _ => Over(RebootingNow)
  }

  lemma FarewellStep(c: Config, h: History, n: nat, e: Event)
    requires h.duty == FarewellDuty(n) && !h.due && Allowed(c, h, e)
    ensures Farewell(n, e)
    ensures Next(c, h, e) == h.(link := Next(c, h, e).link,
                                duty := if e.Sent? && !e.ok then Over(Failed(SendFailed)) else FarewellDuty(n + 1))
  {
    hide AfterSend, NextRef, Label;
  }

  lemma {:induction false} StaysInFarewell(c: Config, run: seq<Event>, i: nat)
    requires Lawful(c, run) && i < |run| && run[i] == Installed(true)
    ensures
      var h := Fold(c, run);
      && !h.due && (h.duty == FarewellDuty(|run| - 1 - i) || h.duty == Over(Failed(SendFailed)))
      && forall m :: i < m < |run| ==> Farewell(m - i - 1, run[m])
    decreases |run|
  {
    hide Next, Allowed, FarewellDuty, Farewell;
    var n := |run| - 1;
    var before := Fold(c, run[..n]);
    if i == n {
      Installs(c, before);
    } else {
      StaysInFarewell(c, run[..n], i);
      if before.duty.Over? {
        NothingAfterLeaving(c, before, run[n]);
      } else {
        FarewellStep(c, before, n - 1 - i, run[n]);
      }
      forall m | i < m < |run| ensures Farewell(m - i - 1, run[m]) {
        assert m < n ==> run[m] == run[..n][m];
      }
    }
  }

  lemma Installs(c: Config, h: History)
    ensures Allowed(c, h, Installed(true)) ==> !h.due
    ensures Next(c, h, Installed(true)) == h.(duty := FarewellDuty(0))
  {}

  /**
   Once an image is installed the session says so three times and restarts, unless it cannot
   say it: it never goes back to the loop, and it ends in no other way.
   */
  lemma InstalledMeansRestarting(c: Config, run: seq<Event>, i: nat, ending: Ending)
    requires Lawful(c, run) && i < |run| && run[i] == Installed(true)
    ensures forall m :: i < m < |run| ==> Farewell(m - i - 1, run[m])
    ensures MayEnd(c, Fold(c, run), ending) ==>
              (ending == RebootingNow && run[|run| - 1] == Restarted) || ending == Failed(SendFailed)
  {
    hide Next, Allowed, Fold, Lawful, Farewell;
    StaysInFarewell(c, run, i);
    if MayEnd(c, Fold(c, run), ending) {
      FarewellEnds(c, Fold(c, run), |run| - 1 - i, ending);
      if ending == RebootingNow {
        LastWord(run, i);
      }
    }
  }

  lemma FarewellEnds(c: Config, h: History, n: nat, ending: Ending)
    requires !h.due && (h.duty == FarewellDuty(n) || h.duty == Over(Failed(SendFailed))) && MayEnd(c, h, ending)
    ensures (ending == RebootingNow && n > 4) || ending == Failed(SendFailed)
  {}

  lemma LastWord(run: seq<Event>, i: nat)
    requires i + 5 < |run| && forall m :: i < m < |run| ==> Farewell(m - i - 1, run[m])
    ensures run[|run| - 1] == Restarted
  {
    var m := |run| - 1;
    assert Farewell(m - i - 1, run[m]);
  }

  // ---------- What is said of an update ----------

  /** That it is in place. */
  predicate ClaimsDone(e: Event) { e.Sent? && Done(e.content) }

  predicate Done(content: Content) { content == Told(Completed) || (content.Progress? && content.updating) }

  /** It is still to be said. */
  predicate Claiming(duty: Duty) { duty.Sending? && (Done(duty.content) || Claiming(duty.after)) }

  lemma {:induction false} SendAllClaimsNothing(contents: seq<Content>, handling: bool)
    requires forall i :: 0 <= i < |contents| ==> !Done(contents[i])
    ensures !Claiming(SendAll(contents, handling))
    decreases |contents|
  {
    if contents != [] {
      SendAllClaimsNothing(contents[1..], handling);
    }
  }

  lemma CallsClaimNothing(c: Config, link: Channels, reader: Console.Reader, m: Message)
    ensures !Claiming(Calls(c, link, reader, m))
  {
    hide Console.Feed;
    SendAllClaimsNothing(Confirmations(Heard(link, m).attached), true);
    SendAllClaimsNothing([Health], false);
  }

  lemma ClaimingWhenSending(c: Config, h: History, e: Event)
    requires Allowed(c, h, e) && e.Sent?
    ensures Claiming(Next(c, h, e).duty) ==> Claiming(h.duty)
    ensures ClaimsDone(e) ==> Claiming(h.duty)
  {
    hide Next, Allowed, AfterSend, NextRef, Label;
    SentMeans(c, h, e);
  }

  lemma ClaimingWhenReading(c: Config, h: History, e: Event)
    requires Allowed(c, h, e) && e.Clock?
    ensures Claiming(Next(c, h, e).duty) ==> Claiming(h.duty)
  {
    hide Next, Allowed;
    ReadMeans(c, h, e);
  }

  lemma ClaimingWhenRunning(duty: Duty, command: Command)
    ensures Claiming(AfterRunning(duty, command)) ==> Claiming(duty)
  {
    if duty.Answering? && duty.lines != [] {
      var after := ToAnswer(duty.lines[1..], "");
      assert !after.Sending? && !Claiming(after) && !Claiming(Pausing);
    }
  }

  lemma ClaimingWhenDeciding(duty: Duty, decision: Decision)
    ensures Claiming(AfterDeciding(duty, decision)) ==> Claiming(duty)
  {
    var after := AfterDeciding(duty, decision);
    if duty.Deciding? && after.Sending? {
      assert after.after.Idle? && !Claiming(after.after) && !Done(after.content);
    }
  }

  /** Only something to say is something to claim; and a failed update is none. */
  lemma ClaimingIsSaying(duty: Duty)
    ensures !duty.Sending? || duty == UPDATE_FAILED ==> !Claiming(duty)
  {}

  lemma ClaimingOtherwise(c: Config, h: History, e: Event)
    requires !e.Sent? && !e.Clock?
    ensures Claiming(Next(c, h, e).duty) ==> Claiming(h.duty) || e == Installed(true)
  {
    hide Calls, Heard, ReaderAfter, SendAll, AfterRunning, AfterDeciding, Claiming, OnSent, OnClock;
    SendAllClaimsNothing([Health], false);
    SendAllClaimsNothing([Location], false);
    ClaimingIsSaying(Next(c, h, e).duty);
    if e.Received? {
      CallsClaimNothing(c, h.link, h.reader, e.message);
    } else if e.Ran? {
      ClaimingWhenRunning(h.duty, e.command);
    } else if e.Decided? {
      ClaimingWhenDeciding(h.duty, e.decision);
    }
  }

  lemma {:induction false} ClaimingMeansInstalled(c: Config, run: seq<Event>)
    requires Lawful(c, run) && Claiming(Fold(c, run).duty)
    ensures Installed(true) in run
    decreases |run|
  {
    hide Next, Allowed, Claiming;
    if run == [] {
      NothingClaimed(c);
    } else {
      var n := |run| - 1;
      var h := Fold(c, run[..n]);
      assert run[n] in run;
      if run[n].Sent? {
        ClaimingWhenSending(c, h, run[n]);
      } else if run[n].Clock? {
        ClaimingWhenReading(c, h, run[n]);
      } else {
        ClaimingOtherwise(c, h, run[n]);
      }
      if run[n] != Installed(true) {
        ClaimingMeansInstalled(c, run[..n]);
      }
    }
  }

  lemma NothingClaimed(c: Config)
    ensures !Claiming(Start(c).duty)
  {}

  /** The platform is told that an update is in place, by progress or by status, only once it is installed. */
  lemma DoneMeansInstalled(c: Config, run: seq<Event>, i: nat)
    requires Lawful(c, run) && i < |run| && ClaimsDone(run[i])
    ensures Installed(true) in run[..i]
  {
    hide Next, Allowed, Lawful, Fold, Claiming;
    StepAt(c, run, i);
    ClaimingWhenSending(c, Fold(c, run[..i]), run[i]);
    ClaimingMeansInstalled(c, run[..i]);
  }
}
