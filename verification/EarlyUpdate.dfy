/**
 When an update is acted on before the running image has been confirmed (src/agent.rs,
 src/link.rs): exactly when, and two ways it comes about.
 */
module EarlyUpdate {
  import opened Common
  import opened Protocol
  import opened SessionTheorems
  import Console
  import Updates

  // ---------- Exactly when ----------

  predicate AboutToUpdate(duty: Duty) { duty.Deciding? || duty.Applying? }

  lemma UpdateWhenSending(c: Config, h: History, e: Event)
    requires Sane(h) && Allowed(c, h, e) && (e.Sent? || e.Clock?)
    ensures !AboutToUpdate(Next(c, h, e).duty)
  {
    hide Next, Allowed, AfterSend, NextRef, Label, Orderly;
    if e.Sent? {
      SentMeans(c, h, e);
    } else {
      ReadMeans(c, h, e);
    }
  }

  lemma UpdateOtherwise(c: Config, h: History, e: Event)
    requires Allowed(c, h, e) && !e.Sent? && !e.Clock?
    ensures Next(c, h, e).duty.Applying? ==> e == Decided(Apply) && h.duty == Deciding(Next(c, h, e).duty.update)
    ensures Next(c, h, e).duty.Deciding? ==> Offers(e, Next(c, h, e).duty.update)
  {
    hide Calls, Heard, ReaderAfter, LimitReached, Lingered, StillWaiting, LogsCount;
    hide OnSent, OnClock, MaySend, MayRead;
    if e.Received? {
      UpdateCalledFor(c, h.link, h.reader, e.message);
    }
  }

  lemma UpdateCalledFor(c: Config, link: Channels, reader: Console.Reader, m: Message)
    ensures !Calls(c, link, reader, m).Applying?
    ensures Calls(c, link, reader, m).Deciding? ==> Brings(m) == Some(Calls(c, link, reader, m).update)
  {
    hide Console.Feed;
  }

  lemma UpdateStep(c: Config, h: History, e: Event)
    requires Sane(h) && Allowed(c, h, e)
    ensures Next(c, h, e).duty.Applying? ==> e == Decided(Apply) && h.duty == Deciding(Next(c, h, e).duty.update)
    ensures Next(c, h, e).duty.Deciding? ==> Offers(e, Next(c, h, e).duty.update)
  {
    hide Next, Allowed, Sane;
    if e.Sent? || e.Clock? {
      UpdateWhenSending(c, h, e);
    } else {
      UpdateOtherwise(c, h, e);
    }
  }

  lemma BeginningMeans(c: Config, h: History, ok: bool)
    requires Allowed(c, h, Began(ok))
    ensures h.duty.Applying?
  {}

  /** An update is applied right after a decision, and that comes right after the message that brought it. */
  lemma BeginningFollows(c: Config, run: seq<Event>)
    requires Lawful(c, run) && Fold(c, run).duty.Applying?
    ensures |run| >= 2 && Offers(run[|run| - 2], Fold(c, run).duty.update) && run[|run| - 1] == Decided(Apply)
  {
    hide Next, Allowed, Sane;
    if run != [] {
      var n := |run| - 1;
      SaneAlways(c, run[..n]);
      UpdateStep(c, Fold(c, run[..n]), run[n]);
      if n > 0 {
        SaneAlways(c, run[..n][..n - 1]);
        UpdateStep(c, Fold(c, run[..n][..n - 1]), run[n - 1]);
      }
    }
  }

  lemma AcceptedSince(run: seq<Event>, n: nat, m: nat)
    requires n <= m <= |run| && Accepted(run[..n])
    ensures Accepted(run[..m])
  {
    var j, k :| 0 <= j < k && AcceptedBy(run[..n], j, k);
    assert AcceptedBy(run[..m], j, k);
  }

  /**
   The running image has been confirmed by the time an update begins to install exactly when the
   join had been accepted before the message that brought the update. (Being told means that an
   image on probation has been marked: `ConfirmedOnlyOnceAccepted`.)
   */
  lemma ConfirmedFirstIffAcceptedFirst(c: Config, run: seq<Event>, i: nat)
    requires Lawful(c, run) && i < |run| && run[i].Began?
    ensures i >= 2 && run[i - 2].Received? && run[i - 1] == Decided(Apply)
    ensures ToldValidated(run[..i]) <==> Accepted(run[..i - 2])
  {
    hide Next, Allowed, Sane, Lawful, Fold, AcceptedBy;
    StepAt(c, run, i);
    BeginningMeans(c, Fold(c, run[..i]), run[i].ok);
    BeginningFollows(c, run[..i]);
    assert run[..i][i - 2] == run[i - 2] && run[..i][i - 1] == run[i - 1];
    if Accepted(run[..i - 2]) {
      ToldBeforeArrival(c, run, i - 2);
      var v :| 0 <= v < i - 2 && IsValidated(run[..i - 2][v]);
      assert IsValidated(run[..i][v]);
    }
    if ToldValidated(run[..i]) {
      var v :| 0 <= v < i && IsValidated(run[..i][v]);
      assert v < i - 2;
      ConfirmedOnlyOnceAccepted(c, run, v);
      AcceptedSince(run, v, i - 2);
    }
  }

  lemma ToldBeforeArrival(c: Config, run: seq<Event>, m: nat)
    requires Lawful(c, run) && m < |run| && IsArrival(run[m]) && Accepted(run[..m])
    ensures ToldValidated(run[..m])
  {
    hide Lawful, ToldValidated;
    var j, k :| 0 <= j < k && AcceptedBy(run[..m], j, k);
    assert AcceptedBy(run, j, k);
    ConfirmedBeforeListening(c, run, j, k, m);
  }

  // ---------- Two ways it comes about ----------

  /** The run is lawful, and this is where it comes to. */
  predicate Reaches(c: Config, run: seq<Event>, h: History) { Lawful(c, run) && Fold(c, run) == h }

  /** It began on an image on probation, and nothing has confirmed it. */
  predicate Unconfirmed(run: seq<Event>) {
    && run != [] && run[0] == Pending(true)
    && forall i :: 0 <= i < |run| ==> !Is(run[i], ImageMarked) && !Is(run[i], ValidatedSent)
  }

  /** All it has received is this. */
  predicate Heeds(run: seq<Event>, messages: seq<Message>) {
    forall i :: 0 <= i < |run| && run[i].Received? ==> run[i].message in messages
  }

  lemma Goes(c: Config, run: seq<Event>, h: History, e: Event, messages: seq<Message>)
    returns (run': seq<Event>, h': History)
    requires Reaches(c, run, h) && Allowed(c, h, e) && Unconfirmed(run) && Heeds(run, messages)
    requires !Is(e, ImageMarked) && !Is(e, ValidatedSent) && (e.Received? ==> e.message in messages)
    ensures run' == run + [e] && h' == Next(c, h, e)
    ensures Reaches(c, run', h') && Unconfirmed(run') && Heeds(run', messages)
  {
    hide Next, Allowed, Fold, Lawful;
    OneMore(c, run, e);
    run', h' := run + [e], Next(c, h, e);
  }

  lemma Asks(c: Config, messages: seq<Message>) returns (run: seq<Event>)
    ensures Reaches(c, run, Start(c).(duty := Opening(Some(true), Some(false))))
    ensures Unconfirmed(run) && Heeds(run, messages)
  {
    hide Fold, Lawful;
    NothingYet(c);
    OneMore(c, [], Pending(true));
    run := [] + [Pending(true)];
    var h: History;
    run, h := Goes(c, run, Next(c, Start(c), Pending(true)), Reverted(false), messages);
  }

  /** Joined, and at the first turn; the clock has stood still. */
  function Waiting(c: Config): History {
    History(NO_CHANNELS.(next := 1, joinRef := Some("1")), NO_LOOP, c.typed, Idle, 0, true, false, NoneDue,
            false, false, None, None)
  }

  lemma Joins(c: Config, messages: seq<Message>) returns (run: seq<Event>, h: History)
    ensures Reaches(c, run, h) && Unconfirmed(run) && Heeds(run, messages)
    ensures h == Waiting(c).(timed := false, duty := Timing(LogsFrom))
  {
    hide Fold, Lawful, Reaches, Unconfirmed, Heeds;
    run := Asks(c, messages);
    h := Start(c).(duty := Opening(Some(true), Some(false)));
    assert NextRef(h.link) == "1";
    run, h := Goes(c, run, h, Sent(Join(false, false, None), Some("1"), "1", true), messages);
  }

  lemma Waits(c: Config, messages: seq<Message>) returns (run: seq<Event>)
    requires c.heartbeat > 0
    ensures Reaches(c, run, Waiting(c)) && Unconfirmed(run) && Heeds(run, messages)
  {
    hide Fold, Lawful, Reaches, Unconfirmed, Heeds;
    var h: History;
    run, h := Joins(c, messages);
    run, h := Goes(c, run, h, Clock(LogsFrom, 0), messages);
    run, h := Goes(c, run, h, Clock(BeatsFrom, 0), messages);
    run, h := Goes(c, run, h, Clock(Started, 0), messages);
    run, h := Goes(c, run, h, Clock(Turn, 0), messages);
  }

  const AN_UPDATE := Updates.Update(true, Some("url"), Some("uuid"), None, None)

  /** The join accepted, with an update for its reply; and an update pushed unasked. */
  const ACCEPTED := Message(Device, Some("1"), Reply(true, Some(Response(Some(AN_UPDATE), []))))
  const PUSHED := Message(Device, None, Update(Some(AN_UPDATE)))

  /** An image on probation replaced, on one message, with nothing marked and the platform never told. */
  lemma Installs(c: Config, m: Message) returns (run: seq<Event>)
    requires c.heartbeat > 0 && c.window == None && !c.control && (m == ACCEPTED || m == PUSHED)
    ensures Lawful(c, run) && Unconfirmed(run) && Heeds(run, [m])
    ensures run != [] && run[|run| - 1] == Installed(true)
  {
    hide Fold, Unconfirmed, Heeds;
    var before := Waits(c, [m]);
    var h: History;
    run, h := Goes(c, before, Waiting(c), Received(m), [m]);
    HearsUpdate(c, m);
    run, h := Decides(c, run, h, [m]);
    run, h := Goes(c, run, h, Installed(true), [m]);
  }

  lemma HearsUpdate(c: Config, m: Message)
    requires m == ACCEPTED || m == PUSHED
    ensures
      var h := Next(c, Waiting(c), Received(m));
      h.duty == Deciding(AN_UPDATE) && NothingDue(h)
  {}

  lemma Decides(c: Config, before: seq<Event>, h: History, messages: seq<Message>)
    returns (run: seq<Event>, h': History)
    requires Reaches(c, before, h) && Unconfirmed(before) && Heeds(before, messages)
    requires h.duty == Deciding(AN_UPDATE) && NothingDue(h)
    ensures Reaches(c, run, h') && Unconfirmed(run) && Heeds(run, messages)
    ensures h'.duty == Downloading(0, 0, 0, false, false) && NothingDue(h')
  {
    hide Fold, Lawful, Reaches, Unconfirmed, Heeds;
    run, h' := Goes(c, before, h, Decided(Apply), messages);
    run, h' := Goes(c, run, h', Began(true), messages);
    run, h' := Goes(c, run, h', Clock(PumpFrom, 0), messages);
  }

  /** The join's own reply brings an update, and that is acted on before the turn that would confirm. */
  lemma TheJoinsReplyCanComeFirst(c: Config) returns (run: seq<Event>)
    requires c.heartbeat > 0 && c.window == None && !c.control
    ensures Lawful(c, run) && Unconfirmed(run) && Heeds(run, [ACCEPTED])
    ensures run != [] && run[|run| - 1] == Installed(true)
  {
    run := Installs(c, ACCEPTED);
  }

  /** An update pushed before the join has been answered at all is acted on too. */
  lemma APushCanComeFirst(c: Config) returns (run: seq<Event>)
    requires c.heartbeat > 0 && c.window == None && !c.control
    ensures Lawful(c, run) && Unconfirmed(run) && Heeds(run, [PUSHED]) && !Accepted(run)
    ensures run != [] && run[|run| - 1] == Installed(true)
  {
    hide Lawful, Unconfirmed;
    run := Installs(c, PUSHED);
  }
}
