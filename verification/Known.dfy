/**
 What a session's state is, in terms of what has happened: the channels and the loop's variables
 as the run itself says them, with nothing of how they are kept.
 */
module Known {
  import opened Common
  import opened Protocol
  import opened SessionTheorems
  import opened Endings
  import opened ChannelTheorems
  import opened Heartbeats
  import opened LogTheorems
  import Console

  // ---------- The loop's variables, an event at a time ----------

  /** At the loop's choice there are four things it may send. */
  lemma IdleSends(c: Config, h: History, e: Event)
    requires Allowed(c, h, e) && e.Sent? && h.duty.Idle?
    ensures IsBeat(e) || IsLogs(e) || e.content.ExtensionsJoin? || e.content.ConsoleJoin?
  {
    hide Next, Label, NextRef, JoinsExtensions, JoinsConsole;
  }

  lemma ConfirmingSends(c: Config, h: History, e: Event)
    requires Allowed(c, h, e) && e.Sent? && h.duty.Confirming?
    ensures !IsBeat(e) && !IsLogs(e) && !e.content.ExtensionsJoin? && !e.content.ConsoleJoin?
  {
    hide Next, Label, NextRef;
  }

  lemma JoinsAreTheLoops(c: Config, h: History, e: Event)
    requires Sane(h) && Allowed(c, h, e) && e.Sent? && (e.content.ExtensionsJoin? || e.content.ConsoleJoin?)
    ensures h.duty.Idle?
  {
    hide Next, Label, NextRef, Orderly, JoinsExtensions, JoinsConsole;
  }

  /** Each of the loop's variables, and what changes it. */
  predicate LoopFollows(h: History, e: Event, loop: Loop) {
    var idle := h.duty.Idle? && e.Sent? && e.ok;
    && loop.lastHeartbeat == (if e.Clock? && e.why.BeatsFrom? then e.now
                              else if idle && IsBeat(e) then h.turn else h.loop.lastHeartbeat)
    && loop.lastLog == (if e.Clock? && e.why.LogsFrom? then e.now
                        else if idle && IsLogs(e) then h.turn else h.loop.lastLog)
    && loop.extensionsJoined == (h.loop.extensionsJoined || (idle && e.content.ExtensionsJoin?))
    && loop.consoleJoined == (h.loop.consoleJoined || (idle && e.content.ConsoleJoin?))
    && loop.healthAnswered == (h.loop.healthAnswered || (e.Received? && AsksHealth(h.link, e.message)))
  }

  lemma LoopStep(c: Config, h: History, e: Event)
    requires Allowed(c, h, e)
    ensures LoopFollows(h, e, Next(c, h, e).loop)
  {
    hide Next, Allowed, OnSent, OnClock, OnReceived, OwedAfter, TurnOver, LoopFollows;
    if e.Sent? {
      LoopWhenSaying(c, h, e);
    } else if e.Clock? {
      LoopWhenReading(c, h, e);
    } else {
      LoopOtherwise(c, h, e);
    }
  }

  lemma LoopWhenSaying(c: Config, h: History, e: Event)
    requires Allowed(c, h, e) && e.Sent?
    ensures LoopFollows(h, e, Next(c, h, e).loop)
  {
    hide Next, Allowed, AfterSend, DutyAfterSaying;
    SayingMeans(c, h, e);
    if h.duty.Idle? {
      IdleSends(c, h, e);
    }
  }

  lemma LoopWhenReading(c: Config, h: History, e: Event)
    requires e.Clock?
    ensures LoopFollows(h, e, Next(c, h, e).loop)
  {
    hide DutyAfterReading, BeatFrom, LogFrom, LogsDue;
  }

  lemma LoopOtherwise(c: Config, h: History, e: Event)
    requires !e.Sent? && !e.Clock?
    ensures LoopFollows(h, e, Next(c, h, e).loop)
  {
    hide OwedAfter, Calls, Heard, ReaderAfter, AsksHealth;
  }

  // ---------- What intervals are counted from ----------

  /** The last reading taken for it, or the last turn that sent a heartbeat. */
  function BeatTime(run: seq<Event>): nat {
    if run == [] then 0 else
      var before, e := run[..|run| - 1], run[|run| - 1];
      if e.Clock? && e.why.BeatsFrom? then e.now
      else if IsBeat(e) && e.ok && !Installing(before) then Reading(before, Turn)
      else BeatTime(before)
  }

  /** And the last taken for the log, or the last turn that sent lines. */
  function LogTime(run: seq<Event>): nat {
    if run == [] then 0 else
      var before, e := run[..|run| - 1], run[|run| - 1];
      if e.Clock? && e.why.LogsFrom? then e.now
      else if IsLogs(e) && e.ok && !Installing(before) then Reading(before, Turn)
      else LogTime(before)
  }

  lemma {:induction false} IntervalsAreKnown(c: Config, run: seq<Event>)
    requires Lawful(c, run)
    ensures Fold(c, run).loop.lastHeartbeat == BeatTime(run) && Fold(c, run).loop.lastLog == LogTime(run)
    decreases |run|
  {
    hide Next, Allowed, Sane, Installing;
    if run != [] {
      var n := |run| - 1;
      var h, e := Fold(c, run[..n]), run[n];
      IntervalsAreKnown(c, run[..n]);
      TimesAreReadings(c, run[..n]);
      LoopStep(c, h, e);
      if IsBeat(e) || IsLogs(e) {
        PumpedOrNot(c, run[..n], e);
      }
    }
  }

  /** Heartbeats and logs are a download's exactly while one goes on, and the loop's otherwise. */
  lemma PumpedOrNot(c: Config, run: seq<Event>, e: Event)
    requires Lawful(c, run) && Allowed(c, Fold(c, run), e) && (IsBeat(e) || IsLogs(e))
    ensures Installing(run) <==> Fold(c, run).duty.Downloading?
    ensures !Installing(run) ==> Fold(c, run).duty.Idle?
  {
    hide Next, Lawful, Fold, Sane, Installing, Allowed;
    var h := Fold(c, run);
    SaneAlways(c, run);
    BeatsAndLogsMean(c, h, e);
    if h.duty.Downloading? {
      DownloadsAreSeen(c, run);
    } else if Installing(run) {
      InstallingMeans(c, run);
    }
  }

  lemma BeatsAndLogsMean(c: Config, h: History, e: Event)
    requires Sane(h) && Allowed(c, h, e) && (IsBeat(e) || IsLogs(e))
    ensures h.duty.Downloading? || (h.duty.Idle? && h.timed)
  {
    hide Next, Label, NextRef, JoinsExtensions, JoinsConsole;
  }

  // ---------- What is attached ----------

  /** A reply to this session's own join of the extensions channel; or to nothing, while there is none. */
  ghost predicate ExtensionsReply(run: seq<Event>, k: nat) {
    && k < |run| && run[k].Received? && run[k].message.topic.Extensions? && run[k].message.body.Reply?
    && ExtensionsRef(run[..k], run[k].message.ref)
  }

  predicate Closes(e: Event) { e.Received? && e.message.topic.Device? && e.message.body.Close? }

  /** What the last such reply listed, unless the device's channel has closed since. */
  ghost function AttachedKeys(run: seq<Event>): seq<string> {
    if run == [] then [] else
      var n := |run| - 1;
      if ExtensionsReply(run, n) then
        if run[n].message.body.response.Some? then run[n].message.body.response.value.attached else []
      else if Closes(run[n]) then []
      else AttachedKeys(run[..n])
  }

  /** Whether there has been one. */
  ghost predicate ExtensionsAnswered(run: seq<Event>) { exists k: nat :: ExtensionsReply(run, k) }

  lemma ExtensionsRefIsOne(c: Config, run: seq<Event>, ref: Option<string>)
    requires Lawful(c, run)
    ensures ExtensionsRef(run, ref) <==> Fold(c, run).link.extensionsRef == ref
  {
    hide Next, Lawful, Fold;
    ExtensionsRefIsKnown(c, run);
    var known := Fold(c, run).link.extensionsRef;
    if ExtensionsRef(run, ref) && known.Some? && ref.Some? {
      var i: nat :| i < |run| && IsExtensionsJoin(run[i]) && run[i].ref == known.value;
      var j: nat :| j < |run| && IsExtensionsJoin(run[j]) && run[j].ref == ref.value;
      if i < j {
        EachHappensOnce(c, run, i, j, ExtensionsJoinSent);
      } else if j < i {
        EachHappensOnce(c, run, j, i, ExtensionsJoinSent);
      }
    }
  }

  lemma AttachedStep(link: Channels, m: Message)
    ensures Heard(link, m).attached
         == if m.topic.Extensions? && m.body.Reply? && m.ref == link.extensionsRef then
              if m.body.response.Some? then m.body.response.value.attached else []
            else if m.topic.Device? && m.body.Close? then []
            else link.attached
    ensures Heard(link, m).extensionsUp
         == if m.topic.Device? && m.body.Close? then false
            else link.extensionsUp || (m.topic.Extensions? && m.body.Reply? && m.ref == link.extensionsRef)
  {}

  lemma SendingAttachesNothing(link: Channels, content: Content)
    ensures AfterSend(link, content).attached == link.attached
    ensures AfterSend(link, content).extensionsUp == link.extensionsUp
    ensures AfterSend(link, content).invited == link.invited && AfterSend(link, content).batches == link.batches
  {
    hide NextRef;
  }

  lemma {:induction false} AttachedIsTheLastReply(c: Config, run: seq<Event>)
    requires Lawful(c, run)
    ensures Fold(c, run).link.attached == AttachedKeys(run)
    decreases |run|
  {
    hide Next, Allowed, AfterSend, Heard, ExtensionsRef;
    if run != [] {
      var n := |run| - 1;
      var h, e := Fold(c, run[..n]), run[n];
      AttachedIsTheLastReply(c, run[..n]);
      ChannelsStep(c, h, e);
      if e.Sent? {
        SendingAttachesNothing(h.link, e.content);
      } else if e.Received? {
        AttachedStep(h.link, e.message);
        ExtensionsRefIsOne(c, run[..n], e.message.ref);
      }
    }
  }

  /** While the session goes on, the extensions channel is up exactly when its join has been answered. */
  lemma {:induction false} ExtensionsUpIsAnswered(c: Config, run: seq<Event>)
    requires Lawful(c, run)
    ensures Fold(c, run).link.extensionsUp ==> ExtensionsAnswered(run)
    ensures ExtensionsAnswered(run) ==> Fold(c, run).link.extensionsUp || Fold(c, run).duty.Leaving?
    decreases |run|
  {
    hide Next, Allowed, AfterSend, Heard, ExtensionsRef, ExtensionsAnswered;
    if run == [] {
      NotYetAnswered();
    } else {
      var n := |run| - 1;
      var h, e := Fold(c, run[..n]), run[n];
      ExtensionsUpIsAnswered(c, run[..n]);
      ChannelsStep(c, h, e);
      AnsweredStep(run[..n], e);
      assert run[..n] + [e] == run;
      if h.duty.Leaving? {
        NothingAfterLeaving(c, h, e);
      }
      if e.Sent? {
        SendingAttachesNothing(h.link, e.content);
      } else if e.Received? {
        AttachedStep(h.link, e.message);
        ExtensionsRefIsOne(c, run[..n], e.message.ref);
        ReceivedCalls(c, h, e.message);
        ClosingLeaves(c, h.link, h.reader, e.message);
      }
    }
  }

  lemma NotYetAnswered()
    ensures !ExtensionsAnswered([])
  {}

  lemma ClosingLeaves(c: Config, link: Channels, reader: Console.Reader, m: Message)
    ensures m.topic.Device? && m.body.Close? ==> Calls(c, link, reader, m).Leaving?
  {}

  lemma AnsweredStep(run: seq<Event>, e: Event)
    ensures ExtensionsAnswered(run + [e]) <==> ExtensionsAnswered(run) || ExtensionsReply(run + [e], |run|)
  {
    hide ExtensionsRef;
    var all := run + [e];
    forall k: nat | k < |run| ensures ExtensionsReply(all, k) <==> ExtensionsReply(run, k) {
      assert all[..k] == run[..k] && all[k] == run[k];
    }
  }

  // ---------- What was invited, and joined ----------

  /** The last invitation since the channel was closed, if it ever was: whether it had batches to offer. */
  function LastInvitation(run: seq<Event>): Option<bool> {
    if run == [] then None else
      var e := run[|run| - 1];
      if IsInvitation(e) then Some(e.message.body.batches)
      else if Closes(e) then None
      else LastInvitation(run[..|run| - 1])
  }

  lemma InvitedStep(link: Channels, m: Message)
    ensures
      var link', e := Heard(link, m), Received(m);
      && link'.invited == (IsInvitation(e) || (link.invited && !Closes(e)))
      && link'.batches == if IsInvitation(e) then m.body.batches else link.batches && !Closes(e)
  {}

  lemma {:induction false} InvitationsAreHeard(c: Config, run: seq<Event>)
    ensures
      var link, last := Fold(c, run).link, LastInvitation(run);
      link.invited == last.Some? && link.batches == (last == Some(true))
    decreases |run|
  {
    hide Next, AfterSend, Heard;
    if run != [] {
      var n := |run| - 1;
      var h, e := Fold(c, run[..n]), run[n];
      InvitationsAreHeard(c, run[..n]);
      ChannelsStep(c, h, e);
      if e.Sent? {
        SendingAttachesNothing(h.link, e.content);
      } else if e.Received? {
        InvitedStep(h.link, e.message);
      }
    }
  }

  ghost predicate Happened(run: seq<Event>, m: Milestone) { exists i :: 0 <= i < |run| && Is(run[i], m) }

  lemma HappenedStill(run: seq<Event>, e: Event, m: Milestone)
    ensures Happened(run, m) || Is(e, m) ==> Happened(run + [e], m)
  {
    if Happened(run, m) {
      var i :| 0 <= i < |run| && Is(run[i], m);
      assert Is((run + [e])[i], m);
    }
    assert (run + [e])[|run|] == e;
  }

  lemma {:induction false} JoinedMeansSent(c: Config, run: seq<Event>)
    requires Lawful(c, run)
    ensures Fold(c, run).loop.extensionsJoined ==> Happened(run, ExtensionsJoinSent)
    ensures Fold(c, run).loop.consoleJoined ==> Happened(run, ConsoleJoinSent)
    decreases |run|
  {
    hide Next, Allowed, Done;
    if run != [] {
      var n := |run| - 1;
      JoinedMeansSent(c, run[..n]);
      LoopStep(c, Fold(c, run[..n]), run[n]);
      HappenedStill(run[..n], run[n], ExtensionsJoinSent);
      HappenedStill(run[..n], run[n], ConsoleJoinSent);
      assert run[..n] + [run[n]] == run;
    }
  }

  // ---------- The turn so far ----------

  /** Nothing has arrived since. */
  predicate ThisTurn(run: seq<Event>, i: nat) {
    i < |run| && forall k :: i < k < |run| ==> !IsArrival(run[k])
  }

  ghost predicate LookedThisTurn(run: seq<Event>) {
    exists i: nat :: ThisTurn(run, i) && run[i].Clock? && run[i].why.Invitation?
  }

  /** The last of the answers of that kind this turn, if there is one. */
  function ControlThisTurn(run: seq<Event>): Option<Control> {
    if run == [] || IsArrival(run[|run| - 1]) then None
    else if run[|run| - 1].Controlled? then Some(run[|run| - 1].control)
    else ControlThisTurn(run[..|run| - 1])
  }

  function EmptiedThisTurn(run: seq<Event>): Option<bool> {
    if run == [] || IsArrival(run[|run| - 1]) then None
    else if run[|run| - 1].Emptied? then Some(run[|run| - 1].yes)
    else EmptiedThisTurn(run[..|run| - 1])
  }

  lemma LookedStep(run: seq<Event>, e: Event)
    ensures LookedThisTurn(run + [e]) <==>
              (e.Clock? && e.why.Invitation?) || (LookedThisTurn(run) && !IsArrival(e))
  {
    var all := run + [e];
    forall i: nat | i < |run| ensures ThisTurn(all, i) <==> ThisTurn(run, i) && !IsArrival(e) {
      assert all[|run|] == e;
      assert forall k :: i < k < |run| ==> all[k] == run[k];
    }
    assert ThisTurn(all, |run|);
    if LookedThisTurn(run) && !IsArrival(e) {
      var i: nat :| ThisTurn(run, i) && run[i].Clock? && run[i].why.Invitation?;
      assert ThisTurn(all, i);
    }
  }

  lemma AsidesStep(c: Config, h: History, e: Event)
    ensures
      var h' := Next(c, h, e);
      && h'.looked == ((e.Clock? && e.why.Invitation?) || (h.looked && !IsArrival(e)))
      && h'.control == (if IsArrival(e) then None else if e.Controlled? then Some(e.control) else h.control)
      && h'.emptied == (if IsArrival(e) then None else if e.Emptied? then Some(e.yes) else h.emptied)
  {
    hide OwedAfter, Calls, Heard, ReaderAfter, AfterSend, DutyAfterSaying, LoopAfterSaying, DutyAfterReading;
    hide LoopAfterReading, BeatFrom, LogFrom, LogsDue;
  }

  lemma {:induction false} AsidesAreKnown(c: Config, run: seq<Event>)
    ensures
      var h := Fold(c, run);
      && (h.looked <==> LookedThisTurn(run))
      && h.control == ControlThisTurn(run) && h.emptied == EmptiedThisTurn(run)
    decreases |run|
  {
    hide Next, LookedThisTurn;
    if run == [] {
      NotLookedYet();
    } else {
      var n := |run| - 1;
      AsidesAreKnown(c, run[..n]);
      AsidesStep(c, Fold(c, run[..n]), run[n]);
      LookedStep(run[..n], run[n]);
      assert run[..n] + [run[n]] == run;
    }
  }

  lemma NotLookedYet()
    ensures !LookedThisTurn([])
  {}

  // ---------- Health, and what was typed ----------

  /** A health check that came with health attached. */
  ghost predicate HealthChecked(run: seq<Event>, k: nat) {
    && k < |run| && run[k].Received? && run[k].message.topic.Extensions? && run[k].message.body.HealthCheck?
    && "health" in AttachedKeys(run[..k])
  }

  ghost predicate HealthAnswered(run: seq<Event>) { exists k: nat :: HealthChecked(run, k) }

  lemma CheckedStep(run: seq<Event>, e: Event)
    ensures HealthAnswered(run + [e]) <==> HealthAnswered(run) || HealthChecked(run + [e], |run|)
  {
    hide AttachedKeys;
    var all := run + [e];
    forall k: nat | k < |run| ensures HealthChecked(all, k) <==> HealthChecked(run, k) {
      assert all[..k] == run[..k] && all[k] == run[k];
    }
  }

  lemma {:induction false} HealthIsAnswered(c: Config, run: seq<Event>)
    requires Lawful(c, run)
    ensures Fold(c, run).loop.healthAnswered <==> HealthAnswered(run)
    decreases |run|
  {
    hide Next, Allowed, HealthAnswered, AttachedKeys;
    if run == [] {
      NoHealthYet();
    } else {
      var n := |run| - 1;
      HealthIsAnswered(c, run[..n]);
      LoopStep(c, Fold(c, run[..n]), run[n]);
      AttachedIsTheLastReply(c, run[..n]);
      CheckedStep(run[..n], run[n]);
      assert run[..n] + [run[n]] == run;
    }
  }

  lemma NoHealthYet()
    ensures !HealthAnswered([])
  {}

  /** What the line editor has come to: everything typed, since the console was last restarted. */
  function ReaderOf(c: Config, run: seq<Event>): Console.Reader {
    if run == [] then c.typed else
      var before, e := ReaderOf(c, run[..|run| - 1]), run[|run| - 1];
      if !c.console || !e.Received? || !e.message.topic.Console? then before
      else if e.message.body.Restart? then Console.FRESH
      else if e.message.body.Down? && e.message.body.data.Some? then Console.Feed(before, e.message.body.data.value).0
      else before
  }

  lemma ReaderStep(c: Config, h: History, e: Event)
    ensures Next(c, h, e).reader == if e.Received? then ReaderAfter(c, h.reader, e.message) else h.reader
  {
    hide OwedAfter, Calls, Heard, ReaderAfter, AfterSend, DutyAfterSaying, LoopAfterSaying, DutyAfterReading;
    hide LoopAfterReading, BeatFrom, LogFrom, LogsDue;
  }

  lemma {:induction false} ReaderIsKnown(c: Config, run: seq<Event>)
    ensures Fold(c, run).reader == ReaderOf(c, run)
    decreases |run|
  {
    hide Next, Console.Feed;
    if run != [] {
      ReaderIsKnown(c, run[..|run| - 1]);
      ReaderStep(c, Fold(c, run[..|run| - 1]), run[|run| - 1]);
    }
  }

  /** The ref of the console's join, if one has been sent. */
  function ConsoleRef(run: seq<Event>): Option<string> {
    if run == [] then None
    else if Is(run[|run| - 1], ConsoleJoinSent) then Some(run[|run| - 1].ref)
    else ConsoleRef(run[..|run| - 1])
  }

  lemma ConsoleRefStep(link: Channels, content: Content, m: Message)
    ensures AfterSend(link, content).consoleRef == if content.ConsoleJoin? then Some(NextRef(link)) else link.consoleRef
    ensures Heard(link, m).consoleRef == link.consoleRef
  {
    hide NextRef;
  }

  lemma {:induction false} ConsoleRefIsKnown(c: Config, run: seq<Event>)
    requires Lawful(c, run)
    ensures Fold(c, run).link.consoleRef == ConsoleRef(run)
    decreases |run|
  {
    hide Next, Allowed, AfterSend, Heard, MaySend, NextRef;
    if run != [] {
      var n := |run| - 1;
      var h, e := Fold(c, run[..n]), run[n];
      ConsoleRefIsKnown(c, run[..n]);
      ChannelsStep(c, h, e);
      if e.Sent? {
        SentMeans(c, h, e);
        ConsoleRefStep(h.link, e.content, Message(Device, None, Other));
      } else if e.Received? {
        ConsoleRefStep(h.link, Validated, e.message);
      }
    }
  }
}
