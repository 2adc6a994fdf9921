/** What each thing a session is told, or asks, is answered with (src/link.rs, src/agent.rs). */
module Responses {
  import opened Common
  import opened Protocol
  import opened SessionTheorems
  import opened ChannelTheorems
  import opened Heartbeats
  import opened Known
  import Console
  import Updates

  // ---------- What a duty leaves to do ----------

  /** The session is over, and in no other way. */
  ghost predicate EndsAs(c: Config, run: seq<Event>, ending: Ending) {
    && (forall e :: !Lawful(c, run + [e]))
    && (forall other :: MayEnd(c, Fold(c, run), other) <==> other == ending)
  }

  /** It is not over. */
  ghost predicate GoesOn(c: Config, run: seq<Event>) { forall ending :: !MayEnd(c, Fold(c, run), ending) }

  lemma OverMeans(c: Config, run: seq<Event>, ending: Ending)
    requires Lawful(c, run)
    requires ending == Reconnect || ending == RebootingNow
             || ending == Failed(SendFailed) || ending == Failed(MarkFailed)
    requires Fold(c, run).duty == if ending == Reconnect then Leaving else Over(ending)
    ensures EndsAs(c, run, ending)
  {
    hide Next, Fold, Lawful;
    forall e ensures !Lawful(c, run + [e]) {
      OneMore(c, run, e);
      NothingAfterLeaving(c, Fold(c, run), e);
    }
  }

  lemma SayingNext(c: Config, h: History, e: Event, ending: Ending)
    requires Sane(h) && h.duty.Sending?
    ensures !MayEnd(c, h, ending)
    ensures Allowed(c, h, e) ==>
              && e.Sent? && e.content == h.duty.content
              && Next(c, h, e).timed == h.timed && !Next(c, h, e).due
              && Next(c, h, e).duty == if e.ok then h.duty.after else Unsent(h.duty.handling)
  {
    hide Label, NextRef, AfterSend, LoopAfterSaying, Plain;
  }

  /** Any other duty has one kind of event that does it. */
  predicate Does(e: Event, duty: Duty) {
    match duty
    case Timing(why) => e.Clock? && e.why == why
    case Checking => e.Pending?
    case Confirming(marking) => if marking then e.Marked? else e.Sent? && e.content.Validated?
    case Begun => e.Clock? && e.why.PumpFrom?
    case Deciding(_) => e.Decided?
    case Applying(_) => e.Began?
    case Locating => e.Located?
    case Answering(lines, _) => lines != [] && e.Ran? && e.line == lines[0]
    case Pausing => e == Slept(250)
    case Restarting => e == Restarted
    case Rebeat => e.Clock? && e.why.BeatsFrom?
    case _ => true
  }

  lemma DoingNext(c: Config, h: History, e: Event, ending: Ending)
    requires Sane(h) && !h.duty.Idle? && !h.duty.Leaving? && !h.duty.Over?
    ensures !MayEnd(c, h, ending)
    ensures Allowed(c, h, e) ==> Does(e, h.duty)
  {
    hide Label, NextRef, Plain, LimitReached, Lingered, StillWaiting, LogsCount, JoinsExtensions, JoinsConsole;
  }

  /** Back at the top of a turn: the clock, or another join, and nothing that ends it. */
  predicate BeginsATurn(e: Event) {
    || (e.Clock? && (e.why.JoinedAt? || e.why.Invitation? || e.why.Turn?))
    || (e.Sent? && (e.content.ExtensionsJoin? || e.content.ConsoleJoin?))
  }

  lemma IdlingNext(c: Config, h: History, e: Event, ending: Ending)
    requires Sane(h) && h.duty.Idle? && !h.timed && !h.due
    ensures !MayEnd(c, h, ending)
    ensures Allowed(c, h, e) ==> BeginsATurn(e)
  {
    hide Label, NextRef, Plain, LimitReached, Lingered, StillWaiting, LogsCount, JoinsExtensions, JoinsConsole;
  }

  // ---------- The same, of runs ----------

  /** Where a run stands after its event at `i`. */
  function At(c: Config, run: seq<Event>, i: nat): History
    requires i < |run|
  {
    Fold(c, run[..i + 1])
  }

  lemma SaidNext(c: Config, run: seq<Event>, i: nat)
    requires Lawful(c, run) && i < |run| && At(c, run, i).duty.Sending?
    ensures i + 1 == |run| ==> GoesOn(c, run)
    ensures i + 1 < |run| ==>
              var duty := At(c, run, i).duty;
              && run[i + 1].Sent? && run[i + 1].content == duty.content
              && At(c, run, i + 1).timed == At(c, run, i).timed && !At(c, run, i + 1).due
              && At(c, run, i + 1).duty == if run[i + 1].ok then duty.after else Unsent(duty.handling)
  {
    hide Next, Allowed, Lawful, Fold, Sane, MayEnd;
    StepAt(c, run, i);
    var h := At(c, run, i);
    SaneAlways(c, run[..i + 1]);
    assert i + 1 == |run| ==> run[..i + 1] == run;
    forall ending ensures !MayEnd(c, h, ending) {
      SayingNext(c, h, Quiet, ending);
    }
    if i + 1 < |run| {
      StepAt(c, run, i + 1);
      SayingNext(c, h, run[i + 1], Finished);
    }
  }

  lemma DoneNext(c: Config, run: seq<Event>, i: nat)
    requires Lawful(c, run) && i < |run|
    requires var duty := At(c, run, i).duty; !duty.Idle? && !duty.Leaving? && !duty.Over?
    ensures i + 1 == |run| ==> GoesOn(c, run)
    ensures i + 1 < |run| ==>
              && Does(run[i + 1], At(c, run, i).duty)
              && At(c, run, i + 1) == Next(c, At(c, run, i), run[i + 1])
  {
    hide Next, Allowed, Lawful, Fold, Sane, MayEnd, Does;
    StepAt(c, run, i);
    var h := At(c, run, i);
    SaneAlways(c, run[..i + 1]);
    assert i + 1 == |run| ==> run[..i + 1] == run;
    forall ending ensures !MayEnd(c, h, ending) {
      DoingNext(c, h, Quiet, ending);
    }
    if i + 1 < |run| {
      StepAt(c, run, i + 1);
      DoingNext(c, h, run[i + 1], Finished);
    }
  }

  lemma IdlesNext(c: Config, run: seq<Event>, i: nat)
    requires Lawful(c, run) && i < |run| && At(c, run, i).duty.Idle? && !At(c, run, i).timed && !At(c, run, i).due
    ensures i + 1 == |run| ==> GoesOn(c, run)
    ensures i + 1 < |run| ==> BeginsATurn(run[i + 1])
  {
    hide Next, Allowed, Lawful, Fold, Sane, MayEnd;
    StepAt(c, run, i);
    var h := At(c, run, i);
    SaneAlways(c, run[..i + 1]);
    assert i + 1 == |run| ==> run[..i + 1] == run;
    forall ending ensures !MayEnd(c, h, ending) {
      IdlingNext(c, h, Quiet, ending);
    }
    if i + 1 < |run| {
      StepAt(c, run, i + 1);
      IdlingNext(c, h, run[i + 1], Finished);
    }
  }

  lemma OverNext(c: Config, run: seq<Event>, i: nat, ending: Ending)
    requires Lawful(c, run) && i < |run|
    requires ending == Reconnect || ending == RebootingNow
             || ending == Failed(SendFailed) || ending == Failed(MarkFailed)
    requires At(c, run, i).duty == if ending == Reconnect then Leaving else Over(ending)
    ensures i + 1 == |run| && EndsAs(c, run, ending)
  {
    hide Next, Allowed, Lawful, Fold, EndsAs;
    StepAt(c, run, i);
    if i + 1 < |run| {
      StepAt(c, run, i + 1);
      NothingAfterLeaving(c, At(c, run, i), run[i + 1]);
    }
    assert run[..i + 1] == run;
    OverMeans(c, run, ending);
  }

  // ---------- Saying things ----------

  /** The session is back at the top of a turn, or was cut short there. */
  ghost predicate BackInTheLoop(c: Config, run: seq<Event>, i: nat) {
    if i < |run| then BeginsATurn(run[i]) else GoesOn(c, run)
  }

  /**
   From there these are said, in order, and then the loop goes round again -- unless the session is
   cut short. One that cannot be said is the end of it.
   */
  ghost predicate Says(c: Config, run: seq<Event>, i: nat, contents: seq<Content>, ending: Ending)
    decreases |contents|
  {
    if contents == [] then BackInTheLoop(c, run, i)
    else if i >= |run| then GoesOn(c, run)
    else
      && run[i].Sent? && run[i].content == contents[0]
      && if run[i].ok then Says(c, run, i + 1, contents[1..], ending)
         else i + 1 == |run| && EndsAs(c, run, ending)
  }

  function Because(handling: bool): Ending { if handling then Reconnect else Failed(SendFailed) }

  lemma {:induction false} SaysInOrder(c: Config, run: seq<Event>, i: nat, contents: seq<Content>, handling: bool)
    requires Lawful(c, run) && 0 < i <= |run| && At(c, run, i - 1).duty == SendAll(contents, handling)
    requires !At(c, run, i - 1).timed && !At(c, run, i - 1).due
    ensures Says(c, run, i, contents, Because(handling))
    decreases |contents|
  {
    hide Next, Allowed, Lawful, Fold, EndsAs, GoesOn;
    if contents == [] {
      IdlesNext(c, run, i - 1);
    } else {
      SaidNext(c, run, i - 1);
      if i < |run| {
        if run[i].ok {
          SaysInOrder(c, run, i + 1, contents[1..], handling);
        } else {
          OverNext(c, run, i, Because(handling));
        }
      }
    }
  }

  // ---------- What the platform sends on the device's channel ----------

  lemma Hearing(c: Config, run: seq<Event>, i: nat)
    requires Lawful(c, run) && i < |run| && run[i].Received?
    ensures Lawful(c, run[..i])
    ensures
      var h := Fold(c, run[..i]);
      At(c, run, i).duty == Calls(c, h.link, h.reader, run[i].message) && !At(c, run, i).timed && !At(c, run, i).due
  {
    hide Next, Allowed, Lawful, Fold, Calls;
    StepAt(c, run, i);
    HearingStep(c, Fold(c, run[..i]), run[i]);
  }

  lemma HearingStep(c: Config, h: History, e: Event)
    requires Allowed(c, h, e) && e.Received?
    ensures
      var h' := Next(c, h, e);
      h'.duty == Calls(c, h.link, h.reader, e.message) && !h'.timed && !h'.due
  {
    hide Calls, Heard, ReaderAfter, LimitReached, Lingered, StillWaiting;
  }

  /** An operator's reboot is announced, and then done. */
  lemma RebootsAreObeyed(c: Config, run: seq<Event>, i: nat)
    requires Lawful(c, run) && i < |run| && run[i].Received?
    requires run[i].message.topic.Device? && run[i].message.body.Reboot?
    ensures i + 1 == |run| ==> GoesOn(c, run)
    ensures i + 1 < |run| ==> run[i + 1].Sent? && run[i + 1].content == Rebooting
    ensures i + 2 == |run| ==> if run[i + 1].ok then GoesOn(c, run) else EndsAs(c, run, Failed(SendFailed))
    ensures i + 2 < |run| ==> i + 3 == |run| && run[i + 2] == Restarted && EndsAs(c, run, RebootingNow)
  {
    hide Next, Allowed, Lawful, Fold, EndsAs, GoesOn;
    Hearing(c, run, i);
    SaidNext(c, run, i);
    if i + 1 < |run| {
      if run[i + 1].ok {
        DoneNext(c, run, i + 1);
        if i + 2 < |run| {
          Restarting(c, At(c, run, i + 1));
          OverNext(c, run, i + 2, RebootingNow);
        }
      } else {
        OverNext(c, run, i + 1, Failed(SendFailed));
      }
    }
  }

  lemma Restarting(c: Config, h: History)
    ensures Next(c, h, Restarted).duty == Over(RebootingNow)
  {}

  lemma JoinRefIsOne(c: Config, run: seq<Event>, ref: string)
    requires Lawful(c, run)
    ensures JoinedAs(run, ref) <==> Fold(c, run).link.joinRef == Some(ref)
  {
    hide Next, Lawful, Fold;
    JoinIsKnown(c, run);
    if JoinedAs(run, ref) {
      var j :| 0 <= j < |run| && IsJoin(run[j]) && run[j].ref == ref;
      JoinRefIsTheJoins(c, run, j);
    }
  }

  /** The channel closed, the join refused, or an update that does not parse. */
  ghost predicate TurnsAway(run: seq<Event>, i: nat) {
    && i < |run| && run[i].Received? && run[i].message.topic.Device?
    && match run[i].message.body
       case Close => true
       case Update(update) => update.None?
       case Reply(ok, response) =>
         && run[i].message.ref.Some? && JoinedAs(run[..i], run[i].message.ref.value)
         && (!ok || (response.Some? && response.value.update.None?))
       case _ => false
  }

  /** That ends the session, to be tried again. */
  lemma TurnedAwayReconnects(c: Config, run: seq<Event>, i: nat)
    requires Lawful(c, run) && TurnsAway(run, i)
    ensures i + 1 == |run| && EndsAs(c, run, Reconnect)
  {
    hide Next, Allowed, Lawful, Fold, EndsAs, JoinedAs;
    Hearing(c, run, i);
    if run[i].message.ref.Some? {
      JoinRefIsOne(c, run[..i], run[i].message.ref.value);
    }
    OverNext(c, run, i, Reconnect);
  }

  /** Pushed, or in the ok reply to this session's own join. */
  ghost predicate Proposes(run: seq<Event>, i: nat, update: Updates.Update) {
    && i < |run| && run[i].Received? && run[i].message.topic.Device?
    && match run[i].message.body
       case Update(pushed) => pushed == Some(update)
       case Reply(ok, response) =>
         && run[i].message.ref.Some? && JoinedAs(run[..i], run[i].message.ref.value)
         && ok && response.Some? && response.value.update == Some(update)
       case _ => false
  }

  /**
   The application is asked about every update there is something to download for. What it says is
   done, or told to the platform: that one first, if it said no.
   */
  lemma UpdatesAreDecidedOn(c: Config, run: seq<Event>, i: nat, update: Updates.Update)
    requires Lawful(c, run) && Proposes(run, i, update)
    ensures
      if !(update.available && update.url.Some? && update.uuid.Some?) then BackInTheLoop(c, run, i + 1)
      else if i + 1 == |run| then GoesOn(c, run)
      else
        && run[i + 1].Decided?
        && match run[i + 1].decision
           case Apply => if i + 2 < |run| then run[i + 2].Began? else GoesOn(c, run)
           case Ignore(reason) => Says(c, run, i + 2, [Told(Ignored(reason))], Reconnect)
           case Reschedule(delay, reason) => Says(c, run, i + 2, [Told(Rescheduled(delay, reason))], Reconnect)
  {
    hide Next, Allowed, Lawful, Fold, EndsAs, GoesOn, JoinedAs;
    Hearing(c, run, i);
    if run[i].message.ref.Some? {
      JoinRefIsOne(c, run[..i], run[i].message.ref.value);
    }
    if !update.Actionable() {
      IdlesNext(c, run, i);
    } else {
      DoneNext(c, run, i);
      if i + 1 < |run| {
        DecidingMeans(c, At(c, run, i), run[i + 1].decision);
        match run[i + 1].decision {
          case Apply => DoneNext(c, run, i + 1);
          case Ignore(reason) => SaysOne(c, run, i + 2, Told(Ignored(reason)), true);
          case Reschedule(delay, reason) => SaysOne(c, run, i + 2, Told(Rescheduled(delay, reason)), true);
        }
      }
    }
  }

  lemma DecidingMeans(c: Config, h: History, d: Decision)
    requires h.duty.Deciding?
    ensures
      var h' := Next(c, h, Decided(d));
      && h'.timed == h.timed && h'.due == h.due
      && h'.duty == match d
                    case Apply => Applying(h.duty.update)
                    case Ignore(reason) => Sending(Told(Ignored(reason)), Idle, true)
                    case Reschedule(delay, reason) => Sending(Told(Rescheduled(delay, reason)), Idle, true)
  {}

  lemma SaysOne(c: Config, run: seq<Event>, i: nat, content: Content, handling: bool)
    requires Lawful(c, run) && 0 < i <= |run| && At(c, run, i - 1).duty == Sending(content, Idle, handling)
    requires !At(c, run, i - 1).timed && !At(c, run, i - 1).due
    ensures Says(c, run, i, [content], Because(handling))
  {
    hide Next, Allowed, Lawful, Fold;
    assert [content][1..] == [] && SendAll([content], handling) == Sending(content, SendAll([], handling), handling);
    SaysInOrder(c, run, i, [content], handling);
  }

  lemma {:induction false} JoinComesFirst(c: Config, run: seq<Event>)
    requires Lawful(c, run)
    ensures Fold(c, run).duty.Opening? || Fold(c, run).link.joinRef.Some?
    decreases |run|
  {
    hide Next, Allowed, Heard, AfterSend, MaySend, OnSent;
    if run != [] {
      var n := |run| - 1;
      var h, e := Fold(c, run[..n]), run[n];
      JoinComesFirst(c, run[..n]);
      ChannelsStep(c, h, e);
      JoinComesFirstStep(c, h, e);
    }
  }

  lemma JoinComesFirstStep(c: Config, h: History, e: Event)
    requires Allowed(c, h, e)
    ensures h.duty.Opening? ==> Next(c, h, e).duty.Opening? || Next(c, h, e).link.joinRef.Some?
    ensures h.link.joinRef.Some? ==> Next(c, h, e).link.joinRef.Some?
  {
    hide Next, Allowed, NextRef, Label;
    ChannelsStep(c, h, e);
    if e.Sent? {
      SentMeans(c, h, e);
    } else {
      OpeningNeedsTheJoin(c, h, e);
    }
  }

  lemma OpeningNeedsTheJoin(c: Config, h: History, e: Event)
    requires Allowed(c, h, e) && !e.Sent?
    ensures h.duty.Opening? ==> Next(c, h, e).duty.Opening?
  {
    hide Calls, Heard, ReaderAfter, LimitReached, Lingered, StillWaiting, LogsCount;
  }

  /** Anything else on that channel, replies to no join of this session's among it, changes nothing to be done. */
  lemma TheRestIsHeard(c: Config, run: seq<Event>, i: nat)
    requires Lawful(c, run) && i < |run| && run[i].Received? && run[i].message.topic.Device?
    requires
      var m := run[i].message;
      && !m.body.Reboot? && !m.body.Close? && !m.body.Update?
      && (m.body.Reply? ==>
            || m.ref.None? || !JoinedAs(run[..i], m.ref.value)
            || (m.body.ok && m.body.response.None?))
    ensures BackInTheLoop(c, run, i + 1)
  {
    hide Next, Allowed, Lawful, Fold, EndsAs, GoesOn, JoinedAs;
    Hearing(c, run, i);
    JoinComesFirst(c, run[..i]);
    HearsInTheLoop(c, run, i);
    if run[i].message.ref.Some? {
      JoinRefIsOne(c, run[..i], run[i].message.ref.value);
    }
    IdlesNext(c, run, i);
  }

  lemma HearsInTheLoop(c: Config, run: seq<Event>, i: nat)
    requires Lawful(c, run) && i < |run| && IsArrival(run[i])
    ensures Fold(c, run[..i]).duty.Idle?
  {
    hide Next, Lawful, Fold, LimitReached, Lingered, StillWaiting;
    StepAt(c, run, i);
  }

  /** A wait that ends with nothing goes round again; one that ends with no frame, or none that decodes, ends it. */
  lemma WaitsEnd(c: Config, run: seq<Event>, i: nat)
    requires Lawful(c, run) && i < |run| && IsArrival(run[i]) && !run[i].Received?
    ensures if run[i].Quiet? then BackInTheLoop(c, run, i + 1) else i + 1 == |run| && EndsAs(c, run, Reconnect)
  {
    hide Next, Allowed, Lawful, Fold, EndsAs, GoesOn;
    StepAt(c, run, i);
    WaitingStep(c, Fold(c, run[..i]), run[i]);
    if run[i].Quiet? {
      IdlesNext(c, run, i);
    } else {
      OverNext(c, run, i, Reconnect);
    }
  }

  lemma WaitingStep(c: Config, h: History, e: Event)
    requires Allowed(c, h, e) && IsArrival(e) && !e.Received?
    ensures
      var h' := Next(c, h, e);
      !h'.timed && !h'.due && h'.duty == if e.Quiet? then Idle else Leaving
  {
    hide LimitReached, Lingered, StillWaiting;
  }

  // ---------- On the others ----------

  function Listed(e: Event): seq<string> {
    if e.Received? && e.message.body.Reply? && e.message.body.response.Some?
    then e.message.body.response.value.attached
    else []
  }

  /** Every extension that a reply to the join lists is confirmed, in order. */
  lemma ExtensionsAreConfirmed(c: Config, run: seq<Event>, i: nat, contents: seq<Content>)
    requires Lawful(c, run) && ExtensionsReply(run, i) && |contents| == |Listed(run[i])|
    requires forall k :: 0 <= k < |contents| ==> contents[k] == Confirm(Listed(run[i])[k])
    ensures Says(c, run, i + 1, contents, Reconnect)
  {
    hide Next, Allowed, Lawful, Fold, EndsAs, GoesOn, ExtensionsRef, Heard;
    Hearing(c, run, i);
    ExtensionsRefIsOne(c, run[..i], run[i].message.ref);
    AttachedStep(Fold(c, run[..i]).link, run[i].message);
    assert Confirmations(Listed(run[i])) == contents;
    SaysInOrder(c, run, i + 1, contents, true);
  }

  /** A location is looked for when one is asked for with that attached, and sent if there is one. */
  lemma LocationsAreAnswered(c: Config, run: seq<Event>, i: nat)
    requires Lawful(c, run) && i < |run| && run[i].Received?
    requires run[i].message.topic.Extensions? && run[i].message.body.LocationRequest?
    ensures
      if !c.location || "geo" !in AttachedKeys(run[..i]) then BackInTheLoop(c, run, i + 1)
      else if i + 1 == |run| then GoesOn(c, run)
      else
        && run[i + 1].Located?
        && Says(c, run, i + 2, if run[i + 1].found then [Location] else [], Failed(SendFailed))
  {
    hide Next, Allowed, Lawful, Fold, EndsAs, GoesOn, AttachedKeys;
    Hearing(c, run, i);
    AttachedIsTheLastReply(c, run[..i]);
    if !c.location || "geo" !in AttachedKeys(run[..i]) {
      IdlesNext(c, run, i);
    } else {
      DoneNext(c, run, i);
      if i + 1 < |run| {
        LocatingMeans(c, At(c, run, i), run[i + 1].found);
        SaysInOrder(c, run, i + 2, if run[i + 1].found then [Location] else [], false);
      }
    }
  }

  lemma LocatingMeans(c: Config, h: History, found: bool)
    ensures
      var h' := Next(c, h, Located(found));
      && h'.timed == h.timed && h'.due == h.due
      && h'.duty == SendAll(if found then [Location] else [], false)
  {}

  /** A health check is answered, with that attached, by a device that can. */
  lemma HealthChecksAreAnswered(c: Config, run: seq<Event>, i: nat)
    requires Lawful(c, run) && i < |run| && run[i].Received?
    requires run[i].message.topic.Extensions? && run[i].message.body.HealthCheck?
    ensures Says(c, run, i + 1, if c.health && "health" in AttachedKeys(run[..i]) then [Health] else [],
                 Failed(SendFailed))
  {
    hide Next, Allowed, Lawful, Fold, EndsAs, GoesOn, AttachedKeys;
    Hearing(c, run, i);
    AttachedIsTheLastReply(c, run[..i]);
    SaysInOrder(c, run, i + 1, if c.health && "health" in AttachedKeys(run[..i]) then [Health] else [], false);
  }

  /** Nothing else is, on that channel or the socket's own. */
  lemma NothingElseIsAnswered(c: Config, run: seq<Event>, i: nat)
    requires Lawful(c, run) && i < |run| && run[i].Received?
    requires
      var m := run[i].message;
      || m.topic.Phoenix?
      || (m.topic.Extensions? && !m.body.LocationRequest? && !m.body.HealthCheck? && !ExtensionsReply(run, i))
    ensures BackInTheLoop(c, run, i + 1)
  {
    hide Next, Allowed, Lawful, Fold, EndsAs, GoesOn, ExtensionsRef;
    Hearing(c, run, i);
    ExtensionsRefIsOne(c, run[..i], run[i].message.ref);
    IdlesNext(c, run, i);
  }

  // ---------- On the console's ----------

  /** A prompt when it is joined, and when it restarts; and a word for files. Nothing else but typing is answered. */
  lemma ConsoleIsAnswered(c: Config, run: seq<Event>, i: nat)
    requires Lawful(c, run) && i < |run| && run[i].Received? && run[i].message.topic.Console?
    ensures match run[i].message.body
            case Reply(_, _) =>
              Says(c, run, i + 1, if run[i].message.ref == ConsoleRef(run[..i]) then [Typed("> ")] else [], Reconnect)
            case Restart => Says(c, run, i + 1, [Typed("\r\n> ")], Failed(SendFailed))
            case File =>
              Says(c, run, i + 1, [Typed("\r\nfile transfer is not supported on this device\r\n")], Reconnect)
            case Down(data) => data.None? || !c.console ==> BackInTheLoop(c, run, i + 1)
            case _ => BackInTheLoop(c, run, i + 1)
  {
    hide Next, Allowed, Lawful, Fold, EndsAs, GoesOn, Console.Feed;
    Hearing(c, run, i);
    ConsoleRefIsKnown(c, run[..i]);
    var m := run[i].message;
    match m.body {
      case Reply(_, _) =>
        if m.ref == ConsoleRef(run[..i]) {
          SaysOne(c, run, i + 1, Typed("> "), true);
        } else {
          IdlesNext(c, run, i);
        }
      case Restart =>
        assert "\r\n" + PROMPT == "\r\n> ";
        SaysOne(c, run, i + 1, Typed("\r\n> "), false);
      case File => SaysOne(c, run, i + 1, Typed(NO_FILES), true);
      case Down(data) =>
        if data.None? || !c.console {
          IdlesNext(c, run, i);
        }
      case _ => IdlesNext(c, run, i);
    }
  }

  /**
   From there each line is run, and answered with what was to be written so far, what it said if
   anything, and a prompt; and then, if there is still something to be written, that is. A line that
   restarts the device says so, and a quarter second later does it.
   */
  ghost predicate RunsLines(c: Config, run: seq<Event>, i: nat, lines: seq<string>, reply: string)
    decreases |lines|
  {
    if lines == [] then Says(c, run, i, if reply == "" then [] else [Typed(reply)], Failed(SendFailed))
    else if i >= |run| then GoesOn(c, run)
    else
      && run[i].Ran? && run[i].line == lines[0]
      && match run[i].command
         case Says(output) =>
           var answer := reply + (if output == "" then "" else output + "\r\n") + "> ";
           if i + 1 >= |run| then GoesOn(c, run)
           else
             && run[i + 1].Sent? && run[i + 1].content == Typed(answer)
             && if run[i + 1].ok then RunsLines(c, run, i + 2, lines[1..], "")
                else i + 2 == |run| && EndsAs(c, run, Failed(SendFailed))
         case Restarts =>
           if i + 1 >= |run| then GoesOn(c, run)
           else
             && run[i + 1].Sent? && run[i + 1].content == Typed(reply + "rebooting\r\n")
             && if run[i + 1].ok then GoesDown(c, run, i + 2)
                else i + 2 == |run| && EndsAs(c, run, Failed(SendFailed))
  }

  /** A quarter second, and then the restart. */
  ghost predicate GoesDown(c: Config, run: seq<Event>, i: nat) {
    if i >= |run| then GoesOn(c, run)
    else
      && run[i] == Slept(250)
      && if i + 1 >= |run| then GoesOn(c, run)
         else i + 2 == |run| && run[i + 1] == Restarted && EndsAs(c, run, RebootingNow)
  }

  lemma PausesAndRestarts(c: Config, run: seq<Event>, i: nat)
    requires Lawful(c, run) && 0 < i <= |run| && At(c, run, i - 1).duty.Pausing?
    ensures GoesDown(c, run, i)
  {
    hide Next, Allowed, Lawful, Fold, EndsAs, GoesOn;
    DoneNext(c, run, i - 1);
    if i < |run| {
      Pauses(c, At(c, run, i - 1));
      DoneNext(c, run, i);
      if i + 1 < |run| {
        Restarting(c, At(c, run, i));
        OverNext(c, run, i + 1, RebootingNow);
      }
    }
  }

  lemma Pauses(c: Config, h: History)
    requires h.duty.Pausing?
    ensures Next(c, h, Slept(250)).duty == Duty.Restarting
  {}

  lemma RunningMeans(c: Config, h: History, line: string, command: Command)
    requires h.duty.Answering? && h.duty.lines != []
    ensures
      var h' := Next(c, h, Ran(line, command));
      && h'.timed == h.timed && h'.due == h.due
      && h'.duty == match command
                    case Restarts => Sending(Typed(h.duty.reply + REBOOTING), Pausing, false)
                    case Says(output) =>
                      Sending(Typed(h.duty.reply + ((if output == "" then "" else output + "\r\n") + "> ")),
                              ToAnswer(h.duty.lines[1..], ""), false)
  {}

  lemma {:induction false} LinesAreRun(c: Config, run: seq<Event>, i: nat, lines: seq<string>, reply: string)
    requires Lawful(c, run) && 0 < i <= |run| && At(c, run, i - 1).duty == ToAnswer(lines, reply)
    requires !At(c, run, i - 1).timed && !At(c, run, i - 1).due
    ensures RunsLines(c, run, i, lines, reply)
    decreases |lines|
  {
    hide Next, Allowed, Lawful, Fold, EndsAs, GoesOn;
    if lines == [] {
      if reply == "" {
        IdlesNext(c, run, i - 1);
      } else {
        SaysOne(c, run, i, Typed(reply), false);
      }
    } else {
      DoneNext(c, run, i - 1);
      if i < |run| {
        RunningMeans(c, At(c, run, i - 1), run[i].line, run[i].command);
        LineIsAnswered(c, run, i, lines, reply);
        if i + 1 < |run| && run[i + 1].Sent? && run[i + 1].ok && run[i].command.Says? {
          LinesAreRun(c, run, i + 2, lines[1..], "");
        }
      }
    }
  }

  /** What one line is answered with; what follows an answer is still to be seen to. */
  lemma LineIsAnswered(c: Config, run: seq<Event>, i: nat, lines: seq<string>, reply: string)
    requires Lawful(c, run) && 0 < i < |run| && run[i].Ran? && lines != []
    requires !At(c, run, i).timed && !At(c, run, i).due
    requires
      At(c, run, i).duty
      == match run[i].command
         case Restarts => Sending(Typed(reply + REBOOTING), Pausing, false)
         case Says(output) =>
           Sending(Typed(reply + ((if output == "" then "" else output + "\r\n") + "> ")),
                   ToAnswer(lines[1..], ""), false)
    ensures i + 1 == |run| ==> GoesOn(c, run)
    ensures i + 1 < |run| ==>
              && run[i + 1].Sent? && !At(c, run, i + 1).timed && !At(c, run, i + 1).due
              && (!run[i + 1].ok ==> i + 2 == |run| && EndsAs(c, run, Failed(SendFailed)))
              && (run[i].command.Restarts? ==>
                    && run[i + 1].content == Typed(reply + "rebooting\r\n")
                    && (run[i + 1].ok ==> GoesDown(c, run, i + 2)))
              && (run[i].command.Says? ==>
                    var output := run[i].command.output;
                    && run[i + 1].content == Typed(reply + (if output == "" then "" else output + "\r\n") + "> ")
                    && (run[i + 1].ok ==> At(c, run, i + 1).duty == ToAnswer(lines[1..], "")))
  {
    hide Next, Allowed, Lawful, Fold, EndsAs, GoesOn, ToAnswer, GoesDown;
    SaidNext(c, run, i);
    if run[i].command.Says? {
      var said := if run[i].command.output == "" then "" else run[i].command.output + "\r\n";
      assert reply + (said + "> ") == reply + said + "> ";
    }
    if i + 1 < |run| {
      if !run[i + 1].ok {
        OverNext(c, run, i + 1, Failed(SendFailed));
      } else if run[i].command.Restarts? {
        PausesAndRestarts(c, run, i + 2);
      }
    }
  }

  /** What is typed is echoed, as the line editor has it, and every line it completes is run. */
  lemma TypingIsAnswered(c: Config, run: seq<Event>, i: nat, data: string)
    requires Lawful(c, run) && i < |run| && run[i].Received? && run[i].message.topic.Console?
    requires run[i].message.body == Down(Some(data)) && c.console
    ensures
      var (_, echo, lines) := Console.Feed(ReaderOf(c, run[..i]), data);
      RunsLines(c, run, i + 1, lines, echo)
  {
    hide Next, Allowed, Lawful, Fold, EndsAs, GoesOn, Console.Feed, ToAnswer, RunsLines;
    Hearing(c, run, i);
    ReaderIsKnown(c, run[..i]);
    var (_, echo, lines) := Console.Feed(ReaderOf(c, run[..i]), data);
    LinesAreRun(c, run, i + 1, lines, echo);
  }

  // ---------- Updates that fail, and an application that asks ----------

  lemma FailingMeans(c: Config, h: History, e: Event)
    requires Allowed(c, h, e) && (e == Began(false) || e == Installed(false))
    ensures Next(c, h, e).duty == Sending(Told(FailedUpdate), Rebeat, false)
  {
    hide LimitReached, Lingered;
  }

  /** The platform is told of every update that fails, and then the loop goes on, its interval begun afresh. */
  lemma FailuresAreReported(c: Config, run: seq<Event>, i: nat)
    requires Lawful(c, run) && i < |run| && (run[i] == Began(false) || run[i] == Installed(false))
    ensures
      if i + 1 == |run| then GoesOn(c, run)
      else
        && run[i + 1].Sent? && run[i + 1].content == Told(FailedUpdate)
        && if !run[i + 1].ok then i + 2 == |run| && EndsAs(c, run, Failed(SendFailed))
           else if i + 2 == |run| then GoesOn(c, run)
           else run[i + 2].Clock? && run[i + 2].why.BeatsFrom?
  {
    hide Next, Allowed, Lawful, Fold, EndsAs, GoesOn;
    StepAt(c, run, i);
    FailingMeans(c, Fold(c, run[..i]), run[i]);
    SaidNext(c, run, i);
    if i + 1 < |run| {
      if run[i + 1].ok {
        DoneNext(c, run, i + 1);
      } else {
        OverNext(c, run, i + 1, Failed(SendFailed));
      }
    }
  }

  lemma AskingForHealth(c: Config, h: History)
    requires Allowed(c, h, Controlled(ReportHealth))
    ensures c.health && "health" in h.link.attached ==>
              Next(c, h, Controlled(ReportHealth)).duty == SendAll([Health], false)
  {
    hide LimitReached, Lingered;
  }

  /** A health report that the application asks for goes out, with that attached. */
  lemma HealthIsReported(c: Config, run: seq<Event>, i: nat)
    requires Lawful(c, run) && i < |run| && run[i] == Controlled(ReportHealth)
    requires c.health && "health" in AttachedKeys(run[..i])
    ensures
      if i + 1 == |run| then GoesOn(c, run)
      else
        && run[i + 1].Sent? && run[i + 1].content == Health
        && (!run[i + 1].ok ==> i + 2 == |run| && EndsAs(c, run, Failed(SendFailed)))
  {
    hide Next, Allowed, Lawful, Fold, EndsAs, GoesOn, AttachedKeys;
    StepAt(c, run, i);
    AttachedIsTheLastReply(c, run[..i]);
    AskingForHealth(c, Fold(c, run[..i]));
    assert SendAll([Health], false) == Sending(Health, SendAll([], false), false);
    SaidNext(c, run, i);
    if i + 1 < |run| && !run[i + 1].ok {
      OverNext(c, run, i + 1, Failed(SendFailed));
    }
  }
}
