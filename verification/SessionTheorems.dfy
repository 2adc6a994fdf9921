/** What every lawful run of a session promises. */
module SessionTheorems {
  import opened Common
  import opened Decimal
  import opened Protocol
  import Console

  /** Where the run stood, and what it was allowed, before each of its events. */
  lemma {:induction false} StepAt(c: Config, run: seq<Event>, i: nat)
    requires Lawful(c, run) && i < |run|
    ensures Lawful(c, run[..i]) && Lawful(c, run[..i + 1])
    ensures Allowed(c, Fold(c, run[..i]), run[i])
    ensures Fold(c, run[..i + 1]) == Next(c, Fold(c, run[..i]), run[i])
    decreases |run|
  {
    hide Allowed, Next;
    var n := |run| - 1;
    if i < n {
      StepAt(c, run[..n], i);
      assert run[..n][..i] == run[..i] && run[..n][..i + 1] == run[..i + 1];
    } else {
      assert run[..i + 1] == run;
    }
  }

  // What an event was, and did, by its kind.

  lemma SentMeans(c: Config, h: History, e: Event)
    requires Allowed(c, h, e) && e.Sent?
    ensures MaySend(c, h, e.content) && e.ref == NextRef(h.link)
    ensures Next(c, h, e) == OnSent(h, e.content, e.ok)
  {
    hide MaySend, NextRef, Label, OnSent;
  }

  lemma SayingMeans(c: Config, h: History, e: Event)
    requires e.Sent?
    ensures Next(c, h, e) == OnSent(h, e.content, e.ok)
  {
    hide OnSent;
  }

  lemma ReadMeans(c: Config, h: History, e: Event)
    requires Allowed(c, h, e) && e.Clock?
    ensures MayRead(c, h, e.why) && Next(c, h, e) == OnClock(c, h, e.why, e.now)
  {
    hide MayRead, OnClock;
  }

  lemma ArrivedMeans(c: Config, h: History, e: Event)
    requires Allowed(c, h, e) && IsArrival(e)
    ensures MayReceive(c, h)
    ensures Next(c, h, e) == match e
                             case Received(m) => OnReceived(c, h, m)
                             case Quiet => TurnOver(h)
                             case _ => TurnOver(h).(duty := Leaving)
  {
    hide MayReceive, OnReceived, TurnOver;
  }

  predicate IsOther(e: Event) { !e.Sent? && !e.Clock? && !IsArrival(e) }

  /** The rest change what is owed, and what has been asked, and no more. */
  lemma OthersMean(c: Config, h: History, e: Event)
    requires IsOther(e)
    ensures Next(c, h, e)
         == h.(duty := OwedAfter(c, h, e),
               control := if e.Controlled? then Some(e.control) else h.control,
               emptied := if e.Emptied? then Some(e.yes) else h.emptied,
               logging := if !e.Took? then h.logging else if e.lines > 0 then Given(e.lines) else NoneDue)
  {
    hide OwedAfter;
  }

  // ---------- What happens at most once ----------

  datatype Milestone = JoinSent | ImageMarked | ValidatedSent | ExtensionsJoinSent | ConsoleJoinSent

  predicate Is(e: Event, m: Milestone) {
    match m
    case ImageMarked => e.Marked?
    case JoinSent => e.Sent? && e.content.Join?
    case ValidatedSent => e.Sent? && e.content.Validated?
    case ExtensionsJoinSent => e.Sent? && e.content.ExtensionsJoin?
    case ConsoleJoinSent => e.Sent? && e.content.ConsoleJoin?
  }

  predicate Confirmation(duty: Duty) { duty.Checking? || duty.Confirming? }

  /** It can never happen again. */
  predicate Past(h: History, m: Milestone) {
    h.duty.Over?
    || match m
       case JoinSent => !h.duty.Opening?
       case ImageMarked => h.loop.confirmed || h.duty == Confirming(false)
       case ValidatedSent => h.loop.confirmed
       case ExtensionsJoinSent => h.loop.extensionsJoined
       case ConsoleJoinSent => h.loop.consoleJoined
  }

  predicate IsAnswer(content: Content) {
    || content.Confirm? || content.Location? || content.Health? || content.Typed?
    || content.Told? || content.Progress? || content.Rebooting?
  }

  /** What may be due once something has been said. */
  predicate Follows(duty: Duty) {
    duty.Idle? || duty.Sending? || duty.Answering? || duty.Pausing? || duty.Restarting? || duty.Rebeat?
  }

  predicate SaysRebooting(content: Content) {
    content.Rebooting? || (content.Typed? && EndsWith(content.text, REBOOTING))
  }

  predicate EndsWith(s: string, end: string) { |end| <= |s| && s[|s| - |end|..] == end }

  /**
   What is said in answer to something is never one of the milestones; and only a restart
   that has been announced, or an update that has failed, waits for what it waits for.
   */
  predicate Plain(duty: Duty) {
    duty.Sending? ==>
      && Plain(duty.after) && Follows(duty.after) && IsAnswer(duty.content)
      && (duty.after.Pausing? ==> SaysRebooting(duty.content))
      && (duty.after.Restarting? ==> duty.content.Rebooting?)
      && (duty.after.Rebeat? <==> duty.content == Told(FailedUpdate))
      && (duty.after.Sending? ==> duty.after.content != Told(FailedUpdate))
  }

  lemma PlainDuties(lines: seq<string>, reply: string, status: Status)
    ensures Plain(FAREWELL) && Plain(UPDATE_FAILED) && Plain(HALT) && Plain(ToAnswer(lines, reply))
    ensures Plain(Sending(Typed(reply), ToAnswer(lines, ""), false))
    ensures Plain(Sending(Typed(reply + REBOOTING), Pausing, false))
    ensures status != FailedUpdate ==> Plain(Sending(Told(status), Idle, true))
    ensures Plain(SendAll([Health], false)) && Plain(SendAll([Location], false))
    ensures SendAll([Health], false).Sending? && SendAll([Location], false).Sending?
  {
    SendAllIsPlain([Health], false);
    SendAllIsPlain([Location], false);
    var text := reply + REBOOTING;
    assert text[|text| - |REBOOTING|..] == REBOOTING;
  }

  /**
   The image is confirmed in its place: after the join is accepted, before the turn's reading. And
   a heartbeat is due, and the log, after a reading of the loop's or of a download's.
   */
  predicate Orderly(h: History) {
    && (Confirmation(h.duty) ==> !h.loop.confirmed && !h.timed)
    && (h.timed && h.link.joined ==> h.loop.confirmed)
    && (h.loop.joinedAt.Some? ==> h.loop.confirmed || Confirmation(h.duty) || h.duty.Over?)
    && (!NothingDue(h) ==> LogsTurn(h))
  }

  lemma {:induction false} SendAllIsPlain(contents: seq<Content>, handling: bool)
    requires forall i :: 0 <= i < |contents| ==> contents[i].Confirm? || contents[i].Health? || contents[i].Location?
    ensures Plain(SendAll(contents, handling))
    decreases |contents|
  {
    if contents != [] {
      SendAllIsPlain(contents[1..], handling);
    }
  }

  /** The loop has begun, or been given up on. */
  predicate Opened(duty: Duty) { !duty.Opening? && !duty.Timing? }

  /** Nothing to do with opening the session, or with installing. */
  predicate Steady(duty: Duty) {
    && Opened(duty) && !duty.Begun? && !duty.Downloading? && !duty.Rebeat?
    && (duty.Sending? ==> duty.content != Told(FailedUpdate))
  }

  lemma CallsArePlain(c: Config, link: Channels, reader: Console.Reader, m: Message)
    ensures Plain(Calls(c, link, reader, m)) && !Confirmation(Calls(c, link, reader, m))
    ensures Steady(Calls(c, link, reader, m))
  {
    if m.topic.Console? {
      ConsoleCallsArePlain(c, link, reader, m);
    } else {
      hide Console.Feed;
      SendAllIsPlain(Confirmations(Heard(link, m).attached), true);
      SendAllIsPlain([Health], false);
    }
  }

  lemma ConsoleCallsArePlain(c: Config, link: Channels, reader: Console.Reader, m: Message)
    requires m.topic.Console?
    ensures Plain(Calls(c, link, reader, m)) && !Confirmation(Calls(c, link, reader, m))
    ensures Steady(Calls(c, link, reader, m))
  {
    hide Console.Feed;
  }

  predicate Sane(h: History) { Plain(h.duty) && Orderly(h) }

  lemma PlainStep(c: Config, h: History, e: Event)
    requires Plain(h.duty) && Allowed(c, h, e)
    ensures Plain(Next(c, h, e).duty)
  {
    hide Allowed, Plain, Calls, SendAll, OnSent, OnClock, OwedAfter, Heard, ReaderAfter;
    match e
    case Received(m) => CallsArePlain(c, h.link, h.reader, m);
    case Sent(content, _, _, ok) => PlainWhenSending(c, h, content, ok);
    case Clock(why, now) => PlainWhenReading(c, h, why, now);
    case _ =>
      NotSendingIsPlain(Leaving);
      PlainOtherwise(c, h, e);
  }

  lemma PlainWhenSending(c: Config, h: History, content: Content, ok: bool)
    requires Plain(h.duty)
    ensures Plain(OnSent(h, content, ok).duty)
  {
    hide AfterSend;
  }

  lemma PlainWhenReading(c: Config, h: History, why: Why, now: nat)
    requires Plain(h.duty)
    ensures Plain(OnClock(c, h, why, now).duty)
  {}

  lemma PlainWhenRunning(duty: Duty, command: Command)
    requires Plain(duty)
    ensures Plain(AfterRunning(duty, command))
  {
    if duty.Answering? && duty.lines != [] {
      match command
      case Restarts => PlainDuties([], duty.reply, Completed);
      case Says(output) => PlainDuties(duty.lines[1..], duty.reply + Answer(output), Completed);
    }
  }

  lemma PlainWhenDeciding(duty: Duty, decision: Decision)
    requires Plain(duty)
    ensures Plain(AfterDeciding(duty, decision))
  {}

  lemma PlainOtherwise(c: Config, h: History, e: Event)
    requires Plain(h.duty)
    ensures Plain(OwedAfter(c, h, e))
  {
    hide Plain, SendAll, AfterRunning, AfterDeciding;
    PlainDuties([], "", Completed);
    NotSendingIsPlain(OwedAfter(c, h, e));
    if e.Ran? {
      PlainWhenRunning(h.duty, e.command);
    } else if e.Decided? {
      PlainWhenDeciding(h.duty, e.decision);
    }
  }

  lemma PlainMeans(duty: Duty)
    requires Plain(duty) && duty.Sending?
    ensures Follows(duty.after) && IsAnswer(duty.content)
  {}

  lemma NotSendingIsPlain(duty: Duty)
    ensures !duty.Sending? ==> Plain(duty)
  {}

  lemma OrderlyStep(c: Config, h: History, e: Event)
    requires Sane(h) && Allowed(c, h, e)
    ensures Orderly(Next(c, h, e))
  {
    hide Sane, Allowed, Next, Plain, Orderly;
    if e.Sent? {
      OrderlyWhenSending(c, h, e);
    } else if e.Clock? {
      OrderlyWhenReading(c, h, e);
    } else if e.Received? || e.Garbled? || e.Quiet? || e.Died? {
      OrderlyWhenArriving(c, h, e);
    } else {
      OrderlyOtherwise(c, h, e);
    }
  }

  lemma OrderlyWhenSending(c: Config, h: History, e: Event)
    requires Sane(h) && Allowed(c, h, e) && e.Sent?
    ensures Orderly(Next(c, h, e))
  {
    hide Next, Allowed, Plain, Calls, SendAll, NextRef, Label;
    SentMeans(c, h, e);
    if h.duty.Sending? {
      PlainMeans(h.duty);
    }
  }

  lemma OrderlyWhenReading(c: Config, h: History, e: Event)
    requires Sane(h) && Allowed(c, h, e) && e.Clock?
    ensures Orderly(Next(c, h, e))
  {
    hide Next, Allowed, Plain, LogsDue, JoinsExtensions, JoinsConsole;
    ReadMeans(c, h, e);
  }

  lemma OrderlyWhenArriving(c: Config, h: History, e: Event)
    requires Sane(h) && Allowed(c, h, e) && (e.Received? || e.Garbled? || e.Quiet? || e.Died?)
    ensures Orderly(Next(c, h, e))
  {
    hide Plain, Calls, Heard, ReaderAfter, AsksHealth, LimitReached, Lingered, StillWaiting;
    if e.Received? {
      CallsArePlain(c, h.link, h.reader, e.message);
    }
  }

  lemma OrderlyOtherwise(c: Config, h: History, e: Event)
    requires Sane(h) && Allowed(c, h, e) && IsOther(e)
    ensures Orderly(Next(c, h, e))
  {
    hide Plain, Allowed, Next, OwedAfter;
    OthersMean(c, h, e);
    OwedInOrder(c, h, e);
  }

  /** An answer leaves confirming only by doing it; and nothing but the log is answered in the log's turn. */
  lemma OwedInOrder(c: Config, h: History, e: Event)
    requires Allowed(c, h, e) && IsOther(e) && (!NothingDue(h) ==> LogsTurn(h))
    ensures var duty := OwedAfter(c, h, e);
      && (Confirmation(duty) ==> Confirmation(h.duty))
      && (Confirmation(h.duty) ==> Confirmation(duty) || duty.Over?)
      && (h.duty.Over? ==> false)
      && (!NothingDue(h) ==> duty == h.duty)
      && (e.Took? ==> LogsTurn(h) && duty == h.duty)
  {
    hide Plain, SendAll, AfterRunning, LogsCount, Lingered, MayReceive;
    PlainDuties([], "", Completed);
    if e.Ran? {
      RunningConfirmsNothing(h.duty, e.command);
    }
  }

  lemma RunningConfirmsNothing(duty: Duty, command: Command)
    requires duty.Answering?
    ensures !Confirmation(AfterRunning(duty, command)) && !AfterRunning(duty, command).Over?
  {}

  lemma SaneStep(c: Config, h: History, e: Event)
    requires Sane(h) && Allowed(c, h, e)
    ensures Sane(Next(c, h, e))
  {
    hide Allowed, Next, Plain, Orderly;
    PlainStep(c, h, e);
    OrderlyStep(c, h, e);
  }

  lemma MilestoneWhenSending(c: Config, h: History, e: Event, m: Milestone)
    requires Sane(h) && Allowed(c, h, e) && e.Sent?
    ensures Past(h, m) ==> Past(Next(c, h, e), m)
    ensures Is(e, m) ==> !Past(h, m) && Past(Next(c, h, e), m)
  {
    hide Next, Allowed, Plain, Calls, SendAll, AfterSend, NextRef, Label;
    SentMeans(c, h, e);
    if h.duty.Sending? {
      PlainMeans(h.duty);
    }
  }

  lemma MilestoneWhenReading(c: Config, h: History, e: Event, m: Milestone)
    requires Sane(h) && Allowed(c, h, e) && e.Clock?
    ensures Past(h, m) ==> Past(Next(c, h, e), m)
  {
    hide Next, Allowed, Plain, JoinsExtensions, JoinsConsole;
    ReadMeans(c, h, e);
  }

  lemma MilestoneWhenArriving(c: Config, h: History, e: Event, m: Milestone)
    requires MayReceive(c, h) && IsArrival(e)
    ensures Past(h, m) ==> Past(Next(c, h, e), m)
  {
    hide Calls, Heard, ReaderAfter, LimitReached, Lingered, StillWaiting;
    if e.Received? {
      CallsArePlain(c, h.link, h.reader, e.message);
    }
  }

  lemma MilestoneOtherwise(c: Config, h: History, e: Event, m: Milestone)
    requires Allowed(c, h, e) && !e.Sent? && !e.Clock? && !IsArrival(e)
    ensures Past(h, m) ==> Past(Next(c, h, e), m)
    ensures Is(e, m) ==>
              Past(Next(c, h, e), m) && h.duty == Confirming(true) && (!h.loop.confirmed ==> !Past(h, m))
  {
    hide Calls, MayReceive, LogsCount, Lingered, OnSent, OnClock, MaySend, MayRead;
  }

  lemma {:induction false} SaneAlways(c: Config, run: seq<Event>)
    requires Lawful(c, run)
    ensures Sane(Fold(c, run))
    decreases |run|
  {
    hide Allowed, Next, Sane;
    if run == [] {
      SaneAtStart(c);
    } else {
      SaneAlways(c, run[..|run| - 1]);
      SaneStep(c, Fold(c, run[..|run| - 1]), run[|run| - 1]);
    }
  }

  lemma SaneAtStart(c: Config)
    ensures Sane(Start(c))
  {}

  lemma {:induction false} PastFromThenOn(c: Config, run: seq<Event>, i: nat, m: Milestone)
    requires Lawful(c, run) && i < |run| && Is(run[i], m)
    ensures Past(Fold(c, run), m)
    decreases |run|
  {
    hide Allowed, Next, Sane, Is, Past;
    var n := |run| - 1;
    SaneAlways(c, run[..n]);
    MilestoneStep(c, Fold(c, run[..n]), run[n], m);
    if i < n {
      assert run[..n][i] == run[i];
      PastFromThenOn(c, run[..n], i, m);
    }
  }

  lemma MilestoneStep(c: Config, h: History, e: Event, m: Milestone)
    requires Sane(h) && Allowed(c, h, e)
    ensures Past(h, m) ==> Past(Next(c, h, e), m)
    ensures Is(e, m) ==> !Past(h, m) && Past(Next(c, h, e), m)
  {
    hide Allowed, Next, Sane, Past;
    if e.Sent? {
      MilestoneWhenSending(c, h, e, m);
    } else if e.Clock? {
      MilestoneWhenReading(c, h, e, m);
    } else if IsArrival(e) {
      ArrivalIsAllowed(c, h, e);
      MilestoneWhenArriving(c, h, e, m);
    } else {
      MilestoneOtherwise(c, h, e, m);
      SaneMeans(h);
    }
  }

  lemma ArrivalIsAllowed(c: Config, h: History, e: Event)
    requires IsArrival(e)
    ensures Allowed(c, h, e) <==> MayReceive(c, h)
  {}

  lemma SaneMeans(h: History)
    requires Sane(h)
    ensures Confirmation(h.duty) ==> !h.loop.confirmed
  {}

  /**
   The join, marking the image, `firmware_validated`, and joining the extensions and the
   console: each happens at most once in a session.
   */
  lemma EachHappensOnce(c: Config, run: seq<Event>, i: nat, j: nat, m: Milestone)
    requires Lawful(c, run) && i < j < |run| && Is(run[i], m)
    ensures !Is(run[j], m)
  {
    hide Allowed, Next, Sane, Is, Past;
    StepAt(c, run, j);
    SaneAlways(c, run[..j]);
    PastFromThenOn(c, run[..j], i, m);
    MilestoneStep(c, Fold(c, run[..j]), run[j], m);
  }

  // ---------- The image is confirmed by the server's word ----------

  /** An ok reply to the join that was sent as `ref`. */
  predicate Accepts(e: Event, ref: string) {
    && e.Received? && e.message.topic.Device? && e.message.ref == Some(ref)
    && e.message.body.Reply? && e.message.body.ok
  }

  predicate IsJoin(e: Event) { e.Sent? && e.content.Join? }

  predicate AcceptedBy(run: seq<Event>, j: nat, k: nat) {
    j < k < |run| && IsJoin(run[j]) && Accepts(run[k], run[j].ref)
  }

  ghost predicate JoinedAs(run: seq<Event>, ref: string) {
    exists j :: 0 <= j < |run| && IsJoin(run[j]) && run[j].ref == ref
  }

  /** Some join of this session's own has been accepted. */
  ghost predicate Accepted(run: seq<Event>) {
    exists j, k :: 0 <= j < k && AcceptedBy(run, j, k)
  }

  ghost predicate JoinKnown(run: seq<Event>, h: History) {
    && (h.link.joinRef.Some? ==> JoinedAs(run, h.link.joinRef.value))
    && (h.link.joined || Confirmation(h.duty) || h.loop.confirmed ==> Accepted(run))
  }

  /** No message changes a ref but the last heartbeat's. */
  lemma HeardKeepsRefs(link: Channels, m: Message)
    ensures
      var link' := Heard(link, m);
      && link'.next == link.next && link'.joinRef == link.joinRef
      && link'.extensionsRef == link.extensionsRef && link'.consoleRef == link.consoleRef
  {}

  /** Only what is sent and what is received ever changes the channels. */
  lemma ChannelsStep(c: Config, h: History, e: Event)
    ensures Next(c, h, e).link == match e
                                  case Sent(content, _, _, _) => AfterSend(h.link, content)
                                  case Received(m) => Heard(h.link, m)
                                  case _ => h.link
  {
    hide AfterSend, Heard, Calls;
  }

  lemma ConfirmationStep(c: Config, h: History, e: Event)
    requires Sane(h) && Allowed(c, h, e)
    ensures Confirmation(Next(c, h, e).duty) || Next(c, h, e).loop.confirmed ==>
              h.link.joined || Confirmation(h.duty) || h.loop.confirmed
  {
    hide Allowed, Next, Sane;
    if e.Sent? {
      ConfirmationWhenSending(c, h, e);
    } else if e.Clock? {
      ConfirmationWhenReading(c, h, e);
    } else {
      ConfirmationOtherwise(c, h, e);
    }
  }

  lemma ConfirmationWhenSending(c: Config, h: History, e: Event)
    requires Sane(h) && Allowed(c, h, e) && e.Sent?
    ensures Confirmation(Next(c, h, e).duty) || Next(c, h, e).loop.confirmed ==>
              Confirmation(h.duty) || h.loop.confirmed
  {
    hide Next, Allowed, Plain, AfterSend, NextRef, Label;
    SentMeans(c, h, e);
    if h.duty.Sending? {
      PlainMeans(h.duty);
    }
  }

  lemma ConfirmationWhenReading(c: Config, h: History, e: Event)
    requires Sane(h) && Allowed(c, h, e) && e.Clock?
    ensures Confirmation(Next(c, h, e).duty) || Next(c, h, e).loop.confirmed ==>
              h.link.joined || Confirmation(h.duty) || h.loop.confirmed
  {
    hide Next, Allowed, Sane;
    ReadMeans(c, h, e);
  }

  lemma ConfirmationOtherwise(c: Config, h: History, e: Event)
    requires Sane(h) && Allowed(c, h, e) && !e.Sent? && !e.Clock?
    ensures Confirmation(Next(c, h, e).duty) || Next(c, h, e).loop.confirmed ==>
              Confirmation(h.duty) || h.loop.confirmed
  {
    hide Next, Allowed, Sane, Calls, MayReceive, Heard, ReaderAfter, AsksHealth;
    if IsArrival(e) {
      ArrivedMeans(c, h, e);
      if e.Received? {
        CallsArePlain(c, h.link, h.reader, e.message);
      }
    } else {
      OthersMean(c, h, e);
      ConfirmationElsewhere(c, h, e);
    }
  }

  lemma ConfirmationElsewhere(c: Config, h: History, e: Event)
    requires Allowed(c, h, e) && !e.Sent? && !e.Clock? && !IsArrival(e)
    ensures Confirmation(Next(c, h, e).duty) ==> Confirmation(h.duty)
  {
    hide MayReceive, LogsCount, Lingered, OnSent, OnClock, MaySend, MayRead;
  }

  lemma AcceptedStays(run: seq<Event>, e: Event)
    ensures Accepted(run) ==> Accepted(run + [e])
    ensures forall ref :: JoinedAs(run, ref) ==> JoinedAs(run + [e], ref)
    ensures IsJoin(e) ==> JoinedAs(run + [e], e.ref)
    ensures forall ref :: JoinedAs(run, ref) && Accepts(e, ref) ==> Accepted(run + [e])
  {
    var all := run + [e];
    if Accepted(run) {
      var j, k :| 0 <= j < k && AcceptedBy(run, j, k);
      assert AcceptedBy(all, j, k);
    }
    forall ref | JoinedAs(run, ref) ensures JoinedAs(all, ref) && (Accepts(e, ref) ==> Accepted(all)) {
      var j :| 0 <= j < |run| && IsJoin(run[j]) && run[j].ref == ref;
      assert all[j] == run[j];
      assert Accepts(e, ref) ==> AcceptedBy(all, j, |run|);
    }
    assert all[|run|] == e;
  }

  lemma JoinKnownStep(c: Config, run: seq<Event>, h: History, e: Event)
    requires Sane(h) && Allowed(c, h, e) && JoinKnown(run, h)
    ensures JoinKnown(run + [e], Next(c, h, e))
  {
    hide Next, Allowed, Sane, Accepted, JoinedAs, Accepts, IsJoin;
    JoinedStep(c, h, e);
    ConfirmationStep(c, h, e);
    AcceptedStays(run, e);
  }

  /** The link learns its join's ref from sending it, and that it has joined from being told. */
  lemma JoinedStep(c: Config, h: History, e: Event)
    requires Allowed(c, h, e)
    ensures
      var link, link' := h.link, Next(c, h, e).link;
      && (link'.joinRef == link.joinRef || (IsJoin(e) && link'.joinRef == Some(e.ref)))
      && (link'.joined ==> link.joined || (link.joinRef.Some? && Accepts(e, link.joinRef.value)))
  {
    hide Next, Allowed, NextRef, MaySend, AfterSend, Heard;
    ChannelsStep(c, h, e);
    if e.Sent? {
      SentMeans(c, h, e);
      SendingJoins(h.link, e.content);
    } else if e.Received? {
      HeardKeepsRefs(h.link, e.message);
      HearingJoins(h.link, e.message);
    }
  }

  lemma SendingJoins(link: Channels, content: Content)
    ensures
      var link' := AfterSend(link, content);
      && link'.joinRef == (if content.Join? then Some(NextRef(link)) else link.joinRef)
      && (link'.joined ==> link.joined)
  {
    hide NextRef;
  }

  lemma HearingJoins(link: Channels, m: Message)
    ensures Heard(link, m).joined ==> link.joined || (link.joinRef.Some? && Accepts(Received(m), link.joinRef.value))
  {}

  lemma {:induction false} JoinIsKnown(c: Config, run: seq<Event>)
    requires Lawful(c, run)
    ensures JoinKnown(run, Fold(c, run))
    decreases |run|
  {
    hide Allowed, Next, Sane, JoinKnown;
    if run == [] {
      assert JoinKnown(run, Start(c)) by { NothingKnown(c); }
    } else {
      var n := |run| - 1;
      JoinIsKnown(c, run[..n]);
      SaneAlways(c, run[..n]);
      JoinKnownStep(c, run[..n], Fold(c, run[..n]), run[n]);
      assert run[..n] + [run[n]] == run;
    }
  }

  lemma NothingKnown(c: Config)
    ensures JoinKnown([], Start(c))
  {}

  lemma ConfirmingMeans(c: Config, h: History, e: Event)
    requires Sane(h) && Allowed(c, h, e) && (Is(e, ImageMarked) || Is(e, ValidatedSent))
    ensures h.duty == Confirming(e.Marked?)
  {
    hide NextRef, Label;
  }

  /** What leaves the image to be marked; and what leaves only the platform to be told. */
  predicate LeavesToConfirm(e: Event, marking: bool) {
    e == Pending(marking) || (!marking && e == Marked(true))
  }

  lemma ConfirmingFollows(c: Config, h: History, e: Event)
    requires Sane(h) && Allowed(c, h, e) && Next(c, h, e).duty.Confirming?
    ensures LeavesToConfirm(e, Next(c, h, e).duty.marking)
  {
    hide Next, Allowed, Sane;
    if e.Sent? || e.Clock? {
      ConfirmingWhenSending(c, h, e);
    } else {
      ConfirmingOtherwise(c, h, e);
    }
  }

  lemma ConfirmingOtherwise(c: Config, h: History, e: Event)
    requires Allowed(c, h, e) && !e.Sent? && !e.Clock? && Next(c, h, e).duty.Confirming?
    ensures LeavesToConfirm(e, Next(c, h, e).duty.marking)
  {
    hide Calls, Heard, ReaderAfter, LimitReached, Lingered, StillWaiting, LogsCount;
    hide OnSent, OnClock, MaySend, MayRead;
    if e.Received? {
      CallsArePlain(c, h.link, h.reader, e.message);
    }
  }

  lemma ConfirmingWhenSending(c: Config, h: History, e: Event)
    requires Sane(h) && Allowed(c, h, e) && (e.Sent? || e.Clock?)
    ensures !Next(c, h, e).duty.Confirming?
  {
    hide Next, Allowed, AfterSend, NextRef, Label;
    if e.Sent? {
      SentMeans(c, h, e);
    } else {
      ReadMeans(c, h, e);
    }
  }

  lemma ConfirmingFollowsAsking(c: Config, run: seq<Event>)
    requires Lawful(c, run) && Fold(c, run).duty.Confirming?
    ensures run != [] && LeavesToConfirm(run[|run| - 1], Fold(c, run).duty.marking)
  {
    hide Allowed, Next, Sane, LeavesToConfirm;
    if run != [] {
      var n := |run| - 1;
      SaneAlways(c, run[..n]);
      ConfirmingFollows(c, Fold(c, run[..n]), run[n]);
    }
  }

  /**
   The image is marked valid, and the platform told so, only after this session's own join
   was accepted. It is marked only right after the bootloader said it was on probation, and the
   platform is told only right after that marking worked, or the bootloader said it was not.
   */
  lemma ConfirmedOnlyOnceAccepted(c: Config, run: seq<Event>, i: nat)
    requires Lawful(c, run) && i < |run| && (Is(run[i], ImageMarked) || Is(run[i], ValidatedSent))
    ensures Accepted(run[..i])
    ensures Is(run[i], ImageMarked) ==> i > 0 && run[i - 1] == Pending(true)
    ensures Is(run[i], ValidatedSent) ==> i > 0 && (run[i - 1] == Pending(false) || run[i - 1] == Marked(true))
  {
    hide Allowed, Next, Sane, Fold, Lawful, Accepted, JoinedAs;
    StepAt(c, run, i);
    JoinIsKnown(c, run[..i]);
    SaneAlways(c, run[..i]);
    ConfirmingMeans(c, Fold(c, run[..i]), run[i]);
    ConfirmingFollowsAsking(c, run[..i]);
  }

  // ---------- And it is confirmed before anything more is read ----------

  predicate IsValidated(e: Event) { e.Sent? && e.content.Validated? && e.ok }

  ghost predicate ToldValidated(run: seq<Event>) {
    exists i :: 0 <= i < |run| && IsValidated(run[i])
  }

  lemma {:induction false} JoinRefIsTheJoins(c: Config, run: seq<Event>, j: nat)
    requires Lawful(c, run) && j < |run| && IsJoin(run[j])
    ensures Fold(c, run).link.joinRef == Some(run[j].ref)
    decreases |run|
  {
    hide Next, Allowed, MaySend, NextRef;
    var n := |run| - 1;
    ChannelsStep(c, Fold(c, run[..n]), run[n]);
    if run[n].Sent? {
      SentMeans(c, Fold(c, run[..n]), run[n]);
    }
    if j < n {
      assert run[..n][j] == run[j];
      JoinRefIsTheJoins(c, run[..n], j);
      EachHappensOnce(c, run, j, n, JoinSent);
    }
  }

  lemma StaysJoinedStep(c: Config, h: History, e: Event)
    requires Allowed(c, h, e) && h.link.joined && !IsJoin(e)
    ensures Next(c, h, e).link.joined || Next(c, h, e).duty.Leaving?
  {
    hide Next, MaySend, MayReceive;
    ChannelsStep(c, h, e);
    if e.Received? {
      ReceivedCalls(c, h, e.message);
    }
  }

  lemma ReceivedCalls(c: Config, h: History, m: Message)
    ensures Next(c, h, Received(m)).duty == Calls(c, h.link, h.reader, m)
  {
    hide Calls, Heard, ReaderAfter;
  }

  lemma NothingAfterLeaving(c: Config, h: History, e: Event)
    requires h.duty.Leaving? || h.duty.Over?
    ensures !Allowed(c, h, e)
  {}

  lemma {:induction false} StaysJoined(c: Config, run: seq<Event>, j: nat, k: nat)
    requires Lawful(c, run) && AcceptedBy(run, j, k)
    ensures Fold(c, run).link.joined || Fold(c, run).duty.Leaving?
    decreases |run|
  {
    hide Next, Allowed;
    var n := |run| - 1;
    var before := Fold(c, run[..n]);
    ChannelsStep(c, before, run[n]);
    if k == n {
      assert run[..n][j] == run[j];
      JoinRefIsTheJoins(c, run[..n], j);
    } else {
      assert AcceptedBy(run[..n], j, k);
      StaysJoined(c, run[..n], j, k);
      if before.duty.Leaving? {
        NothingAfterLeaving(c, before, run[n]);
      } else {
        if IsJoin(run[n]) {
          EachHappensOnce(c, run, j, n, JoinSent);
        }
        StaysJoinedStep(c, before, run[n]);
      }
    }
  }

  lemma ConfirmedStep(c: Config, h: History, e: Event)
    requires Allowed(c, h, e) && Next(c, h, e).loop.confirmed && !h.loop.confirmed
    ensures IsValidated(e)
  {
    hide Next, Allowed, OnSent, OnClock, OnReceived, TurnOver, OwedAfter;
    if e.Sent? {
      ConfirmedWhenSending(c, h, e);
    } else if e.Clock? {
      ConfirmsNothing(c, h, e);
    } else if IsArrival(e) {
      ConfirmsNothing(c, h, e);
    } else {
      OthersMean(c, h, e);
    }
  }

  lemma ConfirmsNothing(c: Config, h: History, e: Event)
    requires e.Clock? || IsArrival(e)
    ensures Next(c, h, e).loop.confirmed == h.loop.confirmed
  {
    hide Calls, Heard, ReaderAfter, LogsDue, DutyAfterReading, BeatFrom, LogFrom;
  }

  lemma ConfirmedWhenSending(c: Config, h: History, e: Event)
    requires Allowed(c, h, e) && e.Sent? && Next(c, h, e).loop.confirmed && !h.loop.confirmed
    ensures IsValidated(e)
  {
    hide Next, Allowed, AfterSend, NextRef, Label, DutyAfterSaying, JoinsExtensions, JoinsConsole;
    SentMeans(c, h, e);
  }

  lemma {:induction false} ConfirmedMeansTold(c: Config, run: seq<Event>)
    requires Lawful(c, run) && Fold(c, run).loop.confirmed
    ensures ToldValidated(run)
    decreases |run|
  {
    hide Next, Allowed;
    if run != [] {
      var n := |run| - 1;
      var before := Fold(c, run[..n]);
      if before.loop.confirmed {
        ConfirmedMeansTold(c, run[..n]);
        var i :| 0 <= i < n && IsValidated(run[..n][i]);
        assert IsValidated(run[i]);
      } else {
        ConfirmedStep(c, before, run[n]);
        assert IsValidated(run[n]);
      }
    }
  }

  /** Once the join has been accepted, nothing more is read until the platform has been told. */
  lemma ConfirmedBeforeListening(c: Config, run: seq<Event>, j: nat, k: nat, m: nat)
    requires Lawful(c, run) && AcceptedBy(run, j, k) && k < m < |run| && IsArrival(run[m])
    ensures ToldValidated(run[..m])
  {
    hide Next, Lawful, Fold;
    StepAt(c, run, m);
    assert AcceptedBy(run[..m], j, k);
    StaysJoined(c, run[..m], j, k);
    SaneAlways(c, run[..m]);
    ConfirmedMeansTold(c, run[..m]);
  }
}
