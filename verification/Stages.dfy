/** The stretches of a session that always go the same way (src/agent.rs, src/install.rs). */
module Stages {
  import opened Common
  import opened Protocol
  import opened SessionTheorems
  import opened ChannelTheorems
  import opened Heartbeats
  import opened Known
  import opened LogTheorems
  import opened Responses

  // ---------- The opening ----------

  lemma OpeningNext(c: Config, h: History, e: Event)
    requires Sane(h) && h.duty.Opening? && Allowed(c, h, e)
    ensures
      if h.duty.pending.Some? && h.duty.reverted.Some? then
        IsJoin(e) && Next(c, h, e).duty == if e.ok then Timing(LogsFrom) else Over(Failed(SendFailed))
      else if e.Pending? then
        h.duty.pending.None? && Next(c, h, e).duty == h.duty.(pending := Some(e.yes))
      else
        e.Reverted? && h.duty.reverted.None? && Next(c, h, e).duty == h.duty.(reverted := Some(e.yes))
  {
    hide NextRef, Label, AfterSend, LoopAfterSaying, Plain;
  }

  lemma OpeningWaits(c: Config, h: History, ending: Ending)
    requires h.duty.Opening?
    ensures !MayEnd(c, h, ending)
  {}

  lemma TimingNext(c: Config, h: History, e: Event)
    requires Sane(h) && h.duty.Timing? && Allowed(c, h, e)
    ensures Next(c, h, e).timed == h.timed && !Next(c, h, e).due
    ensures Next(c, h, e).duty == match e.why
                                  case LogsFrom => Timing(BeatsFrom)
                                  case BeatsFrom => Timing(Started)
                                  case _ => Idle
  {
    hide Plain;
  }

  /** What a session does before it comes to its loop. */
  predicate Begins(n: nat, e: Event) {
    match n
    case 0 => e.Pending? || e.Reverted?
    case 1 => e.Pending? || e.Reverted?
    case 2 => IsJoin(e)
    case 3 => e.Clock? && e.why.LogsFrom?
    case 4 => e.Clock? && e.why.BeatsFrom?
    case 5 => e.Clock? && e.why.Started?
    case _ => BeginsATurn(e)
  }

  /** Where that leaves it, after so many events. */
  predicate Beginning(n: nat, h: History, joined: bool) {
    && !h.timed && !h.due
    && match n
       case 0 => h.duty == Opening(None, None)
       case 1 => h.duty.Opening? && h.duty.pending.Some? != h.duty.reverted.Some?
       case 2 => h.duty.Opening? && h.duty.pending.Some? && h.duty.reverted.Some?
       case _ => h.duty == if !joined then Over(Failed(SendFailed))
                           else if n == 3 then Timing(LogsFrom)
                           else if n == 4 then Timing(BeatsFrom)
                           else if n == 5 then Timing(Started)
                           else Idle
  }

  lemma BeginningStep(c: Config, h: History, e: Event, n: nat, joined: bool)
    requires Sane(h) && Allowed(c, h, e) && n < 6 && Beginning(n, h, joined)
    ensures Begins(n, e)
    ensures Beginning(n + 1, Next(c, h, e), if n == 2 then e.ok else joined)
    ensures n > 2 ==> joined
  {
    hide Next, Allowed, Plain;
    if n < 3 {
      OpeningNext(c, h, e);
      OpeningKeeps(c, h, e);
    } else if joined {
      DoingNext(c, h, e, Finished);
      TimingNext(c, h, e);
    } else {
      NothingAfterLeaving(c, h, e);
    }
  }

  lemma OpeningKeeps(c: Config, h: History, e: Event)
    requires h.duty.Opening? && Allowed(c, h, e)
    ensures Next(c, h, e).timed == h.timed && (!h.due ==> !Next(c, h, e).due)
  {
    hide NextRef, Label, AfterSend, LoopAfterSaying;
  }

  predicate JoinWent(run: seq<Event>) { |run| > 2 && run[2].Sent? && run[2].ok }

  lemma {:induction false} BeginningIsKnown(c: Config, run: seq<Event>, i: nat)
    requires Lawful(c, run) && i <= |run| && i <= 6
    ensures forall k: nat :: k < i ==> Begins(k, run[k])
    ensures Beginning(i, Fold(c, run[..i]), JoinWent(run))
    ensures i > 3 ==> JoinWent(run)
  {
    hide Next, Allowed, Lawful, Sane, Beginning;
    if i == 0 {
      NotBegun(c, JoinWent(run));
    } else {
      BeginningIsKnown(c, run, i - 1);
      StepAt(c, run, i - 1);
      SaneAlways(c, run[..i - 1]);
      BeginningStep(c, Fold(c, run[..i - 1]), run[i - 1], i - 1, JoinWent(run));
    }
  }

  lemma NotBegun(c: Config, joined: bool)
    ensures Beginning(0, Fold(c, []), joined)
  {}

  /**
   Every session asks the bootloader its two questions, joins, and reads the clock for the log, for
   the heartbeat and for its limit; and then its loop begins. It ends before that only if the join
   cannot be sent.
   */
  lemma SessionsBegin(c: Config, run: seq<Event>, i: nat)
    requires Lawful(c, run) && i <= 6
    ensures i < |run| ==> Begins(i, run[i])
    ensures 2 < i < |run| ==> JoinWent(run)
    ensures i == |run| ==> if i == 3 && !JoinWent(run) then EndsAs(c, run, Failed(SendFailed)) else GoesOn(c, run)
  {
    hide Next, Allowed, Lawful, Sane, EndsAs, Fold, MayEnd;
    if i < |run| {
      BeginningIsKnown(c, run, i);
      StepAt(c, run, i);
      SaneAlways(c, run[..i]);
      if i < 6 {
        BeginningStep(c, Fold(c, run[..i]), run[i], i, JoinWent(run));
      } else {
        IdlesNext(c, run, i - 1);
      }
    } else if i == |run| {
      BeginningIsKnown(c, run, i);
      assert run[..i] == run;
      SaneAlways(c, run);
      if i < 3 {
        forall ending ensures !MayEnd(c, Fold(c, run), ending) {
          OpeningWaits(c, Fold(c, run), ending);
        }
      } else if !JoinWent(run) {
        OverMeans(c, run, Failed(SendFailed));
      } else if i < 6 {
        DoneNext(c, run, i - 1);
      } else {
        IdlesNext(c, run, i - 1);
      }
    }
  }

  // ---------- The confirmation ----------

  /** The platform is told that the image is good; and the loop goes on, if it can be. */
  ghost predicate Tells(c: Config, run: seq<Event>, i: nat) {
    Responses.Says(c, run, i, [Validated], Failed(SendFailed))
  }

  /** The bootloader is asked, an image on probation is marked good, and then the platform is told. */
  ghost predicate Confirms(c: Config, run: seq<Event>, i: nat) {
    if i >= |run| then GoesOn(c, run)
    else
      && run[i].Pending?
      && if !run[i].yes then Tells(c, run, i + 1)
         else if i + 1 >= |run| then GoesOn(c, run)
         else
           && run[i + 1].Marked?
           && if run[i + 1].ok then Tells(c, run, i + 2)
              else i + 2 == |run| && EndsAs(c, run, Failed(MarkFailed))
  }

  lemma CheckingNext(c: Config, h: History, now: nat, yes: bool, ok: bool)
    requires !h.due && !h.timed
    ensures var h' := Next(c, h, Clock(JoinedAt, now)); h'.duty.Checking? && !h'.timed && !h'.due
    ensures var h' := Next(c, h, Marked(ok)); !h'.timed && !h'.due
    ensures Next(c, h, Marked(ok)).duty == if ok then Confirming(false) else Over(Failed(MarkFailed))
    ensures h.duty.Checking? ==> var h' := Next(c, h, Pending(yes)); h' == h.(duty := Confirming(yes))
  {}

  lemma TellingNext(c: Config, h: History, e: Event)
    requires Sane(h) && !h.timed && h.duty == Confirming(false) && Allowed(c, h, e)
    ensures e.Sent? && e.content.Validated?
    ensures Next(c, h, e).duty == if e.ok then Idle else Over(Failed(SendFailed))
    ensures !Next(c, h, e).timed && !Next(c, h, e).due
  {
    hide NextRef, Label, AfterSend, LoopAfterSaying, Plain;
  }

  lemma ToldNext(c: Config, run: seq<Event>, i: nat)
    requires Lawful(c, run) && 0 < i <= |run| && At(c, run, i - 1).duty == Confirming(false)
    requires !At(c, run, i - 1).timed
    ensures Tells(c, run, i)
  {
    hide Next, Allowed, Lawful, Fold, EndsAs, GoesOn, Sane;
    DoneNext(c, run, i - 1);
    if i < |run| {
      StepAt(c, run, i);
      SaneAlways(c, run[..i]);
      TellingNext(c, At(c, run, i - 1), run[i]);
      if run[i].ok {
        IdlesNext(c, run, i);
        assert [Validated][1..] == [];
      } else {
        OverNext(c, run, i, Failed(SendFailed));
      }
    }
  }

  lemma JoinedAtMeans(c: Config, h: History, e: Event)
    requires Allowed(c, h, e) && e.Clock? && e.why.JoinedAt?
    ensures NothingDue(h) && !h.timed
  {}

  /** The time the join was seen to be accepted is what begins the confirmation; and it then runs its course. */
  lemma ConfirmationRunsItsCourse(c: Config, run: seq<Event>, i: nat)
    requires Lawful(c, run) && i < |run| && run[i].Clock? && run[i].why.JoinedAt?
    ensures Confirms(c, run, i + 1)
  {
    hide Next, Allowed, Lawful, Fold, EndsAs, GoesOn, Tells;
    StepAt(c, run, i);
    var h := Fold(c, run[..i]);
    JoinedAtMeans(c, h, run[i]);
    CheckingNext(c, h, run[i].now, false, false);
    DoneNext(c, run, i);
    if i + 1 < |run| {
      var h := At(c, run, i);
      CheckingNext(c, h, 0, run[i + 1].yes, false);
      if run[i + 1].yes {
        DoneNext(c, run, i + 1);
        if i + 2 < |run| {
          CheckingNext(c, At(c, run, i + 1), 0, false, run[i + 2].ok);
          if run[i + 2].ok {
            ToldNext(c, run, i + 3);
          } else {
            OverNext(c, run, i + 2, Failed(MarkFailed));
          }
        }
      } else {
        ToldNext(c, run, i + 2);
      }
    }
  }

  // ---------- A download ----------

  /** All that is done while an image is being downloaded. */
  predicate Pumps(e: Event) {
    match e
    case Clock(why, _) => why.Tick? || why.WaitFrom? || why.WaitOver?
    case Sent(content, _, _, _) => content.Heartbeat? || content.Logs? || (content.Progress? && !content.updating)
    case Slept(ms) => ms <= 1000
    case Took(_) => true
    case Installed(_) => true
    case _ => false
  }

  lemma PumpingNext(c: Config, h: History, e: Event, ending: Ending)
    requires Sane(h) && InDownload(h.duty)
    ensures !MayEnd(c, h, ending)
    ensures Allowed(c, h, e) ==> if h.duty.Begun? then e.Clock? && e.why.PumpFrom? else Pumps(e)
  {
    hide NextRef, Label, Plain, LimitReached, Lingered, StillWaiting, LogsCount, JoinsExtensions, JoinsConsole;
  }

  lemma BreakingNext(c: Config, h: History, e: Event, next: Event)
    requires Sane(h) && h.duty.Downloading? && Allowed(c, h, e) && Fails(e)
    ensures Allowed(c, Next(c, h, e), next) ==> next == Installed(false)
  {
    hide Next, NextRef, Label, Plain, AfterSend, LoopAfterSaying;
    SentMeans(c, h, e);
  }

  lemma DownloadAfter(c: Config, run: seq<Event>, i: nat)
    requires Lawful(c, run) && i < |run| && Installing(run[..i + 1])
    ensures Sane(Fold(c, run[..i]))
    ensures At(c, run, i).duty.Begun? <==> run[i].Began?
    ensures !run[i].Began? && !(run[i].Clock? && run[i].why.PumpFrom?) ==> Fold(c, run[..i]).duty.Downloading?
  {
    hide Next, Allowed, Lawful, Fold, Sane;
    StepAt(c, run, i);
    SaneAlways(c, run[..i]);
    var h := Fold(c, run[..i]);
    assert run[..i + 1][..i] == run[..i];
    if run[i].Began? {
      BeganMeans(c, h);
    } else {
      InstallingMeans(c, run[..i]);
      DownloadGoesOn(c, h, run[i]);
    }
  }

  /**
   From its beginning to its end a download only keeps the session alive and reports on itself: nothing
   is read, and the session cannot end. When something cannot be sent, the update has failed.
   */
  lemma DownloadsKeepToThemselves(c: Config, run: seq<Event>, i: nat)
    requires Lawful(c, run) && i < |run| && Installing(run[..i + 1])
    ensures i + 1 == |run| ==> GoesOn(c, run)
    ensures i + 1 < |run| ==>
              if run[i].Began? then run[i + 1].Clock? && run[i + 1].why.PumpFrom?
              else if Fails(run[i]) then run[i + 1] == Installed(false)
              else Pumps(run[i + 1])
  {
    hide Next, Allowed, Lawful, Fold, Sane, MayEnd, Installing;
    StepAt(c, run, i);
    SaneAlways(c, run[..i + 1]);
    InstallingMeans(c, run[..i + 1]);
    var h := At(c, run, i);
    assert i + 1 == |run| ==> run[..i + 1] == run;
    forall ending ensures !MayEnd(c, h, ending) {
      PumpingNext(c, h, Quiet, ending);
    }
    if i + 1 < |run| {
      StepAt(c, run, i + 1);
      PumpingNext(c, h, run[i + 1], Finished);
      DownloadAfter(c, run, i);
      if Fails(run[i]) {
        BreakingNext(c, Fold(c, run[..i]), run[i], run[i + 1]);
      }
    }
  }

  lemma PausingNext(c: Config, h: History, e: Event, next: Event)
    requires Sane(h) && h.duty.Downloading? && Allowed(c, h, e)
    requires e.Slept? || (e.Clock? && e.why.WaitFrom?)
    ensures Allowed(c, Next(c, h, e), next) ==> next.Clock? && next.why.Tick?
  {
    hide NextRef, Label, Plain, AfterSend, LoopAfterSaying, LimitReached, Lingered, StillWaiting, LogsCount;
  }

  /** A wait in a download begins with a tick, and every nap is followed by one. */
  lemma WaitsAreTickedThrough(c: Config, run: seq<Event>, i: nat)
    requires Lawful(c, run) && i + 1 < |run| && Installing(run[..i + 1])
    requires run[i].Slept? || (run[i].Clock? && run[i].why.WaitFrom?)
    ensures run[i + 1].Clock? && run[i + 1].why.Tick?
  {
    hide Next, Allowed, Lawful, Fold, Sane, Installing;
    StepAt(c, run, i);
    StepAt(c, run, i + 1);
    DownloadAfter(c, run, i);
    PausingNext(c, Fold(c, run[..i]), run[i], run[i + 1]);
  }

  lemma BreakingStep(c: Config, h: History, e: Event)
    requires Sane(h) && Allowed(c, h, e) && Next(c, h, e).duty.Downloading? && Next(c, h, e).duty.broken
    ensures Fails(e)
  {
    hide Next, Allowed, Sane;
    if e.Sent? {
      SendingBreaks(c, h, e);
    } else if e.Clock? {
      ReadingBreaksNothing(c, h, e);
    } else {
      NothingElseBreaks(c, h, e);
    }
  }

  lemma SendingBreaks(c: Config, h: History, e: Event)
    requires Sane(h) && Allowed(c, h, e) && e.Sent? && Next(c, h, e).duty.Downloading? && Next(c, h, e).duty.broken
    ensures !e.ok
  {
    hide Next, Allowed, Plain, AfterSend, LoopAfterSaying;
    SentMeans(c, h, e);
    if h.duty.Sending? {
      PlainMeans(h.duty);
    }
  }

  lemma ReadingBreaksNothing(c: Config, h: History, e: Event)
    requires Allowed(c, h, e) && e.Clock? && Next(c, h, e).duty.Downloading?
    ensures !Next(c, h, e).duty.broken
  {
    hide JoinsExtensions, JoinsConsole;
  }

  lemma NothingElseBreaks(c: Config, h: History, e: Event)
    requires Sane(h) && Allowed(c, h, e) && !e.Sent? && !e.Clock? && Next(c, h, e).duty.Downloading?
    ensures !Next(c, h, e).duty.broken
  {
    hide Calls, Heard, ReaderAfter, Plain, LimitReached, Lingered, StillWaiting, LogsCount, OnSent, OnClock;
    if e.Received? {
      CallsArePlain(c, h.link, h.reader, e.message);
    }
  }

  /** A download that cannot go on has just failed to send something. */
  lemma BrokenMeansUnsent(c: Config, run: seq<Event>)
    requires Lawful(c, run) && Fold(c, run).duty.Downloading? && Fold(c, run).duty.broken
    ensures run != [] && Fails(run[|run| - 1])
  {
    hide Next, Allowed, Sane;
    if run != [] {
      SaneAlways(c, run[..|run| - 1]);
      BreakingStep(c, Fold(c, run[..|run| - 1]), run[|run| - 1]);
    }
  }

  // ---------- Labels ----------

  /** Whose message it is: no join's, a join's own, or that of the join of its channel. */
  ghost predicate Labelled(before: seq<Event>, e: Event)
    requires e.Sent?
  {
    match e.content
    case Heartbeat => e.joinRef == None
    case Join(_, _, _) => e.joinRef == Some(e.ref)
    case ExtensionsJoin => e.joinRef == Some(e.ref)
    case ConsoleJoin => e.joinRef == Some(e.ref)
    case Confirm(_) => ExtensionsRef(before, e.joinRef)
    case Location => ExtensionsRef(before, e.joinRef)
    case Health => ExtensionsRef(before, e.joinRef)
    case Logs(_) => ExtensionsRef(before, e.joinRef)
    case Typed(_) => e.joinRef == ConsoleRef(before)
    case _ => e.joinRef.Some? && JoinedAs(before, e.joinRef.value)
  }

  lemma LabelMeans(c: Config, h: History, e: Event)
    requires Allowed(c, h, e) && e.Sent?
    ensures match e.content
            case Heartbeat => e.joinRef == None
            case Join(_, _, _) => e.joinRef == Some(e.ref)
            case ExtensionsJoin => e.joinRef == Some(e.ref)
            case ConsoleJoin => e.joinRef == Some(e.ref)
            case Confirm(_) => e.joinRef == h.link.extensionsRef
            case Location => e.joinRef == h.link.extensionsRef
            case Health => e.joinRef == h.link.extensionsRef
            case Logs(_) => e.joinRef == h.link.extensionsRef
            case Typed(_) => e.joinRef == h.link.consoleRef
            case _ => e.joinRef == h.link.joinRef && !h.duty.Opening?
  {
    hide NextRef, JoinsExtensions, JoinsConsole;
  }

  /** Every message goes out under the join of the channel it is for, as that join was sent. */
  lemma MessagesAreLabelled(c: Config, run: seq<Event>, i: nat)
    requires Lawful(c, run) && i < |run| && run[i].Sent?
    ensures Labelled(run[..i], run[i])
  {
    hide Next, Allowed, Lawful, Fold, ExtensionsRef, ConsoleRef, JoinedAs;
    StepAt(c, run, i);
    LabelMeans(c, Fold(c, run[..i]), run[i]);
    ExtensionsRefIsKnown(c, run[..i]);
    ConsoleRefIsKnown(c, run[..i]);
    JoinComesFirst(c, run[..i]);
    JoinIsKnown(c, run[..i]);
  }
}
