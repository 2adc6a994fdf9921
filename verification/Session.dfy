/** One connection's lifetime: the agent's run loop (src/agent.rs). */
module Session {
  import opened Common
  import opened Protocol
  import opened World
  import opened Link
  import opened Pump
  import Console
  import EarlyUpdate
  import Endings
  import Http
  import Install
  import Ota
  import Stages
  import Updates

  /** At the top of a turn: nothing is owed, and nothing has been looked at. */
  predicate Poised(h: History) {
    h.duty.Idle? && NothingDue(h) && !h.timed && !h.looked && !h.overdue && h.control == None && h.emptied == None
  }

  /** Part-way through one, before the clock is read for it. */
  predicate Settling(h: History) { h.duty.Idle? && NothingDue(h) && !h.timed && h.control == None && h.emptied == None }

  /** The clock has been looked at for an invitation, if that is being waited for. */
  predicate Looked(h: History) { h.loop.joinedAt.Some? ==> h.looked }

  /** Only the channels and the duty have moved. */
  predicate OnlySpoke(before: History, after: History) {
    after == before.(link := after.link, duty := after.duty)
  }

  lemma Parting(c: Config, h: History)
    requires h.duty.Pausing? && NothingDue(h)
    ensures Allowed(c, h, Slept(FAREWELL_PAUSE)) && Next(c, h, Slept(FAREWELL_PAUSE)) == h.(duty := Restarting)
  {}

  lemma GoingDown(c: Config, h: History)
    requires h.duty.Restarting?
    ensures Allowed(c, h, Restarted) && Next(c, h, Restarted) == h.(duty := Over(RebootingNow))
  {}

  lemma Beginning(c: Config, h: History, ok: bool)
    requires h.duty.Applying?
    ensures Allowed(c, h, Began(true))
    ensures Next(c, h, Began(ok)) == h.(duty := if ok then Begun else UPDATE_FAILED)
  {}

  lemma StartingPump(c: Config, h: History, now: nat)
    requires h.duty.Begun? && NothingDue(h)
    ensures Allowed(c, h, Clock(PumpFrom, 0))
    ensures Next(c, h, Clock(PumpFrom, now)) == h.(duty := Downloading(now, now, now, false, false))
  {}

  lemma Installing(c: Config, h: History, ok: bool)
    requires h.duty.Downloading? && NothingDue(h) && if h.duty.broken then !ok else !h.duty.waiting
    ensures Allowed(c, h, Installed(ok))
    ensures Next(c, h, Installed(ok)) == h.(duty := if ok then FAREWELL else UPDATE_FAILED)
  {}

  lemma Running(c: Config, h: History)
    requires h.duty.Answering? && h.duty.lines != []
    ensures Allowed(c, h, Ran(h.duty.lines[0], Restarts))
    ensures Next(c, h, Ran(h.duty.lines[0], Restarts))
         == h.(duty := Sending(Typed(h.duty.reply + REBOOTING), Pausing, false))
    ensures forall output ::
      Next(c, h, Ran(h.duty.lines[0], Says(output)))
      == h.(duty := Sending(Typed(h.duty.reply + Answer(output)), ToAnswer(h.duty.lines[1..], ""), false))
  {}

  lemma Answers(lines: seq<string>, reply: string)
    ensures ToAnswer(lines, reply) == if lines != [] then Answering(lines, reply)
                                      else if reply == "" then Idle else Sending(Typed(reply), Idle, false)
  {}

  lemma Finding(c: Config, h: History, found: bool)
    requires h.duty.Locating?
    ensures Allowed(c, h, Located(true))
    ensures Next(c, h, Located(found)) == h.(duty := if found then SendAll([Location], false) else Idle)
  {}

  lemma Checked(c: Config, h: History, yes: bool, ok: bool)
    ensures h.duty.Checking? ==> Allowed(c, h, Pending(true)) && Next(c, h, Pending(yes)) == h.(duty := Confirming(yes))
    ensures h.duty == Confirming(true) ==> Allowed(c, h, Marked(true))
    ensures Next(c, h, Marked(ok)) == h.(duty := if ok then Confirming(false) else Over(Failed(MarkFailed)))
  {}

  lemma Validating(c: Config, h: History, ok: bool)
    requires h.duty == Confirming(false) && NothingDue(h)
    ensures MaySend(c, h, Validated)
    ensures OnSent(h, Validated, ok)
         == h.(link := AfterSend(h.link, Validated),
               loop := if ok then h.loop.(confirmed := true) else h.loop,
               duty := if ok then Idle else Over(Failed(SendFailed)))
  {}

  lemma Reading(c: Config, h: History, why: Why, now: nat)
    ensures Allowed(c, h, Clock(why, 0)) <==> MayRead(c, h, why)
    ensures Next(c, h, Clock(why, now)) == OnClock(c, h, why, now)
  {}

  lemma SendingAtIdle(h: History, content: Content, ok: bool)
    requires h.duty.Idle?
    ensures OnSent(h, content, ok)
         == h.(link := AfterSend(h.link, content), due := false,
               logging := if ok && content.Heartbeat? then h.logging else NoneDue,
               loop := if ok then AfterIdleSend(h, content) else h.loop,
               duty := if ok then Idle else Over(Failed(SendFailed)))
  {}

  lemma JoiningOthers(c: Config, h: History)
    requires Settling(h)
    ensures JoinsExtensions(c, h) ==> MaySend(c, h, ExtensionsJoin)
    ensures JoinsConsole(c, h) ==> MaySend(c, h, ConsoleJoin)
  {}

  /** The clock has been read for this turn, and its heartbeat seen to; the log is next, if it is due. */
  predicate Beaten(c: Config, h: History, loop: Loop, now: nat) {
    && h.duty.Idle? && h.timed && !h.due && h.turn == now && h.loop == loop
    && h.logging == LogsAt(c, h.link, now, loop.lastLog)
  }

  /** The log has been seen to as well. */
  predicate Current(h: History, loop: Loop, now: nat) {
    h.duty.Idle? && h.timed && NothingDue(h) && h.turn == now && h.loop == loop
  }

  lemma Asking(c: Config, h: History, control: Control, yes: bool)
    ensures c.control && h.duty.Idle? && h.timed && NothingDue(h) && h.control == None ==>
              Allowed(c, h, Controlled(Stay))
    ensures Next(c, h, Controlled(control))
         == h.(control := Some(control),
               duty := if control.ReportHealth? && Attached(h.link, "health") && c.health then SendAll([Health], false)
                       else h.duty)
    ensures h.duty.Idle? && h.timed && NothingDue(h) && h.emptied == None && LogsCount(c, h) && Lingered(c, h) ==>
              Allowed(c, h, Emptied(true))
    ensures Next(c, h, Emptied(yes)) == h.(emptied := Some(yes))
  {}

  lemma HeartbeatAtIdle(c: Config, h: History)
    requires h.duty.Idle? && h.due && h.link.heartbeat == None
    ensures MaySend(c, h, Heartbeat)
  {}

  /** A turn's frame has been taken, and what it calls for is all there is to do. */
  predicate Unread(h: History) {
    NothingDue(h) && !h.timed && !h.looked && !h.overdue && h.control == None && h.emptied == None
  }

  lemma Arriving(c: Config, h: History)
    ensures MayReceive(c, h) ==> Allowed(c, h, Quiet)
    ensures Next(c, h, Quiet) == TurnOver(h)
    ensures Next(c, h, Died) == Next(c, h, Garbled) == TurnOver(h).(duty := Leaving)
    ensures forall m :: Next(c, h, Received(m)) == OnReceived(c, h, m)
  {}

  lemma AnsweringConsole(c: Config, link: Channels, reader: Console.Reader, m: Message)
    requires m.topic.Console? && m.body.Down? && m.body.data.Some?
    ensures
      var (after, echo, lines) := Console.Feed(reader, m.body.data.value);
      && Calls(c, link, reader, m) == (if c.console then ToAnswer(lines, echo) else Idle)
      && ReaderAfter(c, reader, m) == if c.console then after else reader
  {}

  lemma Booting(c: Config, h: History, yes: bool)
    requires h.duty.Opening?
    ensures h.duty.pending == None ==> Allowed(c, h, Pending(true))
    ensures Next(c, h, Pending(yes)) == h.(duty := h.duty.(pending := Some(yes)))
    ensures h.duty.reverted == None ==> Allowed(c, h, Reverted(true))
    ensures Next(c, h, Reverted(yes)) == h.(duty := h.duty.(reverted := Some(yes)))
  {}

  lemma Joining(c: Config, h: History, ok: bool)
    requires h.duty.Opening? && h.duty.pending.Some? && h.duty.reverted.Some? && NothingDue(h)
    ensures
      var join := Join(!h.duty.pending.value, h.duty.reverted.value, None);
      && MaySend(c, h, join)
      && OnSent(h, join, ok) == h.(link := AfterSend(h.link, join),
                                   duty := if ok then Timing(LogsFrom) else Over(Failed(SendFailed)))
  {}

  /** An update is only applied once a message has asked for it, and the application has agreed. */
  lemma Asked(
    c: Config, run: seq<Event>, h: History, left: nat, given: nat, started: Option<Undertaking>, env: Env)
    requires Kept(c, run, h, left, given, started, env) && h.duty.Applying?
    ensures |run| >= 2 && Offers(run[|run| - 2], h.duty.update) && run[|run| - 1] == Decided(Apply)
  {
    hide Fold, Lawful, Kept;
    KeptMeans(c, run, h, left, given, started, env);
    EarlyUpdate.BeginningFollows(c, run);
  }

  /** An install that has told the agent something that failed could not send it. */
  lemma Interrupted(
    c: Config, run: seq<Event>, h: History, left: nat, given: nat, started: Option<Undertaking>, env: Env)
    requires Kept(c, run, h, left, given, started, env) && h.duty.Downloading? && h.duty.broken
    ensures run != [] && Fails(run[|run| - 1])
  {
    hide Fold, Lawful, Kept;
    KeptMeans(c, run, h, left, given, started, env);
    Stages.BrokenMeansUnsent(c, run);
  }

  lemma ItIsDeserved(before: seq<Event>, ok: bool, u: Undertaking, env: Env, image: Updates.Image, unsent: bool)
    requires ok ==> image.update == u.update && Updates.InPlace(image, env.jobs(u.began + 1), env.digest)
    requires unsent ==> before != [] && Fails(before[|before| - 1])
    requires !ok && !unsent ==> !Updates.Installable(u.update, env.jobs(u.began + 1), env.digest)
    ensures Deserved(before, ok, u, env)
  {
    hide Updates.InPlace, Updates.Installable;
  }

  /** What a session comes to, however it ends. */
  lemma WhenOver(world: World)
    requires world.Valid()
    ensures Lawful(world.config, world.run) && world.h == Fold(world.config, world.run)
    ensures world.config.window.Some? && Endings.ClockAdvances(world.run) ==>
              world.given - |world.inbox| <= world.config.window.value.limit
    ensures forall i: nat :: i < |world.run| && world.run[i].Installed? ==> Accounted(world.run, i, world.env)
    ensures forall e :: e in world.run && Endings.ClaimsDone(e) ==> Installed(true) in world.run
  {
    hide Kept, Lawful, Fold, Accounted, Endings.ClaimsDone, Endings.ClockAdvances;
    var c, run := world.config, world.run;
    KeptMeans(c, run, world.h, |world.inbox|, world.given, world.started, world.env);
    if c.window.Some? && Endings.ClockAdvances(run) {
      Endings.BoundedSessionsEnd(c, run);
    }
    forall e | e in run && Endings.ClaimsDone(e) ensures Installed(true) in run {
      var i :| 0 <= i < |run| && run[i] == e;
      Endings.DoneMeansInstalled(c, run, i);
    }
  }

  class Agent {
    var reader: Console.LineReader

    constructor ()
      ensures reader.Get() == Console.FRESH
    {
      reader := new Console.LineReader();
    }

    // ---------- Updates ----------

    /** Install, with the connection kept alive meanwhile: well if the image is in place, and only then. */
    method Download(link: Link, world: World, update: Updates.Update) returns (ok: bool)
      requires link.Ready(world) && world.h.duty == Applying(update) && NothingDue(world.h)
      modifies link`next, link`heartbeatRef, world`run, world`h, world`clock, world`started
      ensures link.Ready(world) && OnlySpoke(old(world.h), world.h)
      ensures world.h.duty == if ok then FAREWELL else UPDATE_FAILED
    {
      hide Kept, Next, Allowed, MaySend, OnSent, Deserved, Updates.InPlace, Updates.Installable;
      Asked(world.config, world.run, world.h, |world.inbox|, world.given, world.started, world.env);
      Beginning(world.config, world.h, true);
      Beginning(world.config, world.h, false);
      ok := world.Begin();
      if !ok {
        return;
      }
      StartingPump(world.config, world.h, world.clock);
      var now := world.BeginDownload(update);
      ok := Pumped(link, world, update, now);
      Installing(world.config, world.h, ok);
      world.InstallEnds(ok);
    }

    /** An install with a pump of its own, which keeps the connection alive. */
    method Pumped(link: Link, world: World, update: Updates.Update, now: nat) returns (ok: bool)
      requires link.Ready(world) && NothingDue(world.h) && world.h.duty == Downloading(now, now, now, false, false)
      requires now <= world.clock
      requires world.started == Some(Undertaking(update, |world.run| - 1))
      modifies link`next, link`heartbeatRef, world`run, world`h, world`clock
      ensures link.Ready(world) && OnlySpoke(old(world.h), world.h)
      ensures world.h.duty.Downloading? && NothingDue(world.h)
      ensures if world.h.duty.broken then !ok else !world.h.duty.waiting
      ensures Deserved(world.run, ok, world.started.value, world.env)
    {
      hide Kept, Next, Allowed, MaySend, OnSent, Deserved, Updates.InPlace, Updates.Installable;
      var pump := new Pump(link, world, now);
      var progress := new Install.Progress.Pumping(pump);
      var job := world.env.jobs(|world.run|);
      ghost var image;
      ok, image := Install.InstallAfresh(update, job, world.config.step, progress, world.env.digest);
      if progress.failed {
        Interrupted(world.config, world.run, world.h, |world.inbox|, world.given, world.started, world.env);
      }
      ItIsDeserved(world.run, ok, world.started.value, world.env, image, progress.failed);
    }

    /** Download and install. The last thing said before a restart is that it is coming. */
    method Apply(link: Link, world: World, update: Updates.Update) returns (r: Result<bool, Failure>)
      requires link.Ready(world) && world.h.duty == Applying(update) && NothingDue(world.h)
      modifies link`next, link`heartbeatRef, link`downloading
      modifies world`run, world`h, world`clock, world`started
      ensures link.Ready(world) && OnlySpoke(old(world.h), world.h)
      ensures world.h.duty == match r case Ok(rebooting) => if rebooting then Over(RebootingNow) else Rebeat
                                      case Err(failure) => Over(Failed(failure))
      ensures r.Err? ==> r.error == SendFailed
    {
      hide Kept, Next, Allowed, MaySend, OnSent;
      if update.Actionable() {
        link.downloading := update.uuid;
      }
      var installed := Download(link, world, update);
      link.downloading := None;
      if !installed {
        var ok := Say(link, world, Told(FailedUpdate));
        return if ok then Ok(false) else Err(SendFailed);
      }
      var ok := Say(link, world, Progress(true, 100));
      if !ok {
        return Err(SendFailed);
      }
      ok := Say(link, world, Told(Completed));
      if !ok {
        return Err(SendFailed);
      }
      ok := Say(link, world, Rebooting);
      if !ok {
        return Err(SendFailed);
      }
      PauseAndRestart(world);
      r := Ok(true);
    }

    /** What the agent must say next. */
    method Say(link: Link, world: World, content: Content) returns (ok: bool)
      requires content.Progress? || content.Told? || content.Rebooting? || content.Validated?
      requires link.Ready(world) && NothingDue(world.h)
      requires world.h.duty.Sending? && world.h.duty.content == content && !world.h.duty.handling
      modifies link`next, world`run, world`h, world`clock
      ensures link.Ready(world) && OnlySpoke(old(world.h), world.h)
      ensures world.h.duty == if ok then old(world.h).duty.after else Over(Failed(SendFailed))
    {
      hide Kept, Next, Allowed, MaySend, OnSent;
      SayingWhatIsDue(world.config, world.h, true);
      ok := link.Send(world, content);
      SayingWhatIsDue(world.config, old(world.h), ok);
    }

    method PauseAndRestart(world: World)
      requires world.Valid() && world.h.duty.Pausing? && NothingDue(world.h)
      modifies world`run, world`h, world`clock
      ensures world.Valid() && world.h == old(world.h).(duty := Over(RebootingNow))
    {
      hide Kept, Next, Allowed, MaySend, OnSent;
      Parting(world.config, world.h);
      world.Sleep(FAREWELL_PAUSE);
      GoingDown(world.config, world.h);
      world.Restart();
    }

    // ---------- The console, and extensions ----------

    method Type(link: Link, world: World, text: string) returns (ok: bool)
      requires link.Ready(world) && NothingDue(world.h) && text != ""
      requires world.h.duty.Sending? && world.h.duty.content == Typed(text) && !world.h.duty.handling
      modifies link`next, world`run, world`h, world`clock
      ensures link.Ready(world) && OnlySpoke(old(world.h), world.h)
      ensures world.h.duty == if ok then old(world.h).duty.after else Over(Failed(SendFailed))
    {
      hide Kept, Next, Allowed, MaySend, OnSent;
      SayingWhatIsDue(world.config, world.h, true);
      ok := link.SendConsole(world, text);
      SayingWhatIsDue(world.config, old(world.h), ok);
    }

    /** Run each completed line; every answer takes what is to be written so far, and a prompt, with it. */
    method RunLines(link: Link, world: World, lines: seq<string>, echo: string) returns (r: Result<bool, Failure>)
      requires link.Ready(world) && NothingDue(world.h) && world.h.duty == ToAnswer(lines, echo)
      modifies link`next, world`run, world`h, world`clock
      ensures link.Ready(world) && OnlySpoke(old(world.h), world.h)
      ensures world.h.duty == match r case Ok(restarting) => if restarting then Over(RebootingNow) else Idle
                                      case Err(failure) => Over(Failed(failure))
      ensures r.Err? ==> r.error == SendFailed
    {
      hide Kept, Next, Allowed, MaySend, OnSent, ToAnswer;
      var reply := echo;
      var i := 0;
      assert lines[0..] == lines;
      while i < |lines|
        invariant 0 <= i <= |lines|
        invariant link.Ready(world) && OnlySpoke(old(world.h), world.h)
        invariant world.h.duty == ToAnswer(lines[i..], reply)
      {
        assert lines[i..][1..] == lines[i + 1..];
        Answers(lines[i..], reply);
        Running(world.config, world.h);
        var command := world.RunCommand(lines[i]);
        if command.Restarts? {
          var ok := Type(link, world, reply + REBOOTING);
          if !ok {
            return Err(SendFailed);
          }
          PauseAndRestart(world);
          return Ok(true);
        }
        reply := reply + Answer(command.output);
        var ok := Type(link, world, reply);
        if !ok {
          return Err(SendFailed);
        }
        reply := "";
        i := i + 1;
      }
      Answers(lines[i..], reply);
      if reply != "" {
        var ok := Type(link, world, reply);
        if !ok {
          return Err(SendFailed);
        }
      }
      r := Ok(false);
    }

    /** Echo what was typed, and answer what was completed. `Ok(true)` if a line asked to restart. */
    method AnswerConsole(link: Link, world: World, data: string) returns (r: Result<bool, Failure>)
      requires link.Ready(world) && NothingDue(world.h)
      requires
        var (after, echo, lines) := Console.Feed(reader.Get(), data);
        if world.config.console then world.h.duty == ToAnswer(lines, echo) && world.h.reader == after
        else world.h.duty.Idle? && world.h.reader == reader.Get()
      modifies reader, link`next, world`run, world`h, world`clock
      ensures link.Ready(world) && OnlySpoke(old(world.h), world.h) && reader.Get() == world.h.reader
      ensures world.h.duty == match r case Ok(restarting) => if restarting then Over(RebootingNow) else Idle
                                      case Err(failure) => Over(Failed(failure))
      ensures r.Err? ==> r.error == SendFailed
    {
      hide Kept, Next, Allowed, MaySend, OnSent, ToAnswer, Console.Feed;
      if !world.config.console {
        return Ok(false);
      }
      var echo, lines := reader.FeedAll(data);
      r := RunLines(link, world, lines, echo);
    }

    /** What the platform asked for, from the providers there are. */
    method AnswerExtension(link: Link, world: World, need: Need) returns (ok: bool)
      requires link.Ready(world) && NothingDue(world.h)
      requires Leaves(world.config, Acts(Extension(need)), world.h.duty, world.h.duty)
      modifies link`next, world`run, world`h, world`clock
      ensures link.Ready(world) && OnlySpoke(old(world.h), world.h)
      ensures world.h.duty == if ok then Idle else Over(Failed(SendFailed))
    {
      hide Kept, Next, Allowed, MaySend, OnSent;
      ok := true;
      match need
      case NeedLocation =>
        if world.config.location {
          Finding(world.config, world.h, true);
          Finding(world.config, world.h, false);
          var found := world.Locate();
          ok := link.SendExtension(world, if found then [Location] else [], false);
        }
      case NeedHealth =>
        if world.config.health {
          ok := link.SendExtension(world, [Health], false);
        }
    }

    // ---------- A turn of the loop ----------

    method ConfirmRunningImage(link: Link, world: World) returns (failure: Option<Failure>)
      requires link.Ready(world) && world.h.duty.Checking? && NothingDue(world.h)
      modifies link`next, world`run, world`h, world`clock
      ensures link.Ready(world)
      ensures failure.Some? ==> failure.value.SendFailed? || failure.value.MarkFailed?
      ensures if failure.Some? then world.h.duty == Over(Failed(failure.value))
              else world.h == old(world.h).(link := world.h.link, duty := Idle,
                                            loop := old(world.h).loop.(confirmed := true))
      ensures failure.None? ==> world.h.link == AfterSend(old(world.h).link, Validated)
    {
      hide Kept, Next, Allowed, MaySend, OnSent;
      Checked(world.config, world.h, true, true);
      Checked(world.config, world.h, false, true);
      var pending := world.PendingVerify();
      if pending {
        Checked(world.config, world.h, true, true);
        Checked(world.config, world.h, true, false);
        var marked := world.MarkValid();
        if !marked {
          return Some(MarkFailed);
        }
      }
      Validating(world.config, world.h, true);
      Validating(world.config, world.h, false);
      var ok := link.Send(world, Validated);
      failure := if ok then None else Some(SendFailed);
    }

    /** Once the join is accepted: confirm the image, and join the other channels when it is time to. */
    method Settle(link: Link, world: World, loop: Loop) returns (loop': Loop, failure: Option<Failure>)
      requires link.Ready(world) && Poised(world.h) && world.h.loop == loop
      modifies link, world`run, world`h, world`clock
      ensures link.Ready(world) && link.downloading == old(link.downloading)
      ensures failure.Some? ==> failure.value.SendFailed? || failure.value.MarkFailed?
      ensures if failure.Some? then world.h.duty == Over(Failed(failure.value))
              else Settling(world.h) && MayRead(world.config, world.h, Turn)
                   && world.h.loop == loop' && world.h.reader == old(world.h).reader
    {
      hide Kept, Next, Allowed, MaySend, OnSent;
      loop', failure := loop, None;
      if link.joined && !loop.confirmed {
        Reading(world.config, world.h, JoinedAt, world.clock);
        var now := world.Now(JoinedAt);
        failure := ConfirmRunningImage(link, world);
        if failure.Some? {
          return;
        }
        loop' := loop'.(joinedAt := Some(now), confirmed := true);
      }
      loop', failure := JoinExtensions(link, world, loop');
      if failure.Some? {
        return;
      }
      loop', failure := JoinConsole(link, world, loop');
    }

    method JoinExtensions(link: Link, world: World, loop: Loop) returns (loop': Loop, failure: Option<Failure>)
      requires link.Ready(world) && Settling(world.h) && !world.h.looked && !world.h.overdue && world.h.loop == loop
      requires world.h.link.joined ==> world.h.loop.confirmed
      modifies link`next, link`extensionsJoinRef, world`run, world`h, world`clock
      ensures link.Ready(world)
      ensures failure.Some? ==> failure.value.SendFailed? || failure.value.MarkFailed?
      ensures if failure.Some? then world.h.duty == Over(Failed(failure.value))
              else Settling(world.h) && !JoinsExtensions(world.config, world.h) && Looked(world.h)
                   && world.h.loop == loop' && world.h.reader == old(world.h).reader
                   && (world.h.link.joined ==> world.h.loop.confirmed)
    {
      hide Kept, Next, Allowed, MaySend, OnSent;
      loop', failure := loop, None;
      var overdue := false;
      if loop.joinedAt.Some? {
        Reading(world.config, world.h, Invitation, world.clock);
        var now := world.Now(Invitation);
        overdue := Since(now, loop.joinedAt.value) >= INVITATION_WAIT;
      }
      if link.joined && world.config.extensions && !loop.extensionsJoined && (link.invited || overdue) {
        JoiningOthers(world.config, world.h);
        SendingAtIdle(world.h, ExtensionsJoin, true);
        SendingAtIdle(world.h, ExtensionsJoin, false);
        var ok := link.SendExtensionsJoin(world);
        if !ok {
          return loop', Some(SendFailed);
        }
        loop' := loop.(extensionsJoined := true);
      }
    }

    method JoinConsole(link: Link, world: World, loop: Loop) returns (loop': Loop, failure: Option<Failure>)
      requires link.Ready(world) && Settling(world.h) && world.h.loop == loop
      requires !JoinsExtensions(world.config, world.h) && Looked(world.h)
      requires world.h.link.joined ==> world.h.loop.confirmed
      modifies link`next, link`consoleJoinRef, world`run, world`h, world`clock
      ensures link.Ready(world)
      ensures failure.Some? ==> failure.value.SendFailed? || failure.value.MarkFailed?
      ensures if failure.Some? then world.h.duty == Over(Failed(failure.value))
              else Settling(world.h) && MayRead(world.config, world.h, Turn)
                   && world.h.loop == loop' && world.h.reader == old(world.h).reader
    {
      hide Kept, Next, Allowed, MaySend, OnSent;
      loop', failure := loop, None;
      if link.joined && world.config.console && !loop.consoleJoined {
        JoiningOthers(world.config, world.h);
        SendingAtIdle(world.h, ConsoleJoin, true);
        SendingAtIdle(world.h, ConsoleJoin, false);
        var ok := link.SendConsoleJoin(world);
        if !ok {
          return loop', Some(SendFailed);
        }
        loop' := loop.(consoleJoined := true);
      }
    }

    /** Read the clock, and send a heartbeat if one is due -- unless the last is still unanswered. */
    method Beat(link: Link, world: World, loop: Loop) returns (now: nat, loop': Loop, failure: Option<Failure>)
      requires link.Ready(world) && Settling(world.h) && MayRead(world.config, world.h, Turn) && world.h.loop == loop
      modifies link`next, link`heartbeatRef, world`run, world`h, world`clock
      ensures link.Ready(world)
      ensures if failure.Some? then MayEnd(world.config, world.h, Failed(failure.value))
              else Beaten(world.config, world.h, loop', now) && world.h.control == None && world.h.emptied == None
                   && world.h.reader == old(world.h).reader
    {
      hide Kept, Next, Allowed, MaySend, OnSent;
      loop', failure := loop, None;
      Reading(world.config, world.h, Turn, world.clock);
      now := world.Now(Turn);
      if Since(now, loop.lastHeartbeat) >= world.config.heartbeat {
        if link.heartbeatRef.Some? {
          return now, loop, Some(NoReply);
        }
        BeatingKeepsLogs(world.config, world.h.link, now, loop.lastLog);
        HeartbeatAtIdle(world.config, world.h);
        SendingAtIdle(world.h, Heartbeat, true);
        SendingAtIdle(world.h, Heartbeat, false);
        var ok := link.SendHeartbeat(world);
        if !ok {
          return now, loop, Some(SendFailed);
        }
        loop' := loop.(lastHeartbeat := now);
      }
    }

    /** Ask the caller, if it is to be asked, what it wants next. */
    method Consult(link: Link, world: World, loop: Loop, now: nat) returns (ending: Option<Ending>)
      requires link.Ready(world) && Current(world.h, loop, now) && world.h.control == None && world.h.emptied == None
      modifies link`next, world`run, world`h, world`clock
      ensures link.Ready(world)
      ensures if ending.Some? then MayEnd(world.config, world.h, ending.value)
              else Current(world.h, loop, now) && world.h.emptied == None && world.h.reader == old(world.h).reader
                   && (world.config.control ==> world.h.control.Some? && world.h.control != Some(Leave))
                   && (!world.config.control ==> world.h.control == None)
    {
      hide Kept, Next, Allowed, MaySend, OnSent;
      if !world.config.control {
        return None;
      }
      Asking(world.config, world.h, Stay, true);
      var control := world.AskControl();
      Asking(world.config, old(world.h), control, true);
      match control
      case Stay => return None;
      case Leave => return Some(Finished);
      case ReportHealth =>
        if "health" in link.attached {
          var ok := AnswerExtension(link, world, NeedHealth);
          if !ok {
            return Some(Failed(SendFailed));
          }
        }
        ending := None;
    }

    /** Whether a session that has lingered has nothing left to wait for. */
    method AskOutstanding(link: Link, world: World, loop: Loop, now: nat) returns (nothing: bool)
      requires link.Ready(world) && Current(world.h, loop, now) && world.h.emptied == None
      requires Lingered(world.config, world.h)
      modifies world`run, world`h, world`clock
      ensures link.Ready(world) && world.h == old(world.h).(emptied := world.h.emptied)
      ensures if nothing then NothingOutstanding(world.config, world.h) else StillWaiting(world.config, world.h)
    {
      hide Kept, Next, Allowed, MaySend, OnSent, Lingered;
      var extensions := !world.config.extensions || link.extensionsJoined;
      var health := !world.config.health || "health" !in link.attached || loop.healthAnswered;
      var logs := true;
      if "logging" in link.attached && world.config.logs {
        Asking(world.config, world.h, Stay, true);
        Asking(world.config, world.h, Stay, false);
        logs := world.LogIsEmpty();
      }
      nothing := extensions && health && logs;
    }

    /** Whether a bounded session is over: at its limit, or once nothing is outstanding. */
    method CheckWindow(link: Link, world: World, loop: Loop, now: nat) returns (ending: Option<Ending>)
      requires link.Ready(world) && Current(world.h, loop, now) && world.h.emptied == None
      requires world.config.control ==> world.h.control.Some? && world.h.control != Some(Leave)
      modifies world`run, world`h, world`clock
      ensures link.Ready(world)
      ensures if ending.Some? then MayEnd(world.config, world.h, ending.value)
              else MayReceive(world.config, world.h) && world.h == old(world.h).(emptied := world.h.emptied)
    {
      hide Kept, Next, Allowed, MaySend, OnSent, NothingOutstanding, StillWaiting;
      if world.config.window.None? {
        return None;
      }
      var window := world.config.window.value;
      if Since(now, loop.started) >= window.limit {
        return if link.joined then Some(Finished) else Some(Failed(NoJoin));
      }
      if loop.joinedAt.None? || Since(now, loop.joinedAt.value) < window.linger {
        return None;
      }
      var nothing := AskOutstanding(link, world, loop, now);
      ending := if nothing then Some(Finished) else None;
    }

    /** The next frame, if there is one, and whatever it calls for. */
    method Attend(link: Link, world: World, loop: Loop) returns (loop': Loop, ending: Option<Ending>)
      requires link.Ready(world) && MayReceive(world.config, world.h)
      requires world.h.loop == loop && world.h.reader == reader.Get()
      modifies this`reader, reader, link, world`run, world`h, world`clock, world`inbox, world`started
      ensures link.Ready(world) && (reader == old(reader) || fresh(reader))
      ensures if ending.Some? then MayEnd(world.config, world.h, ending.value)
              else Poised(world.h) && world.h.loop == loop' && world.h.reader == reader.Get()
                   && |world.inbox| < |old(world.inbox)|
    {
      hide Kept, Next, Allowed, MaySend, OnSent, Calls, Heard, Console.Feed, ReaderAfter, AsksHealth;
      Arriving(world.config, world.h);
      var got := world.Receive();
      loop' := loop;
      match got
      case Dead => return loop, Some(Reconnect);
      case Nothing => return loop, None;
      case Frame(message) =>
        if message.None? {
          return loop, Some(Reconnect);
        }
        loop', ending := Handle(link, world, loop, message.value);
    }

    /** Apply it, and give the connection a whole interval afresh if it could not be. */
    method ActOnUpdate(link: Link, world: World, loop: Loop, update: Updates.Update)
      returns (loop': Loop, ending: Option<Ending>)
      requires link.Ready(world) && world.h.duty == Applying(update) && Unread(world.h) && world.h.loop == loop
      modifies link`next, link`heartbeatRef, link`downloading
      modifies world`run, world`h, world`clock, world`started
      ensures link.Ready(world)
      ensures if ending.Some? then MayEnd(world.config, world.h, ending.value)
              else Poised(world.h) && world.h.loop == loop' && world.h.reader == old(world.h).reader
    {
      hide Kept, Next, Allowed, MaySend, OnSent;
      var r := Apply(link, world, update);
      if r.Err? {
        return loop, Some(Failed(r.error));
      }
      if r.value {
        return loop, Some(RebootingNow);
      }
      Reading(world.config, world.h, BeatsFrom, world.clock);
      var now := world.Now(BeatsFrom);
      loop', ending := loop.(lastHeartbeat := now), None;
    }

    /** An operator's reboot: said, and then done. */
    method RebootNow(link: Link, world: World) returns (ending: Option<Ending>)
      requires link.Ready(world) && world.h.duty == HALT && NothingDue(world.h)
      modifies link`next, world`run, world`h, world`clock
      ensures link.Ready(world) && ending.Some? && MayEnd(world.config, world.h, ending.value)
    {
      hide Kept, Next, Allowed, MaySend, OnSent;
      var ok := Say(link, world, Rebooting);
      if !ok {
        return Some(Failed(SendFailed));
      }
      GoingDown(world.config, world.h);
      world.Restart();
      ending := Some(RebootingNow);
    }

    method Converse(link: Link, world: World, loop: Loop, data: string) returns (ending: Option<Ending>)
      requires link.Ready(world) && Unread(world.h) && world.h.loop == loop
      requires
        var (after, echo, lines) := Console.Feed(reader.Get(), data);
        if world.config.console then world.h.duty == ToAnswer(lines, echo) && world.h.reader == after
        else world.h.duty.Idle? && world.h.reader == reader.Get()
      modifies reader, link`next, world`run, world`h, world`clock
      ensures link.Ready(world)
      ensures if ending.Some? then MayEnd(world.config, world.h, ending.value)
              else Poised(world.h) && world.h.loop == loop && world.h.reader == reader.Get()
    {
      hide Kept, Next, Allowed, MaySend, OnSent, ToAnswer, Console.Feed;
      var r := AnswerConsole(link, world, data);
      ending := match r case Ok(restarting) => if restarting then Some(RebootingNow) else None
                        case Err(failure) => Some(Failed(failure));
    }

    /** The session at the console began again: whatever was half typed is forgotten. */
    method RestartConsole(link: Link, world: World, loop: Loop) returns (ending: Option<Ending>)
      requires link.Ready(world) && Unread(world.h) && world.h.loop == loop
      requires world.h.duty == Typing("\r\n" + PROMPT)
      requires world.h.reader == if world.config.console then Console.FRESH else reader.Get()
      modifies this`reader, link`next, world`run, world`h, world`clock
      ensures link.Ready(world) && (reader == old(reader) || fresh(reader))
      ensures if ending.Some? then MayEnd(world.config, world.h, ending.value)
              else Poised(world.h) && world.h.loop == loop && world.h.reader == reader.Get()
    {
      hide Kept, Next, Allowed, MaySend, OnSent;
      if world.config.console {
        reader := new Console.LineReader();
      }
      var ok := Type(link, world, "\r\n" + PROMPT);
      ending := if ok then None else Some(Failed(SendFailed));
    }

    method AnswerNeed(link: Link, world: World, loop: Loop, need: Need) returns (ending: Option<Ending>)
      requires link.Ready(world) && Unread(world.h) && world.h.loop == loop
      requires Leaves(world.config, Acts(Extension(need)), world.h.duty, world.h.duty)
      modifies link`next, world`run, world`h, world`clock
      ensures link.Ready(world)
      ensures if ending.Some? then MayEnd(world.config, world.h, ending.value)
              else Poised(world.h) && world.h.loop == loop && world.h.reader == old(world.h).reader
    {
      hide Kept, Next, Allowed, MaySend, OnSent;
      var ok := AnswerExtension(link, world, need);
      ending := if ok then None else Some(Failed(SendFailed));
    }

    method Handle(link: Link, world: World, loop: Loop, m: Message) returns (loop': Loop, ending: Option<Ending>)
      requires link.Hears(world, m, reader.Get()) && Unread(world.h)
      requires world.h.reader == ReaderAfter(world.config, reader.Get(), m)
      requires world.h.loop == if AsksHealth(link.View(), m) then loop.(healthAnswered := true) else loop
      modifies this`reader, reader, link, world`run, world`h, world`clock, world`started
      ensures link.Ready(world) && (reader == old(reader) || fresh(reader))
      ensures if ending.Some? then MayEnd(world.config, world.h, ending.value)
              else Poised(world.h) && world.h.loop == loop' && world.h.reader == reader.Get()
    {
      hide Kept, Next, Allowed, MaySend, OnSent, Calls, Heard, Console.Feed, AsksHealth, ToAnswer;
      loop', ending := loop, None;
      ghost var before := link.View();
      var handled := link.HandleMessage(world, m, reader.Get());
      if handled.CannotHandle? {
        return loop, Some(Reconnect);
      }
      match handled.action
      case Done =>
      case ReconnectAsked => ending := Some(Reconnect);
      case ApplyUpdate(update) => loop', ending := ActOnUpdate(link, world, loop, update);
      case RebootAsked => ending := RebootNow(link, world);
      case ConsoleData(data) =>
        AnsweringConsole(world.config, before, reader.Get(), m);
        ending := Converse(link, world, loop, data);
      case ConsoleRestart => ending := RestartConsole(link, world, loop);
      case Extension(need) =>
        if need.NeedHealth? {
          loop' := loop.(healthAnswered := true);
        }
        ending := AnswerNeed(link, world, loop', need);
    }

    // ---------- The whole of it ----------

    /** Say what boot this is, join, and start the clocks. */
    method Open(link: Link, world: World) returns (ok: bool, loop: Loop)
      requires link.Ready(world) && world.h == Start(world.config) && link.downloading == None
      modifies link`next, link`joinRef, link`joined, world`run, world`h, world`clock
      ensures link.Ready(world)
      ensures if ok then Poised(world.h) && world.h.loop == loop && world.h.reader == world.config.typed
              else world.h.duty == Over(Failed(SendFailed))
    {
      hide Kept, Next, Allowed, MaySend, OnSent;
      loop := NO_LOOP;
      Booting(world.config, world.h, true);
      Booting(world.config, world.h, false);
      var pending := world.PendingVerify();
      Booting(world.config, world.h, true);
      Booting(world.config, world.h, false);
      var reverted := world.AutoReverted();
      Joining(world.config, world.h, true);
      Joining(world.config, world.h, false);
      ok := link.SendJoin(world, !pending, reverted);
      if ok {
        loop := StartClocks(link, world);
      }
    }

    method StartClocks(link: Link, world: World) returns (loop: Loop)
      requires link.Ready(world) && world.h.duty == Timing(LogsFrom) && world.h.loop == NO_LOOP
      requires Unread(world.h)
      modifies world`run, world`h, world`clock
      ensures link.Ready(world) && Poised(world.h) && world.h.loop == loop
      ensures world.h.reader == old(world.h).reader
    {
      hide Kept, Next, Allowed;
      Reading(world.config, world.h, LogsFrom, world.clock);
      var lastLog := world.Now(LogsFrom);
      Reading(world.config, world.h, BeatsFrom, world.clock);
      var lastHeartbeat := world.Now(BeatsFrom);
      Reading(world.config, world.h, Started, world.clock);
      var started := world.Now(Started);
      loop := NO_LOOP.(lastLog := lastLog, lastHeartbeat := lastHeartbeat, started := started);
    }

    /**
     A session, to its window's end if it has one, or until its caller says. It ends; and if
     readings of the clock advance, a bounded one has then taken no more of the frames it was
     given than its limit has milliseconds, however many there were. Whatever it has installed is in
     place, whole, and what one of its messages asked for, and it tells the platform of nothing else; and
     an install only ever fails for want of a server, a flash or a connection.
     */
    method SessionWithin(world: World) returns (ending: Ending)
      requires world.Valid() && world.h == Start(world.config) && world.config.typed == reader.Get()
      modifies this`reader, reader, world
      ensures world.Valid() && MayEnd(world.config, world.h, ending)
      ensures Lawful(world.config, world.run) && world.h == Fold(world.config, world.run)
      ensures world.config.window.Some? && Endings.ClockAdvances(world.run) ==>
                world.given - |world.inbox| <= world.config.window.value.limit
      ensures forall i: nat :: i < |world.run| && world.run[i].Installed? ==> Accounted(world.run, i, world.env)
      ensures forall e :: e in world.run && Endings.ClaimsDone(e) ==> Installed(true) in world.run
    {
      hide Kept, Next, Allowed, MaySend, OnSent, MayReceive, Poised;
      hide Fold, Lawful, Accounted, Endings.ClaimsDone, Endings.ClockAdvances;
      var link := new Link();
      var ok, loop := Open(link, world);
      if !ok {
        WhenOver(world);
        return Failed(SendFailed);
      }
      while true
        invariant link.Ready(world) && fresh(link) && (reader == old(reader) || fresh(reader))
        invariant Poised(world.h) && world.h.loop == loop && world.h.reader == reader.Get()
        decreases |world.inbox|
      {
        var over: Option<Ending>;
        loop, over := TakeTurn(link, world, loop);
        if over.Some? {
          WhenOver(world);
          return over.value;
        }
        loop, over := Attend(link, world, loop);
        if over.Some? {
          WhenOver(world);
          return over.value;
        }
      }
    }

    /** Everything a turn does before it waits for a frame. */
    method TakeTurn(link: Link, world: World, loop: Loop) returns (loop': Loop, ending: Option<Ending>)
      requires link.Ready(world) && Poised(world.h) && world.h.loop == loop
      modifies link, world`run, world`h, world`clock
      ensures link.Ready(world)
      ensures if ending.Some? then MayEnd(world.config, world.h, ending.value)
              else MayReceive(world.config, world.h) && world.h.loop == loop' && world.h.reader == old(world.h).reader
    {
      hide Kept, Next, Allowed, MaySend, OnSent, MayReceive;
      var failure: Option<Failure>;
      loop', failure := Settle(link, world, loop);
      if failure.Some? {
        return loop', Some(Failed(failure.value));
      }
      var now: nat;
      now, loop', failure := Beat(link, world, loop');
      if failure.Some? {
        return loop', Some(Failed(failure.value));
      }
      var sent, lastLog := SendLogs(link, world, now, loop'.lastLog);
      if !sent {
        return loop', Some(Failed(SendFailed));
      }
      loop' := loop'.(lastLog := lastLog);
      ending := Consult(link, world, loop', now);
      if ending.Some? {
        return;
      }
      ending := CheckWindow(link, world, loop', now);
    }
  }
}
