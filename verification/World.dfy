/**
 Everything a session has no say in: the socket, the clock, the platform, the application.

 Each may answer anything, every time: `Env` is what each would answer at every point of the
 run. A `World` keeps the run, and takes only the events that `Protocol` allows, so a method
 that verifies against it has made a lawful run.
 */
module World {
  import opened Common
  import opened Protocol
  import Checksum
  import Updates

  datatype Inbound = Frame(message: Option<Message>) | Nothing | Dead

  function Arrival(got: Inbound): Event {
    match got
    case Frame(message) => if message.Some? then Received(message.value) else Garbled
    case Nothing => Quiet
    case Dead => Died
  }

  datatype Env = Env(
    passes: nat -> nat,                // milliseconds that pass
    sends: nat -> bool, pending: nat -> bool, reverted: nat -> bool, marks: nat -> bool,
    decisions: nat -> Decision, begins: nat -> bool, jobs: nat -> Updates.Job, controls: nat -> Control,
    queued: nat -> nat, located: nat -> bool, commands: nat -> Command, digest: Checksum.Digest)

  // ---------- Installs ----------

  /** A download begins: on the word to, after the application's, and that on a message with the update. */
  predicate BeginsDownload(run: seq<Event>, b: nat, update: Updates.Update) {
    && 3 <= b < |run| && run[b].Clock? && run[b].why.PumpFrom? && run[b - 1] == Began(true)
    && run[b - 2] == Decided(Apply) && Offers(run[b - 3], update)
  }

  /** An install: what it is of, and where in the run its download began. */
  datatype Undertaking = Undertaking(update: Updates.Update, began: nat)

  ghost predicate Underway(run: seq<Event>, u: Undertaking) {
    BeginsDownload(run, u.began, u.update) && forall m: nat :: u.began < m < |run| ==> !run[m].Installed?
  }

  /**
   What an install may come to, of that update from that server: success only with the image in
   place, and failure only if the server or the flash was at fault, or something could not be sent.
   */
  ghost predicate Deserved(before: seq<Event>, ok: bool, u: Undertaking, env: Env) {
    var job := env.jobs(u.began + 1);
    if ok then exists image: Updates.Image :: image.update == u.update && Updates.InPlace(image, job, env.digest)
    else (before != [] && Fails(before[|before| - 1])) || !Updates.Installable(u.update, job, env.digest)
  }

  ghost predicate Accounted(run: seq<Event>, i: nat, env: Env) {
    && i < |run| && run[i].Installed?
    && exists u :: Underway(run[..i], u) && Deserved(run[..i], run[i].ok, u, env)
  }

  /**
   A lawful run, and where it has come to. At most one of the frames `given` is gone for each
   arrival; and every install that has ended did so as it should have.
   */
  ghost predicate Kept(
    c: Config, run: seq<Event>, h: History, left: nat, given: nat, started: Option<Undertaking>, env: Env)
  {
    && h == Fold(c, run) && Lawful(c, run)
    && given <= left + Arrivals(run)
    && (started.Some? ==> Underway(run, started.value))
    && (forall i: nat :: i < |run| && run[i].Installed? ==> Accounted(run, i, env))
  }

  lemma KeptFromTheStart(c: Config, left: nat, env: Env)
    ensures Kept(c, [], Start(c), left, left, None, env)
  {}

  lemma StillUnderway(run: seq<Event>, e: Event, u: Undertaking)
    requires Underway(run, u) && !e.Installed?
    ensures Underway(run + [e], u)
  {
    var all := run + [e];
    forall m: nat | u.began < m < |all| ensures !all[m].Installed? {
      assert m < |run| ==> all[m] == run[m];
    }
  }

  lemma StillAccounted(run: seq<Event>, e: Event, i: nat, env: Env)
    requires Accounted(run, i, env)
    ensures Accounted(run + [e], i, env)
  {
    hide Underway, Deserved;
    assert (run + [e])[..i] == run[..i];
  }

  lemma OneMoreIsKept(
    c: Config, run: seq<Event>, h: History, left: nat, given: nat, started: Option<Undertaking>, env: Env, e: Event)
    requires Kept(c, run, h, left, given, started, env) && Allowed(c, h, e)
    requires e.Installed? ==> started.Some? && Deserved(run, e.ok, started.value, env)
    ensures
      var started' := if e.Installed? then None else started;
      && Kept(c, run + [e], Next(c, h, e), left, given, started', env)
      && (IsArrival(e) && left > 0 ==> Kept(c, run + [e], Next(c, h, e), left - 1, given, started', env))
  {
    hide Next, Allowed, Fold, Lawful, Underway, Deserved, Accounted;
    OneMore(c, run, e);
    var all := run + [e];
    assert all[..|run|] == run;
    if started.Some? && !e.Installed? {
      StillUnderway(run, e, started.value);
    }
    forall i: nat | i < |all| && all[i].Installed? ensures Accounted(all, i, env) {
      if i < |run| {
        assert run[i] == all[i];
        StillAccounted(run, e, i, env);
      } else {
        NowAccounted(run, e, started.value, env);
      }
    }
  }

  lemma NowAccounted(run: seq<Event>, e: Event, u: Undertaking, env: Env)
    requires Underway(run, u) && e.Installed? && Deserved(run, e.ok, u, env)
    ensures Accounted(run + [e], |run|, env)
  {
    hide Underway, Deserved;
    assert (run + [e])[..|run|] == run;
  }

  lemma KeptMeans(
    c: Config, run: seq<Event>, h: History, left: nat, given: nat, started: Option<Undertaking>, env: Env)
    requires Kept(c, run, h, left, given, started, env)
    ensures h == Fold(c, run) && Lawful(c, run) && given <= left + Arrivals(run)
    ensures forall i: nat :: i < |run| && run[i].Installed? ==> Accounted(run, i, env)
  {}

  lemma Undertaken(
    c: Config, run: seq<Event>, h: History, left: nat, given: nat, started: Option<Undertaking>, env: Env,
    update: Updates.Update)
    requires Kept(c, run, h, left, given, started, env)
    requires run != [] && BeginsDownload(run, |run| - 1, update)
    ensures Kept(c, run, h, left, given, Some(Undertaking(update, |run| - 1)), env)
  {}

  class World {
    const env: Env
    const config: Config
    ghost const given: nat             // the frames there were at the start
    var inbox: seq<Inbound>
    var clock: nat
    var run: seq<Event>
    ghost var h: History
    ghost var started: Option<Undertaking>

    ghost predicate Valid()
      reads this
    {
      Kept(config, run, h, |inbox|, given, started, env)
    }

    constructor (env: Env, config: Config, inbox: seq<Inbound>)
      ensures Valid() && h == Start(config) && run == [] && given == |inbox|
      ensures this.env == env && this.config == config && this.inbox == inbox
    {
      hide Kept;
      this.env, this.config, this.given, this.inbox, clock, run := env, config, |inbox|, inbox, 0, [];
      h, started := Start(config), None;
      KeptFromTheStart(config, |inbox|, env);
    }

    method Record(e: Event)
      requires Valid() && Allowed(config, h, e) && !e.Installed?
      modifies this`run, this`h, this`clock
      ensures Valid() && h == Next(config, old(h), e) && run == old(run) + [e]
      ensures clock >= old(clock)
    {
      hide Next, Allowed, Kept;
      OneMoreIsKept(config, run, h, |inbox|, given, started, env, e);
      clock := clock + env.passes(|run|);
      run, h := run + [e], Next(config, h, e);
    }

    method Now(why: Why) returns (now: nat)
      requires Valid() && Allowed(config, h, Clock(why, 0))
      modifies this`run, this`h, this`clock
      ensures Valid() && h == Next(config, old(h), Clock(why, now))
      ensures now == old(clock) <= clock && run == old(run) + [Clock(why, now)]
    {
      hide Next, Allowed, Kept;
      now := clock;
      AnyAnswerIsAllowed(config, h, Clock(why, 0), Clock(why, now));
      Record(Clock(why, now));
    }

    method Send(content: Content, joinRef: Option<string>, ref: string) returns (ok: bool)
      requires Valid() && Allowed(config, h, Sent(content, joinRef, ref, true))
      modifies this`run, this`h, this`clock
      ensures Valid() && h == Next(config, old(h), Sent(content, joinRef, ref, ok))
      ensures run == old(run) + [Sent(content, joinRef, ref, ok)]
      ensures clock >= old(clock)
    {
      hide Next, Allowed, Kept;
      ok := env.sends(|run|);
      AnyAnswerIsAllowed(config, h, Sent(content, joinRef, ref, true), Sent(content, joinRef, ref, ok));
      Record(Sent(content, joinRef, ref, ok));
    }

    method PendingVerify() returns (yes: bool)
      requires Valid() && Allowed(config, h, Pending(true))
      modifies this`run, this`h, this`clock
      ensures Valid() && h == Next(config, old(h), Pending(yes))
    {
      hide Next, Allowed, Kept;
      yes := env.pending(|run|);
      AnyAnswerIsAllowed(config, h, Pending(true), Pending(yes));
      Record(Pending(yes));
    }

    method AutoReverted() returns (yes: bool)
      requires Valid() && Allowed(config, h, Reverted(true))
      modifies this`run, this`h, this`clock
      ensures Valid() && h == Next(config, old(h), Reverted(yes))
    {
      hide Next, Allowed, Kept;
      yes := env.reverted(|run|);
      AnyAnswerIsAllowed(config, h, Reverted(true), Reverted(yes));
      Record(Reverted(yes));
    }

    method MarkValid() returns (ok: bool)
      requires Valid() && Allowed(config, h, Marked(true))
      modifies this`run, this`h, this`clock
      ensures Valid() && h == Next(config, old(h), Marked(ok))
    {
      hide Next, Allowed, Kept;
      ok := env.marks(|run|);
      AnyAnswerIsAllowed(config, h, Marked(true), Marked(ok));
      Record(Marked(ok));
    }

    /** The next frame. A socket that has nothing more to give has died. */
    method Receive() returns (got: Inbound)
      requires Valid() && Allowed(config, h, Quiet)
      modifies this`run, this`h, this`clock, this`inbox
      ensures Valid()
      ensures h == Next(config, old(h), Arrival(got))
      ensures !got.Dead? ==> |inbox| < |old(inbox)|
    {
      hide Next, Allowed, Kept;
      got := if inbox == [] then Dead else inbox[0];
      var e := Arrival(got);
      AnyAnswerIsAllowed(config, h, Quiet, e);
      OneMoreIsKept(config, run, h, |inbox|, given, started, env, e);
      inbox := if inbox == [] then [] else inbox[1..];
      clock := clock + env.passes(|run|);
      run, h := run + [e], Next(config, h, e);
    }

    method Decide() returns (decision: Decision)
      requires Valid() && Allowed(config, h, Decided(Apply))
      modifies this`run, this`h, this`clock
      ensures Valid() && h == Next(config, old(h), Decided(decision))
    {
      hide Next, Allowed, Kept;
      decision := env.decisions(|run|);
      AnyAnswerIsAllowed(config, h, Decided(Apply), Decided(decision));
      Record(Decided(decision));
    }

    method Begin() returns (ok: bool)
      requires Valid() && Allowed(config, h, Began(true))
      modifies this`run, this`h, this`clock
      ensures Valid() && h == Next(config, old(h), Began(ok)) && run == old(run) + [Began(ok)]
    {
      hide Next, Allowed, Kept;
      ok := env.begins(|run|);
      AnyAnswerIsAllowed(config, h, Began(true), Began(ok));
      Record(Began(ok));
    }

    /** The clock, as a download begins; what it is of is what was decided on. */
    method BeginDownload(ghost update: Updates.Update) returns (now: nat)
      requires Valid() && Allowed(config, h, Clock(PumpFrom, 0))
      requires |run| >= 3 && run[|run| - 1] == Began(true)
      requires run[|run| - 2] == Decided(Apply) && Offers(run[|run| - 3], update)
      modifies this`run, this`h, this`clock, this`started
      ensures Valid() && h == Next(config, old(h), Clock(PumpFrom, now))
      ensures now == old(clock) <= clock
      ensures started == Some(Undertaking(update, |run| - 1)) && |run| == |old(run)| + 1
    {
      hide Next, Allowed, Kept;
      now := clock;
      AnyAnswerIsAllowed(config, h, Clock(PumpFrom, 0), Clock(PumpFrom, now));
      Record(Clock(PumpFrom, now));
      Undertaken(config, run, h, |inbox|, given, started, env, update);
      started := Some(Undertaking(update, |run| - 1));
    }

    /** An install has ended as it should have. */
    method InstallEnds(ok: bool)
      requires Valid() && Allowed(config, h, Installed(ok))
      requires started.Some? && Deserved(run, ok, started.value, env)
      modifies this`run, this`h, this`clock, this`started
      ensures Valid() && h == Next(config, old(h), Installed(ok))
    {
      hide Next, Allowed, Kept, Deserved;
      OneMoreIsKept(config, run, h, |inbox|, given, started, env, Installed(ok));
      clock, started := clock + env.passes(|run|), None;
      run, h := run + [Installed(ok)], Next(config, h, Installed(ok));
    }

    method AskControl() returns (control: Control)
      requires Valid() && Allowed(config, h, Controlled(Stay))
      modifies this`run, this`h, this`clock
      ensures Valid() && h == Next(config, old(h), Controlled(control))
    {
      hide Next, Allowed, Kept;
      control := env.controls(|run|);
      AnyAnswerIsAllowed(config, h, Controlled(Stay), Controlled(control));
      Record(Controlled(control));
    }

    method LogIsEmpty() returns (yes: bool)
      requires Valid() && Allowed(config, h, Emptied(true))
      modifies this`run, this`h, this`clock
      ensures Valid() && h == Next(config, old(h), Emptied(yes))
    {
      hide Next, Allowed, Kept;
      yes := env.queued(|run|) == 0;
      AnyAnswerIsAllowed(config, h, Emptied(true), Emptied(yes));
      Record(Emptied(yes));
    }

    /** As many lines as are waiting, up to so many. */
    method TakeLogs(most: nat) returns (lines: nat)
      requires Valid() && Allowed(config, h, Took(most))
      modifies this`run, this`h, this`clock
      ensures Valid() && h == Next(config, old(h), Took(lines)) && run == old(run) + [Took(lines)]
      ensures clock >= old(clock)
      ensures lines == var queued := env.queued(|old(run)|); if queued < most then queued else most
    {
      hide Next, Allowed, Kept;
      var queued := env.queued(|run|);
      lines := if queued < most then queued else most;
      FewerMayBeTaken(config, h, most, lines);
      Record(Took(lines));
    }

    method Locate() returns (found: bool)
      requires Valid() && Allowed(config, h, Located(true))
      modifies this`run, this`h, this`clock
      ensures Valid() && h == Next(config, old(h), Located(found))
    {
      hide Next, Allowed, Kept;
      found := env.located(|run|);
      AnyAnswerIsAllowed(config, h, Located(true), Located(found));
      Record(Located(found));
    }

    method RunCommand(line: string) returns (command: Command)
      requires Valid() && Allowed(config, h, Ran(line, Restarts))
      modifies this`run, this`h, this`clock
      ensures Valid() && h == Next(config, old(h), Ran(line, command))
    {
      hide Next, Allowed, Kept;
      command := env.commands(|run|);
      AnyAnswerIsAllowed(config, h, Ran(line, Restarts), Ran(line, command));
      Record(Ran(line, command));
    }

    method Sleep(ms: nat)
      requires Valid() && Allowed(config, h, Slept(ms))
      modifies this`run, this`h, this`clock
      ensures Valid() && h == Next(config, old(h), Slept(ms))
      ensures clock >= old(clock) + ms
    {
      hide Next, Allowed, Kept;
      clock := clock + ms;
      Record(Slept(ms));
    }

    method Restart()
      requires Valid() && Allowed(config, h, Restarted)
      modifies this`run, this`h, this`clock
      ensures Valid() && h == Next(config, old(h), Restarted)
    {
      hide Next, Allowed, Kept;
      Record(Restarted);
    }
  }
}
