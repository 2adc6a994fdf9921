/** Keeping a session alive while an image comes down: `Pump`, and `send_logs` (src/agent.rs). */
module Pump {
  import opened Common
  import opened Protocol
  import opened World
  import opened Link

  /** The log's own clock: the pump's while it runs, the loop's otherwise. */
  function LastLog(h: History): nat { if h.duty.Downloading? then h.duty.log else h.loop.lastLog }

  /** Whether logs may go, with a reading of `now`. */
  predicate LogsMayGo(h: History, now: nat) {
    && !h.due
    && if h.duty.Downloading? then !h.duty.broken && h.duty.tick == now else h.duty.Idle? && h.timed && h.turn == now
  }

  function AfterLogs(h: History, lastLog: nat, ok: bool): Duty {
    if h.duty.Downloading? then h.duty.(log := if ok then lastLog else h.duty.log, broken := !ok)
    else if ok then h.duty else Over(Failed(SendFailed))
  }

  function LogsAt(c: Config, link: Channels, now: nat, from: nat): Logging {
    if LogsDue(c, link, now, from) then Unasked else NoneDue
  }

  lemma AskingForLogs(c: Config, h: History, lines: nat)
    requires LogsTurn(h) && !h.due && h.logging.Unasked?
    ensures lines <= MostLines(h.link) ==> Allowed(c, h, Took(lines))
    ensures Next(c, h, Took(lines)) == h.(logging := if lines > 0 then Given(lines) else NoneDue)
  {}

  lemma SendingLogs(c: Config, h: History, now: nat, lines: nat, ok: bool)
    requires LogsMayGo(h, now) && h.logging == Given(lines)
    ensures MaySend(c, h, Logs(lines))
    ensures OnSent(h, Logs(lines), ok)
         == h.(link := AfterSend(h.link, Logs(lines)), duty := AfterLogs(h, now, ok), logging := NoneDue,
               loop := if h.duty.Idle? && ok then h.loop.(lastLog := now) else h.loop)
  {}

  /**
   Send what is queued, at the pace the attached version allows: a batch of a hundred at most each
   second, or a line each quarter second.
   */
  method SendLogs(link: Link, world: World, now: nat, lastLog: nat) returns (ok: bool, lastLog': nat)
    requires link.Ready(world) && LogsMayGo(world.h, now) && lastLog == LastLog(world.h)
    requires world.h.logging == LogsAt(world.config, world.h.link, now, lastLog)
    modifies link`next, world`run, world`h, world`clock
    ensures link.Ready(world) && world.clock >= old(world.clock)
    ensures world.h == old(world.h).(
                         link := world.h.link, duty := AfterLogs(old(world.h), lastLog', ok), logging := NoneDue,
                         loop := if old(world.h).duty.Idle? then old(world.h).loop.(lastLog := lastLog')
                                 else old(world.h).loop)
    ensures
      var most, pace := if link.batches then 100 else 1, if link.batches then 1000 else 250;
      var queued := world.env.queued(|old(world.run)|);
      var lines := if queued < most then queued else most;
      if !world.config.logs || "logging" !in link.attached || now < lastLog + pace then
        ok && lastLog' == lastLog && world.run == old(world.run)
      else if queued == 0 then
        ok && lastLog' == lastLog && world.run == old(world.run) + [Took(0)]
      else
        && lastLog' == (if ok then now else lastLog)
        && world.run == old(world.run) + [Took(lines)] + [Outgoing(old(world.h).link, Logs(lines), ok)]
  {
    hide Kept, Next, Allowed, MaySend, OnSent, AfterSend, NextRef, Label;
    ok, lastLog' := true, lastLog;
    if !world.config.logs || "logging" !in link.attached {
      return;
    }
    var interval, maxLines := LOG_INTERVAL, 1;
    if link.batches {
      interval, maxLines := BATCH_INTERVAL, BATCH_LINES;
    }
    if Since(now, lastLog) < interval {
      return;
    }
    AskingForLogs(world.config, world.h, maxLines);
    var lines := world.TakeLogs(maxLines);
    AskingForLogs(world.config, old(world.h), lines);
    if lines > 0 {
      SendingLogs(world.config, world.h, now, lines, true);
      SendingLogs(world.config, world.h, now, lines, false);
      ok := link.SendLogs(world, lines);
      if ok {
        lastLog' := now;
      }
    }
  }

  /** A download in progress, with nothing wrong and nothing due, unless it is a tick. */
  predicate Going(h: History, lastHeartbeat: nat, lastLog: nat) {
    && h.duty.Downloading? && !h.duty.broken && NothingDue(h)
    && h.duty.beat == lastHeartbeat && h.duty.log == lastLog
  }

  /** ... nor a tick. */
  predicate Flowing(h: History, lastHeartbeat: nat, lastLog: nat) {
    Going(h, lastHeartbeat, lastLog) && !h.duty.waiting
  }

  /** One that cannot go on. */
  predicate Broken(h: History) { h.duty.Downloading? && h.duty.broken && NothingDue(h) }

  /** Apart from the download's own times, nothing but the channels has moved. */
  predicate OnlyPumped(before: History, after: History) {
    after == before.(link := after.link, duty := after.duty)
  }

  /** Nothing wrong, and nothing due. */
  predicate Steady(h: History) { h.duty.Downloading? && !h.duty.broken && NothingDue(h) }

  lemma Ticking(c: Config, h: History, now: nat)
    requires Steady(h)
    ensures Allowed(c, h, Clock(Tick, 0))
    ensures Next(c, h, Clock(Tick, now))
         == h.(duty := h.duty.(tick := now, waiting := false), due := Since(now, h.duty.beat) >= c.heartbeat,
               logging := LogsAt(c, h.link, now, h.duty.log))
  {}

  lemma Beating(c: Config, h: History, ok: bool)
    requires h.duty.Downloading? && !h.duty.broken && h.due
    ensures MaySend(c, h, Heartbeat)
    ensures OnSent(h, Heartbeat, ok)
         == h.(link := AfterSend(h.link, Heartbeat), due := false, logging := if ok then h.logging else NoneDue,
               duty := h.duty.(beat := if ok then h.duty.tick else h.duty.beat, broken := !ok))
  {}

  /** A heartbeat has nothing to do with the log. */
  lemma BeatingKeepsLogs(c: Config, link: Channels, now: nat, from: nat)
    ensures LogsAt(c, AfterSend(link, Heartbeat), now, from) == LogsAt(c, link, now, from)
  {}

  lemma Waiting(c: Config, h: History, why: Why, now: nat)
    requires Steady(h) && !h.duty.waiting && (why.WaitFrom? || why.WaitOver?)
    ensures Allowed(c, h, Clock(why, 0))
    ensures Next(c, h, Clock(why, now)) == if why.WaitFrom? then h.(duty := h.duty.(waiting := true)) else h
  {}

  lemma Napping(c: Config, h: History, ms: nat)
    requires Steady(h) && !h.duty.waiting && ms <= LONGEST_NAP
    ensures Allowed(c, h, Slept(ms)) && Next(c, h, Slept(ms)) == h.(duty := h.duty.(waiting := true))
  {}

  lemma Reporting(c: Config, h: History, percent: nat, ok: bool)
    requires Steady(h) && !h.duty.waiting
    ensures MaySend(c, h, Progress(false, percent))
    ensures OnSent(h, Progress(false, percent), ok)
         == h.(link := AfterSend(h.link, Progress(false, percent)), duty := h.duty.(broken := !ok))
  {}

  class Pump {
    const link: Link
    const world: World
    var lastHeartbeat: nat
    var lastLog: nat

    ghost predicate Ready()
      reads this, link, world
    {
      link.Ready(world)
    }

    /** The last heartbeat was less than an interval before `now`, or is of now. */
    predicate Fresh(now: nat)
      reads this
    {
      Since(now, lastHeartbeat) < world.config.heartbeat || lastHeartbeat == now
    }

    constructor (link: Link, world: World, now: nat)
      ensures this.link == link && this.world == world && lastHeartbeat == lastLog == now
    {
      this.link, this.world, lastHeartbeat, lastLog := link, world, now, now;
    }

    /** A heartbeat if one is due, whether or not the last was answered; then the log's turn. */
    method Tick() returns (ok: bool)
      requires Ready() && Going(world.h, lastHeartbeat, lastLog)
      modifies this, link`next, link`heartbeatRef, world`run, world`h, world`clock
      ensures Ready() && OnlyPumped(old(world.h), world.h) && world.clock >= old(world.clock)
      ensures if ok then Flowing(world.h, lastHeartbeat, lastLog) else Broken(world.h)
      ensures ok ==> Fresh(old(world.clock))
      ensures old(world.run) + [Clock(Protocol.Tick, old(world.clock))] <= world.run
    {
      hide Kept, Next, Allowed, MaySend, OnSent;
      Ticking(world.config, world.h, world.clock);
      var now := world.Now(Protocol.Tick);
      if Since(now, lastHeartbeat) >= world.config.heartbeat {
        Beating(world.config, world.h, true);
        Beating(world.config, world.h, false);
        BeatingKeepsLogs(world.config, world.h.link, now, lastLog);
        ok := link.SendHeartbeat(world);
        if !ok {
          return;
        }
        lastHeartbeat := now;
      }
      ok, lastLog := SendLogs(link, world, now, lastLog);
    }

    method Report(percent: nat) returns (ok: bool)
      requires Ready() && Flowing(world.h, lastHeartbeat, lastLog)
      modifies this, link`next, world`run, world`h, world`clock
      ensures Ready() && OnlyPumped(old(world.h), world.h) && world.clock >= old(world.clock)
      ensures if ok then Flowing(world.h, lastHeartbeat, lastLog) else Broken(world.h)
      ensures world.run == old(world.run) + [Outgoing(old(world.h).link, Progress(false, percent), ok)]
    {
      hide Kept, Next, Allowed, MaySend, OnSent;
      Reporting(world.config, world.h, percent, true);
      Reporting(world.config, world.h, percent, false);
      ok := link.Send(world, Progress(false, percent));
    }

    /** Tick, and nap for a second at most, until the time has come. */
    method Wait(ms: nat) returns (ok: bool)
      requires Ready() && Flowing(world.h, lastHeartbeat, lastLog)
      modifies this, link`next, link`heartbeatRef, world`run, world`h, world`clock
      ensures Ready() && OnlyPumped(old(world.h), world.h)
      ensures if ok then Flowing(world.h, lastHeartbeat, lastLog) else Broken(world.h)
      ensures ok ==> world.clock >= old(world.clock) + ms
    {
      hide Kept, Next, Allowed, MaySend, OnSent;
      Waiting(world.config, world.h, WaitFrom, world.clock);
      var from := world.Now(WaitFrom);
      var until := from + ms;
      while true
        invariant Ready() && OnlyPumped(old(world.h), world.h)
        invariant Going(world.h, lastHeartbeat, lastLog)
        decreases until - world.clock
      {
        ok := Tick();
        if !ok {
          return;
        }
        Waiting(world.config, world.h, WaitOver, world.clock);
        var now := world.Now(WaitOver);
        if now >= until {
          return true;
        }
        var nap := if until - now < LONGEST_NAP then until - now else LONGEST_NAP;
        Napping(world.config, world.h, nap);
        world.Sleep(nap);
      }
    }
  }
}
