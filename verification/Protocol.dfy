/**
 What a session with the platform is: an automaton over everything a session does.

 A session is seen as the events between the agent and everything outside it: clock
 readings, messages, what the platform and the application answer. `Next` is what has been
 settled by the events so far, and `Allowed` is which event may follow. `Link` and `Session`
 show that the code only ever makes lawful runs; `SessionTheorems` says what lawful runs
 promise.
 */
module Protocol {
  import opened Common
  import opened Decimal
  import Console
  import Updates

  const U64: nat := 0x1_0000_0000_0000_0000

  const INVITATION_WAIT: nat := 5_000
  const LOG_INTERVAL: nat := 250
  const BATCH_INTERVAL: nat := 1_000
  const BATCH_LINES: nat := 100
  const FAREWELL_PAUSE: nat := 250
  const LONGEST_NAP: nat := 1_000

  const PROMPT: string := "> "
  const REBOOTING: string := "rebooting\r\n"
  const NO_FILES: string := "\r\nfile transfer is not supported on this device\r\n"

  // ---------- Messages ----------

  /** `Device` stands for every topic that is none of the other three. */
  datatype Topic = Device | Extensions | Console | Phoenix

  /** A reply's body: as an update, if it reads as one, and as a list of extensions. */
  datatype Response = Response(update: Option<Updates.Update>, attached: seq<string>)

  datatype Body =
    | Reply(ok: bool, response: Option<Response>)
    | Update(update: Option<Updates.Update>)     // `None` if it does not parse
    | Reboot
    | Invite(batches: bool)                      // whether logging 0.1.0 is on offer
    | Close
    | Down(data: Option<string>)
    | Restart
    | File
    | LocationRequest
    | HealthCheck
    | Other

  datatype Message = Message(topic: Topic, ref: Option<string>, body: Body)

  datatype Decision = Apply | Ignore(reason: string) | Reschedule(delay: nat, reason: string)

  datatype Status = Ignored(reason: string) | Rescheduled(delay: nat, reason: string) | Completed | FailedUpdate

  datatype Content =
    | Join(validated: bool, reverted: bool, downloading: Option<string>)
    | Validated
    | Heartbeat
    | Progress(updating: bool, percent: nat)
    | Told(status: Status)
    | Rebooting
    | ExtensionsJoin
    | Confirm(key: string)
    | Location
    | Health
    | Logs(lines: nat)
    | ConsoleJoin
    | Typed(text: string)

  // ---------- Events ----------

  /** What a clock reading is for. */
  datatype Why = LogsFrom | BeatsFrom | Started | JoinedAt | Invitation | Turn | PumpFrom | Tick | WaitFrom | WaitOver

  datatype Control = Stay | ReportHealth | Leave

  datatype Command = Restarts | Says(output: string)

  datatype Event =
    | Clock(why: Why, now: nat)
    | Pending(yes: bool)
    | Reverted(yes: bool)
    | Marked(ok: bool)
    | Sent(content: Content, joinRef: Option<string>, ref: string, ok: bool)
    | Received(message: Message)
    | Garbled                          // a frame that does not decode
    | Quiet                            // nothing came before the timeout
    | Died                             // the socket did
    | Decided(decision: Decision)
    | Began(ok: bool)                  // a stream and a slot to install with
    | Installed(ok: bool)
    | Controlled(control: Control)
    | Emptied(yes: bool)               // whether the log queue is empty
    | Took(lines: nat)                 // log lines to send, off the queue
    | Located(found: bool)
    | Ran(line: string, command: Command)
    | Slept(ms: nat)
    | Restarted

  datatype Failure = SendFailed | MarkFailed | NoReply | NoJoin

  datatype Ending = Finished | RebootingNow | Reconnect | Failed(failure: Failure)

  // ---------- What has been settled ----------

  datatype Window = Window(linger: nat, limit: nat)

  /** The agent's settings, times in milliseconds; and which of its optional parts it was given. */
  datatype Config = Config(
    heartbeat: nat, window: Option<Window>, step: nat, control: bool,
    extensions: bool, health: bool, location: bool, logs: bool, console: bool,
    typed: Console.Reader)             // what an earlier session left half typed

  /** The channels, as the link keeps them. */
  datatype Channels = Channels(
    next: nat,                         // the last ref given out
    joinRef: Option<string>, joined: bool,
    heartbeat: Option<string>,         // the heartbeat not answered yet
    extensionsRef: Option<string>, extensionsUp: bool, attached: seq<string>,
    invited: bool, batches: bool,
    consoleRef: Option<string>)

  /** The run loop's own variables. */
  datatype Loop = Loop(
    confirmed: bool, extensionsJoined: bool, consoleJoined: bool,
    lastLog: nat, lastHeartbeat: nat, started: nat, joinedAt: Option<nat>, healthAnswered: bool)

  /** The log's turn, once the clock says it is: to be asked for lines, and then to send them. */
  datatype Logging = NoneDue | Unasked | Given(lines: nat)

  /** What must happen next; `Idle` when it is the loop's to choose. */
  datatype Duty =
    | Opening(pending: Option<bool>, reverted: Option<bool>)
    | Timing(why: Why)
    | Idle
    | Checking
    | Confirming(marking: bool)
    | Sending(content: Content, after: Duty, handling: bool)
    | Locating
    | Deciding(update: Updates.Update)
    | Applying(update: Updates.Update)
    | Begun
    | Downloading(beat: nat, log: nat, tick: nat, broken: bool, waiting: bool)   // waiting: for a tick
    | Rebeat
    | Pausing
    | Restarting
    | Answering(lines: seq<string>, reply: string)
    | Leaving
    | Over(ending: Ending)

  datatype History = History(
    link: Channels, loop: Loop, reader: Console.Reader, duty: Duty,
    turn: nat, timed: bool,            // this turn's clock reading, once it is read
    due: bool,                         // a heartbeat is, at the last reading
    logging: Logging,                  // and after it, the log
    looked: bool, overdue: bool,       // this turn's look at the clock for an invitation: taken, and too late
    control: Option<Control>, emptied: Option<bool>)

  const NO_CHANNELS := Channels(0, None, false, None, None, false, [], false, false, None)
  const NO_LOOP := Loop(false, false, false, 0, 0, 0, None, false)

  function Start(c: Config): History {
    History(NO_CHANNELS, NO_LOOP, c.typed, Opening(None, None), 0, false, false, NoneDue, false, false, None, None)
  }

  function Since(now: nat, from: nat): nat { if now >= from then now - from else 0 }

  // ---------- Sending ----------

  /** The log has a turn in the loop's turns, and in a download. */
  predicate LogsTurn(h: History) { (h.duty.Idle? && h.timed) || (h.duty.Downloading? && !h.duty.broken) }

  /** No heartbeat, and no log. */
  predicate NothingDue(h: History) { !h.due && h.logging.NoneDue? }

  function NextRef(link: Channels): string { Unsigned((link.next + 1) % U64) }

  /** The join a message belongs to: a join is its own, and a heartbeat has none. */
  function Label(link: Channels, content: Content, ref: string): Option<string> {
    match content
    case Heartbeat => None
    case Join(_, _, _) => Some(ref)
    case ExtensionsJoin => Some(ref)
    case ConsoleJoin => Some(ref)
    case Confirm(_) => link.extensionsRef
    case Location => link.extensionsRef
    case Health => link.extensionsRef
    case Logs(_) => link.extensionsRef
    case Typed(_) => link.consoleRef
    case _ => link.joinRef
  }

  /** Sending it, with the ref and the label it should have. */
  function Outgoing(link: Channels, content: Content, ok: bool): Event {
    Sent(content, Label(link, content, NextRef(link)), NextRef(link), ok)
  }

  function AfterSend(link: Channels, content: Content): Channels {
    var ref, link := Some(NextRef(link)), link.(next := (link.next + 1) % U64);
    match content
    case Join(_, _, _) => link.(joinRef := ref, joined := false)
    case Heartbeat => link.(heartbeat := ref)
    case ExtensionsJoin => link.(extensionsRef := ref)
    case ConsoleJoin => link.(consoleRef := ref)
    case _ => link
  }

  predicate Attached(link: Channels, key: string) { key in link.attached }

  predicate Batched(link: Channels) { Attached(link, "logging") && link.batches }

  /** Once attached, a batch a second or a line a quarter second. */
  predicate LogsDue(c: Config, link: Channels, now: nat, from: nat) {
    && c.logs && Attached(link, "logging")
    && Since(now, from) >= (if Batched(link) then BATCH_INTERVAL else LOG_INTERVAL)
  }

  function MostLines(link: Channels): nat { if Batched(link) then BATCH_LINES else 1 }

  /** Time to join the extensions channel: invited, or left waiting for too long. */
  predicate JoinsExtensions(c: Config, h: History) {
    && h.link.joined && h.loop.confirmed && c.extensions && !h.loop.extensionsJoined
    && (h.link.invited || h.overdue)
  }

  predicate JoinsConsole(c: Config, h: History) {
    h.link.joined && h.loop.confirmed && c.console && !h.loop.consoleJoined
  }

  /** Failing to answer a message ends the session quietly; failing to say anything else is an error. */
  function Unsent(handling: bool): Duty { if handling then Leaving else Over(Failed(SendFailed)) }

  predicate MaySend(c: Config, h: History, content: Content) {
    if h.due then
      content.Heartbeat? && (h.duty.Downloading? || (h.duty.Idle? && h.link.heartbeat == None))
    else if !h.logging.NoneDue? then
      LogsTurn(h) && h.logging.Given? && content == Logs(h.logging.lines)
    else
      match h.duty
      case Opening(pending, reverted) =>
        pending.Some? && reverted.Some? && content == Join(!pending.value, reverted.value, None)
      case Confirming(marking) => !marking && content.Validated?
      case Idle =>
        && !h.timed
        && ((content.ExtensionsJoin? && JoinsExtensions(c, h)) || (content.ConsoleJoin? && JoinsConsole(c, h)))
      case Downloading(_, _, _, broken, waiting) => !broken && !waiting && content.Progress? && !content.updating
      case Sending(what, _, _) => content == what
      case _ => false
  }

  function AfterIdleSend(h: History, content: Content): Loop {
    match content
    case Heartbeat => h.loop.(lastHeartbeat := h.turn)
    case ExtensionsJoin => h.loop.(extensionsJoined := true)
    case ConsoleJoin => h.loop.(consoleJoined := true)
    case _ => h.loop.(lastLog := h.turn)
  }

  function DutyAfterSaying(h: History, content: Content, ok: bool): Duty {
    match h.duty
    case Downloading(_, _, tick, _, _) =>
      if !ok then h.duty.(broken := true)
      else if content.Heartbeat? then h.duty.(beat := tick)
      else if content.Logs? then h.duty.(log := tick)
      else h.duty
    case Sending(_, after, handling) => if ok then after else Unsent(handling)
    case Opening(_, _) => if ok then Timing(LogsFrom) else Over(Failed(SendFailed))
    case _ => if ok then Idle else Over(Failed(SendFailed))
  }

  function LoopAfterSaying(h: History, content: Content, ok: bool): Loop {
    if !ok then h.loop else
      match h.duty
      case Idle => AfterIdleSend(h, content)
      case Confirming(_) => h.loop.(confirmed := true)
      case _ => h.loop
  }

  /** A heartbeat leaves the log its turn, if it went. */
  function OnSent(h: History, content: Content, ok: bool): History {
    h.(link := AfterSend(h.link, content),
       due := false,
       logging := if ok && content.Heartbeat? then h.logging else NoneDue,
       duty := DutyAfterSaying(h, content, ok),
       loop := LoopAfterSaying(h, content, ok))
  }

  // ---------- The clock ----------

  predicate MayRead(c: Config, h: History, why: Why) {
    && NothingDue(h)
    && match why
       case LogsFrom => h.duty == Timing(LogsFrom)
       case BeatsFrom => h.duty == Timing(BeatsFrom) || h.duty.Rebeat?
       case Started => h.duty == Timing(Started)
       case JoinedAt => h.duty.Idle? && !h.timed && h.link.joined && !h.loop.confirmed
       case Invitation => h.duty.Idle? && !h.timed && h.loop.joinedAt.Some? && !h.looked
       case Turn =>
         && h.duty.Idle? && !h.timed && (h.link.joined ==> h.loop.confirmed)
         && (h.loop.joinedAt.Some? ==> h.looked)
         && !JoinsExtensions(c, h) && !JoinsConsole(c, h)
       case PumpFrom => h.duty.Begun?
       case Tick => h.duty.Downloading? && !h.duty.broken
       case _ => h.duty.Downloading? && !h.duty.broken && !h.duty.waiting
  }

  function LoopAfterReading(loop: Loop, why: Why, now: nat): Loop {
    match why
    case LogsFrom => loop.(lastLog := now)
    case BeatsFrom => loop.(lastHeartbeat := now)
    case Started => loop.(started := now)
    case JoinedAt => loop.(joinedAt := Some(now))
    case _ => loop
  }

  /** A download that begins to wait, or naps, ticks before anything else. */
  function AfterPausing(duty: Duty): Duty { if duty.Downloading? then duty.(waiting := true) else duty }

  function DutyAfterReading(duty: Duty, why: Why, now: nat): Duty {
    match why
    case LogsFrom => Timing(BeatsFrom)
    case BeatsFrom => if duty.Rebeat? then Idle else Timing(Started)
    case Started => Idle
    case JoinedAt => Checking
    case PumpFrom => Downloading(now, now, now, false, false)
    case Tick => if duty.Downloading? then duty.(tick := now, waiting := false) else duty
    case WaitFrom => AfterPausing(duty)
    case _ => duty
  }

  /** What a reading is counted from, for the heartbeat and for the log: the loop's times, or a download's. */
  function BeatFrom(h: History, why: Why): Option<nat> {
    if why.Turn? then Some(h.loop.lastHeartbeat)
    else if why.Tick? && h.duty.Downloading? then Some(h.duty.beat)
    else None
  }

  function LogFrom(h: History, why: Why): Option<nat> {
    if why.Turn? then Some(h.loop.lastLog)
    else if why.Tick? && h.duty.Downloading? then Some(h.duty.log)
    else None
  }

  function OnClock(c: Config, h: History, why: Why, now: nat): History {
    var beat, log := BeatFrom(h, why), LogFrom(h, why);
    h.(loop := LoopAfterReading(h.loop, why, now),
       duty := DutyAfterReading(h.duty, why, now),
       turn := if why.Turn? then now else h.turn,
       timed := h.timed || why.Turn?,
       due := if beat.Some? then Since(now, beat.value) >= c.heartbeat else h.due,
       logging := if log.None? then h.logging
                  else if LogsDue(c, h.link, now, log.value) then Unasked else NoneDue,
       looked := h.looked || why.Invitation?,
       overdue := if why.Invitation?
                  then h.loop.joinedAt.Some? && Since(now, h.loop.joinedAt.value) >= INVITATION_WAIT
                  else h.overdue)
  }

  // ---------- Leaving ----------

  predicate LimitReached(c: Config, h: History) {
    c.window.Some? && Since(h.turn, h.loop.started) >= c.window.value.limit
  }

  predicate Lingered(c: Config, h: History) {
    c.window.Some? && h.loop.joinedAt.Some? && Since(h.turn, h.loop.joinedAt.value) >= c.window.value.linger
  }

  /** Nothing to wait for but, it may be, the log. */
  predicate AllButLogs(c: Config, h: History) {
    && (!c.extensions || h.link.extensionsUp)
    && (!c.health || !Attached(h.link, "health") || h.loop.healthAnswered)
  }

  predicate LogsCount(c: Config, h: History) { Attached(h.link, "logging") && c.logs }

  predicate NothingOutstanding(c: Config, h: History) {
    AllButLogs(c, h) && (LogsCount(c, h) ==> h.emptied == Some(true))
  }

  /** The queue was seen not to be empty, or there was no need to look. */
  predicate StillWaiting(c: Config, h: History) {
    AllButLogs(c, h) ==> LogsCount(c, h) && h.emptied == Some(false)
  }

  /** This turn's clock has been read, and what it called for done. */
  predicate UpToDate(h: History) { h.duty.Idle? && h.timed && NothingDue(h) }

  predicate MayReceive(c: Config, h: History) {
    && UpToDate(h)
    && (c.control ==> h.control.Some? && h.control != Some(Leave))
    && !LimitReached(c, h)
    && (Lingered(c, h) ==> StillWaiting(c, h))
  }

  predicate MayEnd(c: Config, h: History, ending: Ending) {
    match ending
    case Finished =>
      && UpToDate(h)
      && (h.control == Some(Leave)
          || (LimitReached(c, h) && h.link.joined)
          || (Lingered(c, h) && NothingOutstanding(c, h)))
    case Failed(NoJoin) => UpToDate(h) && LimitReached(c, h) && !h.link.joined
    case Failed(NoReply) => h.duty.Idle? && h.due && h.link.heartbeat.Some?
    case Reconnect => h.duty.Leaving?
    case _ => h.duty == Over(ending)
  }

  // ---------- Messages ----------

  /** What a message changes on the channels. */
  function Heard(link: Channels, m: Message): Channels {
    match m.topic
    case Extensions =>
      if m.body.Reply? && link.extensionsRef == m.ref
      then link.(extensionsUp := true,
                 attached := if m.body.response.Some? then m.body.response.value.attached else [])
      else link
    case Console => link
    case Phoenix =>
      if m.body.Reply? && m.ref.Some? && m.ref == link.heartbeat then link.(heartbeat := None) else link
    case Device =>
      match m.body
      case Reply(ok, _) => if ok && m.ref.Some? && m.ref == link.joinRef then link.(joined := true) else link
      case Invite(batches) => link.(invited := true, batches := batches)
      case Close => link.(joined := false, extensionsUp := false, attached := [], invited := false, batches := false)
      case _ => link
  }

  function SendAll(contents: seq<Content>, handling: bool): Duty
    decreases |contents|
  {
    if contents == [] then Idle else Sending(contents[0], SendAll(contents[1..], handling), handling)
  }

  /** What confirms that extensions are attached. */
  function Confirmations(keys: seq<string>): seq<Content> {
    seq(|keys|, i requires 0 <= i < |keys| => Confirm(keys[i]))
  }

  function Consider(update: Option<Updates.Update>): Duty {
    if update.None? then Leaving else if update.value.Actionable() then Deciding(update.value) else Idle
  }

  const HALT: Duty := Sending(Rebooting, Restarting, false)

  const FAREWELL: Duty :=
    Sending(Progress(true, 100), Sending(Told(Completed), Sending(Rebooting, Pausing, false), false), false)

  const UPDATE_FAILED: Duty := Sending(Told(FailedUpdate), Rebeat, false)

  function Typing(text: string): Duty { Sending(Typed(text), Idle, false) }

  /** Lines still to run, and what is to be written with the next answer. */
  function ToAnswer(lines: seq<string>, reply: string): Duty {
    if lines != [] then Answering(lines, reply) else if reply == "" then Idle else Typing(reply)
  }

  /** What a message calls for. */
  function Calls(c: Config, link: Channels, reader: Console.Reader, m: Message): Duty {
    match m.topic
    case Extensions =>
      (match m.body
       case Reply(_, response) =>
         if link.extensionsRef == m.ref then SendAll(Confirmations(Heard(link, m).attached), true) else Idle
       case LocationRequest => if Attached(link, "geo") && c.location then Locating else Idle
       case HealthCheck => if Attached(link, "health") && c.health then SendAll([Health], false) else Idle
       case _ => Idle)
    case Console =>
      (match m.body
       case Reply(_, _) => if link.consoleRef == m.ref then Sending(Typed(PROMPT), Idle, true) else Idle
       case Down(data) =>
         if data.Some? && c.console then
           var (_, echo, lines) := Console.Feed(reader, data.value); ToAnswer(lines, echo)
         else Idle
       case Restart => Typing("\r\n" + PROMPT)
       case File => Sending(Typed(NO_FILES), Idle, true)
       case _ => Idle)
    case Phoenix => Idle
    case Device =>
      (match m.body
       case Reply(ok, response) =>
         if link.joinRef != m.ref then Idle
         else if !ok || m.ref.None? then Leaving
         else if response.None? then Idle
         else Consider(response.value.update)
       case Update(update) => Consider(update)
       case Reboot => HALT
       case Close => Leaving
       case _ => Idle)
  }

  function ReaderAfter(c: Config, reader: Console.Reader, m: Message): Console.Reader {
    if !c.console || !m.topic.Console? then reader
    else if m.body.Restart? then Console.FRESH
    else if m.body.Down? && m.body.data.Some? then Console.Feed(reader, m.body.data.value).0
    else reader
  }

  /** A health check counts as answered once there was one, with health attached. */
  predicate AsksHealth(link: Channels, m: Message) {
    m.topic.Extensions? && m.body.HealthCheck? && Attached(link, "health")
  }

  function TurnOver(h: History): History {
    h.(timed := false, looked := false, overdue := false, control := None, emptied := None)
  }

  function OnReceived(c: Config, h: History, m: Message): History {
    TurnOver(h).(
      link := Heard(h.link, m), duty := Calls(c, h.link, h.reader, m), reader := ReaderAfter(c, h.reader, m),
      loop := if AsksHealth(h.link, m) then h.loop.(healthAnswered := true) else h.loop)
  }

  // ---------- Everything else, and all of it ----------

  function Answer(output: string): string { (if output == "" then "" else output + "\r\n") + PROMPT }

  function AfterRunning(duty: Duty, command: Command): Duty {
    if !duty.Answering? || duty.lines == [] then duty else
      match command
      case Restarts => Sending(Typed(duty.reply + REBOOTING), Pausing, false)
      case Says(output) => Sending(Typed(duty.reply + Answer(output)), ToAnswer(duty.lines[1..], ""), false)
  }

  function AfterDeciding(duty: Duty, d: Decision): Duty {
    if !duty.Deciding? then duty else
      match d
      case Apply => Applying(duty.update)
      case Ignore(reason) => Sending(Told(Ignored(reason)), Idle, true)
      case Reschedule(delay, reason) => Sending(Told(Rescheduled(delay, reason)), Idle, true)
  }

  /** What is owed after an answer, whoever gave it. */
  function OwedAfter(c: Config, h: History, e: Event): Duty {
    match e
    case Pending(yes) => if h.duty.Opening? then h.duty.(pending := Some(yes)) else Confirming(yes)
    case Reverted(yes) => if h.duty.Opening? then h.duty.(reverted := Some(yes)) else h.duty
    case Marked(ok) => if ok then Confirming(false) else Over(Failed(MarkFailed))
    case Decided(d) => AfterDeciding(h.duty, d)
    case Began(ok) => if ok then Begun else UPDATE_FAILED
    case Installed(ok) => if ok then FAREWELL else UPDATE_FAILED
    case Controlled(control) =>
      if control.ReportHealth? && Attached(h.link, "health") && c.health then SendAll([Health], false) else h.duty
    case Located(found) => if found then SendAll([Location], false) else Idle
    case Ran(_, command) => AfterRunning(h.duty, command)
    case Slept(_) => if h.duty.Pausing? then Restarting else AfterPausing(h.duty)
    case Restarted => Over(RebootingNow)
    case _ => h.duty
  }

  function Next(c: Config, h: History, e: Event): History {
    match e
    case Clock(why, now) => OnClock(c, h, why, now)
    case Sent(content, _, _, ok) => OnSent(h, content, ok)
    case Received(m) => OnReceived(c, h, m)
    case Garbled => TurnOver(h).(duty := Leaving)
    case Quiet => TurnOver(h)
    case Died => TurnOver(h).(duty := Leaving)
    case _ =>
      h.(duty := OwedAfter(c, h, e),
         control := if e.Controlled? then Some(e.control) else h.control,
         emptied := if e.Emptied? then Some(e.yes) else h.emptied,
         logging := if !e.Took? then h.logging else if e.lines > 0 then Given(e.lines) else NoneDue)
  }

  predicate Allowed(c: Config, h: History, e: Event) {
    match e
    case Clock(why, _) => MayRead(c, h, why)
    case Sent(content, joinRef, ref, _) =>
      MaySend(c, h, content) && ref == NextRef(h.link) && joinRef == Label(h.link, content, ref)
    case Pending(_) => (h.duty.Opening? && h.duty.pending == None) || h.duty.Checking?
    case Reverted(_) => h.duty.Opening? && h.duty.reverted == None
    case Marked(_) => h.duty == Confirming(true)
    case Received(_) => MayReceive(c, h)
    case Garbled => MayReceive(c, h)
    case Quiet => MayReceive(c, h)
    case Died => MayReceive(c, h)
    case Decided(_) => h.duty.Deciding?
    case Began(_) => h.duty.Applying?
    case Installed(ok) => h.duty.Downloading? && NothingDue(h) && if h.duty.broken then !ok else !h.duty.waiting
    case Controlled(_) => c.control && UpToDate(h) && h.control == None
    case Emptied(_) =>
      UpToDate(h) && h.emptied == None && LogsCount(c, h) && Lingered(c, h)
    case Took(lines) => LogsTurn(h) && !h.due && h.logging.Unasked? && lines <= MostLines(h.link)
    case Located(_) => h.duty.Locating?
    case Ran(line, _) => h.duty.Answering? && h.duty.lines != [] && line == h.duty.lines[0]
    case Slept(ms) =>
      || (h.duty.Pausing? && ms == FAREWELL_PAUSE)
      || (h.duty.Downloading? && NothingDue(h) && !h.duty.broken && !h.duty.waiting && ms <= LONGEST_NAP)
    case Restarted => h.duty.Restarting?
  }

  lemma FewerMayBeTaken(c: Config, h: History, most: nat, lines: nat)
    requires Allowed(c, h, Took(most)) && lines <= most
    ensures Allowed(c, h, Took(lines))
  {}

  /** A message with the right refs may go out whenever its content may, and changes the channels so. */
  lemma SendingAnything(c: Config, h: History, content: Content, ok: bool)
    ensures
      var e := Outgoing(h.link, content, ok);
      && (Allowed(c, h, e) <==> MaySend(c, h, content))
      && Next(c, h, e) == OnSent(h, content, ok)
      && OnSent(h, content, ok).link == AfterSend(h.link, content)
  {}

  /** What is to be said next may be, and then what comes after it is due. */
  lemma SayingWhatIsDue(c: Config, h: History, ok: bool)
    requires h.duty.Sending? && NothingDue(h)
    ensures
      var content := h.duty.content;
      && MaySend(c, h, content)
      && OnSent(h, content, ok) == h.(link := AfterSend(h.link, content),
                                      duty := if ok then h.duty.after else Unsent(h.duty.handling))
  {}

  /** Where a run has come to. */
  function Fold(c: Config, run: seq<Event>): History {
    if run == [] then Start(c) else Next(c, Fold(c, run[..|run| - 1]), run[|run| - 1])
  }

  /** Every event was allowed when it happened. */
  predicate Lawful(c: Config, run: seq<Event>) {
    run == [] || (Lawful(c, run[..|run| - 1]) && Allowed(c, Fold(c, run[..|run| - 1]), run[|run| - 1]))
  }

  lemma NothingYet(c: Config)
    ensures Fold(c, []) == Start(c) && Lawful(c, [])
  {}

  lemma OneMore(c: Config, run: seq<Event>, e: Event)
    ensures Fold(c, run + [e]) == Next(c, Fold(c, run), e)
    ensures Lawful(c, run + [e]) <==> Lawful(c, run) && Allowed(c, Fold(c, run), e)
  {
    assert (run + [e])[..|run|] == run;
  }

  predicate IsArrival(e: Event) { e.Received? || e.Garbled? || e.Quiet? || e.Died? }

  /** A message that could not be sent. */
  predicate Fails(e: Event) { e.Sent? && !e.ok }

  function Arrivals(run: seq<Event>): nat {
    if run == [] then 0 else Arrivals(run[..|run| - 1]) + if IsArrival(run[|run| - 1]) then 1 else 0
  }

  /** The update a message brings, if it does: pushed, or in the reply to the join. */
  function Brings(m: Message): Option<Updates.Update> {
    if !m.topic.Device? then None
    else if m.body.Update? then m.body.update
    else if m.body.Reply? && m.body.response.Some? then m.body.response.value.update
    else None
  }

  predicate Offers(e: Event, update: Updates.Update) { e.Received? && Brings(e.message) == Some(update) }

  /** The same event, whatever was answered. */
  predicate Alike(e: Event, other: Event) {
    match (e, other)
    case (Clock(why, _), Clock(why', _)) => why == why'
    case (Sent(content, joinRef, ref, _), Sent(content', joinRef', ref', _)) =>
      content == content' && joinRef == joinRef' && ref == ref'
    case (Slept(ms), Slept(ms')) => ms == ms'
    case (Installed(ok), Installed(ok')) => ok == ok'
    case (Pending(_), Pending(_)) => true
    case (Reverted(_), Reverted(_)) => true
    case (Marked(_), Marked(_)) => true
    case (Quiet, _) => other.Received? || other.Garbled? || other.Quiet? || other.Died?
    case (Decided(_), Decided(_)) => true
    case (Began(_), Began(_)) => true
    case (Controlled(_), Controlled(_)) => true
    case (Emptied(_), Emptied(_)) => true
    case (Located(_), Located(_)) => true
    case (Ran(line, _), Ran(line', _)) => line == line'
    case _ => false
  }

  /** What is allowed never depends on the answer. */
  lemma AnyAnswerIsAllowed(c: Config, h: History, e: Event, other: Event)
    requires Alike(e, other)
    ensures Allowed(c, h, e) ==> Allowed(c, h, other)
  {}
}
