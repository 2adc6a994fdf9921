/**
 The channels of one connection: what the link sends, and what it makes of what it is sent
 (src/link.rs, with the refs of src/message.rs and the state of src/extensions.rs).
 */
module Link {
  import opened Common
  import opened Decimal
  import opened Protocol
  import opened World
  import Console
  import Updates

  datatype Need = NeedLocation | NeedHealth

  /** What the run loop must act on. */
  datatype Action =
    | Done
    | Extension(need: Need)
    | ApplyUpdate(update: Updates.Update)
    | RebootAsked
    | ConsoleData(data: string)
    | ConsoleRestart
    | ReconnectAsked

  datatype Handled = Acts(action: Action) | CannotHandle

  /** What is left to do about a message once the link has handled it, and who must do it. */
  predicate Leaves(c: Config, handled: Handled, duty: Duty, answer: Duty) {
    match handled
    case CannotHandle => duty.Leaving?
    case Acts(Done) => duty.Idle?
    case Acts(Extension(NeedLocation)) => duty == if c.location then Locating else Idle
    case Acts(Extension(NeedHealth)) => duty == if c.health then SendAll([Health], false) else Idle
    case Acts(ApplyUpdate(update)) => duty == Applying(update)
    case Acts(RebootAsked) => duty == HALT
    case Acts(ConsoleData(_)) => duty == answer
    case Acts(ConsoleRestart) => duty == Typing("\r\n" + PROMPT)
    case Acts(ReconnectAsked) => duty.Leaving?
  }

  /** What the action says of the message it answers. */
  predicate Tells(handled: Handled, link: Channels, m: Message) {
    && (handled == Acts(Extension(NeedHealth)) <==> AsksHealth(link, m))
    && (handled == Acts(ConsoleRestart) <==> m.topic.Console? && m.body.Restart?)
    && (if m.topic.Console? && m.body.Down? && m.body.data.Some? then handled == Acts(ConsoleData(m.body.data.value))
        else !(handled.Acts? && handled.action.ConsoleData?))
  }

  class Link {
    var next: nat
    var joinRef: Option<string>
    var joined: bool
    var heartbeatRef: Option<string>
    var extensionsJoinRef: Option<string>
    var extensionsJoined: bool
    var attached: seq<string>
    var invited: bool
    var batches: bool
    var consoleJoinRef: Option<string>
    var downloading: Option<string>

    function View(): Channels
      reads this
    {
      Channels(next, joinRef, joined, heartbeatRef, extensionsJoinRef, extensionsJoined, attached,
               invited, batches, consoleJoinRef)
    }

    ghost predicate Ready(world: World)
      reads this, world
    {
      world.Valid() && View() == world.h.link
    }

    /** `content` went out, or failed to, and the link is what the run makes it. */
    twostate predicate Spoke(world: World, content: Content, ok: bool)
      reads this, world
    {
      && Ready(world) && world.clock >= old(world.clock)
      && world.run == old(world.run) + [Outgoing(old(world.h).link, content, ok)]
      && world.h == OnSent(old(world.h), content, ok)
    }

    constructor ()
      ensures View() == NO_CHANNELS && downloading == None
    {
      next, joinRef, joined, heartbeatRef := 0, None, false, None;
      extensionsJoinRef, extensionsJoined, attached := None, false, [];
      invited, batches, consoleJoinRef, downloading := false, false, None, None;
    }

    method TakeRef() returns (ref: string)
      modifies this`next
      ensures next == (old(next) + 1) % U64 && ref == Unsigned(next)
    {
      next := (next + 1) % U64;
      ref := Unsigned(next);
    }

    /** Every message goes out through here. */
    method Write(world: World, content: Content, joinRef: Option<string>, ref: string) returns (ok: bool)
      requires world.Valid() && MaySend(world.config, world.h, content)
      requires ref == NextRef(world.h.link) && joinRef == Label(world.h.link, content, ref)
      modifies world`run, world`h, world`clock
      ensures world.Valid() && world.h == OnSent(old(world.h), content, ok) && world.clock >= old(world.clock)
      ensures world.run == old(world.run) + [Outgoing(old(world.h).link, content, ok)]
      ensures world.h.link == AfterSend(old(world.h).link, content)
    {
      hide Kept, Next, Allowed, MaySend, OnSent;
      SendingAnything(world.config, world.h, content, true);
      ok := world.Send(content, joinRef, ref);
      SendingAnything(world.config, old(world.h), content, ok);
    }

    method SendJoin(world: World, validated: bool, reverted: bool) returns (ok: bool)
      requires Ready(world) && MaySend(world.config, world.h, Join(validated, reverted, downloading))
      modifies this`next, this`joinRef, this`joined, world`run, world`h, world`clock
      ensures Spoke(world, Join(validated, reverted, downloading), ok)
    {
      hide Kept, Next, Allowed, MaySend, OnSent;
      var ref := TakeRef();
      joinRef := Some(ref);
      joined := false;
      ok := Write(world, Join(validated, reverted, downloading), joinRef, ref);
    }

    method SendHeartbeat(world: World) returns (ok: bool)
      requires Ready(world) && MaySend(world.config, world.h, Heartbeat)
      modifies this`next, this`heartbeatRef, world`run, world`h, world`clock
      ensures Spoke(world, Heartbeat, ok)
    {
      hide Kept, Next, Allowed, MaySend, OnSent;
      var ref := TakeRef();
      heartbeatRef := Some(ref);
      ok := Write(world, Heartbeat, None, ref);
    }

    /** What goes out on the device channel, labelled with its join: progress, status and the like. */
    method Send(world: World, content: Content) returns (ok: bool)
      requires content.Progress? || content.Told? || content.Rebooting? || content.Validated?
      requires Ready(world) && MaySend(world.config, world.h, content)
      modifies this`next, world`run, world`h, world`clock
      ensures Spoke(world, content, ok)
    {
      hide Kept, Next, Allowed, MaySend, OnSent;
      var ref := TakeRef();
      ok := Write(world, content, joinRef, ref);
    }

    method SendConsoleJoin(world: World) returns (ok: bool)
      requires Ready(world) && MaySend(world.config, world.h, ConsoleJoin)
      modifies this`next, this`consoleJoinRef, world`run, world`h, world`clock
      ensures Spoke(world, ConsoleJoin, ok)
    {
      hide Kept, Next, Allowed, MaySend, OnSent;
      var ref := TakeRef();
      consoleJoinRef := Some(ref);
      ok := Write(world, ConsoleJoin, Some(ref), ref);
    }

    method SendExtensionsJoin(world: World) returns (ok: bool)
      requires Ready(world) && MaySend(world.config, world.h, ExtensionsJoin)
      modifies this`next, this`extensionsJoinRef, world`run, world`h, world`clock
      ensures Spoke(world, ExtensionsJoin, ok)
    {
      hide Kept, Next, Allowed, MaySend, OnSent;
      var ref := TakeRef();
      extensionsJoinRef := Some(ref);
      ok := Write(world, ExtensionsJoin, Some(ref), ref);
    }

    /** Nothing is sent for nothing. */
    method SendConsole(world: World, text: string) returns (ok: bool)
      requires Ready(world) && (text != "" ==> MaySend(world.config, world.h, Typed(text)))
      modifies this`next, world`run, world`h, world`clock
      ensures if text == "" then ok && Ready(world) && world.h == old(world.h) else Spoke(world, Typed(text), ok)
    {
      hide Kept, Next, Allowed, MaySend, OnSent;
      if text == "" {
        return true;
      }
      var ref := TakeRef();
      ok := Write(world, Typed(text), consoleJoinRef, ref);
    }

    method SendLogs(world: World, lines: nat) returns (ok: bool)
      requires Ready(world) && MaySend(world.config, world.h, Logs(lines))
      modifies this`next, world`run, world`h, world`clock
      ensures Spoke(world, Logs(lines), ok)
    {
      hide Kept, Next, Allowed, MaySend, OnSent;
      var ref := TakeRef();
      ok := Write(world, Logs(lines), extensionsJoinRef, ref);
    }

    method SendNext(world: World, content: Content) returns (ok: bool)
      requires content.Confirm? || content.Location? || content.Health?
      requires Ready(world) && world.h.duty.Sending? && world.h.duty.content == content && NothingDue(world.h)
      modifies this`next, world`run, world`h, world`clock
      ensures Ready(world)
      ensures
        var was := old(world.h).duty;
        world.h == old(world.h).(link := world.h.link, duty := if ok then was.after else Unsent(was.handling))
    {
      hide Kept, Next, Allowed, MaySend, OnSent;
      SayingWhatIsDue(world.config, world.h, true);
      var ref := TakeRef();
      ok := Write(world, content, extensionsJoinRef, ref);
      SayingWhatIsDue(world.config, old(world.h), ok);
    }

    /** The frames an extension's event calls for, in order, until one cannot be sent. */
    method SendExtension(world: World, outgoing: seq<Content>, ghost handling: bool) returns (ok: bool)
      requires forall i :: 0 <= i < |outgoing| ==> outgoing[i].Confirm? || outgoing[i].Location? || outgoing[i].Health?
      requires Ready(world) && world.h.duty == SendAll(outgoing, handling) && NothingDue(world.h)
      modifies this`next, world`run, world`h, world`clock
      ensures Ready(world)
      ensures world.h == old(world.h).(link := world.h.link, duty := if ok then Idle else Unsent(handling))
    {
      hide Kept, Next, Allowed, MaySend, OnSent;
      var i := 0;
      while i < |outgoing|
        invariant 0 <= i <= |outgoing| && Ready(world)
        invariant world.h == old(world.h).(link := world.h.link, duty := SendAll(outgoing[i..], handling))
      {
        assert outgoing[i..][1..] == outgoing[i + 1..];
        ok := SendNext(world, outgoing[i]);
        if !ok {
          return;
        }
        i := i + 1;
      }
      ok := true;
    }

    /** The run has taken in `m`, and the link has yet to. */
    ghost predicate Hears(world: World, m: Message, reader: Console.Reader)
      reads this, world
    {
      && world.Valid() && NothingDue(world.h)
      && world.h.link == Heard(View(), m) && world.h.duty == Calls(world.config, View(), reader, m)
    }

    /** The link has taken it in too, and has done its part. */
    twostate predicate Handles(world: World, handled: Handled)
      reads this, world
    {
      && Ready(world)
      && world.h == old(world.h).(link := world.h.link, duty := world.h.duty)
      && Leaves(world.config, handled, world.h.duty, old(world.h.duty))
    }

    method HandleMessage(world: World, m: Message, ghost reader: Console.Reader) returns (handled: Handled)
      requires Hears(world, m, reader)
      modifies this, world`run, world`h, world`clock
      ensures Handles(world, handled) && downloading == old(downloading)
      ensures Tells(handled, old(View()), m)
    {
      hide Kept, Next, Allowed, MaySend, OnSent;
      match m.topic
      case Extensions =>
        handled := HandleExtensionFrame(world, m, reader);
      case Console =>
        handled := HandleConsoleFrame(world, m, reader);
      case Phoenix =>
        if m.body.Reply? && m.ref.Some? && m.ref == heartbeatRef {
          heartbeatRef := None;
        }
        handled := Acts(Done);
      case Device =>
        handled := HandleDeviceFrame(world, m, reader);
    }

    method HandleDeviceFrame(world: World, m: Message, ghost reader: Console.Reader) returns (handled: Handled)
      requires Hears(world, m, reader) && m.topic.Device?
      modifies this, world`run, world`h, world`clock
      ensures Handles(world, handled) && downloading == old(downloading)
      ensures Tells(handled, old(View()), m)
    {
      hide Kept, Next, Allowed, MaySend, OnSent;
      match m.body
      case Reply(ok, response) =>
        handled := HandleReply(world, m, ok, response, reader);
      case Update(update) =>
        if update.None? {
          return CannotHandle;
        }
        handled := DecideOn(world, update.value);
      case _ =>
        handled := HandlePush(world, m, reader);
    }

    /** What the server sends unasked, but for updates. */
    method HandlePush(world: World, m: Message, ghost reader: Console.Reader) returns (handled: Handled)
      requires Hears(world, m, reader) && m.topic.Device? && !m.body.Reply? && !m.body.Update?
      modifies this`joined, this`extensionsJoined, this`attached, this`invited, this`batches
      ensures Handles(world, handled)
      ensures Tells(handled, old(View()), m)
    {
      hide Kept, Next, Allowed, MaySend, OnSent;
      match m.body
      case Reboot =>
        handled := Acts(RebootAsked);
      case Invite(batches) =>
        invited, this.batches := true, batches;
        handled := Acts(Done);
      case Close =>
        joined := false;
        extensionsJoined, attached, invited, this.batches := false, [], false, false;
        handled := Acts(ReconnectAsked);
      case _ =>
        handled := Acts(Done);
    }

    method HandleReply(world: World, m: Message, ok: bool, response: Option<Response>, ghost reader: Console.Reader)
      returns (handled: Handled)
      requires Hears(world, m, reader) && m.topic.Device? && m.body == Reply(ok, response)
      modifies this, world`run, world`h, world`clock
      ensures Handles(world, handled) && downloading == old(downloading)
      ensures Tells(handled, old(View()), m)
    {
      hide Kept, Next, Allowed, MaySend, OnSent;
      if joinRef != m.ref {
        return Acts(Done);
      }
      if !ok || m.ref != Some(if joinRef.Some? then joinRef.value else "") {
        return CannotHandle;
      }
      joined := true;
      if response.None? {
        return Acts(Done);
      }
      if response.value.update.None? {
        return CannotHandle;
      }
      handled := DecideOn(world, response.value.update.value);
    }

    method DecideOn(world: World, update: Updates.Update) returns (handled: Handled)
      requires Ready(world) && NothingDue(world.h) && world.h.duty == Consider(Some(update))
      modifies this`next, world`run, world`h, world`clock
      ensures Handles(world, handled)
      ensures handled.Acts? ==> handled.action.Done? || handled.action.ApplyUpdate?
    {
      hide Kept, MaySend, OnSent;
      if !update.Actionable() {
        return Acts(Done);
      }
      var decision := world.Decide();
      match decision
      case Apply =>
        handled := Acts(ApplyUpdate(update));
      case Ignore(reason) =>
        handled := SendStatus(world, Ignored(reason));
      case Reschedule(delay, reason) =>
        handled := SendStatus(world, Rescheduled(delay, reason));
    }

    method SendStatus(world: World, status: Status) returns (handled: Handled)
      requires Ready(world) && NothingDue(world.h) && world.h.duty == Sending(Told(status), Idle, true)
      modifies this`next, world`run, world`h, world`clock
      ensures Ready(world) && world.h == old(world.h).(link := world.h.link, duty := world.h.duty)
      ensures if world.h.duty.Idle? then handled == Acts(Done) else world.h.duty.Leaving? && handled == CannotHandle
    {
      hide Kept, Next, Allowed, MaySend, OnSent;
      SayingWhatIsDue(world.config, world.h, true);
      var ok := Send(world, Told(status));
      SayingWhatIsDue(world.config, old(world.h), ok);
      handled := if ok then Acts(Done) else CannotHandle;
    }

    method HandleConsoleFrame(world: World, m: Message, ghost reader: Console.Reader) returns (handled: Handled)
      requires Hears(world, m, reader) && m.topic.Console?
      modifies this`next, world`run, world`h, world`clock
      ensures Handles(world, handled)
      ensures Tells(handled, old(View()), m)
    {
      hide Kept, Next, Allowed, MaySend, OnSent;
      match m.body
      case Reply(_, _) =>
        if consoleJoinRef != m.ref {
          return Acts(Done);
        }
        handled := Answer(world, PROMPT);
      case Down(data) =>
        handled := if data.Some? then Acts(ConsoleData(data.value)) else Acts(Done);
      case Restart =>
        handled := Acts(ConsoleRestart);
      case File =>
        handled := Answer(world, NO_FILES);
      case _ =>
        handled := Acts(Done);
    }

    method Answer(world: World, text: string) returns (handled: Handled)
      requires Ready(world) && NothingDue(world.h) && text != "" && world.h.duty == Sending(Typed(text), Idle, true)
      modifies this`next, world`run, world`h, world`clock
      ensures Ready(world) && world.h == old(world.h).(link := world.h.link, duty := world.h.duty)
      ensures if world.h.duty.Idle? then handled == Acts(Done) else world.h.duty.Leaving? && handled == CannotHandle
    {
      hide Kept, Next, Allowed, MaySend, OnSent;
      SayingWhatIsDue(world.config, world.h, true);
      var ok := SendConsole(world, text);
      SayingWhatIsDue(world.config, old(world.h), ok);
      handled := if ok then Acts(Done) else CannotHandle;
    }

    method HandleExtensionFrame(world: World, m: Message, ghost reader: Console.Reader) returns (handled: Handled)
      requires Hears(world, m, reader) && m.topic.Extensions?
      modifies this`next, this`attached, this`extensionsJoined, world`run, world`h, world`clock
      ensures Handles(world, handled)
      ensures Tells(handled, old(View()), m)
    {
      hide Kept, Next, Allowed, MaySend, OnSent;
      match m.body
      case Reply(_, response) =>
        if extensionsJoinRef != m.ref {
          return Acts(Done);
        }
        extensionsJoined := true;
        attached := if response.Some? then response.value.attached else [];
        var ok := SendExtension(world, Confirmations(attached), true);
        handled := if ok then Acts(Done) else CannotHandle;
      case LocationRequest =>
        handled := if "geo" in attached then Acts(Extension(NeedLocation)) else Acts(Done);
      case HealthCheck =>
        handled := if "health" in attached then Acts(Extension(NeedHealth)) else Acts(Done);
      case _ =>
        handled := Acts(Done);
    }
  }
}
