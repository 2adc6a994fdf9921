/**
 The hand-off of messages from the client's task to the run loop (src/transport.rs).

 Two tasks share an `Inbound` through a mutex and a channel. Each step below is one
 critical section or one channel operation, so a sequence of actions is an interleaving,
 and a lemma about every sequence is about every schedule. The channel is kept as
 everything ever sent on it and how much of that has been taken.
 */
module Handoff {
  import opened Common
  import opened Reassembly

  /** An item on the channel, and whether the client had connected when it was sent. */
  datatype Sent = Sent(incoming: Incoming, connected: bool) {
    /** What makes `recv_frame` return an error, so that the session ends. */
    predicate Ends() { incoming.Overflow? || (incoming.Closed? && connected) }
  }

  /** Where the run loop is in `recv_frame`: it takes an item, and then locks the state. */
  datatype Reader = Idle | Holding(incoming: Incoming) | Ended

  datatype System = System(
    inbound: State, sent: seq<Sent>, taken: nat, reader: Reader,
    delivered: seq<Frame>,    // what `recv_frame` has returned
    closesReported: nat,      // how many closes the client has ever reported
    events: seq<Event>)       // every call on the `Inbound`, in order

  const START := System(INITIAL, [], 0, Idle, [], 0, [])

  datatype Action =
    | ClientData(piece: Piece)
    | ClientConnected
    | ClientDisconnected
    | Take      // `recv_timeout` gives the run loop the next item, if there is one
    | Settle    // the run loop locks the state and acts on what it holds

  function Queue(s: System): seq<Sent>
    requires s.taken <= |s.sent|
  {
    s.sent[s.taken..]
  }

  /** An event handled under the lock, and what it sends. */
  function OnEvent(s: System, e: Event, utf8: Utf8): System {
    var (inbound, out) := Step(s.inbound, e, utf8);
    var sent := seq(|out|, i requires 0 <= i < |out| => Sent(out[i], s.inbound.closesBeforeConnecting.Some?));
    s.(inbound := inbound, sent := s.sent + sent, events := s.events + [e],
       closesReported := s.closesReported + if out != [] && out[0].Closed? then 1 else 0)
  }

  function Next(s: System, a: Action, utf8: Utf8): System {
    match a
    case ClientData(p) => OnEvent(s, Data(p), utf8)
    case ClientConnected => OnEvent(s, Connect, utf8)
    case ClientDisconnected => OnEvent(s, Disconnect, utf8)
    case Take =>
      if s.reader.Idle? && s.taken < |s.sent| then
        s.(taken := s.taken + 1, reader := Holding(s.sent[s.taken].incoming))
      else s
    case Settle =>
      if !s.reader.Holding? then s else
        match s.reader.incoming
        case Message(f) =>
          OnEvent(s, ReadBytes(f.Len()), utf8).(reader := Idle, delivered := s.delivered + [f])
        case Overflow => s.(reader := Ended)
        case Closed(n) => s.(reader := if EndsSession(s.inbound, n) then Ended else Idle)
  }

  function Execute(s: System, actions: seq<Action>, utf8: Utf8): System
    decreases |actions|
  {
    if actions == [] then s else Execute(Next(s, actions[0], utf8), actions[1..], utf8)
  }

  // ---------- The invariant ----------

  function Bytes(sent: seq<Sent>): nat {
    if sent == [] then 0 else
      (if sent[0].incoming.Message? then sent[0].incoming.frame.Len() else 0) + Bytes(sent[1..])
  }

  function Held(r: Reader): nat {
    if r.Holding? && r.incoming.Message? then r.incoming.frame.Len() else 0
  }

  /** Bytes are counted from the moment a frame is sent until the run loop has read it. */
  ghost predicate Accounted(s: System) {
    s.taken <= |s.sent|
    && s.inbound.unread == Bytes(Queue(s)) + Held(s.reader)
    && s.inbound.unread + |s.inbound.partial| <= MAX_UNREAD_BYTES
  }

  /** At most one `Overflow` is ever sent, and no frame after it. */
  ghost predicate OverflowsOnce(sent: seq<Sent>) {
    forall i, j :: 0 <= i < j < |sent| && sent[i].incoming.Overflow? ==> sent[j].incoming.Closed?
  }

  ghost predicate OverflowKnown(s: System) {
    && OverflowsOnce(s.sent)
    && (s.inbound.overflowed ==> s.inbound.partial == [])
    && (s.inbound.overflowed <==> exists i :: 0 <= i < |s.sent| && s.sent[i].incoming.Overflow?)
  }

  /** A close's number says whether it came after the client first connected. */
  ghost predicate Numbered(s: System) {
    && s.inbound.closes == s.closesReported % U32
    && (s.closesReported < U32 ==>
          && (s.inbound.closesBeforeConnecting.Some? ==>
                s.inbound.closesBeforeConnecting.value <= s.inbound.closes)
          && (forall i :: 0 <= i < |s.sent| && s.sent[i].incoming.Closed? ==>
                && s.sent[i].incoming.n <= s.inbound.closes
                && (s.sent[i].connected <==> EndsSession(s.inbound, s.sent[i].incoming.n))))
  }

  function Incomings(sent: seq<Sent>): seq<Incoming> {
    seq(|sent|, i requires 0 <= i < |sent| => sent[i].incoming)
  }

  predicate NoneEnds(sent: seq<Sent>) { forall i :: 0 <= i < |sent| ==> !sent[i].Ends() }

  /** How many items the run loop has finished with, before the one that ended the session. */
  function Settled(s: System): int { if s.reader.Idle? then s.taken else s.taken - 1 }

  ghost predicate Delivery(s: System) {
    && 0 <= Settled(s) <= s.taken <= |s.sent|
    && (s.reader.Holding? ==> s.reader.incoming == s.sent[s.taken - 1].incoming)
    && s.delivered == FramesIn(Incomings(s.sent[..Settled(s)]))
    && (s.closesReported < U32 ==>
          NoneEnds(s.sent[..Settled(s)]) && (s.reader.Ended? ==> s.sent[s.taken - 1].Ends()))
  }

  lemma {:induction false} BytesAppend(a: seq<Sent>, b: seq<Sent>)
    ensures Bytes(a + b) == Bytes(a) + Bytes(b)
  {
    if a == [] {
      assert a + b == b;
    } else {
      assert (a + b)[1..] == a[1..] + b;
      BytesAppend(a[1..], b);
    }
  }

  /** The queue loses its first item to the run loop; the count of bytes does not move. */
  lemma BytesTaken(sent: seq<Sent>, taken: nat)
    requires taken < |sent|
    ensures Bytes(sent[taken..])
         == (if sent[taken].incoming.Message? then sent[taken].incoming.frame.Len() else 0) + Bytes(sent[taken + 1..])
  {
    assert sent[taken..][1..] == sent[taken + 1..];
  }

  /** One call: it sends at most one thing, and counts the bytes of what it sends. */
  lemma StepAccounts(s: State, e: Event, utf8: Utf8)
    requires s.unread + |s.partial| <= MAX_UNREAD_BYTES && (e.ReadBytes? ==> e.length <= s.unread)
    ensures
      var (s', out) := Step(s, e, utf8);
      && |out| <= 1 && s'.unread + |s'.partial| <= MAX_UNREAD_BYTES
      && (if e.ReadBytes? then out == [] && s'.unread == s.unread - e.length
          else s'.unread == s.unread + if out != [] && out[0].Message? then out[0].frame.Len() else 0)
  {}

  lemma BytesOfOne(sent: Sent)
    ensures Bytes([sent]) == if sent.incoming.Message? then sent.incoming.frame.Len() else 0
  {
    assert [sent][1..] == [];
  }

  lemma EventAccounted(s: System, e: Event, utf8: Utf8)
    requires Accounted(s) && (e.ReadBytes? ==> Held(s.reader) == e.length)
    ensures
      var s' := OnEvent(s, e, utf8);
      Accounted(if e.ReadBytes? then s'.(reader := Idle) else s')
  {
    hide Step, Bytes;
    StepAccounts(s.inbound, e, utf8);
    var out := Step(s.inbound, e, utf8).1;
    var s' := OnEvent(s, e, utf8);
    if out == [] {
      assert s'.sent == s.sent;
    } else {
      var item := Sent(out[0], s.inbound.closesBeforeConnecting.Some?);
      assert s'.sent == s.sent + [item] && Queue(s') == Queue(s) + [item];
      BytesAppend(Queue(s), [item]);
      BytesOfOne(item);
    }
  }

  lemma EventOverflowKnown(s: System, e: Event, utf8: Utf8)
    requires OverflowKnown(s)
    ensures OverflowKnown(OnEvent(s, e, utf8))
  {
    var s' := OnEvent(s, e, utf8);
    forall i | 0 <= i < |s.sent| ensures s'.sent[i] == s.sent[i] {}
    if s'.inbound.overflowed && !s.inbound.overflowed {
      assert s'.sent[|s.sent|].incoming.Overflow?;
    }
  }

  lemma EventNumbered(s: System, e: Event, utf8: Utf8)
    requires Numbered(s)
    ensures Numbered(OnEvent(s, e, utf8))
  {
    var s' := OnEvent(s, e, utf8);
    if s'.closesReported < U32 {
      forall i | 0 <= i < |s'.sent| && s'.sent[i].incoming.Closed?
        ensures s'.sent[i].incoming.n <= s'.inbound.closes
        ensures s'.sent[i].connected <==> EndsSession(s'.inbound, s'.sent[i].incoming.n)
      {
        if i < |s.sent| {
          assert s'.sent[i] == s.sent[i];
        }
      }
    }
  }

  ghost predicate Inv(s: System) {
    Accounted(s) && OverflowKnown(s) && Numbered(s) && Delivery(s)
  }

  lemma IncomingsOneMore(sent: seq<Sent>, k: nat)
    requires k < |sent|
    ensures FramesIn(Incomings(sent[..k + 1])) == FramesIn(Incomings(sent[..k])) + FrameOf(sent[k].incoming)
  {
    assert Incomings(sent[..k + 1]) == Incomings(sent[..k]) + [sent[k].incoming];
    FramesInAppend(Incomings(sent[..k]), [sent[k].incoming]);
    assert FramesIn([sent[k].incoming]) == FrameOf(sent[k].incoming);
  }

  lemma EventDelivery(s: System, e: Event, utf8: Utf8)
    requires Delivery(s)
    ensures Delivery(OnEvent(s, e, utf8))
  {
    var s' := OnEvent(s, e, utf8);
    assert s'.sent[..Settled(s)] == s.sent[..Settled(s)];
  }

  lemma SettleDelivery(s: System, utf8: Utf8)
    requires Delivery(s) && Numbered(s) && s.reader.Holding?
    ensures Delivery(Next(s, Settle, utf8))
  {
    var k := s.taken - 1;
    IncomingsOneMore(s.sent, k);
    var s' := Next(s, Settle, utf8);
    assert s'.sent == s.sent;
    assert s.sent[..k + 1] == s.sent[..k] + [s.sent[k]];
    if s'.reader.Idle? && s.closesReported < U32 {
      assert !s.sent[k].Ends();
    }
  }

  lemma TakeKeepsInv(s: System, utf8: Utf8)
    requires Inv(s) && s.reader.Idle? && s.taken < |s.sent|
    ensures Inv(Next(s, Take, utf8))
  {
    hide Bytes, FramesIn, Incomings;
    BytesTaken(s.sent, s.taken);
  }

  /** What the run loop has of its own, none of the rest depends on, but for the bytes it holds. */
  lemma OnlyReading(s: System, reader: Reader, delivered: seq<Frame>)
    ensures
      var s' := s.(reader := reader, delivered := delivered);
      && (OverflowKnown(s) ==> OverflowKnown(s')) && (Numbered(s) ==> Numbered(s'))
      && (Accounted(s.(reader := reader)) ==> Accounted(s'))
  {}

  lemma AfterReading(s: System, e: Event, utf8: Utf8)
    requires Accounted(s) && OverflowKnown(s) && Numbered(s) && e.ReadBytes? && Held(s.reader) == e.length
    ensures
      var s' := OnEvent(s, e, utf8);
      Accounted(s'.(reader := Idle)) && OverflowKnown(s') && Numbered(s')
  {
    hide Accounted, OverflowKnown, Numbered, OnEvent;
    EventAccounted(s, e, utf8);
    EventOverflowKnown(s, e, utf8);
    EventNumbered(s, e, utf8);
  }

  lemma SettlingAMessage(s: System, utf8: Utf8)
    requires Inv(s) && s.reader.Holding? && s.reader.incoming.Message?
    ensures Inv(Next(s, Settle, utf8))
  {
    hide Accounted, OverflowKnown, Numbered, Delivery, OnEvent;
    SettleDelivery(s, utf8);
    var e := ReadBytes(s.reader.incoming.frame.Len());
    AfterReading(s, e, utf8);
    OnlyReading(OnEvent(s, e, utf8), Idle, s.delivered + [s.reader.incoming.frame]);
    EventReads(s, e, utf8);
  }

  lemma EventReads(s: System, e: Event, utf8: Utf8)
    ensures OnEvent(s, e, utf8).delivered == s.delivered && OnEvent(s, e, utf8).reader == s.reader
  {
    hide Step;
  }

  lemma SettlingAnythingElse(s: System, utf8: Utf8)
    requires Inv(s) && s.reader.Holding? && !s.reader.incoming.Message?
    ensures Inv(Next(s, Settle, utf8))
  {
    SettleDelivery(s, utf8);
    hide Accounted, OverflowKnown, Numbered, Delivery;
    var reader := Next(s, Settle, utf8).reader;
    NothingHeld(s, reader);
    OnlyReading(s, reader, s.delivered);
  }

  lemma NothingHeld(s: System, reader: Reader)
    requires Accounted(s) && Held(s.reader) == 0 == Held(reader)
    ensures Accounted(s.(reader := reader))
  {}

  /** Every step of either task keeps all of it. */
  lemma NextKeepsInv(s: System, a: Action, utf8: Utf8)
    requires Inv(s)
    ensures Inv(Next(s, a, utf8))
  {
    hide Inv, OnEvent;
    match a
    case ClientData(p) => EventKeepsInv(s, Data(p), utf8);
    case ClientConnected => EventKeepsInv(s, Connect, utf8);
    case ClientDisconnected => EventKeepsInv(s, Disconnect, utf8);
    case Take =>
      if s.reader.Idle? && s.taken < |s.sent| {
        TakeKeepsInv(s, utf8);
      }
    case Settle =>
      if s.reader.Holding? {
        if s.reader.incoming.Message? {
          SettlingAMessage(s, utf8);
        } else {
          SettlingAnythingElse(s, utf8);
        }
      }
  }

  lemma EventKeepsInv(s: System, e: Event, utf8: Utf8)
    requires Inv(s) && !e.ReadBytes?
    ensures Inv(OnEvent(s, e, utf8))
  {
    hide Accounted, OverflowKnown, Numbered, Delivery, OnEvent;
    EventAccounted(s, e, utf8);
    EventOverflowKnown(s, e, utf8);
    EventNumbered(s, e, utf8);
    EventDelivery(s, e, utf8);
  }

  lemma {:induction false} ExecuteKeepsInv(s: System, actions: seq<Action>, utf8: Utf8)
    requires Inv(s)
    ensures Inv(Execute(s, actions, utf8))
    decreases |actions|
  {
    hide Inv, Next;
    if actions != [] {
      NextKeepsInv(s, actions[0], utf8);
      ExecuteKeepsInv(Next(s, actions[0], utf8), actions[1..], utf8);
    }
  }

  // ---------- What every schedule keeps ----------

  /** A state some schedule of the two tasks leads to. */
  ghost predicate Reachable(s: System, utf8: Utf8) {
    exists actions: seq<Action> :: s == Execute(START, actions, utf8)
  }

  lemma ReachableInv(s: System, utf8: Utf8)
    requires Reachable(s, utf8)
    ensures Inv(s)
  {
    var actions: seq<Action> :| s == Execute(START, actions, utf8);
    StartInv();
    ExecuteKeepsInv(START, actions, utf8);
  }

  lemma StartInv()
    ensures Inv(START)
  {
    assert Queue(START) == [] && START.sent[..0] == [];
    assert Incomings([]) == [] && FramesIn([]) == [];
    assert OverflowKnown(START) && Numbered(START);
  }

  /**
   The accounting: `unread` is what waits in the channel and what has been taken but not
   read, so subtracting never saturates, and nothing held passes the limit; once it has been passed,
   no part of a message is held.
   */
  lemma UnreadIsExact(s: System, utf8: Utf8)
    requires Reachable(s, utf8)
    ensures
      && s.taken <= |s.sent|
      && s.inbound.unread == Bytes(Queue(s)) + Held(s.reader)
      && s.inbound.unread + |s.inbound.partial| <= 16 * 1024
      && (s.inbound.overflowed ==> s.inbound.partial == [])
      && (s.reader.Holding? && s.reader.incoming.Message? ==>
            Next(s, Settle, utf8).inbound.unread == s.inbound.unread - s.reader.incoming.frame.Len())
  {
    ReachableInv(s, utf8);
  }

  /**
   `Overflow` is sent once at most, by exactly the first data piece that would take what is
   held past the limit, and no frame follows it.
   */
  lemma OverflowIsFirstBreach(s: System, p: Piece, utf8: Utf8)
    requires Reachable(s, utf8)
    ensures
      var s' := Next(s, ClientData(p), utf8);
      var breached := exists i :: 0 <= i < |s.sent| && s.sent[i].incoming.Overflow?;
      var starts := 1 <= p.opcode <= 2 && p.offset == 0;
      var kept := if starts then 0 else |s.inbound.partial|;
      && OverflowsOnce(s'.sent)
      && ((|s'.sent| > |s.sent| && s'.sent[|s.sent|].incoming.Overflow?) <==>
            p.opcode <= 2 && !breached && s.taken <= |s.sent|
            && Bytes(Queue(s)) + Held(s.reader) + kept + |p.bytes| > 16 * 1024)
  {
    ReachableInv(s, utf8);
    NextKeepsInv(s, ClientData(p), utf8);
  }

  /** The frames a session is owed: those sent ahead of an overflow, or of a close after connecting. */
  function Owed(sent: seq<Sent>): seq<Frame> {
    if sent == [] || sent[0].incoming.Overflow? || (sent[0].incoming.Closed? && sent[0].connected) then []
    else FrameOf(sent[0].incoming) + Owed(sent[1..])
  }

  lemma {:induction false} OwedAppend(a: seq<Sent>, b: seq<Sent>)
    requires NoneEnds(a)
    ensures Owed(a + b) == FramesIn(Incomings(a)) + Owed(b)
  {
    if a == [] {
      assert a + b == b;
    } else {
      assert (a + b)[1..] == a[1..] + b;
      assert Incomings(a)[1..] == Incomings(a[1..]);
      OwedAppend(a[1..], b);
    }
  }

  /**
   Close ordering. A close the client reported after it first connected ends the session
   whenever it is read, whatever connections came since, and one from before never does;
   what the session gets is exactly the frames sent ahead of the end, in order.
   */
  lemma SessionGetsWhatItIsOwed(s: System, utf8: Utf8)
    requires Reachable(s, utf8) && s.closesReported < U32
    ensures
      && s.delivered <= Owed(s.sent)
      && (s.reader.Ended? ==> s.delivered == Owed(s.sent))
      && (s.reader.Idle? && s.taken == |s.sent| ==> s.delivered == Owed(s.sent))
      && (forall i :: 0 <= i < |s.sent| && s.sent[i].incoming.Closed? ==>
            (EndsSession(s.inbound, s.sent[i].incoming.n) <==> s.sent[i].connected))
  {
    ReachableInv(s, utf8);
    var k := Settled(s);
    assert s.sent == s.sent[..k] + s.sent[k..];
    OwedAppend(s.sent[..k], s.sent[k..]);
  }

  // ---------- Closes, counted ----------

  function ClosesIn(sent: seq<Sent>): nat {
    if sent == [] then 0 else ClosesIn(sent[..|sent| - 1]) + if sent[|sent| - 1].incoming.Closed? then 1 else 0
  }

  /** Of those, the ones sent before the client first connected. */
  function ClosesBefore(sent: seq<Sent>): nat {
    if sent == [] then 0 else
      ClosesBefore(sent[..|sent| - 1])
      + if sent[|sent| - 1].incoming.Closed? && !sent[|sent| - 1].connected then 1 else 0
  }

  lemma OneMoreClose(sent: seq<Sent>, item: Sent)
    ensures ClosesIn(sent + [item]) == ClosesIn(sent) + if item.incoming.Closed? then 1 else 0
    ensures ClosesBefore(sent + [item])
         == ClosesBefore(sent) + if item.incoming.Closed? && !item.connected then 1 else 0
  {
    assert (sent + [item])[..|sent|] == sent;
  }

  ghost predicate CloseCounted(sent: seq<Sent>, i: nat, before: nat) {
    i < |sent| && sent[i].incoming.Closed? ==>
      && sent[i].incoming.n == ClosesIn(sent[..i + 1]) % U32
      && (sent[i].connected <==> ClosesIn(sent[..i + 1]) > before)
  }

  ghost predicate Counted(s: System) {
    && s.closesReported == ClosesIn(s.sent) && ClosesBefore(s.sent) <= ClosesIn(s.sent)
    && s.inbound.closes == ClosesIn(s.sent) % U32
    && (if s.inbound.closesBeforeConnecting.None? then ClosesBefore(s.sent) == ClosesIn(s.sent)
        else s.inbound.closesBeforeConnecting.value == ClosesBefore(s.sent) % U32)
    && forall i: nat :: CloseCounted(s.sent, i, ClosesBefore(s.sent))
  }

  /** What a call does to the count of closes, and to when they began to matter. */
  lemma StepCounts(s: State, e: Event, utf8: Utf8)
    ensures
      var (s', out) := Step(s, e, utf8);
      && |out| <= 1
      && (if out != [] && out[0].Closed? then s'.closes == (s.closes + 1) % U32 && out[0].n == s'.closes
          else s'.closes == s.closes)
      && (if e.Connect? && s.closesBeforeConnecting.None? then s'.closesBeforeConnecting == Some(s.closes)
          else s'.closesBeforeConnecting == s.closesBeforeConnecting)
      && (e.Connect? ==> out == [])
  {}

  lemma EventCounted(s: System, e: Event, utf8: Utf8)
    requires Counted(s)
    ensures Counted(OnEvent(s, e, utf8))
  {
    hide Step, ClosesIn, ClosesBefore, CloseCounted;
    StepCounts(s.inbound, e, utf8);
    var out := Step(s.inbound, e, utf8).1;
    var s' := OnEvent(s, e, utf8);
    if out == [] {
      assert s'.sent == s.sent;
    } else {
      var item := Sent(out[0], s.inbound.closesBeforeConnecting.Some?);
      assert s'.sent == s.sent + [item];
      OneMoreClose(s.sent, item);
      assert item.incoming.Closed? ==> item.incoming.n == ClosesIn(s'.sent) % U32;
      forall i: nat ensures CloseCounted(s'.sent, i, ClosesBefore(s'.sent)) {
        CountedStays(s.sent, item, i, ClosesBefore(s.sent), ClosesBefore(s'.sent));
      }
    }
  }

  lemma CountedStays(sent: seq<Sent>, item: Sent, i: nat, before: nat, before': nat)
    requires CloseCounted(sent, i, before)
    requires
      || before' == before
      || (before' == before + 1 == ClosesIn(sent) + 1 && item.incoming.Closed? && !item.connected)
    requires item.incoming.Closed? ==>
               && item.incoming.n == ClosesIn(sent + [item]) % U32
               && (item.connected <==> ClosesIn(sent + [item]) > before')
    ensures CloseCounted(sent + [item], i, before')
  {
    if i < |sent| {
      assert (sent + [item])[..i + 1] == sent[..i + 1];
      ClosesGrow(sent, i + 1);
    } else if i == |sent| {
      assert (sent + [item])[..i + 1] == sent + [item];
    }
  }

  lemma {:induction false} ClosesGrow(sent: seq<Sent>, i: nat)
    requires i <= |sent|
    ensures ClosesIn(sent[..i]) <= ClosesIn(sent)
  {
    if i < |sent| {
      assert sent[..|sent| - 1][..i] == sent[..i];
      ClosesGrow(sent[..|sent| - 1], i);
    } else {
      assert sent[..i] == sent;
    }
  }

  lemma NextCounted(s: System, a: Action, utf8: Utf8)
    requires Counted(s)
    ensures Counted(Next(s, a, utf8))
  {
    hide OnEvent, CloseCounted, ClosesIn, ClosesBefore;
    match a
    case ClientData(p) => EventCounted(s, Data(p), utf8);
    case ClientConnected => EventCounted(s, Connect, utf8);
    case ClientDisconnected => EventCounted(s, Disconnect, utf8);
    case Take =>
    case Settle =>
      if s.reader.Holding? && s.reader.incoming.Message? {
        EventCounted(s, ReadBytes(s.reader.incoming.frame.Len()), utf8);
      }
  }

  lemma {:induction false} ExecuteCounted(s: System, actions: seq<Action>, utf8: Utf8)
    requires Counted(s)
    ensures Counted(Execute(s, actions, utf8))
    decreases |actions|
  {
    hide Counted, Next;
    if actions != [] {
      NextCounted(s, actions[0], utf8);
      ExecuteCounted(Next(s, actions[0], utf8), actions[1..], utf8);
    }
  }

  lemma ReachableCounted(s: System, utf8: Utf8)
    requires Reachable(s, utf8)
    ensures Counted(s)
  {
    var actions: seq<Action> :| s == Execute(START, actions, utf8);
    ExecuteCounted(START, actions, utf8);
  }

  /**
   Exactly which closes end the session, however many there have been: a close is the k-th, and
   `before` of them came before the client first connected. It came after connecting when
   k > before; it ends the session when, counted in 32 bits, k is still the greater.
   */
  lemma CloseEndsExactlyWhen(s: System, i: nat, utf8: Utf8)
    requires Reachable(s, utf8) && i < |s.sent| && s.sent[i].incoming.Closed?
    ensures
      var k, before := ClosesIn(s.sent[..i + 1]), ClosesBefore(s.sent);
      && (s.sent[i].connected <==> k > before)
      && (EndsSession(s.inbound, s.sent[i].incoming.n) <==>
            s.inbound.closesBeforeConnecting.Some? && k % U32 > before % U32)
  {
    ReachableCounted(s, utf8);
    assert CloseCounted(s.sent, i, ClosesBefore(s.sent));
  }

  /** For the first close after connecting: it goes unseen just when it is the one that wraps the count. */
  lemma FirstCloseEndsUnlessItWraps(s: System, utf8: Utf8)
    requires Reachable(s, utf8) && s.inbound.closesBeforeConnecting.None?
    ensures
      var connected := Next(s, ClientConnected, utf8);
      var closed := Next(connected, ClientDisconnected, utf8);
      && closed.sent == s.sent + [Sent(Closed(closed.inbound.closes), true)]
      && (EndsSession(closed.inbound, closed.inbound.closes) <==> s.closesReported % U32 != U32 - 1)
  {
    ReachableCounted(s, utf8);
  }

  function Disconnections(n: nat): seq<Action> { seq(n, _ => ClientDisconnected) }

  lemma {:induction false} ManyDisconnections(n: nat, utf8: Utf8)
    ensures
      var s := Execute(START, Disconnections(n), utf8);
      s.inbound == INITIAL.(closes := n % U32) && s.closesReported == n
  {
    if n > 0 {
      ManyDisconnections(n - 1, utf8);
      assert Disconnections(n) == Disconnections(n - 1) + [ClientDisconnected];
      ExecuteOneMore(START, Disconnections(n - 1), ClientDisconnected, utf8);
    }
  }

  lemma {:induction false} ExecuteOneMore(s: System, actions: seq<Action>, a: Action, utf8: Utf8)
    ensures Execute(s, actions + [a], utf8) == Next(Execute(s, actions, utf8), a, utf8)
    decreases |actions|
  {
    hide Next;
    if actions == [] {
      assert actions + [a] == [a] && [a][1..] == [];
    } else {
      assert (actions + [a])[1..] == actions[1..] + [a];
      ExecuteOneMore(Next(s, actions[0], utf8), actions[1..], a, utf8);
    }
  }

  /**
   Such a one there is: 2^32 - 1 attempts that fail, a connection, and the close of that. It is
   numbered 0, and the session goes on. `SessionGetsWhatItIsOwed` needs fewer than 2^32 reports.
   */
  lemma WrappedCloseIsMissed(utf8: Utf8)
    ensures
      var actions := Disconnections(U32 - 1) + [ClientConnected] + [ClientDisconnected];
      var s := Execute(START, actions, utf8);
      && s.sent != [] && s.sent[|s.sent| - 1] == Sent(Closed(0), true)
      && !EndsSession(s.inbound, 0) && s.closesReported == U32
  {
    hide Execute, Step, EndsSession;
    var failed := Execute(START, Disconnections(U32 - 1), utf8);
    ManyDisconnections(U32 - 1, utf8);
    assert Reachable(failed, utf8);
    ExecuteOneMore(START, Disconnections(U32 - 1), ClientConnected, utf8);
    ExecuteOneMore(START, Disconnections(U32 - 1) + [ClientConnected], ClientDisconnected, utf8);
    FirstCloseEndsUnlessItWraps(failed, utf8);
    Closing(failed, utf8);
  }

  lemma Closing(s: System, utf8: Utf8)
    ensures
      var closed := Next(Next(s, ClientConnected, utf8), ClientDisconnected, utf8);
      closed.inbound.closes == (s.inbound.closes + 1) % U32 && closed.closesReported == s.closesReported + 1
  {}

  /** "Connected" is the client's word: it has reported a connection. */
  lemma ConnectedMeansReported(actions: seq<Action>, utf8: Utf8)
    ensures Execute(START, actions, utf8).inbound.closesBeforeConnecting.Some? <==> ClientConnected in actions
  {
    var s := Execute(START, actions, utf8);
    assert Reachable(s, utf8);
    ReachableSequential(s, utf8);
    ConnectedAfter(INITIAL, s.events, utf8);
    CallsAreActions(START, actions, utf8);
  }

  lemma {:induction false} ConnectedAfter(s: State, events: seq<Event>, utf8: Utf8)
    ensures After(s, events, utf8).closesBeforeConnecting.Some? <==>
              s.closesBeforeConnecting.Some? || Connect in events
    decreases |events|
  {
    hide Step;
    if events != [] {
      StepCounts(s, events[0], utf8);
      ConnectedAfter(Step(s, events[0], utf8).0, events[1..], utf8);
    }
  }

  // ---------- End to end ----------

  function After(s: State, events: seq<Event>, utf8: Utf8): State
    decreases |events|
  {
    if events == [] then s else After(Step(s, events[0], utf8).0, events[1..], utf8)
  }

  lemma {:induction false} RunOneMore(s: State, events: seq<Event>, e: Event, utf8: Utf8)
    ensures Run(s, events + [e], utf8) == Run(s, events, utf8) + Step(After(s, events, utf8), e, utf8).1
    ensures After(s, events + [e], utf8) == Step(After(s, events, utf8), e, utf8).0
    decreases |events|
  {
    if events == [] {
      assert events + [e] == [e] && [e][1..] == [];
      assert Run(Step(s, e, utf8).0, [], utf8) == [];
    } else {
      assert (events + [e])[1..] == events[1..] + [e];
      RunOneMore(Step(s, events[0], utf8).0, events[1..], e, utf8);
    }
  }

  /** The channel carries what one `Inbound` makes of the calls on it, in their order. */
  ghost predicate Sequential(s: System, utf8: Utf8) {
    s.inbound == After(INITIAL, s.events, utf8) && Incomings(s.sent) == Run(INITIAL, s.events, utf8)
  }

  lemma EventSequential(s: System, e: Event, utf8: Utf8)
    requires Sequential(s, utf8)
    ensures Sequential(OnEvent(s, e, utf8), utf8)
  {
    RunOneMore(INITIAL, s.events, e, utf8);
    var out := Step(s.inbound, e, utf8).1;
    assert Incomings(OnEvent(s, e, utf8).sent) == Incomings(s.sent) + out;
  }

  lemma {:induction false} ExecuteSequential(s: System, actions: seq<Action>, utf8: Utf8)
    requires Sequential(s, utf8)
    ensures Sequential(Execute(s, actions, utf8), utf8)
    decreases |actions|
  {
    if actions != [] {
      match actions[0] {
        case ClientData(p) => EventSequential(s, Data(p), utf8);
        case ClientConnected => EventSequential(s, Connect, utf8);
        case ClientDisconnected => EventSequential(s, Disconnect, utf8);
        case Take =>
        case Settle =>
          if s.reader.Holding? && s.reader.incoming.Message? {
            EventSequential(s, ReadBytes(s.reader.incoming.frame.Len()), utf8);
          }
      }
      ExecuteSequential(Next(s, actions[0], utf8), actions[1..], utf8);
    }
  }

  lemma ReachableSequential(s: System, utf8: Utf8)
    requires Reachable(s, utf8)
    ensures Sequential(s, utf8)
  {
    var actions: seq<Action> :| s == Execute(START, actions, utf8);
    ExecuteSequential(START, actions, utf8);
  }

  lemma {:induction false} FramesInPrefix(incoming: seq<Incoming>, k: nat)
    requires k <= |incoming|
    ensures FramesIn(incoming[..k]) <= FramesIn(incoming)
  {
    assert incoming == incoming[..k] + incoming[k..];
    FramesInAppend(incoming[..k], incoming[k..]);
  }

  lemma NoOverflowSent(s: System)
    requires OverflowKnown(s) && !s.inbound.overflowed
    ensures Overflow !in Incomings(s.sent)
  {}

  lemma DeliveredMeans(s: System)
    requires Delivery(s)
    ensures 0 <= Settled(s) <= |s.sent| && s.delivered == FramesIn(Incomings(s.sent[..Settled(s)]))
    ensures s.delivered <= FramesIn(Incomings(s.sent))
    ensures s.reader.Idle? && s.taken == |s.sent| ==> s.delivered == FramesIn(Incomings(s.sent))
  {
    var k := Settled(s);
    assert Incomings(s.sent[..k]) == Incomings(s.sent)[..k];
    FramesInPrefix(Incomings(s.sent), k);
    assert s.sent[..|s.sent|] == s.sent;
  }

  /** The pieces of messages that the client was handed in a schedule. */
  function Carried(actions: seq<Action>): seq<Piece> {
    if actions == [] then [] else
      (if actions[0].ClientData? && actions[0].piece.opcode <= 2 then [actions[0].piece] else [])
      + Carried(actions[1..])
  }

  /** The calls on the `Inbound` are those the schedule has the client make, and no others. */
  lemma {:induction false} CallsAreActions(s: System, actions: seq<Action>, utf8: Utf8)
    ensures
      var s' := Execute(s, actions, utf8);
      && MessagePiecesIn(s'.events) == MessagePiecesIn(s.events) + Carried(actions)
      && (Connect in s'.events <==> Connect in s.events || ClientConnected in actions)
    decreases |actions|
  {
    if actions != [] {
      var a, s' := actions[0], Next(s, actions[0], utf8);
      CallOf(s, a, utf8);
      CallsAreActions(s', actions[1..], utf8);
      assert Carried([a]) + Carried(actions[1..]) == Carried(actions) by { assert [a][1..] == []; }
      assert MessagePiecesIn(s.events) + Carried([a]) + Carried(actions[1..])
          == MessagePiecesIn(s.events) + (Carried([a]) + Carried(actions[1..]));
      assert ClientConnected in actions <==> a.ClientConnected? || ClientConnected in actions[1..];
    }
  }

  lemma CallOf(s: System, a: Action, utf8: Utf8)
    ensures
      var s' := Next(s, a, utf8);
      && MessagePiecesIn(s'.events) == MessagePiecesIn(s.events) + Carried([a])
      && (Connect in s'.events <==> Connect in s.events || a.ClientConnected?)
  {
    hide Step;
    var s' := Next(s, a, utf8);
    assert [a][1..] == [];
    if s'.events != s.events {
      var e := s'.events[|s.events|];
      MessagePiecesAppend(s.events, [e]);
      assert [e][1..] == [];
    }
  }

  /**
   For every schedule of the two tasks: if what the socket carried were these messages, then
   what the session was given are the first few of them, whole, and in order; and once the run
   loop has taken all there is, and nothing has overflowed, they are all of them.
   */
  lemma MessagesSurviveTheHandoff(actions: seq<Action>, items: seq<Item>, utf8: Utf8)
    requires ValidItems(items) && Carried(actions) == Wire(items)
    ensures
      var s := Execute(START, actions, utf8);
      && s.delivered <= Delivered(items, utf8)
      && (s.reader.Idle? && s.taken == |s.sent| && !s.inbound.overflowed ==> s.delivered == Delivered(items, utf8))
  {
    hide Accounted, OverflowKnown, Numbered, Delivery, Run, FramesIn, Incomings, Delivered, Wire, Execute;
    var s := Execute(START, actions, utf8);
    assert Reachable(s, utf8);
    ReachableInv(s, utf8);
    ReachableSequential(s, utf8);
    CallsAreActions(START, actions, utf8);
    ReassemblesExactly(INITIAL, s.events, items, utf8);
    DeliveredMeans(s);
    if !s.inbound.overflowed {
      NoOverflowSent(s);
    }
  }

  // ---------- And they do arrive ----------

  /** The run loop left to itself: what it holds, and then `n` items more. */
  function Reading(n: nat): seq<Action> {
    if n == 0 then [Settle] else [Settle, Take] + Reading(n - 1)
  }

  lemma {:induction false} ExecuteSplit(s: System, a: seq<Action>, b: seq<Action>, utf8: Utf8)
    ensures Execute(s, a + b, utf8) == Execute(Execute(s, a, utf8), b, utf8)
    decreases |a|
  {
    hide Next;
    if a == [] {
      assert a + b == b;
    } else {
      assert (a + b)[1..] == a[1..] + b;
      ExecuteSplit(Next(s, a[0], utf8), a[1..], b, utf8);
    }
  }

  lemma Settles(s: System, utf8: Utf8)
    requires s.taken <= |s.sent|
    ensures
      var s' := Next(s, Settle, utf8);
      && s'.sent == s.sent && s'.taken == s.taken && !s'.reader.Holding?
      && (s.reader.Ended? ==> s'.reader.Ended?)
      && s'.inbound.overflowed == s.inbound.overflowed && s'.closesReported == s.closesReported
  {}

  /** It reads all that has been sent, or to what ends the session. */
  lemma {:induction false} RunLoopDrains(s: System, n: nat, utf8: Utf8)
    requires s.taken + n == |s.sent|
    ensures
      var s' := Execute(s, Reading(n), utf8);
      && s'.sent == s.sent && s'.inbound.overflowed == s.inbound.overflowed
      && s'.closesReported == s.closesReported
      && (s'.reader.Ended? || (s'.reader.Idle? && s'.taken == |s'.sent|))
    decreases n
  {
    Settles(s, utf8);
    var s1 := Next(s, Settle, utf8);
    if n == 0 {
      assert [Settle][1..] == [] && Execute(s, [Settle], utf8) == Execute(s1, [], utf8);
    } else {
      assert Reading(n)[1..] == [Take] + Reading(n - 1) && Reading(n)[1..][1..] == Reading(n - 1);
      var s2 := Next(s1, Take, utf8);
      assert Execute(s, Reading(n), utf8) == Execute(s2, Reading(n - 1), utf8);
      if s1.reader.Ended? {
        ReadingIsReading(n - 1);
        StaysEnded(s2, Reading(n - 1), utf8);
      } else {
        RunLoopDrains(s2, n - 1, utf8);
      }
    }
  }

  lemma {:induction false} StaysEnded(s: System, actions: seq<Action>, utf8: Utf8)
    requires s.reader.Ended? && forall i :: 0 <= i < |actions| ==> actions[i].Take? || actions[i].Settle?
    ensures Execute(s, actions, utf8) == s
    decreases |actions|
  {
    if actions != [] {
      StaysEnded(s, actions[1..], utf8);
    }
  }

  lemma {:induction false} ReadingIsReading(n: nat)
    ensures forall i :: 0 <= i < |Reading(n)| ==> Reading(n)[i].Take? || Reading(n)[i].Settle?
    ensures Carried(Reading(n)) == []
  {
    if n > 0 {
      ReadingIsReading(n - 1);
      assert Reading(n)[1..] == [Take] + Reading(n - 1) && Reading(n)[1..][1..] == Reading(n - 1);
    }
  }

  lemma {:induction false} CarriedAppend(a: seq<Action>, b: seq<Action>)
    ensures Carried(a + b) == Carried(a) + Carried(b)
  {
    if a == [] {
      assert a + b == b;
    } else {
      assert (a + b)[1..] == a[1..] + b;
      CarriedAppend(a[1..], b);
    }
  }

  lemma LittleIsNotOverflowed(s: System, utf8: Utf8)
    requires Reachable(s, utf8) && |BytesOf(MessagePiecesIn(s.events))| <= 16 * 1024
    ensures !s.inbound.overflowed
  {
    hide Accounted, Numbered, Delivery, Run, Reachable;
    ReachableInv(s, utf8);
    ReachableSequential(s, utf8);
    LittleNeverOverflows(INITIAL, s.events, utf8);
    if s.inbound.overflowed {
      OverflowWasSent(s);
    }
  }

  lemma OverflowWasSent(s: System)
    requires OverflowKnown(s) && s.inbound.overflowed
    ensures Overflow in Incomings(s.sent)
  {
    var i :| 0 <= i < |s.sent| && s.sent[i].incoming.Overflow?;
    assert Incomings(s.sent)[i] == Overflow;
  }

  /**
   Whatever the schedule was, the run loop has only to go on reading: unless the socket closed on
   it, or more than sixteen kilobytes of messages came and overflowed, it gets every message.
   */
  lemma EveryMessageArrives(actions: seq<Action>, items: seq<Item>, utf8: Utf8)
    requires ValidItems(items) && Carried(actions) == Wire(items)
    ensures
      var s := Execute(START, actions, utf8);
      && s.taken <= |s.sent|
      && (|BytesOf(Wire(items))| <= 16 * 1024 ==> !s.inbound.overflowed)
      && (!s.inbound.overflowed && s.closesReported < U32
          && (forall i :: 0 <= i < |s.sent| ==> !(s.sent[i].incoming.Closed? && s.sent[i].connected)) ==>
            Execute(s, Reading(|s.sent| - s.taken), utf8).delivered == Delivered(items, utf8))
  {
    hide Accounted, Numbered, Run, FramesIn, Incomings, Delivered, Wire, Execute, Reachable;
    var s := Execute(START, actions, utf8);
    assert Reachable(s, utf8) by { Reached(actions, utf8); }
    ReachableInv(s, utf8);
    CallsAreActions(START, actions, utf8);
    assert MessagePiecesIn(START.events) + Carried(actions) == Carried(actions);
    if |BytesOf(Wire(items))| <= 16 * 1024 {
      LittleIsNotOverflowed(s, utf8);
    }
    var n := |s.sent| - s.taken;
    var all := actions + Reading(n);
    var t := Execute(s, Reading(n), utf8);
    ExecuteSplit(START, actions, Reading(n), utf8);
    assert Reachable(t, utf8) by { Reached(all, utf8); }
    ReachableInv(t, utf8);
    RunLoopDrains(s, n, utf8);
    ReadingIsReading(n);
    CarriedAppend(actions, Reading(n));
    assert Carried(actions) + [] == Carried(actions);
    MessagesSurviveTheHandoff(all, items, utf8);
  }

  lemma Reached(actions: seq<Action>, utf8: Utf8)
    ensures Reachable(Execute(START, actions, utf8), utf8)
  {}
}
