/**
 Messages, from the pieces of frames they arrive in (src/inbound.rs).

 A frame may be handed over in pieces, and a message may be fragmented over several
 frames (section 5.4 of RFC 6455). `Inbound` is the class that turns them into messages;
 the functions over `State` say what each of its methods does, and the lemmas say what
 that means for a whole stream of events.
 */
module Reassembly {
  import opened Common

  const MAX_UNREAD_BYTES: nat := 16 * 1024

  const CONTINUATION: byte := 0x0
  const TEXT: byte := 0x1
  const BINARY: byte := 0x2
  const CLOSE: byte := 0x8

  /** `u32` arithmetic on the close counter wraps in a release build. */
  const U32: nat := 0x1_0000_0000

  // ---------- Data ----------

  datatype Frame = Text(text: seq<byte>) | Binary(bytes: seq<byte>) {
    function Len(): nat { if Text? then |text| else |bytes| }
  }

  datatype Incoming = Message(frame: Frame) | Closed(n: nat) | Overflow

  datatype Piece = Piece(opcode: byte, fin: bool, offset: nat, payloadLen: nat, bytes: seq<byte>) {
    predicate IsData() { opcode == TEXT || opcode == BINARY || opcode == CONTINUATION }
    predicate Starts() { (opcode == TEXT || opcode == BINARY) && offset == 0 }
    predicate Completes() { fin && offset + |bytes| >= payloadLen }
  }

  datatype State = State(
    partial: seq<byte>, binary: bool, unread: nat, overflowed: bool,
    closes: nat, closesBeforeConnecting: Option<nat>)

  const INITIAL := State([], false, 0, false, 0, None)

  /** Which bytes are text is the standard library's to say; nothing here depends on it. */
  type Utf8 = seq<byte> -> bool

  // ---------- What each method does ----------

  function OnConnected(s: State): State {
    if s.closesBeforeConnecting.None? then s.(closesBeforeConnecting := Some(s.closes)) else s
  }

  function OnClosed(s: State): (State, Incoming) {
    var n := (s.closes + 1) % U32;
    (s.(closes := n), Closed(n))
  }

  predicate EndsSession(s: State, n: nat) {
    s.closesBeforeConnecting.Some? && n > s.closesBeforeConnecting.value
  }

  function OnRead(s: State, length: nat): State {
    s.(unread := if s.unread >= length then s.unread - length else 0)
  }

  function OnPiece(s: State, p: Piece, utf8: Utf8): (State, Option<Incoming>) {
    if p.opcode == CLOSE then
      var (s', incoming) := OnClosed(s);
      (s', Some(incoming))
    else if !p.IsData() || s.overflowed then
      (s, None)
    else
      var s := if p.Starts() then s.(partial := [], binary := p.opcode == BINARY) else s;
      if s.unread + |s.partial| + |p.bytes| > MAX_UNREAD_BYTES then
        (s.(overflowed := true, partial := []), Some(Overflow))
      else
        var message := s.partial + p.bytes;
        if !p.Completes() then
          (s.(partial := message), None)
        else if s.binary then
          (s.(partial := [], unread := s.unread + |message|), Some(Message(Binary(message))))
        else if utf8(message) then
          (s.(partial := [], unread := s.unread + |message|), Some(Message(Text(message))))
        else
          (s.(partial := []), None)
  }

  class Inbound {
    var partial: seq<byte>
    var binary: bool
    var unread: nat
    var overflowed: bool
    var closes: nat
    var closesBeforeConnecting: Option<nat>
    const utf8: Utf8

    function Get(): State
      reads this
    {
      State(partial, binary, unread, overflowed, closes, closesBeforeConnecting)
    }

    constructor (utf8: Utf8)
      ensures Get() == INITIAL && this.utf8 == utf8
    {
      partial, binary, unread, overflowed, closes := [], false, 0, false, 0;
      closesBeforeConnecting := None;
      this.utf8 := utf8;
    }

    method Connected()
      modifies this
      ensures Get() == OnConnected(old(Get()))
    {
      if closesBeforeConnecting.None? {
        closesBeforeConnecting := Some(closes);
      }
    }

    method SocketClosed() returns (incoming: Incoming)
      modifies this
      ensures (Get(), incoming) == OnClosed(old(Get()))
    {
      closes := (closes + 1) % U32;
      incoming := Closed(closes);
    }

    method Read(frame: Frame)
      modifies this
      ensures Get() == OnRead(old(Get()), frame.Len())
    {
      unread := if unread >= frame.Len() then unread - frame.Len() else 0;
    }

    method TakePiece(p: Piece) returns (incoming: Option<Incoming>)
      modifies this
      ensures (Get(), incoming) == OnPiece(old(Get()), p, utf8)
    {
      if p.opcode == CLOSE {
        var closed := SocketClosed();
        return Some(closed);
      }
      if !p.IsData() || overflowed {
        return None;
      }
      // Nothing of an unfinished message survives the start of another.
      if p.opcode != CONTINUATION && p.offset == 0 {
        partial, binary := [], p.opcode == BINARY;
      }
      if unread + |partial| + |p.bytes| > MAX_UNREAD_BYTES {
        overflowed, partial := true, [];
        return Some(Overflow);
      }
      partial := partial + p.bytes;
      if !(p.offset + |p.bytes| >= p.payloadLen && p.fin) {
        return None;
      }
      var message := partial;
      partial := [];
      if !binary && !utf8(message) {
        return None;
      }
      var frame := if binary then Binary(message) else Text(message);
      unread := unread + frame.Len();
      incoming := Some(Message(frame));
    }
  }

  // ---------- Streams of events ----------

  datatype Event = Data(piece: Piece) | Connect | Disconnect | ReadBytes(length: nat)

  function Step(s: State, e: Event, utf8: Utf8): (State, seq<Incoming>) {
    match e
    case Data(p) =>
      var (s', incoming) := OnPiece(s, p, utf8);
      (s', if incoming.Some? then [incoming.value] else [])
    case Connect => (OnConnected(s), [])
    case Disconnect => var (s', incoming) := OnClosed(s); (s', [incoming])
    case ReadBytes(n) => (OnRead(s, n), [])
  }

  function Run(s: State, events: seq<Event>, utf8: Utf8): seq<Incoming>
    decreases |events|
  {
    if events == [] then [] else
      var (s', out) := Step(s, events[0], utf8);
      out + Run(s', events[1..], utf8)
  }

  function FrameOf(incoming: Incoming): seq<Frame> {
    if incoming.Message? then [incoming.frame] else []
  }

  function FramesIn(incoming: seq<Incoming>): seq<Frame> {
    if incoming == [] then [] else FrameOf(incoming[0]) + FramesIn(incoming[1..])
  }

  function DataPieceOf(e: Event): seq<Piece> {
    if e.Data? && e.piece.IsData() then [e.piece] else []
  }

  function DataPieces(events: seq<Event>): seq<Piece> {
    if events == [] then [] else DataPieceOf(events[0]) + DataPieces(events[1..])
  }

  // ---------- The simple form: no cap, no control frames, no counting ----------

  function Frames(message: seq<byte>, binary: bool, utf8: Utf8): seq<Frame> {
    if binary then [Binary(message)] else if utf8(message) then [Text(message)] else []
  }

  /** The frames an uncapped reassembler makes of data pieces. */
  function Gather(partial: seq<byte>, binary: bool, pieces: seq<Piece>, utf8: Utf8): seq<Frame>
    decreases |pieces|
  {
    if pieces == [] then [] else
      var p := pieces[0];
      var kept := if p.Starts() then [] else partial;
      var kind := if p.Starts() then p.opcode == BINARY else binary;
      if p.Completes() then
        Frames(kept + p.bytes, kind, utf8) + Gather([], kind, pieces[1..], utf8)
      else
        Gather(kept + p.bytes, kind, pieces[1..], utf8)
  }

  lemma OverflowedStep(s: State, e: Event, utf8: Utf8)
    requires s.overflowed
    ensures
      var (s', out) := Step(s, e, utf8);
      s'.overflowed && FramesIn(out) == [] && Overflow !in out
  {
    var out := Step(s, e, utf8).1;
    assert out != [] ==> out[1..] == [] && FramesIn(out) == FrameOf(out[0]) + [];
  }

  /** A close is a close, by its opcode or by the client's word; and other control frames are nothing. */
  lemma ControlFrames(s: State, e: Event, utf8: Utf8)
    requires e.Disconnect? || (e.Data? && e.piece.opcode > 2)
    ensures
      var n := (s.closes + 1) % 0x1_0000_0000;
      Step(s, e, utf8) == if e.Disconnect? || e.piece.opcode == 8 then (s.(closes := n), [Closed(n)]) else (s, [])
  {}

  /** An overflowed reassembler emits no more frames. */
  lemma {:induction false} OverflowedIsSilent(s: State, events: seq<Event>, utf8: Utf8)
    requires s.overflowed
    ensures FramesIn(Run(s, events, utf8)) == []
    ensures Overflow !in Run(s, events, utf8)
    decreases |events|
  {
    if events != [] {
      hide Step;
      var (s', out) := Step(s, events[0], utf8);
      OverflowedStep(s, events[0], utf8);
      OverflowedIsSilent(s', events[1..], utf8);
      FramesInAppend(out, Run(s', events[1..], utf8));
    }
  }

  lemma {:induction false} FramesInAppend(a: seq<Incoming>, b: seq<Incoming>)
    ensures FramesIn(a + b) == FramesIn(a) + FramesIn(b)
  {
    if a == [] {
      assert a + b == b;
    } else {
      assert (a + b)[1..] == a[1..] + b;
      FramesInAppend(a[1..], b);
    }
  }

  lemma GatherOne(partial: seq<byte>, binary: bool, p: Piece, more: seq<Piece>, utf8: Utf8)
    ensures
      var kept := (if p.Starts() then [] else partial) + p.bytes;
      var kind := if p.Starts() then p.opcode == BINARY else binary;
      Gather(partial, binary, [p] + more, utf8)
      == if p.Completes() then Frames(kept, kind, utf8) + Gather([], kind, more, utf8)
         else Gather(kept, kind, more, utf8)
  {
    assert ([p] + more)[1..] == more;
  }

  lemma PieceRefinesGather(s: State, p: Piece, more: seq<Piece>, utf8: Utf8)
    requires !s.overflowed && p.IsData()
    ensures
      var (s', out) := OnPiece(s, p, utf8);
      if s'.overflowed then out == Some(Overflow)
      else
        && out != Some(Overflow)
        && Gather(s.partial, s.binary, [p] + more, utf8)
        == (if out.Some? then FrameOf(out.value) else []) + Gather(s'.partial, s'.binary, more, utf8)
  {
    hide Gather;
    GatherOne(s.partial, s.binary, p, more, utf8);
    var (s', out) := OnPiece(s, p, utf8);
    assert [] + Gather(s'.partial, s'.binary, more, utf8) == Gather(s'.partial, s'.binary, more, utf8);
  }

  /** One event: what it emits, and the simple form's state after it. */
  lemma StepRefinesGather(s: State, e: Event, more: seq<Piece>, utf8: Utf8)
    requires !s.overflowed
    ensures
      var (s', out) := Step(s, e, utf8);
      if s'.overflowed then out == [Overflow]
      else
        && Overflow !in out
        && Gather(s.partial, s.binary, DataPieceOf(e) + more, utf8)
        == FramesIn(out) + Gather(s'.partial, s'.binary, more, utf8)
  {
    hide Gather;
    var (s', out) := Step(s, e, utf8);
    assert out != [] ==> out[1..] == [] && FramesIn(out) == FrameOf(out[0]) + [];
    if DataPieceOf(e) == [] {
      assert DataPieceOf(e) + more == more;
      assert [] + Gather(s.partial, s.binary, more, utf8) == Gather(s.partial, s.binary, more, utf8);
    } else {
      hide OnPiece;
      PieceRefinesGather(s, e.piece, more, utf8);
    }
  }

  /**
   Whatever is interleaved with the data -- pings, closes, connections, reads -- the frames
   emitted are those of the uncapped reassembler, up to an overflow if there is one.
   */
  lemma {:induction false} RunRefinesGather(s: State, events: seq<Event>, utf8: Utf8)
    requires !s.overflowed
    ensures
      var emitted := Run(s, events, utf8);
      var gathered := Gather(s.partial, s.binary, DataPieces(events), utf8);
      FramesIn(emitted) <= gathered && (Overflow !in emitted ==> FramesIn(emitted) == gathered)
    decreases |events|
  {
    if events != [] {
      var (s', out) := Step(s, events[0], utf8);
      FramesInAppend(out, Run(s', events[1..], utf8));
      StepRefinesGather(s, events[0], DataPieces(events[1..]), utf8);
      if s'.overflowed {
        OverflowedIsSilent(s', events[1..], utf8);
        assert FramesIn(out) == [];
      } else {
        RunRefinesGather(s', events[1..], utf8);
      }
    }
  }

  // ---------- The wire: messages, their fragments, and the pieces of each ----------

  // Opcodes here are the numbers of section 5.2 of RFC 6455: 0 goes on with a message, 1 begins
  // a text, 2 a binary.

  /** One frame is the list of its pieces; a message is the list of its frames. */
  datatype Fragmented = Fragmented(binary: bool, frames: seq<seq<seq<byte>>>) {
    predicate Valid() {
      |frames| > 0 && forall i :: 0 <= i < |frames| ==> ValidFrame(frames[i])
    }
    function Payload(): seq<byte> { Concat(Concat(frames)) }
    function Pieces(): seq<Piece>
      requires Valid()
    {
      MessagePieces(if binary then 2 else 1, frames)
    }
  }

  /** No piece is empty, except the only piece of an empty frame. */
  predicate ValidFrame(parts: seq<seq<byte>>) {
    |parts| > 0 && (|parts| == 1 || forall i :: 0 <= i < |parts| ==> parts[i] != [])
  }

  function FramePieces(opcode: byte, fin: bool, offset: nat, total: nat, parts: seq<seq<byte>>): seq<Piece>
    decreases |parts|
  {
    if parts == [] then [] else
      [Piece(opcode, fin, offset, total, parts[0])] +
      FramePieces(opcode, fin, offset + |parts[0]|, total, parts[1..])
  }

  function MessagePieces(opcode: byte, frames: seq<seq<seq<byte>>>): seq<Piece>
    requires |frames| > 0
  {
    FramePieces(opcode, |frames| == 1, 0, |Concat(frames[0])|, frames[0]) +
    if |frames| == 1 then [] else MessagePieces(0, frames[1..])
  }

  /** What is sent: whole messages, and messages cut off by whatever comes next. */
  datatype Item = Whole(message: Fragmented) | CutOff(message: Fragmented, kept: nat)

  predicate ValidItem(item: Item) {
    item.message.Valid() && (item.CutOff? ==> item.kept < |item.message.Pieces()|)
  }

  predicate ValidItems(items: seq<Item>) { forall i :: 0 <= i < |items| ==> ValidItem(items[i]) }

  function ItemPieces(item: Item): seq<Piece>
    requires ValidItem(item)
  {
    if item.Whole? then item.message.Pieces() else item.message.Pieces()[..item.kept]
  }

  function Wire(items: seq<Item>): seq<Piece>
    requires ValidItems(items)
  {
    if items == [] then [] else ItemPieces(items[0]) + Wire(items[1..])
  }

  /** The messages a receiver should see: the whole ones, less any text that is not UTF-8. */
  function Delivered(items: seq<Item>, utf8: Utf8): seq<Frame> {
    if items == [] then [] else
      (if items[0].Whole? then Frames(items[0].message.Payload(), items[0].message.binary, utf8) else []) +
      Delivered(items[1..], utf8)
  }

  /** Pieces of one message: data, started by the first alone, completed by the last alone. */
  predicate OneMessage(pieces: seq<Piece>) {
    EndsOnly(pieces, true) && pieces[0].Starts() && Continues(pieces[1..])
  }

  predicate Continues(pieces: seq<Piece>) {
    forall i :: 0 <= i < |pieces| ==> !pieces[i].Starts()
  }

  function BytesOf(pieces: seq<Piece>): seq<byte> {
    if pieces == [] then [] else pieces[0].bytes + BytesOf(pieces[1..])
  }

  lemma {:induction false} BytesOfAppend(a: seq<Piece>, b: seq<Piece>)
    ensures BytesOf(a + b) == BytesOf(a) + BytesOf(b)
  {
    if a == [] {
      assert a + b == b;
    } else {
      assert (a + b)[1..] == a[1..] + b;
      BytesOfAppend(a[1..], b);
    }
  }

  /** Only a piece that reaches the frame's end, in the final frame, completes a message. */
  predicate EndsOnly(pieces: seq<Piece>, fin: bool) {
    |pieces| > 0
    && (forall i :: 0 <= i < |pieces| - 1 ==> !pieces[i].Completes())
    && pieces[|pieces| - 1].Completes() == fin
  }

  lemma {:induction false} FrameBytes(opcode: byte, fin: bool, offset: nat, total: nat, parts: seq<seq<byte>>)
    ensures BytesOf(FramePieces(opcode, fin, offset, total, parts)) == Concat(parts)
    decreases |parts|
  {
    if parts != [] {
      FrameBytes(opcode, fin, offset + |parts[0]|, total, parts[1..]);
    }
  }

  lemma {:induction false} FrameShape(opcode: byte, fin: bool, offset: nat, total: nat, parts: seq<seq<byte>>)
    requires ValidFrame(parts) && offset + |Concat(parts)| == total
    ensures
      var pieces := FramePieces(opcode, fin, offset, total, parts);
      && EndsOnly(pieces, fin) && Continues(pieces[1..])
      && pieces[0].opcode == opcode && pieces[0].offset == offset
    decreases |parts|
  {
    var rest := FramePieces(opcode, fin, offset + |parts[0]|, total, parts[1..]);
    var pieces := [Piece(opcode, fin, offset, total, parts[0])] + rest;
    if |parts| == 1 {
      assert Concat(parts[1..]) == [];
    } else {
      assert parts[1..][0] != [];
      FrameShape(opcode, fin, offset + |parts[0]|, total, parts[1..]);
      EndsOnlyAppend(pieces[..1], rest, fin);
      assert pieces[..1] + rest == pieces && pieces[1..] == rest;
      assert Continues([rest[0]] + rest[1..]);
      assert [rest[0]] + rest[1..] == rest;
    }
  }

  lemma EndsOnlyAppend(a: seq<Piece>, b: seq<Piece>, fin: bool)
    requires EndsOnly(a, false) && EndsOnly(b, fin)
    ensures EndsOnly(a + b, fin)
  {
    forall i | 0 <= i < |a + b| - 1 ensures !(a + b)[i].Completes() {
      if i >= |a| {
        assert (a + b)[i] == b[i - |a|];
      }
    }
  }

  lemma {:induction false} MessageBytes(opcode: byte, frames: seq<seq<seq<byte>>>)
    requires |frames| > 0
    ensures BytesOf(MessagePieces(opcode, frames)) == Concat(Concat(frames))
  {
    var first := FramePieces(opcode, |frames| == 1, 0, |Concat(frames[0])|, frames[0]);
    FrameBytes(opcode, |frames| == 1, 0, |Concat(frames[0])|, frames[0]);
    ConcatAppend(frames[0], Concat(frames[1..]));
    if |frames| == 1 {
      assert Concat(frames[1..]) == [];
      assert MessagePieces(opcode, frames) == first;
    } else {
      MessageBytes(0, frames[1..]);
      BytesOfAppend(first, MessagePieces(0, frames[1..]));
    }
  }

  lemma {:induction false} MessageShape(opcode: byte, frames: seq<seq<seq<byte>>>)
    requires |frames| > 0 && forall i :: 0 <= i < |frames| ==> ValidFrame(frames[i])
    ensures
      var pieces := MessagePieces(opcode, frames);
      && EndsOnly(pieces, true) && Continues(pieces[1..])
      && pieces[0].opcode == opcode && pieces[0].offset == 0
  {
    var first := FramePieces(opcode, |frames| == 1, 0, |Concat(frames[0])|, frames[0]);
    FrameShape(opcode, |frames| == 1, 0, |Concat(frames[0])|, frames[0]);
    if |frames| == 1 {
      assert MessagePieces(opcode, frames) == first;
    } else {
      var rest := MessagePieces(0, frames[1..]);
      MessageShape(0, frames[1..]);
      EndsOnlyAppend(first, rest, true);
      assert (first + rest)[1..] == first[1..] + [rest[0]] + rest[1..];
    }
  }

  lemma {:induction false} RestOfMessage(
    partial: seq<byte>, binary: bool, pieces: seq<Piece>, more: seq<Piece>, utf8: Utf8)
    requires EndsOnly(pieces, true) && Continues(pieces)
    ensures Gather(partial, binary, pieces + more, utf8)
         == Frames(partial + BytesOf(pieces), binary, utf8) + Gather([], binary, more, utf8)
    decreases |pieces|
  {
    assert (pieces + more)[1..] == pieces[1..] + more;
    assert !pieces[0].Starts();
    if |pieces| == 1 {
      assert pieces[1..] == [] && pieces[1..] + more == more;
      assert BytesOf(pieces) == pieces[0].bytes;
    } else {
      assert !pieces[0].Completes();
      RestOfMessage(partial + pieces[0].bytes, binary, pieces[1..], more, utf8);
      assert partial + pieces[0].bytes + BytesOf(pieces[1..]) == partial + BytesOf(pieces);
    }
  }

  /** A start of a message forgets whatever came before it. */
  lemma MessageGathersWhole(
    partial: seq<byte>, binary: bool, pieces: seq<Piece>, more: seq<Piece>, utf8: Utf8)
    requires OneMessage(pieces)
    ensures
      var kind := pieces[0].opcode == BINARY;
      Gather(partial, binary, pieces + more, utf8)
      == Frames(BytesOf(pieces), kind, utf8) + Gather([], kind, more, utf8)
  {
    var kind := pieces[0].opcode == BINARY;
    var all := pieces + more;
    assert all[0] == pieces[0] && all[1..] == pieces[1..] + more;
    if |pieces| == 1 {
      assert pieces[1..] == [] && pieces[1..] + more == more;
      assert BytesOf(pieces) == [] + pieces[0].bytes;
    } else {
      RestOfMessage(pieces[0].bytes, kind, pieces[1..], more, utf8);
      assert [] + pieces[0].bytes == pieces[0].bytes;
    }
  }

  lemma {:induction false} PartThenMore(
    partial: seq<byte>, binary: bool, pieces: seq<Piece>, more: seq<Piece>, utf8: Utf8)
    returns (partial': seq<byte>, binary': bool)
    requires forall i :: 0 <= i < |pieces| ==> !pieces[i].Completes()
    ensures Gather(partial, binary, pieces + more, utf8) == Gather(partial', binary', more, utf8)
    decreases |pieces|
  {
    if pieces == [] {
      assert pieces + more == more;
      return partial, binary;
    }
    var p := pieces[0];
    assert (pieces + more)[1..] == pieces[1..] + more;
    partial', binary' := PartThenMore(
      (if p.Starts() then [] else partial) + p.bytes, if p.Starts() then p.opcode == BINARY else binary,
      pieces[1..], more, utf8);
  }

  /** From any state: the whole messages come out, in order, and nothing of the cut-off ones. */
  lemma {:induction false} WireGathers(partial: seq<byte>, binary: bool, items: seq<Item>, utf8: Utf8)
    requires ValidItems(items)
    ensures Gather(partial, binary, Wire(items), utf8) == Delivered(items, utf8)
    decreases |items|
  {
    if items != [] {
      var message := items[0].message;
      var pieces := ItemPieces(items[0]);
      var opcode := if message.binary then 2 else 1;
      MessageShape(opcode, message.frames);
      MessageBytes(opcode, message.frames);
      if items[0].Whole? {
        MessageGathersWhole(partial, binary, pieces, Wire(items[1..]), utf8);
        WireGathers([], message.binary, items[1..], utf8);
      } else {
        var partial', binary' := PartThenMore(partial, binary, pieces, Wire(items[1..]), utf8);
        WireGathers(partial', binary', items[1..], utf8);
      }
    }
  }

  /** What the client was handed of messages, leaving out pings, pongs and closes. */
  function MessagePiecesIn(events: seq<Event>): seq<Piece> {
    if events == [] then [] else
      (if events[0].Data? && events[0].piece.opcode <= 2 then [events[0].piece] else []) + MessagePiecesIn(events[1..])
  }

  lemma {:induction false} MessagePiecesAppend(a: seq<Event>, b: seq<Event>)
    ensures MessagePiecesIn(a + b) == MessagePiecesIn(a) + MessagePiecesIn(b)
  {
    if a == [] {
      assert a + b == b;
    } else {
      assert (a + b)[1..] == a[1..] + b;
      MessagePiecesAppend(a[1..], b);
    }
  }

  lemma {:induction false} NothingIsLeftOut(events: seq<Event>)
    ensures DataPieces(events) == MessagePiecesIn(events)
  {
    if events != [] {
      NothingIsLeftOut(events[1..]);
    }
  }

  /**
   The main result. However messages are fragmented, however frames are cut into pieces,
   and whatever pings, closes, connections and reads come between, the frames emitted are
   the messages sent -- all of them when nothing overflows, the first few when it does.
   */
  lemma ReassemblesExactly(s: State, events: seq<Event>, items: seq<Item>, utf8: Utf8)
    requires ValidItems(items) && MessagePiecesIn(events) == Wire(items)
    requires !s.overflowed
    ensures FramesIn(Run(s, events, utf8)) <= Delivered(items, utf8)
    ensures Overflow !in Run(s, events, utf8) ==> FramesIn(Run(s, events, utf8)) == Delivered(items, utf8)
  {
    NothingIsLeftOut(events);
    RunRefinesGather(s, events, utf8);
    WireGathers(s.partial, s.binary, items, utf8);
  }

  function Handed(pieces: seq<Piece>): seq<Event> { seq(|pieces|, i requires 0 <= i < |pieces| => Data(pieces[i])) }

  lemma {:induction false} FramePiecesAreMessages(
    opcode: byte, fin: bool, offset: nat, total: nat, parts: seq<seq<byte>>, i: nat)
    requires opcode <= 2 && i < |FramePieces(opcode, fin, offset, total, parts)|
    ensures FramePieces(opcode, fin, offset, total, parts)[i].opcode <= 2
    decreases |parts|
  {
    if i > 0 {
      FramePiecesAreMessages(opcode, fin, offset + |parts[0]|, total, parts[1..], i - 1);
    }
  }

  lemma {:induction false} MessagePiecesAreMessages(opcode: byte, frames: seq<seq<seq<byte>>>, i: nat)
    requires |frames| > 0 && opcode <= 2 && i < |MessagePieces(opcode, frames)|
    ensures MessagePieces(opcode, frames)[i].opcode <= 2
  {
    var total := |Concat(frames[0])|;
    var first := FramePieces(opcode, |frames| == 1, 0, total, frames[0]);
    if i < |first| {
      FramePiecesAreMessages(opcode, |frames| == 1, 0, total, frames[0], i);
    } else {
      MessagePiecesAreMessages(0, frames[1..], i - |first|);
    }
  }

  lemma {:induction false} WireIsMessages(items: seq<Item>, i: nat)
    requires ValidItems(items) && i < |Wire(items)|
    ensures Wire(items)[i].opcode <= 2
    decreases |items|
  {
    var pieces, message := ItemPieces(items[0]), items[0].message;
    if i < |pieces| {
      MessagePiecesAreMessages(if message.binary then 2 else 1, message.frames, i);
    } else {
      WireIsMessages(items[1..], i - |pieces|);
    }
  }

  lemma {:induction false} HandedIsAllMessages(pieces: seq<Piece>)
    requires forall i :: 0 <= i < |pieces| ==> pieces[i].opcode <= 2
    ensures MessagePiecesIn(Handed(pieces)) == pieces
  {
    if pieces != [] {
      assert Handed(pieces)[1..] == Handed(pieces[1..]);
      HandedIsAllMessages(pieces[1..]);
    }
  }

  /** So what the client makes of nothing but the wire's own pieces is what was sent. */
  lemma TheWireComesOut(items: seq<Item>, utf8: Utf8)
    requires ValidItems(items)
    ensures
      var emitted := Run(INITIAL, Handed(Wire(items)), utf8);
      Overflow !in emitted ==> FramesIn(emitted) == Delivered(items, utf8)
  {
    forall i | 0 <= i < |Wire(items)| ensures Wire(items)[i].opcode <= 2 {
      WireIsMessages(items, i);
    }
    HandedIsAllMessages(Wire(items));
    ReassemblesExactly(INITIAL, Handed(Wire(items)), items, utf8);
  }

  /** While no more than sixteen kilobytes have come in all, read or not, nothing overflows. */
  lemma {:induction false} LittleNeverOverflows(s: State, events: seq<Event>, utf8: Utf8)
    requires !s.overflowed
    requires s.unread + |s.partial| + |BytesOf(MessagePiecesIn(events))| <= 16 * 1024
    ensures Overflow !in Run(s, events, utf8)
    decreases |events|
  {
    if events != [] {
      var now, later := MessagePiecesIn([events[0]]), MessagePiecesIn(events[1..]);
      assert [events[0]] + events[1..] == events;
      MessagePiecesAppend([events[0]], events[1..]);
      BytesOfAppend(now, later);
      LittleStep(s, events[0], BytesOf(later), utf8);
      LittleNeverOverflows(Step(s, events[0], utf8).0, events[1..], utf8);
    }
  }

  lemma LittleStep(s: State, e: Event, more: seq<byte>, utf8: Utf8)
    requires !s.overflowed
    requires s.unread + |s.partial| + |BytesOf(MessagePiecesIn([e]))| + |more| <= 16 * 1024
    ensures
      var (s', out) := Step(s, e, utf8);
      !s'.overflowed && Overflow !in out && s'.unread + |s'.partial| + |more| <= 16 * 1024
  {
    assert [e][1..] == [];
    var pieces := MessagePiecesIn([e]);
    if pieces != [] {
      assert pieces[1..] == [] && BytesOf(pieces) == e.piece.bytes + [];
    }
  }
}
