/**
 The bounded queue of log lines waiting to be sent (src/logging.rs).

 `LogBuffer` is the class; the functions over `Queue` say what each of its methods does. A
 `Ledger` puts the queue beside everything that ever went in and came out, one critical
 section at a time, so what holds of every ledger holds however the threads interleave.
 */
module LogQueue {
  import opened Common
  import opened Decimal

  /** Strings are UTF-8, a byte to each element. */
  datatype LogLine = LogLine(
    level: string, message: string, timestamp: Option<string>, meta: seq<(string, string)>,
    spare: nat)   // heap its strings and `meta` hold beyond their length

  /** The caps, and what a line and a pair of its `meta` take in themselves. */
  datatype Limits = Limits(capacity: nat, maxBytes: nat, lineSize: nat, pairSize: nat)

  datatype Queue = Queue(lines: seq<LogLine>, bytes: nat, dropped: nat)

  const EMPTY := Queue([], 0, 0)

  /** What a drain gives: a held line, or the note that so many were dropped. */
  datatype Out = Line(line: LogLine) | Note(dropped: nat)

  function MetaBytes(meta: seq<(string, string)>): nat {
    if meta == [] then 0 else |meta[0].0| + |meta[0].1| + MetaBytes(meta[1..])
  }

  function TimestampLength(line: LogLine, more: nat): nat {
    if line.timestamp.Some? then |line.timestamp.value| + more else 0
  }

  function HeapCost(limits: Limits, line: LogLine): nat {
    limits.lineSize + |line.meta| * limits.pairSize
    + |line.level| + |line.message| + TimestampLength(line, 0) + MetaBytes(line.meta) + line.spare
  }

  function JsonLength(line: LogLine): nat {
    |line.level| + |line.message| + TimestampLength(line, 16) + MetaBytes(line.meta) + 6 * |line.meta| + 40
  }

  /** Every string a line holds. */
  function Strings(line: LogLine): seq<string> {
    [line.level, line.message] + (if line.timestamp.Some? then [line.timestamp.value] else []) + Texts(line.meta)
  }

  function Texts(meta: seq<(string, string)>): seq<string> {
    if meta == [] then [] else [meta[0].0, meta[0].1] + Texts(meta[1..])
  }

  lemma {:induction false} MetaBytesAreTexts(meta: seq<(string, string)>)
    ensures MetaBytes(meta) == |Concat(Texts(meta))|
  {
    if meta != [] {
      MetaBytesAreTexts(meta[1..]);
      ConcatAppend([meta[0].0, meta[0].1], Texts(meta[1..]));
      TwoStrings(meta[0].0, meta[0].1);
    }
  }

  lemma TwoStrings(a: string, b: string)
    ensures Concat([a, b]) == a + b
  {
    assert [a, b][1..] == [b] && [b][1..] == [];
    assert Concat([b]) == b + Concat([]) == b;
  }

  /** What a line is reckoned at: every byte of every string, and what goes with them. */
  lemma CostIsWhatItHolds(limits: Limits, line: LogLine)
    ensures
      var text := |Concat(Strings(line))|;
      && HeapCost(limits, line) == text + line.spare + limits.lineSize + |line.meta| * limits.pairSize
      && JsonLength(line) == text + 6 * |line.meta| + 40 + if line.timestamp.Some? then 16 else 0
  {
    var time := if line.timestamp.Some? then [line.timestamp.value] else [];
    MetaBytesAreTexts(line.meta);
    TwoStrings(line.level, line.message);
    ConcatAppend([line.level, line.message], time);
    ConcatAppend([line.level, line.message] + time, Texts(line.meta));
    if time != [] {
      assert time[1..] == [] && time[0] + [] == time[0];
    }
  }

  function Costs(limits: Limits, lines: seq<LogLine>): nat {
    if lines == [] then 0 else HeapCost(limits, lines[0]) + Costs(limits, lines[1..])
  }

  function JsonLengths(lines: seq<LogLine>): nat {
    if lines == [] then 0 else JsonLength(lines[0]) + JsonLengths(lines[1..])
  }

  predicate HasTime(line: LogLine) {
    exists i :: 0 <= i < |line.meta| && line.meta[i].0 == "time"
  }

  function Stamp(line: LogLine, now: Option<nat>): LogLine {
    if !HasTime(line) && now.Some? then line.(meta := line.meta + [("time", Unsigned(now.value))]) else line
  }

  function NoteLine(dropped: nat): LogLine {
    LogLine("warning",
            Unsigned(dropped) + " log lines were dropped: the device logged more than it keeps waiting to send",
            None, [], 0)
  }

  function Later(now: Option<nat>, step: nat): Option<nat> {
    if now.Some? then Some(now.value + step) else None
  }

  /** What is sent for `out`, at place `i` of a batch. */
  function Render(out: Out, now: Option<nat>, i: nat): LogLine {
    Stamp(if out.Line? then out.line else NoteLine(out.dropped), Later(now, i))
  }

  function RenderAll(outs: seq<Out>, now: Option<nat>): seq<LogLine> {
    seq(|outs|, i requires 0 <= i < |outs| => Render(outs[i], now, i))
  }

  lemma RenderOneMore(outs: seq<Out>, out: Out, now: Option<nat>)
    ensures RenderAll(outs + [out], now) == RenderAll(outs, now) + [Render(out, now, |outs|)]
  {
    hide Render;
    var all := RenderAll(outs + [out], now);
    assert all[|outs|] == Render(out, now, |outs|) && all[..|outs|] == RenderAll(outs, now);
  }

  // ---------- What each method does ----------

  function Push(limits: Limits, q: Queue, line: LogLine): Queue {
    if |q.lines| >= limits.capacity || q.bytes + HeapCost(limits, line) > limits.maxBytes
    then q.(dropped := q.dropped + 1)
    else q.(lines := q.lines + [line], bytes := q.bytes + HeapCost(limits, line))
  }

  predicate HasRoom(limits: Limits, q: Queue) {
    |q.lines| < limits.capacity && q.bytes + limits.lineSize <= limits.maxBytes
  }

  function CountLost(q: Queue): Queue { q.(dropped := q.dropped + 1) }

  function SaturatingSub(a: nat, b: nat): nat { if a >= b then a - b else 0 }

  function PopFront(limits: Limits, q: Queue): Queue
    requires q.lines != []
  {
    q.(lines := q.lines[1..], bytes := SaturatingSub(q.bytes, HeapCost(limits, q.lines[0])))
  }

  /** The next line; or, once there is none, the note of what was dropped, which counts afresh. */
  function Pop(limits: Limits, q: Queue): (Queue, seq<Out>) {
    if q.lines != [] then (PopFront(limits, q), [Line(q.lines[0])])
    else if q.dropped > 0 then (q.(dropped := 0), [Note(q.dropped)])
    else (q, [])
  }

  /** Take lines while there is room for them in a batch of `taken` lines and `bytes` so far. */
  function Drain(limits: Limits, q: Queue, maxLines: nat, maxBytes: nat, taken: nat, bytes: nat): (Queue, seq<Out>)
    decreases |q.lines|
  {
    if taken >= maxLines || q.lines == [] then (q, [])
    else if taken > 0 && bytes + JsonLength(q.lines[0]) > maxBytes then (q, [])
    else
      var (q', outs) :=
        Drain(limits, PopFront(limits, q), maxLines, maxBytes, taken + 1, bytes + JsonLength(q.lines[0]));
      (q', [Line(q.lines[0])] + outs)
  }

  /** `take_stamped`, when nothing is pushed between its two halves. */
  function Take(limits: Limits, q: Queue, maxLines: nat, maxBytes: nat): (Queue, seq<Out>) {
    var (q', outs) := Drain(limits, q, maxLines, maxBytes, 0, 0);
    if q'.lines == [] && |outs| < maxLines then
      var (q'', note) := Pop(limits, q'); (q'', outs + note)
    else (q', outs)
  }

  class LogBuffer {
    const limits: Limits
    var lines: seq<LogLine>
    var bytes: nat
    var dropped: nat

    function Get(): Queue
      reads this
    {
      Queue(lines, bytes, dropped)
    }

    constructor (limits: Limits)
      ensures Get() == EMPTY && this.limits == limits
    {
      this.limits := limits;
      lines, bytes, dropped := [], 0, 0;
    }

    method TryPush(line: LogLine)
      modifies this
      ensures Get() == Push(limits, old(Get()), line)
      ensures
        var cost := |Concat(Strings(line))| + line.spare + limits.lineSize + |line.meta| * limits.pairSize;
        if old(|lines|) < limits.capacity && old(bytes) + cost <= limits.maxBytes
        then lines == old(lines) + [line] && bytes == old(bytes) + cost && dropped == old(dropped)
        else lines == old(lines) && bytes == old(bytes) && dropped == old(dropped) + 1
    {
      CostIsWhatItHolds(limits, line);
      var cost := HeapCost(limits, line);
      if |lines| >= limits.capacity || bytes + cost > limits.maxBytes {
        dropped := dropped + 1;
        return;
      }
      bytes := bytes + cost;
      lines := lines + [line];
    }

    method AskRoom() returns (room: bool)
      modifies this
      ensures room == HasRoom(limits, old(Get()))
      ensures Get() == if room then old(Get()) else CountLost(old(Get()))
      ensures lines == old(lines) && bytes == old(bytes) && dropped == old(dropped) + if room then 0 else 1
    {
      room := |lines| < limits.capacity && bytes + limits.lineSize <= limits.maxBytes;
      if !room {
        dropped := dropped + 1;
      }
    }

    method TakeFront() returns (line: LogLine)
      requires lines != []
      modifies this
      ensures line == old(lines)[0] && Get() == PopFront(limits, old(Get()))
    {
      line := lines[0];
      lines := lines[1..];
      bytes := SaturatingSub(bytes, HeapCost(limits, line));
    }

    method PopOne() returns (out: seq<Out>)
      modifies this
      ensures (Get(), out) == Pop(limits, old(Get()))
      ensures if old(lines) != [] then
                out == [Line(old(lines)[0])] && lines == old(lines)[1..] && dropped == old(dropped)
              else
                out == (if old(dropped) > 0 then [Note(old(dropped))] else []) && lines == [] && dropped == 0
    {
      if lines != [] {
        var line := TakeFront();
        return [Line(line)];
      }
      out := if dropped > 0 then [Note(dropped)] else [];
      dropped := 0;
    }

    /** A batch, as `take_stamped` builds it: line by line, each stamped as it is taken. */
    method TakeStamped(maxLines: nat, maxBytes: nat, now: Option<nat>) returns (batch: seq<LogLine>)
      modifies this
      ensures
        var (q, outs) := Take(limits, old(Get()), maxLines, maxBytes);
        Get() == q && batch == RenderAll(outs, now)
    {
      hide Render, Drain, HeapCost;
      batch := [];
      var size: nat := 0;
      ghost var outs: seq<Out> := [];
      ghost var all := Drain(limits, Get(), maxLines, maxBytes, 0, 0);
      assert outs + all.1 == all.1;
      while |batch| < maxLines && lines != []
        invariant batch == RenderAll(outs, now)
        invariant Continues(limits, all, Get(), maxLines, maxBytes, |batch|, size, outs)
        decreases |lines|
      {
        var next := JsonLength(lines[0]);
        if batch != [] && size + next > maxBytes {
          DrainStops(limits, all, Get(), maxLines, maxBytes, |batch|, size, outs);
          return;
        }
        DrainGoesOn(limits, all, Get(), maxLines, maxBytes, |batch|, size, outs);
        size := size + next;
        var line := TakeFront();
        RenderOneMore(outs, Line(line), now);
        batch := batch + [Render(Line(line), now, |batch|)];
        outs := outs + [Line(line)];
      }
      DrainStops(limits, all, Get(), maxLines, maxBytes, |batch|, size, outs);
      if |batch| < maxLines {
        var note := PopOne();
        if note != [] {
          RenderOneMore(outs, note[0], now);
          batch := batch + [Render(note[0], now, |batch|)];
          assert outs + [note[0]] == outs + note;
        } else {
          assert outs + note == outs;
        }
      }
    }
  }

  /** A drain that has come to `q`, with `outs` so far, and has the rest of itself to do. */
  ghost predicate Continues(
    limits: Limits, all: (Queue, seq<Out>), q: Queue, maxLines: nat, maxBytes: nat,
    taken: nat, bytes: nat, outs: seq<Out>)
  {
    var (q', more) := Drain(limits, q, maxLines, maxBytes, taken, bytes);
    all == (q', outs + more)
  }

  lemma DrainGoesOn(
    limits: Limits, all: (Queue, seq<Out>), q: Queue, maxLines: nat, maxBytes: nat,
    taken: nat, bytes: nat, outs: seq<Out>)
    requires Continues(limits, all, q, maxLines, maxBytes, taken, bytes, outs)
    requires q.lines != [] && taken < maxLines && (taken == 0 || bytes + JsonLength(q.lines[0]) <= maxBytes)
    ensures Continues(limits, all, PopFront(limits, q), maxLines, maxBytes,
                      taken + 1, bytes + JsonLength(q.lines[0]), outs + [Line(q.lines[0])])
  {
    var more := Drain(limits, PopFront(limits, q), maxLines, maxBytes, taken + 1, bytes + JsonLength(q.lines[0])).1;
    assert outs + ([Line(q.lines[0])] + more) == outs + [Line(q.lines[0])] + more;
  }

  lemma DrainStops(
    limits: Limits, all: (Queue, seq<Out>), q: Queue, maxLines: nat, maxBytes: nat,
    taken: nat, bytes: nat, outs: seq<Out>)
    requires Continues(limits, all, q, maxLines, maxBytes, taken, bytes, outs)
    requires q.lines == [] || taken >= maxLines || (taken > 0 && bytes + JsonLength(q.lines[0]) > maxBytes)
    ensures all == (q, outs)
  {
    assert outs + [] == outs;
  }

  // ---------- What a batch is ----------

  /** `k` lines fit a batch: few enough, and either one or small enough together. */
  predicate Fits(lines: seq<LogLine>, k: nat, maxLines: nat, maxBytes: nat)
    requires k <= |lines|
  {
    k <= maxLines && (k <= 1 || JsonLengths(lines[..k]) <= maxBytes)
  }

  function Lines(lines: seq<LogLine>): seq<Out> {
    seq(|lines|, i requires 0 <= i < |lines| => Line(lines[i]))
  }

  lemma {:induction false} JsonLengthsGrow(lines: seq<LogLine>, j: nat, k: nat)
    requires j <= k <= |lines|
    ensures JsonLengths(lines[..j]) <= JsonLengths(lines[..k])
  {
    if j > 0 {
      assert lines[..j][1..] == lines[1..][..j - 1] && lines[..k][1..] == lines[1..][..k - 1];
      JsonLengthsGrow(lines[1..], j - 1, k - 1);
    }
  }

  /** Adding to what is already in a batch. */
  predicate FitsOn(lines: seq<LogLine>, k: nat, maxLines: nat, maxBytes: nat, taken: nat, bytes: nat)
    requires k <= |lines|
  {
    (k > 0 ==> taken + k <= maxLines)
    && (k == 0 || taken + k <= 1 || bytes + JsonLengths(lines[..k]) <= maxBytes)
  }

  lemma {:induction false} DrainTakesThatMany(
    limits: Limits, q: Queue, maxLines: nat, maxBytes: nat, taken: nat, bytes: nat)
    ensures
      var (q', outs) := Drain(limits, q, maxLines, maxBytes, taken, bytes);
      var k := |outs|;
      && k <= |q.lines| && q'.lines == q.lines[k..] && outs == Lines(q.lines[..k])
      && q'.dropped == q.dropped
    decreases |q.lines|
  {
    var (q', outs) := Drain(limits, q, maxLines, maxBytes, taken, bytes);
    if outs != [] {
      var k := |outs|;
      DrainTakesThatMany(
        limits, PopFront(limits, q), maxLines, maxBytes, taken + 1, bytes + JsonLength(q.lines[0]));
      assert q.lines[1..][k - 1..] == q.lines[k..];
      assert q.lines[..k] == [q.lines[0]] + q.lines[1..][..k - 1];
      assert Lines(q.lines[..k]) == [Line(q.lines[0])] + Lines(q.lines[1..][..k - 1]);
    }
  }

  lemma {:induction false} DrainIsLongest(
    limits: Limits, q: Queue, maxLines: nat, maxBytes: nat, taken: nat, bytes: nat)
    requires taken == 0 ==> bytes == 0
    ensures
      var k := |Drain(limits, q, maxLines, maxBytes, taken, bytes).1|;
      && k <= |q.lines|
      && FitsOn(q.lines, k, maxLines, maxBytes, taken, bytes)
      && (k < |q.lines| ==> !FitsOn(q.lines, k + 1, maxLines, maxBytes, taken, bytes))
    decreases |q.lines|
  {
    var outs := Drain(limits, q, maxLines, maxBytes, taken, bytes).1;
    if q.lines != [] {
      assert JsonLengths(q.lines[..1]) == JsonLength(q.lines[0]) by {
        assert q.lines[..1] == [q.lines[0]] && [q.lines[0]][1..] == [];
      }
    }
    if outs != [] {
      var k := |outs| - 1;
      var first := JsonLength(q.lines[0]);
      DrainIsLongest(limits, PopFront(limits, q), maxLines, maxBytes, taken + 1, bytes + first);
      assert q.lines[..k + 1][1..] == q.lines[1..][..k];
      if k + 1 < |q.lines| {
        assert q.lines[..k + 2][1..] == q.lines[1..][..k + 1];
      }
      if k == 0 && taken > 0 {
        assert bytes + first <= maxBytes;
      }
    }
  }

  /**
   `take_stamped` takes exactly the longest run of lines that fits, in order, and the note
   of what was dropped only when that leaves the queue empty and the batch has room.
   */
  lemma TakeIsLongestPrefix(limits: Limits, q: Queue, maxLines: nat, maxBytes: nat)
    ensures
      var (q', outs) := Take(limits, q, maxLines, maxBytes);
      exists k :: 0 <= k <= |q.lines|
        && Fits(q.lines, k, maxLines, maxBytes)
        && (forall j :: k < j <= |q.lines| ==> !Fits(q.lines, j, maxLines, maxBytes))
        && q'.lines == q.lines[k..]
        && outs == Lines(q.lines[..k])
                   + (if k == |q.lines| < maxLines && q.dropped > 0 then [Note(q.dropped)] else [])
        && q'.dropped == (if k == |q.lines| < maxLines then 0 else q.dropped)
  {
    DrainTakesThatMany(limits, q, maxLines, maxBytes, 0, 0);
    DrainIsLongest(limits, q, maxLines, maxBytes, 0, 0);
    var k := |Drain(limits, q, maxLines, maxBytes, 0, 0).1|;
    assert Fits(q.lines, k, maxLines, maxBytes);
    forall j | k < j <= |q.lines| ensures !Fits(q.lines, j, maxLines, maxBytes) {
      JsonLengthsGrow(q.lines, k + 1, j);
    }
    assert Lines(q.lines[..k]) + [] == Lines(q.lines[..k]);
  }

  /**
   With a clock, a line that has a time keeps it, and the others are a microsecond apart, in
   order; without one, lines go as they are.
   */
  lemma StampsAreInOrder(outs: seq<Out>, now: Option<nat>, i: nat)
    requires i < |outs|
    ensures
      var raw := if outs[i].Line? then outs[i].line else NoteLine(outs[i].dropped);
      var sent := RenderAll(outs, now)[i];
      var timed := exists k :: 0 <= k < |raw.meta| && raw.meta[k].0 == "time";
      && (timed || now.None? ==> sent == raw)
      && (!timed && now.Some? ==>
            && sent == raw.(meta := raw.meta + [("time", Unsigned(now.value + i))])
            && Value(Unsigned(now.value + i)) == now.value + i)
  {
    hide NoteLine, Unsigned, Value;
    assert RenderAll(outs, now)[i] == Render(outs[i], now, i);
    if now.Some? {
      ValueOfUnsigned(now.value + i);
    }
  }

  /** The note says how many lines were dropped. */
  lemma TheNoteSaysHowMany(dropped: nat)
    ensures
      var note, digits := NoteLine(dropped), |Unsigned(dropped)|;
      && note.level == "warning" && note.timestamp.None? && note.meta == []
      && digits <= |note.message| && note.message[..digits] == Unsigned(dropped)
      && note.message[digits..] == " log lines were dropped: the device logged more than it keeps waiting to send"
      && Value(note.message[..digits]) == dropped
  {
    hide Unsigned, Value;
    ValueOfUnsigned(dropped);
  }

  /** `has_room` never refuses what `push` would take. */
  lemma HasRoomRefusesNothingPushTakes(limits: Limits, q: Queue, line: LogLine)
    ensures Push(limits, q, line) != CountLost(q) ==> HasRoom(limits, q)
  {}

  /** And it says yes exactly when there is a line that `push` would take. */
  lemma RoomIsForSomeLine(limits: Limits, q: Queue)
    ensures HasRoom(limits, q) <==> exists line :: Push(limits, q, line).lines == q.lines + [line]
  {
    var least := LogLine("", "", None, [], 0);
    assert HeapCost(limits, least) == limits.lineSize;
    assert HasRoom(limits, q) ==> Push(limits, q, least).lines == q.lines + [least];
  }

  // ---------- Whole histories ----------

  /** One critical section of some thread. `take_stamped` is a `Batch`, then perhaps a `One`. */
  datatype Op =
    | Offer(line: LogLine)                  // `push`
    | Refuse                                // `has_room`, when it says no
    | One                                   // `pop`
    | Batch(maxLines: nat, maxBytes: nat)   // `take_stamped`, while it holds the lock

  datatype Ledger = Ledger(
    queue: Queue,
    offered: nat,               // lines logged, kept or not
    kept: seq<LogLine>,         // those that were queued, in order
    delivered: seq<LogLine>,    // those handed on, in order
    reported: nat)              // drops that notes have told of

  const NEW_LEDGER := Ledger(EMPTY, 0, [], [], 0)

  function DeliveredBy(outs: seq<Out>): seq<LogLine> {
    if outs == [] then [] else (if outs[0].Line? then [outs[0].line] else []) + DeliveredBy(outs[1..])
  }

  function ReportedBy(outs: seq<Out>): nat {
    if outs == [] then 0 else (if outs[0].Note? then outs[0].dropped else 0) + ReportedBy(outs[1..])
  }

  function Apply(limits: Limits, b: Ledger, op: Op): Ledger {
    match op
    case Offer(line) =>
      var q := Push(limits, b.queue, line);
      b.(queue := q, offered := b.offered + 1,
         kept := if |q.lines| > |b.queue.lines| then b.kept + [line] else b.kept)
    case Refuse => b.(queue := CountLost(b.queue), offered := b.offered + 1)
    case One => Hand(b, Pop(limits, b.queue))
    case Batch(maxLines, maxBytes) => Hand(b, Drain(limits, b.queue, maxLines, maxBytes, 0, 0))
  }

  function Hand(b: Ledger, result: (Queue, seq<Out>)): Ledger {
    b.(queue := result.0, delivered := b.delivered + DeliveredBy(result.1),
       reported := b.reported + ReportedBy(result.1))
  }

  function ApplyAll(limits: Limits, b: Ledger, ops: seq<Op>): Ledger
    decreases |ops|
  {
    if ops == [] then b else ApplyAll(limits, Apply(limits, b, ops[0]), ops[1..])
  }

  predicate Bounded(limits: Limits, q: Queue) {
    q.bytes == Costs(limits, q.lines) && |q.lines| <= limits.capacity && q.bytes <= limits.maxBytes
  }

  /** Every line offered is in one place, and the places are in order. */
  predicate Balanced(limits: Limits, b: Ledger) {
    && Bounded(limits, b.queue)
    && b.kept == b.delivered + b.queue.lines
    && b.offered == |b.delivered| + |b.queue.lines| + b.queue.dropped + b.reported
  }

  lemma {:induction false} CostsAppend(limits: Limits, a: seq<LogLine>, b: seq<LogLine>)
    ensures Costs(limits, a + b) == Costs(limits, a) + Costs(limits, b)
  {
    if a == [] {
      assert a + b == b;
    } else {
      assert (a + b)[1..] == a[1..] + b;
      CostsAppend(limits, a[1..], b);
    }
  }

  lemma {:induction false} DeliveredByLines(lines: seq<LogLine>)
    ensures DeliveredBy(Lines(lines)) == lines && ReportedBy(Lines(lines)) == 0
  {
    if lines != [] {
      assert Lines(lines)[1..] == Lines(lines[1..]);
      DeliveredByLines(lines[1..]);
    }
  }

  lemma {:induction false} DrainStaysBounded(
    limits: Limits, q: Queue, maxLines: nat, maxBytes: nat, taken: nat, bytes: nat)
    requires Bounded(limits, q)
    ensures Bounded(limits, Drain(limits, q, maxLines, maxBytes, taken, bytes).0)
    decreases |q.lines|
  {
    if Drain(limits, q, maxLines, maxBytes, taken, bytes).1 != [] {
      DrainStaysBounded(
        limits, PopFront(limits, q), maxLines, maxBytes, taken + 1, bytes + JsonLength(q.lines[0]));
    }
  }

  lemma OfferKeepsBalance(limits: Limits, b: Ledger, line: LogLine)
    requires Balanced(limits, b)
    ensures Balanced(limits, Apply(limits, b, Offer(line)))
  {
    CostsAppend(limits, b.queue.lines, [line]);
    assert [line][1..] == [];
    assert b.kept + [line] == b.delivered + (b.queue.lines + [line]);
  }

  lemma OneKeepsBalance(limits: Limits, b: Ledger)
    requires Balanced(limits, b)
    ensures Balanced(limits, Apply(limits, b, One))
  {
    var outs := Pop(limits, b.queue).1;
    assert outs == [] || (outs[1..] == [] && DeliveredBy(outs[1..]) == [] && ReportedBy(outs[1..]) == 0);
    if b.queue.lines != [] {
      assert b.delivered + [b.queue.lines[0]] + b.queue.lines[1..] == b.delivered + b.queue.lines;
    }
  }

  lemma BatchKeepsBalance(limits: Limits, b: Ledger, maxLines: nat, maxBytes: nat)
    requires Balanced(limits, b)
    ensures Balanced(limits, Apply(limits, b, Batch(maxLines, maxBytes)))
  {
    DrainTakesThatMany(limits, b.queue, maxLines, maxBytes, 0, 0);
    DrainStaysBounded(limits, b.queue, maxLines, maxBytes, 0, 0);
    var k := |Drain(limits, b.queue, maxLines, maxBytes, 0, 0).1|;
    DeliveredByLines(b.queue.lines[..k]);
    assert b.delivered + b.queue.lines[..k] + b.queue.lines[k..] == b.delivered + b.queue.lines;
  }

  lemma ApplyKeepsBalance(limits: Limits, b: Ledger, op: Op)
    requires Balanced(limits, b)
    ensures Balanced(limits, Apply(limits, b, op))
  {
    match op
    case Offer(line) => OfferKeepsBalance(limits, b, line);
    case Refuse =>
    case One => OneKeepsBalance(limits, b);
    case Batch(maxLines, maxBytes) => BatchKeepsBalance(limits, b, maxLines, maxBytes);
  }

  /**
   Over every sequence of critical sections: the bytes counted are the bytes held, both caps
   hold, lines are delivered in the order they were queued, and every line offered has been
   delivered, is held, or is among the drops counted or reported.
   */
  lemma {:induction false} EveryHistoryBalances(limits: Limits, b: Ledger, ops: seq<Op>)
    requires Balanced(limits, b)
    ensures Balanced(limits, ApplyAll(limits, b, ops))
    decreases |ops|
  {
    if ops != [] {
      ApplyKeepsBalance(limits, b, ops[0]);
      EveryHistoryBalances(limits, Apply(limits, b, ops[0]), ops[1..]);
    }
  }

  function OffersIn(ops: seq<Op>): seq<LogLine> {
    if ops == [] then [] else (if ops[0].Offer? then [ops[0].line] else []) + OffersIn(ops[1..])
  }

  lemma PopsOnlyRemove(limits: Limits, b: Ledger, op: Op)
    requires op.One? || op.Batch?
    ensures
      var b' := Apply(limits, b, op);
      && b'.kept == b.kept && |b'.queue.lines| <= |b.queue.lines| && b'.queue.bytes <= b.queue.bytes
      && (b.queue.dropped == 0 ==> b'.queue.dropped == 0)
  {
    if op.Batch? {
      DrainOnlyRemoves(limits, b.queue, op.maxLines, op.maxBytes, 0, 0);
    }
  }

  lemma {:induction false} DrainOnlyRemoves(
    limits: Limits, q: Queue, maxLines: nat, maxBytes: nat, taken: nat, bytes: nat)
    ensures
      var q' := Drain(limits, q, maxLines, maxBytes, taken, bytes).0;
      |q'.lines| <= |q.lines| && q'.bytes <= q.bytes && q'.dropped == q.dropped
    decreases |q.lines|
  {
    if q.lines != [] {
      DrainOnlyRemoves(limits, PopFront(limits, q), maxLines, maxBytes, taken + 1, bytes + JsonLength(q.lines[0]));
    }
  }

  /**
   While what is offered fits under both caps, and nothing was refused for want of room, every
   line is kept, in order, and none is dropped, whatever is taken meanwhile.
   */
  lemma {:induction false} WhatFitsIsKept(limits: Limits, b: Ledger, ops: seq<Op>)
    requires Refuse !in ops && b.queue.dropped == 0
    requires |b.queue.lines| + |OffersIn(ops)| <= limits.capacity
    requires b.queue.bytes + Costs(limits, OffersIn(ops)) <= limits.maxBytes
    ensures ApplyAll(limits, b, ops).kept == b.kept + OffersIn(ops)
    ensures ApplyAll(limits, b, ops).queue.dropped == 0
    decreases |ops|
  {
    hide HeapCost, Drain;
    if ops == [] {
      assert b.kept + [] == b.kept;
    } else {
      var op, b' := ops[0], Apply(limits, b, ops[0]);
      if op.Offer? {
        assert OffersIn(ops)[1..] == OffersIn(ops[1..]);
        assert b.kept + [op.line] + OffersIn(ops[1..]) == b.kept + OffersIn(ops);
      } else {
        PopsOnlyRemove(limits, b, op);
        assert [] + OffersIn(ops[1..]) == OffersIn(ops[1..]);
      }
      WhatFitsIsKept(limits, b', ops[1..]);
    }
  }

  lemma NewLedgerBalances(limits: Limits)
    ensures Balanced(limits, NEW_LEDGER)
  {}

  /** And so it is from an empty queue on. */
  lemma EveryQueueBalances(limits: Limits, ops: seq<Op>)
    ensures Balanced(limits, ApplyAll(limits, NEW_LEDGER, ops))
  {
    NewLedgerBalances(limits);
    EveryHistoryBalances(limits, NEW_LEDGER, ops);
  }

  /** So taking a line off never meets a count smaller than the line. */
  lemma PopFrontNeverSaturates(limits: Limits, q: Queue)
    requires Bounded(limits, q) && q.lines != []
    ensures q.bytes == PopFront(limits, q).bytes + HeapCost(limits, q.lines[0])
    ensures Bounded(limits, PopFront(limits, q))
  {}

  // ---------- Draining ----------

  function Backlog(q: Queue): seq<Out> {
    Lines(q.lines) + if q.dropped > 0 then [Note(q.dropped)] else []
  }

  lemma TakeMakesProgress(limits: Limits, q: Queue, maxLines: nat, maxBytes: nat)
    requires maxLines > 0
    ensures
      var (q', outs) := Take(limits, q, maxLines, maxBytes);
      && Backlog(q) == outs + Backlog(q')
      && (outs == [] ==> q'.lines == [] && q'.dropped == 0)
  {
    DrainTakesThatMany(limits, q, maxLines, maxBytes, 0, 0);
    var k := |Drain(limits, q, maxLines, maxBytes, 0, 0).1|;
    assert q.lines == q.lines[..k] + q.lines[k..];
    assert Lines(q.lines) == Lines(q.lines[..k]) + Lines(q.lines[k..]);
    if k == |q.lines| {
      assert q.lines[..k] == q.lines && Lines([]) == [];
    }
  }

  /** Batch after batch, until one is empty. */
  function Batches(limits: Limits, q: Queue, maxLines: nat, maxBytes: nat): seq<seq<Out>>
    requires maxLines > 0
    decreases |Backlog(q)|
  {
    TakeMakesProgress(limits, q, maxLines, maxBytes);
    var (q', outs) := Take(limits, q, maxLines, maxBytes);
    if outs == [] then [] else [outs] + Batches(limits, q', maxLines, maxBytes)
  }

  /** Draining ends, and gives the whole backlog in order, then one note if anything was lost. */
  lemma {:induction false} BatchesGiveTheBacklog(limits: Limits, q: Queue, maxLines: nat, maxBytes: nat)
    requires maxLines > 0
    ensures Concat(Batches(limits, q, maxLines, maxBytes)) == Backlog(q)
    decreases |Backlog(q)|
  {
    TakeMakesProgress(limits, q, maxLines, maxBytes);
    var (q', outs) := Take(limits, q, maxLines, maxBytes);
    if outs != [] {
      BatchesGiveTheBacklog(limits, q', maxLines, maxBytes);
      assert Batches(limits, q, maxLines, maxBytes)[1..] == Batches(limits, q', maxLines, maxBytes);
    }
  }
}
