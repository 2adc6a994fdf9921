/** Where an image comes from: `HttpStream` (src/install.rs), which may answer anything. */
module Http {
  import opened Common

  const CHUNK_SIZE: nat := 4096

  datatype Error =
    | Download
    | DownloadStatus(status: nat, retryAfter: Option<nat>)
    | ChecksumMismatch
    | OtaFailed
    | TransportFailed
    | OtherError

  type OpenOutcomes = nat -> Result<Option<nat>, Error>

  predicate FitBuffer(chunks: seq<Result<seq<byte>, Error>>) {
    forall i :: 0 <= i < |chunks| && chunks[i].Ok? ==> |chunks[i].value| <= CHUNK_SIZE
  }

  /** How each read ends; an empty chunk is the end of the body. */
  type Chunks = chunks: seq<Result<seq<byte>, Error>> | FitBuffer(chunks) witness []

  /** Chunks read one after another from the `from`-th on, none of them the end. */
  ghost predicate Gives(chunks: Chunks, from: nat, pieces: seq<seq<byte>>) {
    && from + |pieces| <= |chunks|
    && forall i :: 0 <= i < |pieces| ==> chunks[from + i] == Ok(pieces[i]) && pieces[i] != []
  }

  /** ... and then the end. */
  ghost predicate GivesAll(chunks: Chunks, from: nat, pieces: seq<seq<byte>>) {
    Gives(chunks, from, pieces) && from + |pieces| < |chunks| && chunks[from + |pieces|] == Ok([])
  }

  /** Why the read at `k` fails, if it does: the stream may also just break off. */
  function Cut(chunks: Chunks, k: nat): Option<Error> {
    if k >= |chunks| then Some(Download) else if chunks[k].Err? then Some(chunks[k].error) else None
  }

  /** The whole of what a stream has to give. */
  ghost predicate Delivers(chunks: Chunks, body: seq<byte>) {
    exists pieces: seq<seq<byte>> :: GivesAll(chunks, 0, pieces) && body == Concat(pieces)
  }

  /** A failure to open that may pass: no connection, or the server asked for time, or was itself at fault. */
  ghost predicate MayPass(e: Error) {
    e == Download
    || (e.DownloadStatus? && (e.status in {408, 429} || (500 <= e.status && e.status < 600)))
  }

  /** Some opening of the first four is answered so, and any before it failed in a way that may pass. */
  ghost predicate Answers(opens: OpenOutcomes, announced: Option<nat>) {
    exists i: nat :: i < 4 && AnswersAt(opens, i, announced)
  }

  ghost predicate AnswersAt(opens: OpenOutcomes, i: nat, announced: Option<nat>) {
    opens(i) == Ok(announced) && forall j: nat :: j < i ==> opens(j).Err? && MayPass(opens(j).error)
  }

  lemma GivenIsNoEnd(chunks: Chunks, from: nat, pieces: seq<seq<byte>>, k: nat)
    requires Gives(chunks, from, pieces) && from + k < |chunks|
    ensures k < |pieces| ==> chunks[from + k] == Ok(pieces[k]) && pieces[k] != []
  {}

  /** What has been given is the front of all there is. */
  lemma GivenInOrder(chunks: Chunks, from: nat, some: seq<seq<byte>>, all: seq<seq<byte>>)
    requires Gives(chunks, from, some) && GivesAll(chunks, from, all)
    ensures some <= all && Cut(chunks, from + |some|).None? && |Concat(some)| <= |Concat(all)|
    ensures GivesAll(chunks, from, some) ==> some == all
  {
    forall i | 0 <= i < |some| && i < |all| ensures some[i] == all[i] {
      assert chunks[from + i] == Ok(some[i]) && chunks[from + i] == Ok(all[i]);
    }
    GivenIsNoEnd(chunks, from, some, |all|);
    assert |some| < |all| ==> chunks[from + |some|] == Ok(all[|some|]);
    ConcatAppend(some, all[|some|..]);
    assert some + all[|some|..] == all;
  }

  lemma OneMoreGiven(chunks: Chunks, from: nat, pieces: seq<seq<byte>>, piece: seq<byte>)
    requires Gives(chunks, from, pieces) && from + |pieces| < |chunks|
    requires chunks[from + |pieces|] == Ok(piece) && piece != []
    ensures Gives(chunks, from, pieces + [piece]) && Concat(pieces + [piece]) == Concat(pieces) + piece
  {
    hide Concat;
    ConcatOneMore(pieces, piece);
  }

  lemma ConcatOneMore(pieces: seq<seq<byte>>, piece: seq<byte>)
    ensures Concat(pieces + [piece]) == Concat(pieces) + piece
  {
    ConcatAppend(pieces, [piece]);
    assert [piece][1..] == [] && Concat([piece]) == piece + Concat([]) == piece;
  }

  class HttpStream {
    const opens: OpenOutcomes
    const chunks: Chunks
    var openings: nat
    var next: nat
    var received: seq<byte>
    var broken: bool                   // whether the last opening or read failed

    constructor (opens: OpenOutcomes, chunks: Chunks)
      ensures openings == 0 && next == 0 && received == [] && !broken && this.opens == opens && this.chunks == chunks
    {
      this.opens, this.chunks, openings, next, received, broken := opens, chunks, 0, 0, [], false;
    }

    method Open() returns (r: Result<Option<nat>, Error>)
      modifies this`openings, this`broken
      ensures r == opens(old(openings)) && openings == old(openings) + 1 && broken == r.Err?
    {
      r := opens(openings);
      broken := r.Err?;
      openings := openings + 1;
    }

    method Read() returns (r: Result<seq<byte>, Error>)
      requires next <= |chunks|
      modifies this`next, this`received, this`broken
      ensures r == if old(next) < |chunks| then chunks[old(next)] else Err(Download)
      ensures broken == r.Err?
      ensures r.Ok? ==> |r.value| <= CHUNK_SIZE && received == old(received) + r.value
      ensures r.Err? ==> received == old(received)
      ensures old(next) <= next <= |chunks| && (r.Ok? ==> next == old(next) + 1)
    {
      if next == |chunks| {
        broken := true;
        return Err(Download);
      }
      r := chunks[next];
      broken := r.Err?;
      next := next + 1;
      received := received + if r.Ok? then r.value else [];
    }
  }
}
