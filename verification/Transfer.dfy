/**
  Files over the socket (crates/silta/src/transfer.rs): a header, chunks and an end per
  transfer, sent by one side in pieces of at most `CHUNK_BYTES` and put together by the other,
  with the pieces of other transfers in between. Base64 is library code: a chunk's payload is
  its bytes, or does not decode. What a transfer has received is kept by its id.
 */
module Transfer {
  import opened Prelude

  const CHUNK_BYTES: nat := 1024 * 1024

  datatype Header = Header(transfer: string, name: string, mime: string, size: nat)

  datatype Piece =
    | Begins(header: Header)
    | Chunk(id: string, data: Option<seq<byte>>)
    | Ends(id: string)
  {
    function Id(): string {
      if Begins? then header.transfer else id
    }
  }

  // ------------------------------------------------------------------------------------
  // The sender

  function Chunks(id: string, file: seq<byte>): seq<Piece>
    decreases |file|
  {
    if file == [] then []
    else if |file| <= CHUNK_BYTES then [Chunk(id, Some(file))]
    else [Chunk(id, Some(file[..CHUNK_BYTES]))] + Chunks(id, file[CHUNK_BYTES..])
  }

  function Sent(header: Header, file: seq<byte>): seq<Piece> {
    [Begins(header)] + (Chunks(header.transfer, file) + [Ends(header.transfer)])
  }

  function Prefix(file: seq<byte>, n: nat): seq<byte> {
    if |file| <= n then file else file[..n]
  }

  /** A file being read; a read may return fewer bytes than asked for, but none only at the
      end. */
  class File {
    var left: seq<byte>
    var sizes: seq<nat>

    constructor (content: seq<byte>, sizes: seq<nat>)
      ensures left == content
    {
      left := content;
      this.sizes := sizes;
    }

    method Read(room: nat) returns (data: seq<byte>)
      requires room > 0
      modifies this
      ensures |data| <= room && data + left == old(left)
      ensures data == [] ==> old(left) == []
    {
      var n := if sizes != [] then sizes[0] else room;
      sizes := if sizes != [] then sizes[1..] else [];
      n := if n == 0 || n > room then room else n;
      data := Prefix(left, n);
      left := left[|data|..];
    }
  }

  /** Fills the buffer unless the file ends, whatever the reads return. */
  method ReadChunk(file: File, room: nat) returns (buf: seq<byte>)
    modifies file
    ensures buf == Prefix(old(file.left), room) && buf + file.left == old(file.left)
  {
    buf := [];
    while |buf| < room
      invariant |buf| <= room && buf + file.left == old(file.left)
      decreases room - |buf|
    {
      var data := file.Read(room - |buf|);
      if data == [] {
        break;
      }
      buf := buf + data;
    }
    PrefixIs(old(file.left), buf, file.left, room);
  }

  lemma PrefixIs(file: seq<byte>, front: seq<byte>, back: seq<byte>, n: nat)
    requires front + back == file && |front| <= n && (|front| == n || back == [])
    ensures front == Prefix(file, n)
  {
    assert file[..|front|] == front;
  }

  /** The sender's loop: header, pieces while there are any, end. */
  method Send(header: Header, file: File) returns (pieces: seq<Piece>)
    modifies file
    ensures pieces == Sent(header, old(file.left)) && file.left == []
  {
    pieces := [Begins(header)];
    ghost var chunks := [];
    while true
      invariant pieces == [Begins(header)] + chunks
      invariant chunks + Chunks(header.transfer, file.left) == Chunks(header.transfer, old(file.left))
      decreases |file.left|
    {
      ghost var before := file.left;
      var data := ReadChunk(file, CHUNK_BYTES);
      if data == [] {
        break;
      }
      FirstChunk(header.transfer, before, data, file.left);
      ghost var was := chunks;
      chunks := chunks + [Chunk(header.transfer, Some(data))];
      pieces := pieces + [Chunk(header.transfer, Some(data))];
      assert was + ([Chunk(header.transfer, Some(data))] + Chunks(header.transfer, file.left))
          == chunks + Chunks(header.transfer, file.left);
    }
    pieces := pieces + [Ends(header.transfer)];
  }

  lemma FirstChunk(id: string, file: seq<byte>, data: seq<byte>, left: seq<byte>)
    requires data != [] && data == Prefix(file, CHUNK_BYTES) && data + left == file
    ensures Chunks(id, file) == [Chunk(id, Some(data))] + Chunks(id, left)
  {
    if |file| > CHUNK_BYTES {
      assert left == file[CHUNK_BYTES..];
    } else {
      assert left == [];
    }
  }

  // ------------------------------------------------------------------------------------
  // The receiver

  datatype Open = Open(header: Header, content: seq<byte>, received: nat)

  type Transfers = map<string, Open>

  datatype Outcome =
    | Accepted
    | Finished(header: Header, content: seq<byte>)
    | Unknown
    | Duplicate
    | TooLarge
    | SizeMismatch(received: nat, declared: nat)
    | Undecodable

  datatype Received = Received(open: Transfers, outcome: Outcome)

  function OnBegin(open: Transfers, header: Header, max: nat): Received {
    if header.transfer in open then Received(open, Duplicate)
    else if header.size > max then Received(open, TooLarge)
    else Received(open[header.transfer := Open(header, [], 0)], Accepted)
  }

  function OnChunk(open: Transfers, id: string, data: Option<seq<byte>>): Received {
    if id !in open then Received(open, Unknown)
    else if data.None? then Received(open - {id}, Undecodable)
    else
      var o := open[id];
      var received := o.received + |data.value|;
      if received > o.header.size then Received(open - {id}, SizeMismatch(received, o.header.size))
      else Received(open[id := Open(o.header, o.content + data.value, received)], Accepted)
  }

  function OnEnd(open: Transfers, id: string): Received {
    if id !in open then Received(open, Unknown)
    else
      var o := open[id];
      Received(open - {id},
               if o.received != o.header.size then SizeMismatch(o.received, o.header.size)
               else Finished(o.header, o.content))
  }

  function OnPiece(open: Transfers, piece: Piece, max: nat): Received {
    match piece
    case Begins(header) => OnBegin(open, header, max)
    case Chunk(id, data) => OnChunk(open, id, data)
    case Ends(id) => OnEnd(open, id)
  }

  /** What holds of the transfers in progress, whatever pieces came. */
  predicate Bounded(open: Transfers, max: nat) {
    forall id :: id in open ==>
      open[id].header.transfer == id && open[id].received == |open[id].content| <= open[id].header.size <= max
  }

  class Receiver {
    var open: Transfers
    const max: nat

    constructor (max: nat)
      ensures open == map[] && this.max == max
    {
      open := map[];
      this.max := max;
    }

    method Begin(header: Header) returns (outcome: Outcome)
      modifies this
      ensures Received(open, outcome) == OnBegin(old(open), header, max)
    {
      if header.transfer in open {
        return Duplicate;
      }
      if header.size > max {
        return TooLarge;
      }
      open := open[header.transfer := Open(header, [], 0)];
      return Accepted;
    }

    method TakeChunk(id: string, data: Option<seq<byte>>) returns (outcome: Outcome)
      modifies this
      ensures Received(open, outcome) == OnChunk(old(open), id, data)
    {
      if id !in open {
        return Unknown;
      }
      if data.None? {
        Discard(id);
        return Undecodable;
      }
      var received := open[id].received + |data.value|;
      var declared := open[id].header.size;
      if received > declared {
        Discard(id);
        return SizeMismatch(received, declared);
      }
      open := open[id := open[id].(content := open[id].content + data.value, received := received)];
      return Accepted;
    }

    method End(id: string) returns (outcome: Outcome)
      modifies this
      ensures Received(open, outcome) == OnEnd(old(open), id)
    {
      if id !in open {
        return Unknown;
      }
      var o := open[id];
      Discard(id);
      if o.received != o.header.size {
        return SizeMismatch(o.received, o.header.size);
      }
      return Finished(o.header, o.content);
    }

    method Discard(id: string)
      modifies this
      ensures open == old(open) - {id}
    {
      open := open - {id};
    }

    method AbortAll()
      modifies this
      ensures open == map[]
    {
      var ids := open.Keys;
      while ids != {}
        invariant open.Keys <= ids
        decreases |ids|
      {
        var id :| id in ids;
        Discard(id);
        ids := ids - {id};
      }
    }
  }

  /** In every state, bytes received <= declared size <= cap, and a transfer is returned only
      when the counts are equal. */
  lemma PieceKeepsBounds(open: Transfers, piece: Piece, max: nat)
    requires Bounded(open, max)
    ensures var r := OnPiece(open, piece, max);
            && Bounded(r.open, max)
            && (r.outcome.Finished? ==> |r.outcome.content| == r.outcome.header.size <= max)
  {
  }

  // ------------------------------------------------------------------------------------
  // A transfer among others

  function Feed(open: Transfers, pieces: seq<Piece>, max: nat): Transfers
    decreases pieces
  {
    if pieces == [] then open else Feed(OnPiece(open, pieces[0], max).open, pieces[1..], max)
  }

  /** The bounds hold in every state a receiver reaches. */
  lemma {:induction false} AlwaysBounded(open: Transfers, pieces: seq<Piece>, max: nat)
    requires Bounded(open, max)
    ensures Bounded(Feed(open, pieces, max), max)
    decreases pieces
  {
    if pieces != [] {
      PieceKeepsBounds(open, pieces[0], max);
      AlwaysBounded(OnPiece(open, pieces[0], max).open, pieces[1..], max);
    }
  }

  /** What becomes of the pieces of one transfer, in order. */
  function OutcomesFor(open: Transfers, pieces: seq<Piece>, max: nat, id: string): seq<Outcome>
    decreases pieces
  {
    if pieces == [] then []
    else
      var r := OnPiece(open, pieces[0], max);
      (if pieces[0].Id() == id then [r.outcome] else []) + OutcomesFor(r.open, pieces[1..], max, id)
  }

  /** The pieces of one transfer. */
  function Of(pieces: seq<Piece>, id: string): seq<Piece> {
    if pieces == [] then []
    else (if pieces[0].Id() == id then [pieces[0]] else []) + Of(pieces[1..], id)
  }

  predicate AgreeOn(a: Transfers, b: Transfers, id: string) {
    (id in a <==> id in b) && (id in a ==> a[id] == b[id])
  }

  lemma PieceIndependent(a: Transfers, b: Transfers, piece: Piece, max: nat, id: string)
    requires AgreeOn(a, b, id)
    ensures piece.Id() == id ==>
              AgreeOn(OnPiece(a, piece, max).open, OnPiece(b, piece, max).open, id)
              && OnPiece(a, piece, max).outcome == OnPiece(b, piece, max).outcome
    ensures piece.Id() != id ==> AgreeOn(OnPiece(a, piece, max).open, b, id)
  {
  }

  /** Other transfers make no difference to a transfer. */
  lemma {:induction false} TransfersIndependent(a: Transfers, b: Transfers, pieces: seq<Piece>, max: nat, id: string)
    requires AgreeOn(a, b, id)
    ensures OutcomesFor(a, pieces, max, id) == OutcomesFor(b, Of(pieces, id), max, id)
    decreases pieces
  {
    if pieces != [] {
      var first, rest := pieces[0], pieces[1..];
      PieceIndependent(a, b, first, max, id);
      var a' := OnPiece(a, first, max).open;
      if first.Id() == id {
        TransfersIndependent(a', OnPiece(b, first, max).open, rest, max, id);
        assert Of(pieces, id) == [first] + Of(rest, id) && ([first] + Of(rest, id))[1..] == Of(rest, id);
      } else {
        TransfersIndependent(a', b, rest, max, id);
        assert Of(pieces, id) == Of(rest, id);
      }
    }
  }

  function AllAccepted(n: nat): seq<Outcome> {
    seq(n, _ => Accepted)
  }

  lemma NoneAccepted()
    ensures AllAccepted(0) == []
  {
  }

  lemma OneMoreAccepted(n: nat, last: Outcome)
    ensures [Accepted] + (AllAccepted(n) + [last]) == AllAccepted(n + 1) + [last]
  {
  }

  /** The rest of a transfer whose header was taken: it finishes with the whole content exactly
      when the declared size is the true one. */
  lemma {:induction false} RestReceived(open: Transfers, id: string, left: seq<byte>, max: nat)
    requires id in open && open[id].received == |open[id].content|
    ensures var outcomes := OutcomesFor(open, Chunks(id, left) + [Ends(id)], max, id);
            var o := open[id];
            && |outcomes| == |Chunks(id, left)| + 1
            && (o.header.size == |o.content + left| ==>
                  outcomes == AllAccepted(|outcomes| - 1) + [Finished(o.header, o.content + left)])
            && (o.header.size != |o.content + left| ==> !Last(outcomes).Finished?)
    decreases |left|
  {
    hide AllAccepted, OnPiece, Chunks;
    NoneAccepted();
    var o := open[id];
    if left == [] {
      NothingLeft(open, id, max);
      assert o.content + left == o.content;
    } else {
      var data := Prefix(left, CHUNK_BYTES);
      var more := left[|data|..];
      NextPiece(open, id, left, data, more, max);
      var r := OnChunk(open, id, Some(data));
      if r.outcome.Accepted? {
        RestReceived(r.open, id, more, max);
        OneMoreAccepted(|Chunks(id, more)|, Finished(o.header, o.content + left));
        assert o.content + data + more == o.content + left;
      } else {
        NeverReceived(r.open, id, more, max);
      }
    }
  }

  lemma NothingLeft(open: Transfers, id: string, max: nat)
    ensures Chunks(id, []) == [] && OutcomesFor(open, Chunks(id, []) + [Ends(id)], max, id) == [OnEnd(open, id).outcome]
  {
    assert [] + [Ends(id)] == [Ends(id)] && [Ends(id)][1..] == [];
  }

  /** What becomes of the rest is what becomes of its first piece, and then of what is left after it. */
  lemma NextPiece(open: Transfers, id: string, left: seq<byte>, data: seq<byte>, more: seq<byte>, max: nat)
    requires data != [] && data == Prefix(left, CHUNK_BYTES) && data + more == left
    ensures |Chunks(id, left)| == |Chunks(id, more)| + 1
    ensures var r := OnChunk(open, id, Some(data));
            OutcomesFor(open, Chunks(id, left) + [Ends(id)], max, id)
            == [r.outcome] + OutcomesFor(r.open, Chunks(id, more) + [Ends(id)], max, id)
  {
    FirstChunk(id, left, data, more);
    hide Chunks, OnChunk;
    var pieces, first := Chunks(id, left) + [Ends(id)], Chunk(id, Some(data));
    assert pieces == [first] + (Chunks(id, more) + [Ends(id)]);
    assert pieces[1..] == Chunks(id, more) + [Ends(id)];
  }

  /** A transfer that is not open, or was discarded, is not returned by later pieces. */
  lemma {:induction false} NeverReceived(open: Transfers, id: string, left: seq<byte>, max: nat)
    requires id !in open
    ensures var outcomes := OutcomesFor(open, Chunks(id, left) + [Ends(id)], max, id);
            |outcomes| == |Chunks(id, left)| + 1 && !Last(outcomes).Finished?
    decreases |left|
  {
    hide Chunks;
    if left == [] {
      NothingLeft(open, id, max);
    } else {
      var data := Prefix(left, CHUNK_BYTES);
      var more := left[|data|..];
      NextPiece(open, id, left, data, more, max);
      NeverReceived(open, id, more, max);
    }
  }

  /** A file sent as a transfer, its pieces in order among any pieces of other transfers, is
      returned exactly when its declared size is its true size and within the cap; then every
      piece is accepted and the content is the file. */
  lemma FileArrives(open: Transfers, pieces: seq<Piece>, max: nat, header: Header, file: seq<byte>)
    requires header.transfer !in open && Of(pieces, header.transfer) == Sent(header, file)
    ensures var outcomes := OutcomesFor(open, pieces, max, header.transfer);
            && outcomes != []
            && (Last(outcomes).Finished? <==> header.size == |file| <= max)
            && (header.size == |file| <= max ==>
                  outcomes == AllAccepted(|outcomes| - 1) + [Finished(header, file)])
  {
    hide AllAccepted;
    var id := header.transfer;
    TransfersIndependent(open, open, pieces, max, id);
    var sent := Sent(header, file);
    assert sent[0] == Begins(header) && sent[1..] == Chunks(id, file) + [Ends(id)];
    var r := OnBegin(open, header, max);
    var rest := OutcomesFor(r.open, sent[1..], max, id);
    assert OutcomesFor(open, sent, max, id) == [r.outcome] + rest;
    if header.size <= max {
      RestReceived(r.open, id, file, max);
      OneMoreAccepted(|rest| - 1, Finished(header, file));
      assert [] + file == file;
    } else {
      NeverReceived(r.open, id, file, max);
    }
    assert Last([r.outcome] + rest) == Last(rest);
  }

  // ------------------------------------------------------------------------------------
  // What becomes of a piece, from the pieces before it

  /** The bytes that some pieces carry for a transfer. */
  function BytesFor(pieces: seq<Piece>, id: string): seq<byte> {
    if pieces == [] then [] else BytesFor(Init(pieces), id) + Payload(Last(pieces), id)
  }

  /** The bytes that came for it after the piece at `j`. */
  function BytesSince(pieces: seq<Piece>, id: string, j: int): seq<byte>
    requires 0 <= j < |pieces|
  {
    BytesFor(pieces[j + 1..], id)
  }

  function Payload(piece: Piece, id: string): seq<byte> {
    if piece.Chunk? && piece.id == id && piece.data.Some? then piece.data.value else []
  }

  /** A piece that does not end this transfer, unless it is too much. */
  predicate GoesOn(piece: Piece, id: string) {
    piece.Id() == id ==> piece.Begins? || (piece.Chunk? && piece.data.Some?)
  }

  /** The piece at `j` may have begun the transfer: its declared size is within the cap, and what came
      since neither ended it, nor failed to decode, nor was too much. */
  predicate Since(pieces: seq<Piece>, id: string, max: nat, j: int) {
    && 0 <= j < |pieces| && pieces[j].Begins? && pieces[j].header.transfer == id && pieces[j].header.size <= max
    && (forall k :: j < k < |pieces| ==> GoesOn(pieces[k], id))
    && |BytesSince(pieces, id, j)| <= pieces[j].header.size
  }

  /** A transfer is in progress if some such piece came while it was not. */
  ghost predicate InProgress(pieces: seq<Piece>, id: string, max: nat)
    decreases |pieces|
  {
    exists j :: 0 <= j < |pieces| && Since(pieces, id, max, j) && !InProgress(pieces[..j], id, max)
  }

  /** It is in progress since the piece at `j`. */
  ghost predicate OpenSince(pieces: seq<Piece>, id: string, max: nat, j: int) {
    Since(pieces, id, max, j) && !InProgress(pieces[..j], id, max)
  }

  lemma {:induction false} FeedMore(open: Transfers, pieces: seq<Piece>, piece: Piece, max: nat)
    ensures Feed(open, pieces + [piece], max) == OnPiece(Feed(open, pieces, max), piece, max).open
    decreases pieces
  {
    hide OnPiece;
    if pieces == [] {
      assert [] + [piece] == [piece] && [piece][1..] == [];
    } else {
      assert (pieces + [piece])[0] == pieces[0] && (pieces + [piece])[1..] == pieces[1..] + [piece];
      FeedMore(OnPiece(open, pieces[0], max).open, pieces[1..], piece, max);
    }
  }

  /** A transfer in progress since `j` is so after one more piece. */
  ghost predicate StaysOpen(pieces: seq<Piece>, piece: Piece, id: string, max: nat, j: int) {
    && 0 <= j < |pieces| && OpenSince(pieces, id, max, j) && GoesOn(piece, id)
    && |BytesSince(pieces, id, j)| + |Payload(piece, id)| <= pieces[j].header.size
  }

  lemma OpenMore(pieces: seq<Piece>, piece: Piece, id: string, max: nat, j: int)
    requires 0 <= j < |pieces|
    ensures BytesSince(pieces + [piece], id, j) == BytesSince(pieces, id, j) + Payload(piece, id)
    ensures OpenSince(pieces + [piece], id, max, j) <==> StaysOpen(pieces, piece, id, max, j)
  {
    hide GoesOn, Payload, InProgress;
    var more := pieces + [piece];
    assert more[j + 1..] == pieces[j + 1..] + [piece];
    assert Init(pieces[j + 1..] + [piece]) == pieces[j + 1..];
    assert more[..j] == pieces[..j] && more[j] == pieces[j] && more[|pieces|] == piece;
    assert forall k :: j < k < |pieces| ==> more[k] == pieces[k];
  }

  lemma OpenNow(pieces: seq<Piece>, piece: Piece, id: string, max: nat)
    ensures OpenSince(pieces + [piece], id, max, |pieces|) <==>
            piece.Begins? && piece.header.transfer == id && piece.header.size <= max && !InProgress(pieces, id, max)
    ensures BytesSince(pieces + [piece], id, |pieces|) == []
  {
    hide InProgress;
    var more := pieces + [piece];
    assert more[..|pieces|] == pieces && more[|pieces| + 1..] == [];
  }

  /** What is kept of a transfer in progress since `j`. */
  function Kept(pieces: seq<Piece>, id: string, j: int): Open
    requires 0 <= j < |pieces| && pieces[j].Begins?
  {
    Open(pieces[j].header, BytesSince(pieces, id, j), |BytesSince(pieces, id, j)|)
  }

  ghost predicate Tells(open: Transfers, pieces: seq<Piece>, id: string, max: nat) {
    && (id in open <==> InProgress(pieces, id, max))
    && (forall j :: 0 <= j < |pieces| && OpenSince(pieces, id, max, j) ==> id in open && open[id] == Kept(pieces, id, j))
  }

  /** How one more piece changes since when a transfer is in progress. */
  ghost predicate Extends(pieces: seq<Piece>, piece: Piece, id: string, max: nat) {
    var more := pieces + [piece];
    && (OpenSince(more, id, max, |pieces|) <==>
          piece.Begins? && piece.header.transfer == id && piece.header.size <= max && !InProgress(pieces, id, max))
    && BytesSince(more, id, |pieces|) == []
    && forall j :: 0 <= j < |pieces| ==>
         && BytesSince(more, id, j) == BytesSince(pieces, id, j) + Payload(piece, id)
         && (OpenSince(more, id, max, j) <==> StaysOpen(pieces, piece, id, max, j))
  }

  lemma IsInProgress(pieces: seq<Piece>, id: string, max: nat, j: int)
    requires OpenSince(pieces, id, max, j)
    ensures InProgress(pieces, id, max) && 0 <= j < |pieces| && pieces[j].Begins?
    ensures |BytesSince(pieces, id, j)| <= pieces[j].header.size
  {
    assert Since(pieces, id, max, j) && !InProgress(pieces[..j], id, max);
  }

  lemma ProgressSince(pieces: seq<Piece>, id: string, max: nat) returns (j: int)
    requires InProgress(pieces, id, max)
    ensures 0 <= j < |pieces| && OpenSince(pieces, id, max, j)
  {
    hide Since;
    j :| 0 <= j < |pieces| && Since(pieces, id, max, j) && !InProgress(pieces[..j], id, max);
  }

  lemma ExtendsMore(pieces: seq<Piece>, piece: Piece, id: string, max: nat)
    ensures Extends(pieces, piece, id, max)
  {
    hide OpenSince, Payload, StaysOpen, Since, BytesSince, InProgress;
    var more := pieces + [piece];
    OpenNow(pieces, piece, id, max);
    forall j | 0 <= j < |pieces|
      ensures BytesSince(more, id, j) == BytesSince(pieces, id, j) + Payload(piece, id)
      ensures OpenSince(more, id, max, j) <==> StaysOpen(pieces, piece, id, max, j)
    {
      OpenMore(pieces, piece, id, max, j);
    }
  }

  /** Neither a piece of another transfer nor another header changes what is kept. */
  lemma StaysKept(pieces: seq<Piece>, piece: Piece, id: string, max: nat)
    requires Extends(pieces, piece, id, max) && Payload(piece, id) == [] && GoesOn(piece, id)
    ensures var more := pieces + [piece];
            && (OpenSince(more, id, max, |pieces|) || InProgress(pieces, id, max) <==> InProgress(more, id, max))
            && forall j :: 0 <= j < |pieces| && OpenSince(more, id, max, j) ==>
                 OpenSince(pieces, id, max, j) && Kept(more, id, j) == Kept(pieces, id, j)
  {
    hide OpenSince, BytesSince, InProgress, Payload, GoesOn;
    var more := pieces + [piece];
    assert forall j :: 0 <= j < |pieces| ==> more[j] == pieces[j];
    if OpenSince(more, id, max, |pieces|) {
      IsInProgress(more, id, max, |pieces|);
    } else if InProgress(pieces, id, max) {
      var j := ProgressSince(pieces, id, max);
      IsInProgress(pieces, id, max, j);
      assert StaysOpen(pieces, piece, id, max, j);
      IsInProgress(more, id, max, j);
    } else if InProgress(more, id, max) {
      var j := ProgressSince(more, id, max);
      assert j < |pieces| ==> StaysOpen(pieces, piece, id, max, j);
      IsInProgress(pieces, id, max, j);
    }
    forall j | 0 <= j < |pieces| && OpenSince(more, id, max, j)
      ensures OpenSince(pieces, id, max, j) && pieces[j].Begins? && Kept(more, id, j) == Kept(pieces, id, j)
    {
      assert StaysOpen(pieces, piece, id, max, j);
      IsInProgress(pieces, id, max, j);
    }
  }

  lemma TellsForeign(open: Transfers, pieces: seq<Piece>, piece: Piece, id: string, max: nat)
    requires Tells(open, pieces, id, max) && Extends(pieces, piece, id, max) && piece.Id() != id
    ensures Tells(OnPiece(open, piece, max).open, pieces + [piece], id, max)
  {
    StaysKept(pieces, piece, id, max);
    hide OpenSince, BytesSince, InProgress, Kept;
    assert AgreeOn(OnPiece(open, piece, max).open, open, id) by { PieceIndependent(open, open, piece, max, id); }
    hide OnPiece;
  }

  lemma TellsBegun(open: Transfers, pieces: seq<Piece>, piece: Piece, id: string, max: nat)
    requires Tells(open, pieces, id, max) && Extends(pieces, piece, id, max) && piece.Begins? && piece.Id() == id
    ensures Tells(OnPiece(open, piece, max).open, pieces + [piece], id, max)
  {
    StaysKept(pieces, piece, id, max);
    var more := pieces + [piece];
    assert more[|pieces|] == piece;
    assert Kept(more, id, |pieces|) == Open(piece.header, [], 0);
    hide OpenSince, BytesSince, InProgress, Kept;
  }

  /** An end, or what does not decode, ends the transfer. */
  lemma TellsClosed(open: Transfers, pieces: seq<Piece>, piece: Piece, id: string, max: nat)
    requires Tells(open, pieces, id, max) && Extends(pieces, piece, id, max)
    requires piece.Id() == id && !piece.Begins? && !GoesOn(piece, id)
    ensures Tells(OnPiece(open, piece, max).open, pieces + [piece], id, max)
  {
    assert id !in OnPiece(open, piece, max).open;
    hide OnPiece, OpenSince, BytesSince, InProgress;
    var more := pieces + [piece];
    if InProgress(more, id, max) {
      var j := ProgressSince(more, id, max);
      assert false;
    }
  }

  /** More bytes are kept with those before, unless they are too many. */
  lemma TellsMoreBytes(open: Transfers, pieces: seq<Piece>, piece: Piece, id: string, max: nat)
    requires Tells(open, pieces, id, max) && Extends(pieces, piece, id, max)
    requires piece.Id() == id && piece.Chunk? && piece.data.Some?
    ensures Tells(OnPiece(open, piece, max).open, pieces + [piece], id, max)
  {
    var more := pieces + [piece];
    assert more[|pieces|] == piece && forall j :: 0 <= j < |pieces| ==> more[j] == pieces[j];
    assert Payload(piece, id) == piece.data.value && GoesOn(piece, id);
    hide OpenSince, BytesSince, InProgress, Payload, GoesOn;
    var after := OnChunk(open, id, piece.data).open;
    if InProgress(more, id, max) {
      var j := ProgressSince(more, id, max);
      assert StaysOpen(pieces, piece, id, max, j);
      assert open[id] == Kept(pieces, id, j) && id in after;
    } else if id in after {
      var j := ProgressSince(pieces, id, max);
      assert open[id] == Kept(pieces, id, j);
      assert StaysOpen(pieces, piece, id, max, j);
      IsInProgress(more, id, max, j);
    }
    forall i | 0 <= i < |more| && OpenSince(more, id, max, i) ensures id in after && after[id] == Kept(more, id, i) {
      assert StaysOpen(pieces, piece, id, max, i);
      assert open[id] == Kept(pieces, id, i);
    }
  }

  lemma TellsMore(open: Transfers, pieces: seq<Piece>, piece: Piece, id: string, max: nat)
    requires Tells(open, pieces, id, max)
    ensures Tells(OnPiece(open, piece, max).open, pieces + [piece], id, max)
  {
    assert GoesOn(piece, id) <==> piece.Id() != id || piece.Begins? || (piece.Chunk? && piece.data.Some?);
    hide Tells, Extends, OnPiece, GoesOn;
    ExtendsMore(pieces, piece, id, max);
    if piece.Id() != id {
      TellsForeign(open, pieces, piece, id, max);
    } else if piece.Begins? {
      TellsBegun(open, pieces, piece, id, max);
    } else if GoesOn(piece, id) {
      TellsMoreBytes(open, pieces, piece, id, max);
    } else {
      TellsClosed(open, pieces, piece, id, max);
    }
  }

  /** What a receiver keeps of a transfer is what came of it since it was begun. */
  lemma {:induction false} KeepsExactly(pieces: seq<Piece>, id: string, max: nat)
    ensures Tells(Feed(map[], pieces, max), pieces, id, max)
  {
    hide OnPiece, OpenSince;
    if pieces != [] {
      KeepsExactly(Init(pieces), id, max);
      assert pieces == Init(pieces) + [Last(pieces)];
      FeedMore(map[], Init(pieces), Last(pieces), max);
      TellsMore(Feed(map[], Init(pieces), max), Init(pieces), Last(pieces), id, max);
    }
  }

  /**
    The answer to a piece, after any pieces: a header is a duplicate exactly while its transfer is in
    progress, and else too large or taken; a chunk or an end belongs to a transfer in progress or to
    none, and then what was received since its header, with its bytes, decides.
   */
  lemma AnswersExactly(pieces: seq<Piece>, piece: Piece, max: nat)
    ensures var answer, open := OnPiece(Feed(map[], pieces, max), piece, max).outcome, InProgress(pieces, piece.Id(), max);
            && (piece.Begins? ==> answer == if open then Duplicate else if piece.header.size > max then TooLarge else Accepted)
            && (!piece.Begins? ==> (answer == Unknown <==> !open))
            && (piece.Chunk? && piece.data.None? && open ==> answer == Undecodable)
            && forall j :: 0 <= j < |pieces| && OpenSince(pieces, piece.Id(), max, j) ==>
                 var declared, bytes := pieces[j].header, BytesSince(pieces, piece.Id(), j) + Payload(piece, piece.Id());
                 && (piece.Chunk? && piece.data.Some? ==>
                       answer == if |bytes| > declared.size then SizeMismatch(|bytes|, declared.size) else Accepted)
                 && (piece.Ends? ==>
                       answer == if |bytes| == declared.size then Finished(declared, bytes) else SizeMismatch(|bytes|, declared.size))
  {
    var id := piece.Id();
    KeepsExactly(pieces, id, max);
    hide OpenSince, BytesSince;
  }

  /** Every piece of a file but the last carries 1 MiB, and the last no more, but something. */
  lemma {:induction false} PiecesAreFull(id: string, file: seq<byte>, k: nat)
    requires k < |Chunks(id, file)|
    ensures var chunk := Chunks(id, file)[k];
            && chunk.Chunk? && chunk.id == id && chunk.data.Some? && 0 < |chunk.data.value| <= 1_048_576
            && (k < |Chunks(id, file)| - 1 ==> |chunk.data.value| == 1_048_576)
    decreases |file|
  {
    if |file| > CHUNK_BYTES && k > 0 {
      PiecesAreFull(id, file[CHUNK_BYTES..], k - 1);
    }
  }
}
