/**
 The egress gateway's full-duplex relay.

 A schedule decides everything the sockets and the clock decide: which endpoint is readable, what a
 read returns, how much of a write is accepted, and when the deadline passes.
 */
module Relay {
  type Bytes = seq<int>

  const CHUNK_LIMIT := 65_536
  const MAX_BYTES_PER_DIRECTION := 16_000_000

  datatype Endpoint = Peer | Target

  /** One attempt to write the rest of a chunk. */
  datatype Send = Wrote(count: int) | Full(deadlinePassed: bool) | SendError

  /** What one readable endpoint yields, and how the writes of its chunk go. */
  datatype Read =
    | WouldBlock
    | Chunk(bytes: Bytes, sends: seq<Send>)
    | EndOfFile(shutdownFails: bool)
    | ReadError

  datatype Ready = Ready(source: Endpoint, read: Read)

  /** One turn of the selector: the deadline has passed, or some endpoints are readable. */
  datatype Turn = DeadlinePassed | Selected(ready: seq<Ready>)

  datatype Outcome = Finished | TimedOut | LimitExceeded | SendFailed | ReadFailed

  /** `recv(65_536)` returns between one byte and that many. */
  predicate ValidTurn(turn: Turn) {
    turn.Selected? ==>
      forall i :: 0 <= i < |turn.ready| && turn.ready[i].read.Chunk? ==>
        1 <= |turn.ready[i].read.bytes| <= CHUNK_LIMIT
  }

  predicate ValidSchedule(schedule: seq<Turn>) {
    forall i :: 0 <= i < |schedule| ==> ValidTurn(schedule[i])
  }

  // ---------------------------------------------------------------- what a schedule offers

  /** The reads of one endpoint in one turn. */
  function ReadsOf(ready: seq<Ready>, source: Endpoint): seq<Read> {
    if ready == [] then []
    else (if ready[0].source == source then [ready[0].read] else []) + ReadsOf(ready[1..], source)
  }

  /** The reads of one endpoint over a whole schedule. */
  function Stream(schedule: seq<Turn>, source: Endpoint): seq<Read> {
    if schedule == [] then []
    else
      (if schedule[0].Selected? then ReadsOf(schedule[0].ready, source) else []) + Stream(schedule[1..], source)
  }

  /** The bytes an endpoint produces before its end of file. */
  function Offered(arrivals: seq<Read>): Bytes {
    if arrivals == [] || arrivals[0].EndOfFile? then []
    else (if arrivals[0].Chunk? then arrivals[0].bytes else []) + Offered(arrivals[1..])
  }

  /** Everything that happened from one endpoint towards the other. */
  class Direction {
    var received: Bytes
    var sent: Bytes
    var count: nat
    var registered: bool
    /** How many bytes had been sent when the end of file was forwarded. */
    var closedAfter: int

    constructor ()
      ensures Fresh()
    {
      received, sent, count, registered, closedAfter := [], [], 0, true, -1;
    }

    ghost predicate Fresh()
      reads this
    {
      received == [] && sent == [] && count == 0 && registered && closedAfter == -1
    }

    /** Nothing is in flight: all bytes went out in order, and an end of file came after all of them. */
    ghost predicate Settled()
      reads this
    {
      && sent == received && count == |received| <= MAX_BYTES_PER_DIRECTION
      && (registered <==> closedAfter == -1) && (!registered ==> closedAfter == |received|)
    }

    /** What holds on every exit: an in-order prefix went out, within the cap, never after a close. */
    ghost predicate Faithful()
      reads this
    {
      && sent <= received && |sent| <= MAX_BYTES_PER_DIRECTION
      && (!registered ==> closedAfter == |sent| == |received|)
    }

    /** What has been received together with what is still to come. */
    ghost function Eventually(arrivals: seq<Read>): Bytes
      reads this
    {
      received + if registered then Offered(arrivals) else []
    }

    /** Writes a chunk out, however small the accepted pieces are. */
    method SendAll(chunk: Bytes, sends: seq<Send>) returns (outcome: Outcome)
      modifies this`sent
      ensures outcome == Finished || outcome == TimedOut || outcome == SendFailed
      ensures outcome == Finished ==> sent == old(sent) + chunk
      ensures old(sent) <= sent <= old(sent) + chunk
    {
      var view := chunk;
      var attempt := 0;
      while view != []
        invariant attempt <= |sends|
        invariant |view| <= |chunk| && view == chunk[|chunk| - |view|..]
        invariant sent == old(sent) + chunk[..|chunk| - |view|]
        decreases |sends| - attempt
      {
        if attempt == |sends| {
          return TimedOut;  // the deadline ends every wait
        }
        var send := sends[attempt];
        attempt := attempt + 1;
        match send {
          case SendError => return SendFailed;
          case Full(deadlinePassed) =>
            if deadlinePassed {
              return TimedOut;
            }
          case Wrote(count) =>
            if count <= 0 {
              return SendFailed;
            }
            var written := if count <= |view| then count else |view|;
            sent := sent + view[..written];
            view := view[written..];
        }
      }
      return Finished;
    }

    /** One readable endpoint served completely before the next. */
    method Serve(read: Read, ghost later: seq<Read>) returns (outcome: Outcome)
      requires Settled() && registered
      requires read.Chunk? ==> 1 <= |read.bytes| <= CHUNK_LIMIT
      modifies this
      ensures outcome == Finished ==> Settled()
      ensures Faithful()
      ensures outcome == Finished ==> Eventually(later) == old(Eventually([read] + later))
      ensures old(received) <= received <= old(Eventually([read] + later))
      ensures old(sent) <= sent
      ensures outcome == LimitExceeded <==> |received| > MAX_BYTES_PER_DIRECTION
      ensures outcome == LimitExceeded <==>
                read.Chunk? && |old(received)| + |read.bytes| > MAX_BYTES_PER_DIRECTION
    {
      OfferedNext(read, later);
      match read {
        case WouldBlock => return Finished;
        case ReadError => return ReadFailed;
        case EndOfFile(_) =>
          registered := false;
          closedAfter := |sent|;  // a failing shutdown is ignored
          return Finished;
        case Chunk(bytes, sends) =>
          received := received + bytes;
          count := count + |bytes|;
          if count > MAX_BYTES_PER_DIRECTION {
            return LimitExceeded;
          }
          outcome := SendAll(bytes, sends);
      }
    }
  }

  lemma {:induction false} NextRead(ready: seq<Ready>, i: nat, source: Endpoint, later: seq<Read>)
    requires i < |ready|
    ensures ReadsOf(ready[i..], source) + later
         == (if ready[i].source == source then [ready[i].read] else []) + (ReadsOf(ready[i + 1..], source) + later)
  {
    assert ready[i..][1..] == ready[i + 1..];
  }

  lemma {:induction false} OfferedNext(read: Read, later: seq<Read>)
    ensures Offered([read] + later)
         == if read.EndOfFile? then [] else (if read.Chunk? then read.bytes else []) + Offered(later)
  {
    assert ([read] + later)[1..] == later;
  }

  /** Serves the readable endpoints of one turn; only registered ones are ever reported. */
  method ServeTurn(
    peer: Direction, target: Direction, ready: seq<Ready>,
    ghost peerLater: seq<Read>, ghost targetLater: seq<Read>)
    returns (outcome: Outcome)
    requires peer != target && peer.Settled() && target.Settled() && ValidTurn(Selected(ready))
    modifies peer, target
    ensures outcome == Finished ==> peer.Settled() && target.Settled()
    ensures peer.Faithful() && target.Faithful()
    ensures peer.received <= old(peer.Eventually(ReadsOf(ready, Peer) + peerLater))
    ensures target.received <= old(target.Eventually(ReadsOf(ready, Target) + targetLater))
    ensures outcome == LimitExceeded
       <==> |peer.received| > MAX_BYTES_PER_DIRECTION || |target.received| > MAX_BYTES_PER_DIRECTION
    ensures outcome == Finished ==>
              && peer.Eventually(peerLater) == old(peer.Eventually(ReadsOf(ready, Peer) + peerLater))
              && target.Eventually(targetLater) == old(target.Eventually(ReadsOf(ready, Target) + targetLater))
  {
    assert ready[0..] == ready;
    for i := 0 to |ready|
      invariant peer.Settled() && target.Settled()
      invariant peer.Eventually(ReadsOf(ready[i..], Peer) + peerLater)
             == old(peer.Eventually(ReadsOf(ready, Peer) + peerLater))
      invariant target.Eventually(ReadsOf(ready[i..], Target) + targetLater)
             == old(target.Eventually(ReadsOf(ready, Target) + targetLater))
    {
      ghost var peerNext := ReadsOf(ready[i + 1..], Peer) + peerLater;
      ghost var targetNext := ReadsOf(ready[i + 1..], Target) + targetLater;
      NextRead(ready, i, Peer, peerLater);
      NextRead(ready, i, Target, targetLater);
      assert [] + peerNext == peerNext && [] + targetNext == targetNext;
      var source := if ready[i].source.Peer? then peer else target;
      if source.registered {
        outcome := source.Serve(ready[i].read, if ready[i].source.Peer? then peerNext else targetNext);
        if outcome != Finished {
          return;
        }
      }
    }
    assert ready[|ready|..] == [];
    assert [] + peerLater == peerLater && [] + targetLater == targetLater;
    outcome := Finished;
  }

  /**
   Relays until both ends of file.  At every turn's start each direction has sent exactly what it
   received; on any exit it has received a prefix of what was offered to it and sent a prefix of that
   within the cap, and the limit is reported exactly when a direction received more; a half-close is
   forwarded only after all earlier bytes; and a normal return means both ends of file were seen and
   every byte offered before them was delivered.
   */
  method RelayBytes(peer: Direction, target: Direction, schedule: seq<Turn>) returns (outcome: Outcome)
    requires peer != target && peer.Fresh() && target.Fresh() && ValidSchedule(schedule)
    modifies peer, target
    ensures peer.Faithful() && target.Faithful()
    ensures peer.received <= Offered(Stream(schedule, Peer))
    ensures target.received <= Offered(Stream(schedule, Target))
    ensures outcome == LimitExceeded
       <==> |peer.received| > MAX_BYTES_PER_DIRECTION || |target.received| > MAX_BYTES_PER_DIRECTION
    ensures outcome == Finished ==>
              && peer.Settled() && target.Settled() && !peer.registered && !target.registered
              && peer.sent == Offered(Stream(schedule, Peer))
              && target.sent == Offered(Stream(schedule, Target))
  {
    var turn := 0;
    assert schedule[0..] == schedule;
    ghost var fromPeer, fromTarget := Offered(Stream(schedule, Peer)), Offered(Stream(schedule, Target));
    while peer.registered || target.registered
      invariant turn <= |schedule|
      invariant peer.Settled() && target.Settled()
      invariant peer.Eventually(Stream(schedule[turn..], Peer)) == fromPeer
      invariant target.Eventually(Stream(schedule[turn..], Target)) == fromTarget
      decreases |schedule| - turn
    {
      if turn == |schedule| || schedule[turn].DeadlinePassed? {
        return TimedOut;
      }
      assert schedule[turn..][1..] == schedule[turn + 1..];
      outcome := ServeTurn(peer, target, schedule[turn].ready,
                           Stream(schedule[turn + 1..], Peer), Stream(schedule[turn + 1..], Target));
      if outcome != Finished {
        return;
      }
      turn := turn + 1;
    }
    return Finished;
  }
}
