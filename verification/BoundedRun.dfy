/**
 One bounded run of the broker process: its three pipes are served without blocking until all are
 closed, within byte limits and before a deadline.

 A schedule decides what the kernel decides: which pipes are ready in a turn of the selector, how much
 of a write is accepted, what a read yields, and when the deadline passes.
 */
module BoundedRun {
  import opened Wrappers

  type Bytes = seq<int>

  datatype Channel = Stdout | Stderr

  datatype Happening =
    | Writable(accepted: nat)  // a broken pipe accepts nothing
    | Blocked(channel: Channel)
    | Chunk(channel: Channel, bytes: Bytes)
    | EndOfFile(channel: Channel)

  /** One turn of the selector: the deadline has passed, or some pipes are ready. */
  datatype Turn = DeadlinePassed | Selected(ready: seq<Happening>)

  datatype Limits = Limits(maxStdin: nat, maxStdout: nat, maxStderr: nat)

  datatype Result = Result(exitCode: int, stdout: Bytes, stderr: Bytes)

  // ---------------------------------------------------------------- what a schedule holds

  /** Everything that becomes ready before the deadline. */
  function Happenings(schedule: seq<Turn>): seq<Happening> {
    if schedule == [] || schedule[0].DeadlinePassed? then [] else schedule[0].ready + Happenings(schedule[1..])
  }

  /** The bytes a channel carries before its end of file. */
  function Output(happenings: seq<Happening>, channel: Channel): Bytes {
    if happenings == [] || happenings[0] == EndOfFile(channel) then []
    else
      (if happenings[0].Chunk? && happenings[0].channel == channel then happenings[0].bytes else [])
      + Output(happenings[1..], channel)
  }

  predicate Ends(happenings: seq<Happening>, channel: Channel) {
    EndOfFile(channel) in happenings
  }

  /** How many of `pending` bytes the child takes before it has them all or takes none. */
  function Taken(happenings: seq<Happening>, pending: nat): (n: nat)
    ensures n <= pending
  {
    if happenings == [] then 0
    else if !happenings[0].Writable? then Taken(happenings[1..], pending)
    else
      var accepted := happenings[0].accepted;
      if accepted >= pending then pending
      else if accepted == 0 then 0
      else accepted + Taken(happenings[1..], pending - accepted)
  }

  /** The child took all of its input or refused more of it. */
  predicate Fed(happenings: seq<Happening>, pending: nat) {
    happenings != [] &&
    if !happenings[0].Writable? then Fed(happenings[1..], pending)
    else
      var accepted := happenings[0].accepted;
      accepted >= pending || accepted == 0 || Fed(happenings[1..], pending - accepted)
  }

  /** Neither channel has carried more than its limit. */
  predicate Fits(happenings: seq<Happening>, limits: Limits) {
    |Output(happenings, Stdout)| <= limits.maxStdout && |Output(happenings, Stderr)| <= limits.maxStderr
  }

  /** All of it, or everything up to the first happening that overflows a channel. */
  function Seen(happenings: seq<Happening>, limits: Limits): seq<Happening> {
    if happenings == [] || Fits(happenings[..|happenings| - 1], limits) then happenings
    else Seen(happenings[..|happenings| - 1], limits)
  }

  // ---------------------------------------------------------------- one happening more

  lemma {:induction false} OutputAppend(seen: seq<Happening>, later: seq<Happening>, channel: Channel)
    ensures Output(seen + later, channel)
         == Output(seen, channel) + if Ends(seen, channel) then [] else Output(later, channel)
  {
    if seen == [] {
      assert seen + later == later;
    } else {
      assert (seen + later)[1..] == seen[1..] + later;
      assert seen == [seen[0]] + seen[1..];
      OutputAppend(seen[1..], later, channel);
    }
  }

  lemma {:induction false} TakenAppend(seen: seq<Happening>, later: seq<Happening>, pending: nat)
    ensures Taken(seen + later, pending)
         == Taken(seen, pending) + if Fed(seen, pending) then 0 else Taken(later, pending - Taken(seen, pending))
    ensures Fed(seen + later, pending)
       <==> Fed(seen, pending) || Fed(later, pending - Taken(seen, pending))
  {
    if seen == [] {
      assert seen + later == later;
    } else {
      assert (seen + later)[1..] == seen[1..] + later;
      TakenAppend(seen[1..], later, pending);
      if seen[0].Writable? && 0 < seen[0].accepted < pending {
        TakenAppend(seen[1..], later, pending - seen[0].accepted);
      }
    }
  }

  /** What fits as a whole fitted all along, and is all there is to see. */
  lemma {:induction false} SeenWhole(happenings: seq<Happening>, limits: Limits)
    requires Fits(happenings, limits)
    ensures Seen(happenings, limits) == happenings
  {
    if happenings != [] {
      var front := happenings[..|happenings| - 1];
      assert happenings == front + [happenings[|happenings| - 1]];
      OutputAppend(front, [happenings[|happenings| - 1]], Stdout);
      OutputAppend(front, [happenings[|happenings| - 1]], Stderr);
    }
  }

  /** The first overflow is where seeing stops, whatever would have come later. */
  lemma {:induction false} SeenUntil(seen: seq<Happening>, next: Happening, later: seq<Happening>, limits: Limits)
    requires Fits(seen, limits) && !Fits(seen + [next], limits)
    ensures Seen(seen + [next] + later, limits) == seen + [next]
    ensures !Fits(seen + [next] + later, limits)
  {
    OutputAppend(seen + [next], later, Stdout);
    OutputAppend(seen + [next], later, Stderr);
    if later == [] {
      assert seen + [next] + later == seen + [next];
      assert (seen + [next])[..|seen|] == seen;
    } else {
      var front := later[..|later| - 1];
      assert (seen + [next] + later)[..|seen + [next] + later| - 1] == seen + [next] + front;
      SeenUntil(seen, next, front, limits);
    }
  }

  // ---------------------------------------------------------------- the pipes

  class OutputPipe {
    const channel: Channel
    const maximum: nat
    var bytes: Bytes
    var open: bool

    constructor (channel: Channel, maximum: nat)
      ensures this.channel == channel && this.maximum == maximum && After([])
    {
      this.channel, this.maximum, bytes, open := channel, maximum, [], true;
    }

    /** The pipe once these have happened. */
    ghost predicate After(seen: seq<Happening>)
      reads this
    {
      bytes == Output(seen, channel) && (open <==> !Ends(seen, channel))
    }

    /** Serves what concerns this pipe; a chunk that does not fit is not stored. */
    method Serve(happening: Happening, ghost seen: seq<Happening>) returns (ok: bool)
      requires After(seen) && |Output(seen, channel)| <= maximum
      modifies this
      ensures ok <==> |Output(seen + [happening], channel)| <= maximum
      ensures ok ==> After(seen + [happening])
      ensures !ok ==> bytes == old(bytes) && open == old(open)
    {
      OutputAppend(seen, [happening], channel);
      assert [happening][1..] == [];
      if open && happening == EndOfFile(channel) {
        open := false;
      } else if open && happening.Chunk? && happening.channel == channel {
        if |bytes| + |happening.bytes| > maximum {
          return false;
        }
        bytes := bytes + happening.bytes;
      }
      return true;
    }
  }

  class InputPipe {
    const input: Bytes
    var offset: nat
    var open: bool

    constructor (input: Bytes)
      ensures this.input == input && After([])
    {
      this.input, offset, open := input, 0, true;
    }

    /** The pipe once these have happened. */
    ghost predicate After(seen: seq<Happening>)
      reads this
    {
      offset == Taken(seen, |input|) && (open <==> !Fed(seen, |input|))
    }

    /** One write of the whole rest; a write that finishes the input or takes nothing closes the pipe. */
    method Serve(happening: Happening, ghost seen: seq<Happening>)
      requires After(seen)
      modifies this
      ensures After(seen + [happening])
    {
      TakenAppend(seen, [happening], |input|);
      assert [happening][1..] == [];
      if open && happening.Writable? {
        var rest := input[offset..];
        var written := if happening.accepted <= |rest| then happening.accepted else |rest|;
        offset := offset + written;
        if written == 0 || offset == |input| {
          open := false;
        }
      }
    }
  }

  // ---------------------------------------------------------------- the run

  /** Serves everything one turn reports, up to a chunk that does not fit. */
  method ServeTurn(
    stdin: InputPipe, stdout: OutputPipe, stderr: OutputPipe, ready: seq<Happening>, limits: Limits,
    ghost seen: seq<Happening>, ghost later: seq<Happening>)
    returns (ok: bool)
    requires stdin.After(seen) && stdout.After(seen) && stderr.After(seen) && Fits(seen, limits)
    requires stdout != stderr && stdout.channel == Stdout && stderr.channel == Stderr
    requires stdout.maximum == limits.maxStdout && stderr.maximum == limits.maxStderr
    modifies stdin, stdout, stderr
    ensures ok ==> stdin.After(seen + ready) && stdout.After(seen + ready) && stderr.After(seen + ready)
    ensures ok ==> Fits(seen + ready, limits)
    ensures !ok ==> !Fits(seen + ready + later, limits) && stdin.After(Seen(seen + ready + later, limits))
  {
    assert seen + ready[..0] == seen;
    for i := 0 to |ready|
      invariant stdin.After(seen + ready[..i]) && stdout.After(seen + ready[..i])
      invariant stderr.After(seen + ready[..i]) && Fits(seen + ready[..i], limits)
    {
      ghost var before := seen + ready[..i];
      assert before + [ready[i]] == seen + ready[..i + 1];
      stdin.Serve(ready[i], before);
      ok := stdout.Serve(ready[i], before);
      if ok {
        ok := stderr.Serve(ready[i], before);
      }
      if !ok {
        assert before + [ready[i]] + (ready[i + 1..] + later) == seen + ready + later;
        SeenUntil(before, ready[i], ready[i + 1..] + later, limits);
        return;
      }
    }
    assert ready[..|ready|] == ready;
    ok := true;
  }

  lemma {:induction false} NextTurn(schedule: seq<Turn>, turn: nat)
    requires turn <= |schedule|
    ensures Happenings(schedule[turn..])
         == if turn == |schedule| || schedule[turn].DeadlinePassed? then []
            else schedule[turn].ready + Happenings(schedule[turn + 1..])
  {
    assert turn < |schedule| ==> schedule[turn..][1..] == schedule[turn + 1..];
  }

  predicate ArgvOk(argv: seq<string>) {
    forall i :: 0 <= i < |argv| ==> argv[i] != "" && '\0' !in argv[i]
  }

  /** Everything a run needs from the outside to end with a result. */
  predicate Completed(input: Bytes, limits: Limits, happenings: seq<Happening>) {
    && Fed(happenings, |input|) && Ends(happenings, Stdout) && Ends(happenings, Stderr)
    && Fits(happenings, limits)
  }

  /**
   Runs the process.  A result is returned exactly when all three pipes close before the deadline
   within their limits and the process exits in time; it then holds everything the process wrote.
   On every exit the process has received exactly what it took until then: until a channel overflowed,
   or else of everything that became ready before the deadline.
   */
  method RunBoundedBroker(
    argv: seq<string>, input: Bytes, limits: Limits, starts: bool, schedule: seq<Turn>, exit: Option<int>)
    returns (result: Option<Result>, delivered: Bytes)
    ensures result.Some? <==>
              && |input| <= limits.maxStdin && ArgvOk(argv) && starts && exit.Some?
              && Completed(input, limits, Happenings(schedule))
    ensures result.Some? ==>
              result.value == Result(exit.value, Output(Happenings(schedule), Stdout),
                                     Output(Happenings(schedule), Stderr))
    ensures delivered == if |input| <= limits.maxStdin && ArgvOk(argv) && starts
                         then input[..Taken(Seen(Happenings(schedule), limits), |input|)] else []
  {
    if |input| > limits.maxStdin || !ArgvOk(argv) || !starts {
      return None, [];
    }
    var stdin := new InputPipe(input);
    var stdout := new OutputPipe(Stdout, limits.maxStdout);
    var stderr := new OutputPipe(Stderr, limits.maxStderr);
    ghost var all, seen := Happenings(schedule), [];
    var turn := 0;
    assert schedule[0..] == schedule;
    while stdin.open || stdout.open || stderr.open
      invariant turn <= |schedule| && all == seen + Happenings(schedule[turn..])
      invariant stdin.After(seen) && stdout.After(seen) && stderr.After(seen) && Fits(seen, limits)
      decreases |schedule| - turn
    {
      NextTurn(schedule, turn);
      if turn == |schedule| || schedule[turn].DeadlinePassed? {
        assert all == seen;
        SeenWhole(all, limits);
        return None, input[..stdin.offset];
      }
      ghost var later := Happenings(schedule[turn + 1..]);
      assert all == seen + schedule[turn].ready + later;
      var ok := ServeTurn(stdin, stdout, stderr, schedule[turn].ready, limits, seen, later);
      if !ok {
        return None, input[..stdin.offset];
      }
      seen := seen + schedule[turn].ready;
      turn := turn + 1;
    }
    ClosedBefore(seen, Happenings(schedule[turn..]), |input|, limits);
    delivered := input[..stdin.offset];
    result := if exit.None? then None else Some(Result(exit.value, stdout.bytes, stderr.bytes));
  }

  /** Once all three pipes are closed nothing later matters. */
  lemma {:induction false} ClosedBefore(seen: seq<Happening>, later: seq<Happening>, pending: nat, limits: Limits)
    requires Fed(seen, pending) && Ends(seen, Stdout) && Ends(seen, Stderr) && Fits(seen, limits)
    ensures var all := seen + later;
            && Fed(all, pending) && Ends(all, Stdout) && Ends(all, Stderr) && Seen(all, limits) == all
            && Taken(all, pending) == Taken(seen, pending)
            && Output(all, Stdout) == Output(seen, Stdout) && Output(all, Stderr) == Output(seen, Stderr)
  {
    OutputAppend(seen, later, Stdout);
    OutputAppend(seen, later, Stderr);
    TakenAppend(seen, later, pending);
    SeenWhole(seen + later, limits);
  }

  /** Input that was not taken whole was refused: the child broke the pipe or took nothing. */
  lemma {:induction false} ShortInputRefused(happenings: seq<Happening>, pending: nat)
    requires Fed(happenings, pending) && Taken(happenings, pending) < pending
    ensures Writable(0) in happenings
  {
    if happenings[0] != Writable(0) {
      ShortInputRefused(
        happenings[1..], pending - if happenings[0].Writable? then happenings[0].accepted else 0);
    }
  }
}
