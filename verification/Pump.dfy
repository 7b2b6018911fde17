/** The bounded reader of a decode child's stdout. */
module Pump {
  import opened Common

  newtype byte = x: int | 0 <= x < 256

  const LF: byte := 10
  const READY_LINE_MAX_BYTES := 256
  const PIPE_CHUNK := 65536

  /** The position of the first LF, or the length when there is none. */
  function Newline(s: seq<byte>): (n: nat)
    ensures n <= |s|
    ensures n < |s| ==> s[n] == LF
    ensures forall i :: 0 <= i < n ==> s[i] != LF
  {
    if s == [] || s[0] == LF then 0 else 1 + Newline(s[1..])
  }

  /** What the pump has learnt once it is finished. */
  datatype Outcome = NoReadyLine(bytes: seq<byte>)
                   | Oversize(prefix: seq<byte>)
                   | Ready(line: seq<byte>, response: seq<byte>, overflowed: bool)

  /** The pump's result as a function of the child's bytes alone. */
  function Result(stream: seq<byte>, cap: nat): Outcome {
    var n := Newline(stream);
    if n < |stream| && n < READY_LINE_MAX_BYTES then
      var rest := stream[n + 1..];
      Ready(stream[..n + 1], if |rest| > cap then rest[..cap + 1] else rest, |rest| > cap)
    else if |stream| > READY_LINE_MAX_BYTES then Oversize(stream[..READY_LINE_MAX_BYTES + 1])
    else NoReadyLine(stream)
  }

  /** A pipe that hands its bytes over in chunks of its own choosing, and then ends. */
  class Pipe {
    var rest: seq<byte>

    constructor (stream: seq<byte>)
      ensures rest == stream
    {
      rest := stream;
    }

    /** At least one byte and at most `wanted`, until nothing is left. */
    method Read(wanted: nat) returns (chunk: seq<byte>)
      requires wanted >= 1
      modifies this
      ensures old(rest) == chunk + rest
      ensures |chunk| <= wanted && (chunk == [] <==> old(rest) == [])
    {
      if rest == [] {
        return [];
      }
      var n :| 1 <= n <= wanted && n <= |rest|;
      chunk := rest[..n];
      rest := rest[n..];
    }
  }

  lemma NewlineInPrefix(s: seq<byte>, t: seq<byte>)
    ensures Newline(s) < |s| ==> Newline(s + t) == Newline(s)
    ensures Newline(s) == |s| ==> Newline(s + t) >= |s|
  {
    if Newline(s) < |s| {
      assert (s + t)[Newline(s)] == LF;
      forall i | 0 <= i < Newline(s) ensures (s + t)[i] != LF {}
    } else {
      forall i | 0 <= i < |s| ensures (s + t)[i] != LF {}
    }
  }

  /** The pump's state as a value, and the state after taking one chunk. */
  datatype Rounds = Rounds(buffer: seq<byte>, readyEnd: Option<nat>, oversize: bool, overflowed: bool, finished: bool)

  function Round(r: Rounds, chunk: seq<byte>, cap: nat): Rounds {
    if r.finished then r
    else if chunk == [] then r.(finished := true)
    else
      var b := r.buffer + chunk;
      match r.readyEnd
      case None =>
        var n := Newline(b);
        if n < |b| && n < READY_LINE_MAX_BYTES then r.(buffer := b, readyEnd := Some(n + 1))
        else if n < |b| || |b| > READY_LINE_MAX_BYTES then r.(buffer := b, oversize := true, finished := true)
        else r.(buffer := b)
      case Some(end) =>
        if |b| > end + cap then r.(buffer := b, overflowed := true, finished := true) else r.(buffer := b)
  }

  class StdoutPump {
    const responseCap: nat
    var buffer: seq<byte>
    var readyEnd: Option<nat>
    var readyOversize: bool
    var overflowed: bool
    var finished: bool

    constructor (responseCap: nat)
      ensures this.responseCap == responseCap
      ensures buffer == [] && readyEnd == None && !readyOversize && !overflowed && !finished
    {
      this.responseCap := responseCap;
      buffer, readyEnd, readyOversize, overflowed, finished := [], None, false, false, false;
    }

    function View(): Rounds
      reads this
    {
      Rounds(buffer, readyEnd, readyOversize, overflowed, finished)
    }

    /** One byte past the cap that applies now. */
    function Limit(): nat
      reads this
    {
      if readyEnd.None? then READY_LINE_MAX_BYTES + 1 else readyEnd.value + responseCap + 1
    }

    function Outcome(): Outcome
      requires readyEnd.Some? ==> readyEnd.value <= |buffer|
      requires readyOversize ==> |buffer| > READY_LINE_MAX_BYTES
      reads this
    {
      if readyEnd.Some? then Ready(buffer[..readyEnd.value], buffer[readyEnd.value..], overflowed)
      else if readyOversize then Oversize(buffer[..READY_LINE_MAX_BYTES + 1])
      else NoReadyLine(buffer)
    }

    /** While reading: within the cap, and the ready line is known as soon as it is there. */
    ghost predicate Reading()
      reads this
    {
      && !readyOversize && !overflowed && !finished
      && |buffer| < Limit()
      && match readyEnd
         case None => Newline(buffer) == |buffer|
         case Some(end) => 0 < end <= |buffer| && end <= READY_LINE_MAX_BYTES && Newline(buffer) == end - 1
    }

    /** Take one chunk in; true when the pump is done. */
    method Take(chunk: seq<byte>) returns (done: bool)
      requires Reading() && responseCap >= READY_LINE_MAX_BYTES
      requires |buffer| + |chunk| <= Limit()
      modifies this
      ensures View() == Round(old(View()), chunk, responseCap)
      ensures buffer == old(buffer) + chunk && done == finished
      ensures |buffer| <= Limit()
      ensures !done ==> chunk != [] && Reading()
      ensures done && chunk == [] ==> !readyOversize && !overflowed && readyEnd == old(readyEnd)
      ensures readyEnd.Some? ==> 0 < readyEnd.value <= |buffer| && readyEnd.value <= READY_LINE_MAX_BYTES
                                 && Newline(buffer) == readyEnd.value - 1
      ensures done && chunk != [] ==>
                || (readyOversize && readyEnd.None? && !overflowed && |buffer| == READY_LINE_MAX_BYTES + 1
                    && Newline(buffer) >= READY_LINE_MAX_BYTES)
                || (overflowed && !readyOversize && readyEnd.Some? && |buffer| == readyEnd.value + responseCap + 1)
    {
      if chunk == [] {
        finished := true;
        return true;
      }
      NewlineInPrefix(buffer, chunk);
      buffer := buffer + chunk;
      if readyEnd.None? {
        var newline := Newline(buffer);
        if newline < |buffer| && newline < READY_LINE_MAX_BYTES {
          readyEnd := Some(newline + 1);
        } else if newline < |buffer| || |buffer| > READY_LINE_MAX_BYTES {
          readyOversize := true;
          finished := true;
          return true;
        }
      } else if |buffer| > readyEnd.value + responseCap {
        overflowed := true;
        finished := true;
        return true;
      }
      done := false;
    }

    /** The helper thread's body. However the pipe chunks its bytes, every read asks for at least one
        byte, the buffer never passes its cap by more than one, and the result is `Result`. */
    method Run(pipe: Pipe)
      requires buffer == [] && readyEnd == None && !readyOversize && !overflowed && !finished
      requires responseCap >= READY_LINE_MAX_BYTES
      modifies this, pipe
      ensures finished && |buffer| <= Limit()
      ensures readyEnd.Some? ==> readyEnd.value <= |buffer|
      ensures readyOversize ==> |buffer| > READY_LINE_MAX_BYTES
      ensures Outcome() == Result(old(pipe.rest), responseCap)
      ensures buffer <= old(pipe.rest)
    {
      ghost var stream := pipe.rest;
      while true
        invariant Reading()
        invariant stream == buffer + pipe.rest
        decreases |pipe.rest|
      {
        var room := Limit() - |buffer|;
        var wanted := if PIPE_CHUNK < room then PIPE_CHUNK else room;
        var chunk := pipe.Read(wanted);
        var done := Take(chunk);
        assert stream == buffer + pipe.rest;
        NewlineInPrefix(buffer, pipe.rest);
        if done {
          Finished(stream, pipe.rest);
          return;
        }
      }
    }

    /** A finished pump holds exactly what the whole stream determines. */
    lemma Finished(stream: seq<byte>, left: seq<byte>)
      requires stream == buffer + left
      requires readyEnd.Some? ==> 0 < readyEnd.value <= |buffer| && readyEnd.value <= READY_LINE_MAX_BYTES
                                  && Newline(buffer) == readyEnd.value - 1
      requires || (left == [] && !readyOversize && !overflowed && |buffer| < Limit()
                   && (readyEnd.None? ==> Newline(buffer) == |buffer|))
               || (readyOversize && readyEnd.None? && !overflowed && |buffer| == READY_LINE_MAX_BYTES + 1
                   && Newline(buffer) >= READY_LINE_MAX_BYTES)
               || (overflowed && !readyOversize && readyEnd.Some? && |buffer| == readyEnd.value + responseCap + 1)
      ensures readyOversize ==> |buffer| > READY_LINE_MAX_BYTES
      ensures Outcome() == Result(stream, responseCap)
    {
      NewlineInPrefix(buffer, left);
      if readyEnd.Some? {
        var end := readyEnd.value;
        assert stream[..end] == buffer[..end];
        assert stream[end..] == buffer[end..] + left;
        if overflowed {
          assert stream[end..][..responseCap + 1] == buffer[end..];
        } else {
          assert stream[end..] == buffer[end..];
        }
      } else if readyOversize {
        assert stream[..READY_LINE_MAX_BYTES + 1] == buffer[..READY_LINE_MAX_BYTES + 1];
      } else {
        assert stream == buffer;
      }
    }
  }

  // ---------- The cap condition is needed ----------

  /** Below the ready-line cap the chunking shows, for every such cap: LF and cap + 1 more bytes
      overflow when the LF arrives first, and pass when all of them fill the first read. */
  lemma SmallCapSeesChunks(cap: nat)
    requires cap < READY_LINE_MAX_BYTES
    ensures var start, rest := Rounds([], None, false, false, false), seq(cap + 1, _ => 0 as byte);
            && |[LF] + rest| <= READY_LINE_MAX_BYTES + 1
            && Round(Round(start, [LF], cap), rest, cap).overflowed
            && !Round(Round(start, [LF] + rest, cap), [], cap).overflowed
  {
    var rest := seq(cap + 1, _ => 0 as byte);
    assert [] + [LF] == [LF] && [] + ([LF] + rest) == [LF] + rest;
    assert Newline([LF]) == 0 && Newline([LF] + rest) == 0;
  }
}
