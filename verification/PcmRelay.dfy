/**
 * Copying audio between processes through non-blocking pipes. Every read and write moves an arbitrary part
 * of what was asked, may be interrupted, may fail, and is given up at the deadline.
 */
module PcmRelay {
  import opened Wrappers

  type Byte = bv8

  const BUFFER := 65_536

  /** One system call: an error, nothing for now, or up to so many bytes. */
  datatype Io = Fails | Retry | Moves(most: nat)

  /** Polls until the deadline or an interrupt, and what each call after a successful poll does. */
  class Guard {
    var polls: nat
    const plan: nat -> Io

    constructor (polls: nat, plan: nat -> Io)
      ensures this.polls == polls && this.plan == plan
    {
      this.polls, this.plan := polls, plan;
    }

    method Ready() returns (ready: bool)
      modifies this
      ensures ready <==> old(polls) > 0
      ensures polls == if ready then old(polls) - 1 else old(polls)
    {
      ready := polls > 0;
      if ready {
        polls := polls - 1;
      }
    }
  }

  /** Every call moves something; `polls` are enough for so many of them. */
  ghost predicate Eager(guard: Guard, polls: int)
    reads guard
  {
    guard.polls >= polls && forall n :: guard.plan(n).Moves? && guard.plan(n).most > 0
  }

  class Source {
    const bytes: seq<Byte>
    var position: nat

    ghost predicate Valid()
      reads this
    {
      position <= |bytes|
    }

    constructor (bytes: seq<Byte>)
      ensures this.bytes == bytes && position == 0 && Valid()
    {
      this.bytes, position := bytes, 0;
    }

    /** Some bytes if there are any; none means the end. */
    method Read(buffer: array<Byte>, start: nat, most: nat) returns (n: nat)
      requires Valid() && start < buffer.Length
      modifies this`position, buffer
      ensures Valid() && position == old(position) + n && start + n <= buffer.Length
      ensures n == 0 <==> old(position) == |bytes|
      ensures buffer[start..start + n] == bytes[old(position)..position]
      ensures buffer[..start] == old(buffer[..start])
    {
      var room := buffer.Length - start;
      var rest := |bytes| - position;
      n := if most < room then most else room;
      if n == 0 { n := 1; }
      if n > rest { n := rest; }
      forall i | 0 <= i < n {
        buffer[start + i] := bytes[position + i];
      }
      position := position + n;
    }
  }

  class Sink {
    var written: seq<Byte>

    constructor ()
      ensures written == []
    {
      written := [];
    }

    /** A prefix of the bytes, possibly none. */
    method Write(bytes: seq<Byte>, most: nat) returns (n: nat)
      modifies this
      ensures n <= |bytes| && written == old(written) + bytes[..n]
      ensures n == if most < |bytes| then most else |bytes|
    {
      n := if most < |bytes| then most else |bytes|;
      written := written + bytes[..n];
    }
  }

  /** Fills the buffer, short only at the end of the input. */
  method Fill(guard: Guard, input: Source, buffer: array<Byte>) returns (filled: Option<nat>)
    requires input.Valid()
    modifies guard, input`position, buffer
    ensures input.Valid() && input.position >= old(input.position)
    ensures filled.Some? ==>
              && filled.value <= buffer.Length && input.position == old(input.position) + filled.value
              && buffer[..filled.value] == input.bytes[old(input.position)..input.position]
              && (filled.value < buffer.Length ==> input.position == |input.bytes|)
    ensures old(Eager(guard, |input.bytes| - input.position + 1)) ==>
              filled.Some? && Eager(guard, old(guard.polls) - filled.value - if filled.value < buffer.Length then 1 else 0)
  {
    var n: nat := 0;
    while n < buffer.Length
      invariant n <= buffer.Length && input.Valid() && input.position == old(input.position) + n
      invariant buffer[..n] == input.bytes[old(input.position)..input.position]
      invariant old(Eager(guard, |input.bytes| - input.position + 1)) ==> Eager(guard, old(guard.polls) - n)
      decreases guard.polls
    {
      var ready := guard.Ready();
      if !ready {
        return None;
      }
      match guard.plan(guard.polls)
      case Fails => return None;
      case Retry =>
      case Moves(most) =>
        ghost var first, middle := old(input.position), input.position;
        assert buffer[..n] == input.bytes[first..middle];
        var size := input.Read(buffer, n, most);
        if size == 0 {
          break;
        }
        assert buffer[..n + size] == buffer[..n] + buffer[n..n + size];
        assert input.bytes[first..middle] + input.bytes[middle..input.position] == input.bytes[first..input.position];
        n := n + size;
    }
    return Some(n);
  }

  /** All the bytes, in order, or a failure after some prefix of them. */
  method WriteAll(guard: Guard, output: Sink, bytes: seq<Byte>) returns (ok: bool)
    modifies guard, output
    ensures old(output.written) <= output.written <= old(output.written) + bytes
    ensures ok ==> output.written == old(output.written) + bytes
    ensures old(Eager(guard, |bytes|)) ==> ok && Eager(guard, old(guard.polls) - |bytes|)
  {
    var rest := bytes;
    while rest != []
      invariant |rest| <= |bytes| && rest == bytes[|bytes| - |rest|..]
      invariant output.written == old(output.written) + bytes[..|bytes| - |rest|]
      invariant old(Eager(guard, |bytes|)) ==> Eager(guard, old(guard.polls) - (|bytes| - |rest|))
      decreases guard.polls
    {
      var ready := guard.Ready();
      if !ready {
        return false;
      }
      match guard.plan(guard.polls)
      case Fails => return false;
      case Retry =>
      case Moves(most) =>
        var n := output.Write(rest, most);
        if n == 0 {
          return false;
        }
        ghost var done := |bytes| - |rest|;
        assert bytes[..done] + rest[..n] == bytes[..done + n];
        rest := rest[n..];
    }
    return true;
  }

  /** On success the whole input was copied and counted, within the limit; never is more than the limit copied. */
  method Relay(guard: Guard, input: Source, output: Sink, limit: nat) returns (count: Option<nat>)
    requires input.Valid() && input.position == 0 && output.written == []
    modifies guard, input`position, output
    ensures count.Some? ==> output.written == input.bytes && count.value == |input.bytes| <= limit
    ensures output.written <= input.bytes && |output.written| <= limit
    // With calls that move something and time for all of them, the limit alone decides.
    ensures old(Eager(guard, 2 * |input.bytes| + 2)) ==> (count.Some? <==> |input.bytes| <= limit)
  {
    var buffer := new Byte[BUFFER];
    var total := 0;
    while true
      invariant fresh(buffer) && buffer.Length == BUFFER
      invariant input.Valid() && total == input.position <= limit && output.written == input.bytes[..total]
      invariant old(Eager(guard, 2 * |input.bytes| + 2)) ==>
                  Eager(guard, 2 * (|input.bytes| - total) + if total < |input.bytes| then 2 else 1)
      decreases |input.bytes| - input.position
    {
      var size := Fill(guard, input, buffer);
      if size.None? {
        return None;
      }
      if size.value == 0 {
        assert input.bytes[..total] == input.bytes;
        return Some(total);
      }
      ghost var start := total;
      total := total + size.value;
      if total > limit {
        return None;
      }
      assert input.bytes[..start] + input.bytes[start..total] == input.bytes[..total];
      var ok := WriteAll(guard, output, buffer[..size.value]);
      if !ok {
        return None;
      }
    }
  }
}
