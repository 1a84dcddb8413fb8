/**
  The echo service and the test request that is built on it: reverse the input into a temporary buffer,
  then repeat that into the output. Buffers may be longer than the lengths that come with them.
*/
module EchoService {

  import opened Basics

  type Byte = bv8

  datatype Status = Success | BufferOverflow | InvalidParameter | InsufficientResources | ServiceUnavailable

  datatype FunctionCode = EchoCode | RepeatCode | ReverseCode | UnknownCode

  /** One past the largest ULONG. */
  const ULONG_LIMIT: nat := 0x1_0000_0000

  function Reversed(s: seq<Byte>): (r: seq<Byte>)
    ensures |r| == |s|
    ensures forall i :: 0 <= i < |s| ==> r[i] == s[|s| - 1 - i]
  {
    if s == [] then [] else Reversed(s[1..]) + [s[0]]
  }

  lemma {:induction false} ReversedTwice(s: seq<Byte>)
    ensures Reversed(Reversed(s)) == s
  {
    var r := Reversed(Reversed(s));
    forall i | 0 <= i < |s| ensures r[i] == s[i] {
      assert r[i] == Reversed(s)[|s| - 1 - i];
    }
  }

  // ---------- when the loops end ----------

  /** What is left of the output after k rounds of the repeat loop. */
  function LeftAfter(room: int, n: nat, k: nat): int {
    if k == 0 then room else LeftAfter(room, n, k - 1) - n
  }

  lemma {:induction false} LeftAfterIs(room: int, n: nat, k: nat)
    ensures LeftAfter(room, n, k) == room - n * k
  {
    if k > 0 {
      LeftAfterIs(room, n, k - 1);
      assert n * k == n * (k - 1) + n;
    }
  }

  /** The repeat loop ends exactly for a non-empty input. */
  lemma {:induction false} RepeatEndsIff(room: nat, n: nat)
    ensures (exists k: nat :: LeftAfter(room, n, k) < n) <==> n > 0
  {
    if n > 0 {
      LeftAfterIs(room, n, room);
      assert n * room >= room;
      assert LeftAfter(room, n, room) < n;
    } else {
      forall k: nat ensures LeftAfter(room, n, k) >= n {
        LeftAfterIs(room, n, k);
      }
    }
  }

  /** With an empty input no number of rounds is enough. */
  lemma {:induction false} RepeatCanHang(room: nat)
    ensures forall k: nat :: LeftAfter(room, 0, k) >= 0
  {
    RepeatEndsIff(room, 0);
  }

  /** The index of the reverse loop, a ULONG, after k rounds. */
  function IndexAfter(k: nat): nat {
    if k == 0 then 0 else (IndexAfter(k - 1) + 1) % ULONG_LIMIT
  }

  lemma {:induction false} IndexAfterIs(k: nat)
    ensures IndexAfter(k) < ULONG_LIMIT && (k < ULONG_LIMIT ==> IndexAfter(k) == k)
  {
    if k > 0 {
      IndexAfterIs(k - 1);
    }
  }

  /** The reverse loop ends exactly for an input whose length a ULONG can hold. */
  lemma {:induction false} ReverseEndsIff(n: nat)
    ensures (exists k :: IndexAfter(k) >= n) <==> n < 0x1_0000_0000
  {
    if n < ULONG_LIMIT {
      IndexAfterIs(n);
    } else {
      forall k: nat ensures IndexAfter(k) < n {
        IndexAfterIs(k);
      }
    }
  }

  /** With 2^32 bytes the index wraps around before it gets there. */
  lemma {:induction false} ReverseCanHang()
    ensures forall k :: IndexAfter(k) < 0x1_0000_0000
  {
    ReverseEndsIff(0x1_0000_0000);
  }

  // ---------- the handlers ----------

  method CopyMemory(from: array<Byte>, n: nat, to: array<Byte>, at: nat)
    requires from != to && n <= from.Length && at + n <= to.Length
    modifies to
    ensures to[..] == old(to[..at]) + from[..n] + old(to[at + n..])
  {
    forall i | 0 <= i < n {
      to[at + i] := from[i];
    }
  }

  /** Echo: the input, or, if the output is too short, the length it would need. */
  method Echo(input: array<Byte>, n: nat, output: array<Byte>, room: nat) returns (status: Status, written: nat)
    requires input != output && n <= input.Length && room <= output.Length
    modifies output
    ensures written == n && (status == Success <==> n <= room) && (status != Success ==> status == BufferOverflow)
    ensures output[..] == if n <= room then input[..n] + old(output[n..]) else old(output[..])
  {
    written := n;
    if room < n {
      return BufferOverflow, written;
    }
    CopyMemory(input, n, output, 0);
    status := Success;
  }

  /** Repeat: as many whole copies as fit; what is left of the output stays as it was. */
  method Repeat(input: array<Byte>, n: nat, output: array<Byte>, room: nat) returns (status: Status, written: nat)
    requires input != output && 0 < n <= input.Length && room <= output.Length
    modifies output
    ensures status == Success && written == room / n * n
    ensures written <= room < written + n
    ensures output[..] == Repeated(input[..n], room / n) + old(output[written..])
  {
    written := 0;
    var left := room;
    ghost var k, s, was := 0, input[..n], output[..];
    while left >= n
      invariant 0 <= left && 0 <= written && written + left == room && written == k * |s|
      invariant |output[..]| == |was| && output[..] == Repeated(s, k) + was[written..]
    {
      Appending(s, k, output[..], was, written);
      CopyMemory(input, n, output, written);
      left := left - n;
      written := written + n;
      k := k + 1;
    }
    QuotientAndRemainder(n, k, left);
    status := Success;
  }

  lemma {:induction false} Appending(s: seq<Byte>, k: nat, now: seq<Byte>, was: seq<Byte>, written: nat)
    requires written == k * |s| && written + |s| <= |was| && now == Repeated(s, k) + was[written..]
    ensures now[..written] + s + now[written + |s|..] == Repeated(s, k + 1) + was[written + |s|..]
    ensures written + |s| == (k + 1) * |s|
  {
    assert now[..written] == Repeated(s, k);
    assert now[written + |s|..] == was[written + |s|..];
  }

  /** Reverse: the input backwards. If the output is too short the length is not reported. */
  method Reverse(input: array<Byte>, n: nat, output: array<Byte>, room: nat, before: nat) returns (status: Status, written: nat)
    requires input != output && n <= input.Length && room <= output.Length && (n <= room ==> n < ULONG_LIMIT)
    modifies output
    ensures (status == Success <==> n <= room) && (status != Success ==> status == BufferOverflow)
    ensures written == if n <= room then n else before
    ensures output[..] == if n <= room then Reversed(input[..n]) + old(output[n..]) else old(output[..])
  {
    if room < n {
      return BufferOverflow, before;
    }
    var index := 0;
    while index < n
      invariant index <= n
      invariant forall i :: 0 <= i < index ==> output[i] == input[n - i - 1]
      invariant forall i :: index <= i < output.Length ==> output[i] == old(output[i])
    {
      output[index] := input[n - index - 1];
      index := (index + 1) % ULONG_LIMIT;
    }
    written := n;
    status := Success;
  }

  /** What a service that succeeded has left in the output. */
  ghost predicate Answered(code: FunctionCode, s: seq<Byte>, was: seq<Byte>, now: seq<Byte>, written: nat) {
    && |now| == |was| && written <= |was| && (code == ReverseCode ==> written <= |s|)
    && (forall i :: 0 <= i < written ==>
          |s| > 0 && now[i] == if code == ReverseCode then Reversed(s)[i] else s[i % |s|])
    && forall i :: written <= i < |now| ==> now[i] == was[i]
  }

  lemma {:induction false} EchoAnswers(s: seq<Byte>, was: seq<Byte>)
    requires |s| <= |was|
    ensures Answered(EchoCode, s, was, s + was[|s|..], |s|)
  {
    forall i | 0 <= i < |s| ensures i % |s| == i {
      QuotientAndRemainder(|s|, 0, i);
    }
  }

  lemma {:induction false} RepeatAnswers(s: seq<Byte>, was: seq<Byte>, k: nat)
    requires k * |s| <= |was|
    ensures Answered(RepeatCode, s, was, Repeated(s, k) + was[k * |s|..], k * |s|)
  {
    forall i | 0 <= i < k * |s| ensures |s| > 0 && Repeated(s, k)[i] == s[i % |s|] {
      RepeatedAt(s, k, i);
    }
  }

  /**
    What each function code promises of the output and of the length reported. Inputs for which the loop that
    would run does not end are left out.
  */
  method SampleServiceEchoHandler(code: FunctionCode, input: array<Byte>, n: nat, output: array<Byte>, room: nat, before: nat)
    returns (status: Status, written: nat)
    requires input != output && n <= input.Length && room <= output.Length
    requires (code == RepeatCode ==> 0 < n) && (code == ReverseCode && n <= room ==> n < ULONG_LIMIT)
    modifies output
    ensures status ==
            if code == UnknownCode then InvalidParameter else if code == RepeatCode || n <= room then Success else BufferOverflow
    ensures code == EchoCode ==> written == n
    ensures code == RepeatCode ==> written == room / n * n && written <= room < written + n
    ensures code == ReverseCode ==> written == if n <= room then n else before
    ensures code == UnknownCode ==> written == before
    ensures status == Success ==> Answered(code, input[..n], old(output[..]), output[..], written)
    ensures status != Success ==> output[..] == old(output[..])
  {
    ghost var was := output[..];
    match code
    case EchoCode =>
      status, written := Echo(input, n, output, room);
      if n <= room {
        EchoAnswers(input[..n], was);
      }
    case RepeatCode =>
      status, written := Repeat(input, n, output, room);
      RepeatAnswers(input[..n], was, room / n);
    case ReverseCode =>
      status, written := Reverse(input, n, output, room, before);
    case UnknownCode =>
      return InvalidParameter, before;
  }

  /**
    The input, reversed, twice over. The input and the output may be the same memory. The first of the two calls
    into the service has nothing to write if it fails; if the second fails the output is as it was.
  */
  method TwiceReversed(input: array<Byte>, n: nat, output: array<Byte>, room: nat, allocOk: bool, reached: bool, reachedAgain: bool)
    returns (status: Status, written: nat)
    requires 0 < n <= input.Length && n < 0x8000_0000 && room <= output.Length
    modifies output
    ensures status ==
            if room < 2 * n then BufferOverflow else if !allocOk then InsufficientResources
            else if reached && reachedAgain then Success else ServiceUnavailable
    ensures written == if room >= 2 * n && !allocOk then 0 else 2 * n
    ensures output[..] ==
            if status == Success then old(Reversed(input[..n]) + Reversed(input[..n]) + output[2 * n..]) else old(output[..])
  {
    written := n * 2;
    if room < n * 2 {
      return BufferOverflow, written;
    }
    if !allocOk {
      return InsufficientResources, 0;
    }
    if !reached {
      return ServiceUnavailable, written;
    }
    var temporary := new Byte[n];
    var inner := 0;
    status, inner := Reverse(input, n, temporary, n, inner);
    assert temporary[..n] == temporary[..];
    if !reachedAgain {
      return ServiceUnavailable, written;
    }
    status, inner := Repeat(temporary, n, output, n * 2);
    QuotientAndRemainder(n, 2, 0);
    RepeatedTwice(temporary[..n]);
  }

  lemma {:induction false} RepeatedTwice(s: seq<Byte>)
    ensures Repeated(s, 2) == s + s
  {
    assert Repeated(s, 1) == Repeated(s, 0) + s == s;
  }

  /** Each byte of the answer, from the request alone. */
  lemma {:induction false} TwiceReversedAt(s: seq<Byte>, i: nat)
    requires i < 2 * |s|
    ensures (Reversed(s) + Reversed(s))[i] == s[|s| - 1 - i % |s|]
  {
    RepeatedTwice(Reversed(s));
    RepeatedAt(Reversed(s), 2, i);
  }
}
