/**
 * The byte stream of a netlink connection: one message is taken over at a time, readers take it
 * apart, and a semaphore tells them whether there is anything left.
 */
module Netlink {
  import opened Common
  import opened Semaphore

  type Byte = n: nat | n < 256

  datatype ReadResult = NoData | Bytes(data: seq<Byte>)

  // ---------------------------------------------------------------- as a value

  /** The unread bytes of the message, and the tokens in dataLeft. */
  datatype Stream = Stream(rest: seq<Byte>, tokens: nat)

  /** handleMessage. */
  function Arrived(s: Stream, payload: seq<Byte>): Stream { Stream(payload, s.tokens + 1) }

  /** readData; a call that finds no token returns NoData, at once or when its time is over. */
  function ReadFrom(s: Stream, len: nat): (Stream, ReadResult) {
    if s.tokens == 0 then (s, NoData)
    else if s.rest == [] then (s.(tokens := s.tokens - 1), NoData)
    else
      var k := if len > |s.rest| then |s.rest| else len;
      var rest := s.rest[k..];
      (Stream(rest, if rest == [] then s.tokens - 1 else s.tokens), Bytes(s.rest[..k]))
  }

  /** A read gets as much as it asks for or as there is, from the front; without a token it gets nothing. */
  lemma ReadIsCapped(s: Stream, len: nat)
    ensures var (t, r) := ReadFrom(s, len);
      && (r.Bytes? <==> s.tokens > 0 && s.rest != [])
      && (r.Bytes? ==> r.data + t.rest == s.rest && |r.data| <= len && (|r.data| == len || t.rest == []))
      && (r.NoData? ==> t.rest == s.rest)
  {}

  /** One token exactly while bytes remain. */
  ghost predicate Steady(s: Stream) { s.tokens == if s.rest == [] then 0 else 1 }

  /** A message leaves the stream steady exactly when it is not empty and the last one was read. */
  lemma ArrivalIsSteadyExactlyWhen(s: Stream, payload: seq<Byte>)
    requires Steady(s)
    ensures Steady(Arrived(s, payload)) <==> s.rest == [] && payload != []
  {}

  /** A second message before the first is read: its bytes replace the first's, and there are two tokens. */
  lemma SecondArrivalOvertakes()
    ensures var s := Arrived(Arrived(Stream([], 0), [1]), [2]);
      s == Stream([2], 2) && ReadFrom(s, 1) == (Stream([], 1), Bytes([2])) && !Steady(ReadFrom(s, 1).0)
  {
    var two: seq<Byte> := [2];
    assert two[1..] == [] && two[..1] == two;
  }

  /** Any reads, one after the other. */
  function ReadAll(s: Stream, lens: seq<nat>): (Stream, seq<Byte>)
    decreases |lens|
  {
    if lens == [] then (s, [])
    else
      var (t, r) := ReadFrom(s, lens[0]);
      var (end, rest) := ReadAll(t, lens[1..]);
      (end, (if r.Bytes? then r.data else []) + rest)
  }

  /** What is read is a prefix of the message, what is left is the rest of it, token included. */
  lemma {:induction false} ReadsSliceTheMessage(s: Stream, lens: seq<nat>)
    requires Steady(s)
    ensures var (end, data) := ReadAll(s, lens);
      Steady(end) && data + end.rest == s.rest
    decreases |lens|
  {
    if lens != [] {
      var (t, r) := ReadFrom(s, lens[0]);
      ReadsSliceTheMessage(t, lens[1..]);
      if r.Bytes? {
        var (end, rest) := ReadAll(t, lens[1..]);
        assert s.rest == r.data + (rest + end.rest);
      }
    }
  }

  function Sum(lens: seq<nat>): nat { if lens == [] then 0 else lens[0] + Sum(lens[1..]) }

  /** Reads that ask for enough get everything. */
  lemma {:induction false} EnoughReadsDrain(s: Stream, lens: seq<nat>)
    requires Steady(s) && Sum(lens) >= |s.rest|
    ensures ReadAll(s, lens) == (Stream([], 0), s.rest)
    decreases |lens|
  {
    if lens != [] {
      var (t, r) := ReadFrom(s, lens[0]);
      EnoughReadsDrain(t, lens[1..]);
      assert (if r.Bytes? then r.data else []) + t.rest == s.rest;
    }
  }

  /** From a drained connection: the whole life of one message. */
  lemma MessageIsReadWhole(s: Stream, payload: seq<Byte>, lens: seq<nat>)
    requires s == Stream([], 0) && payload != []
    ensures var (end, data) := ReadAll(Arrived(s, payload), lens);
      data + end.rest == payload && (end.tokens == 1 <==> end.rest != []) && end.tokens <= 1
    ensures Sum(lens) >= |payload| ==> ReadAll(Arrived(s, payload), lens) == (Stream([], 0), payload)
  {
    ArrivalIsSteadyExactlyWhen(s, payload);
    ReadsSliceTheMessage(Arrived(s, payload), lens);
    if Sum(lens) >= |payload| { EnoughReadsDrain(Arrived(s, payload), lens); }
  }

  /** Tokens without bytes, as an empty message leaves them, are used up by one read each. */
  lemma {:induction false} EmptyTokensAreUsedUp(s: Stream, lens: seq<nat>)
    requires s.rest == []
    ensures var (end, data) := ReadAll(s, lens);
      data == [] && end.rest == [] && end.tokens == if |lens| < s.tokens then s.tokens - |lens| else 0
    decreases |lens|
  {
    if lens != [] { EmptyTokensAreUsedUp(ReadFrom(s, lens[0]).0, lens[1..]); }
  }

  lemma SliceSplits(msg: seq<Byte>, start: nat, k: nat, n: nat)
    requires k <= n && start + n <= |msg|
    ensures msg[start..start + k] == msg[start..start + n][..k]
    ensures msg[start + k..start + k + (n - k)] == msg[start..start + n][k..]
  {}

  // ---------------------------------------------------------------- in place

  class NetlinkConnection {
    const dataLeft: CountingSemaphore
    var dataMsg: seq<Byte>
    var dataStart: nat
    var dataLen: nat

    ghost predicate Valid()
      reads this
    {
      dataStart + dataLen <= |dataMsg|
    }

    ghost function Contents(): Stream
      requires Valid()
      reads this, dataLeft
    {
      Stream(dataMsg[dataStart..dataStart + dataLen], dataLeft.count)
    }

    constructor ()
      ensures Valid() && fresh(dataLeft) && Contents() == Stream([], 0)
    {
      dataLeft := new CountingSemaphore(0);
      dataMsg, dataStart, dataLen := [], 0, 0;
    }

    /** The buffer is taken over, whatever was left in the last one. */
    method HandleMessage(payload: seq<Byte>)
      requires Valid()
      modifies this, dataLeft
      ensures Valid() && Contents() == Arrived(old(Contents()), payload)
    {
      dataMsg, dataStart, dataLen := payload, 0, |payload|;
      dataLeft.Signal();
      assert dataMsg[0..|payload|] == payload;
    }

    method ReadData(len: nat) returns (r: ReadResult)
      requires Valid()
      modifies this, dataLeft
      ensures Valid() && (Contents(), r) == ReadFrom(old(Contents()), len)
    {
      var through := dataLeft.TryWait();
      if !through { return NoData; }
      if dataLen == 0 { return NoData; }
      ghost var was := dataMsg[dataStart..dataStart + dataLen];
      if len > dataLen {
        r := Bytes(dataMsg[dataStart..dataStart + dataLen]);
        dataLen := 0;
        assert was[..|was|] == was;
      } else {
        r := Bytes(dataMsg[dataStart..dataStart + len]);
        SliceSplits(dataMsg, dataStart, len, dataLen);
        dataStart, dataLen := dataStart + len, dataLen - len;
      }
      if dataLen == 0 {
        dataMsg, dataStart := [], 0;
      } else {
        dataLeft.Signal();
      }
    }
  }
}
