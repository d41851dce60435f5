/** The worker control channel: newline-delimited frames over a stream that
    is cut into reads and writes as it likes, and replies paired with requests
    by a sequence number. */
module ControlChannel {
  import opened Wrappers
  import opened Widths
  import opened FileNames

  type Byte = bv8

  const NEWLINE: Byte := 10
  const MAX_FRAME_BYTES: nat := 65536
  const CHUNK_BYTES: nat := 4096

  datatype ChannelError =
    | Closed | Stopped | Deadline | Protocol | FrameTooLarge | PartialWrite | MemberMismatch | Io

  datatype Outcome<T> = Ok(value: T) | Err(error: ChannelError)

  /** What one turn of a read or write loop meets: a stop, the deadline, or an
      answer of the stream. A stream that moves bytes moves one at least and
      no more than it may. */
  datatype Turn = Stops | Expires | Moves(bytes: nat) | Ends | Interrupts | Blocks | Breaks

  function AtMost(bytes: nat, most: nat): nat
    requires most > 0
  {
    if bytes == 0 then 1 else if bytes < most then bytes else most
  }

  // ----- Frames of a stream -----

  predicate HasNewline(bytes: seq<Byte>) {
    exists i :: 0 <= i < |bytes| && bytes[i] == NEWLINE
  }

  /** What of a stream may hold a frame. */
  function Capped(stream: seq<Byte>): seq<Byte> {
    if |stream| < MAX_FRAME_BYTES then stream else stream[..MAX_FRAME_BYTES]
  }

  /** The stream moves at every turn, long enough to bring everything in. */
  predicate BringsAllIn(turns: seq<Turn>, incoming: seq<Byte>) {
    (forall i :: 0 <= i < |turns| ==> turns[i].Moves?) && |turns| > |incoming|
  }

  /** It brings in a frame. */
  ghost predicate Yields(turns: seq<Turn>, incoming: seq<Byte>, stream: seq<Byte>) {
    BringsAllIn(turns, incoming) && HasNewline(Capped(stream))
  }

  /** It brings in more than a frame may hold, and no newline. */
  ghost predicate Overflows(turns: seq<Turn>, incoming: seq<Byte>, stream: seq<Byte>) {
    BringsAllIn(turns, incoming) && |stream| >= MAX_FRAME_BYTES && !HasNewline(Capped(stream))
  }

  /** One newline, at the end. */
  predicate IsFrame(bytes: seq<Byte>) {
    bytes != [] && bytes[|bytes| - 1] == NEWLINE && !HasNewline(bytes[..|bytes| - 1])
  }

  function Position(bytes: seq<Byte>, from: nat): Option<nat>
    requires from <= |bytes|
    decreases |bytes| - from
  {
    if from == |bytes| then None
    else if bytes[from] == NEWLINE then Some(from)
    else Position(bytes, from + 1)
  }

  /** The frames of a stream, in order, without what follows the last one. */
  function Frames(stream: seq<Byte>): seq<seq<Byte>>
    decreases |stream|
  {
    match Position(stream, 0)
    case None => []
    case Some(end) => PositionIsFirst(stream, 0); [stream[..end + 1]] + Frames(stream[end + 1..])
  }

  lemma {:induction false} PositionIsFirst(bytes: seq<Byte>, from: nat)
    requires from <= |bytes|
    ensures match Position(bytes, from)
            case None => forall i :: from <= i < |bytes| ==> bytes[i] != NEWLINE
            case Some(end) =>
              from <= end < |bytes| && bytes[end] == NEWLINE && forall i :: from <= i < end ==> bytes[i] != NEWLINE
    decreases |bytes| - from
  {
    if from == |bytes| || bytes[from] == NEWLINE {
    } else {
      PositionIsFirst(bytes, from + 1);
    }
  }

  function Flat(parts: seq<seq<Byte>>): seq<Byte> {
    if parts == [] then [] else parts[0] + Flat(parts[1..])
  }

  lemma {:induction false} FlatAppends(parts: seq<seq<Byte>>, last: seq<Byte>)
    ensures Flat(parts + [last]) == Flat(parts) + last
  {
    if parts == [] {
      assert parts + [last] == [last] && Flat([last]) == last + Flat([]);
    } else {
      FlatAppends(parts[1..], last);
      assert (parts + [last])[1..] == parts[1..] + [last];
    }
  }

  lemma TakingOneMore(whole: seq<Byte>, taken: seq<seq<Byte>>, frame: seq<Byte>, before: seq<Byte>, after: seq<Byte>)
    requires whole == Flat(taken) + before && before == frame + after
    ensures whole == Flat(taken + [frame]) + after
  {
    FlatAppends(taken, frame);
    assert Flat(taken) + (frame + after) == (Flat(taken) + frame) + after;
  }

  predicate AreFrames(parts: seq<seq<Byte>>) {
    forall i :: 0 <= i < |parts| ==> IsFrame(parts[i])
  }

  lemma AFrameComesFirst(frame: seq<Byte>, rest: seq<Byte>)
    requires IsFrame(frame)
    ensures Frames(frame + rest) == [frame] + Frames(rest)
  {
    var stream := frame + rest;
    PositionIsFirst(stream, 0);
    var end := Position(stream, 0);
    assert stream[|frame| - 1] == NEWLINE;
    assert forall i :: 0 <= i < |frame| - 1 ==> stream[i] == frame[..|frame| - 1][i];
    assert end == Some(|frame| - 1);
    assert stream[..|frame|] == frame && stream[|frame|..] == rest;
  }

  /** Frames taken off a stream one after the other are its first frames. */
  lemma {:induction false} TakenFramesAreTheFirst(taken: seq<seq<Byte>>, rest: seq<Byte>)
    requires AreFrames(taken)
    ensures Frames(Flat(taken) + rest) == taken + Frames(rest)
  {
    if taken == [] {
      assert Flat(taken) + rest == rest;
    } else {
      TakenFramesAreTheFirst(taken[1..], rest);
      AFrameComesFirst(taken[0], Flat(taken[1..]) + rest);
      assert Flat(taken) + rest == taken[0] + (Flat(taken[1..]) + rest);
    }
  }

  // ----- Correlation ids -----

  const CTL := "ctl-"

  function Zeros(n: nat): string {
    if n == 0 then "" else "0" + Zeros(n - 1)
  }

  function Padding(sequence: nat): nat {
    if |Decimal(sequence)| < 16 then 16 - |Decimal(sequence)| else 0
  }

  /** The id of a request: its sequence number in sixteen digits or more. */
  function CtlId(sequence: nat): string {
    CTL + (Zeros(Padding(sequence)) + Decimal(sequence))
  }

  /** The sequence number an id carries. */
  function SequenceOf(id: string): Option<nat> {
    match StripPrefix(id, CTL)
    case None => None
    case Some(digits) => ParseU64(digits)
  }

  lemma {:induction false} LeadingZerosCountForNothing(zeros: nat, digits: string)
    requires AllDigits(digits)
    ensures AllDigits(Zeros(zeros) + digits) && DigitsValue(Zeros(zeros) + digits) == DigitsValue(digits)
    decreases zeros, |digits|
  {
    if digits == [] {
      ZerosAreZero(zeros);
      assert Zeros(zeros) + digits == Zeros(zeros);
    } else {
      var shorter := digits[..|digits| - 1];
      LeadingZerosCountForNothing(zeros, shorter);
      assert (Zeros(zeros) + digits)[..|Zeros(zeros) + digits| - 1] == Zeros(zeros) + shorter;
    }
  }

  lemma {:induction false} ZerosAreZero(n: nat)
    ensures AllDigits(Zeros(n)) && DigitsValue(Zeros(n)) == 0 && |Zeros(n)| == n
  {
    if n == 0 {
    } else {
      ZerosAreZero(n - 1);
      ZerosAtTheEnd(n - 1);
      assert Zeros(n)[..n - 1] == Zeros(n - 1);
    }
  }

  lemma {:induction false} ZerosAtTheEnd(n: nat)
    ensures "0" + Zeros(n) == Zeros(n) + "0"
  {
    if n == 0 {
    } else {
      ZerosAtTheEnd(n - 1);
    }
  }

  lemma PaddedNumbersAreRead(zeros: nat, n: nat)
    requires n <= U64_MAX
    ensures ParseU64(Zeros(zeros) + Decimal(n)) == Some(n)
  {
    var number := Zeros(zeros) + Decimal(n);
    DecimalIsRead(n);
    LeadingZerosCountForNothing(zeros, Decimal(n));
    assert IsDigit(number[0]);
  }

  /** The number of a request is read back from its id, so no two requests
      share one. */
  lemma IdsCarryTheirNumber(sequence: nat)
    requires sequence <= U64_MAX
    ensures SequenceOf(CtlId(sequence)) == Some(sequence)
  {
    PaddedNumbersAreRead(Padding(sequence), sequence);
    StrippingThePrefix(Zeros(Padding(sequence)) + Decimal(sequence));
  }

  lemma StrippingThePrefix(number: string)
    ensures StripPrefix(CTL + number, CTL) == Some(number)
  {
    assert (CTL + number)[|CTL|..] == number;
  }

  // ----- The transport -----

  /** A decoded reply: the member it names, whether the worker says it is
      another, the request it answers, and whether it fits that request. */
  datatype Reply = Reply(member: string, mismatch: bool, correlation: Option<string>, fits: bool)

  /** A late reply to an earlier request of this channel. */
  predicate IsLate(reply: Reply, member: string, sequence: nat) {
    && reply.member == member && !reply.mismatch
    && reply.correlation.Some? && SequenceOf(reply.correlation.value).Some?
    && 0 < SequenceOf(reply.correlation.value).value < sequence
  }

  predicate Answers(reply: Reply, member: string, sequence: nat) {
    reply.member == member && !reply.mismatch && reply.correlation == Some(CtlId(sequence)) && reply.fits
  }

  datatype Verdict = Mine(reply: Reply) | Late | Bad(error: ChannelError)

  /** What an exchange makes of a frame. */
  function Judged(decoded: Option<Reply>, member: string, sequence: nat): (verdict: Verdict)
    ensures verdict.Mine? ==> decoded == Some(verdict.reply) && Answers(verdict.reply, member, sequence)
    ensures verdict.Late? ==> decoded.Some? && IsLate(decoded.value, member, sequence)
    ensures verdict.Bad? ==> !verdict.error.Deadline?
  {
    if decoded.None? then Bad(Protocol)
    else
      var reply := decoded.value;
      if reply.member != member || reply.mismatch then Bad(MemberMismatch)
      else if reply.correlation != Some(CtlId(sequence)) then
        var number := if reply.correlation.Some? then SequenceOf(reply.correlation.value) else None;
        if number.Some? && 0 < number.value < sequence then Late else Bad(Protocol)
      else if !reply.fits then Bad(Protocol)
      else Mine(reply)
  }

  predicate AreLate(frames: seq<seq<Byte>>, decode: seq<Byte> -> Option<Reply>, member: string, sequence: nat) {
    forall i :: 0 <= i < |frames| ==> decode(frames[i]).Some? && IsLate(decode(frames[i]).value, member, sequence)
  }

  /** The frames an exchange read: late replies, then its own answer. */
  predicate Paired(frames: seq<seq<Byte>>, reply: Reply, decode: seq<Byte> -> Option<Reply>, member: string,
                   sequence: nat) {
    && frames != []
    && decode(frames[|frames| - 1]) == Some(reply) && Answers(reply, member, sequence)
    && AreLate(frames[..|frames| - 1], decode, member, sequence)
  }

  class Transport {
    var buffer: seq<Byte>
    var open: bool
    var sequence: nat
    var incoming: seq<Byte>          // what the worker wrote and was not read
    var outgoing: seq<Byte>          // what was written to the worker
    ghost var requests: seq<seq<Byte>>

    ghost predicate Valid()
      reads this
    {
      |buffer| <= MAX_FRAME_BYTES && sequence <= U64_MAX && (open ==> outgoing == Flat(requests))
    }

    ghost function Stream(): seq<Byte>
      reads this
    {
      buffer + incoming
    }

    constructor (incoming: seq<Byte>)
      ensures Valid() && open && sequence == 0 && Stream() == incoming && outgoing == []
    {
      buffer, open, sequence, this.incoming, outgoing, requests := [], true, 0, incoming, [], [];
    }

    /** The next frame of the stream, whatever the reads cut it into. */
    method ReadFrame(turns: seq<Turn>) returns (frame: Outcome<seq<Byte>>, left: seq<Turn>)
      requires Valid()
      modifies this`buffer, this`incoming
      ensures Valid()
      ensures frame.Ok? ==>
        && IsFrame(frame.value) && |frame.value| <= MAX_FRAME_BYTES
        && old(Stream()) == frame.value + Stream()
      ensures frame.Err? ==> Stream() == old(Stream())
      ensures frame == Err(FrameTooLarge) ==>
        && |old(Stream())| >= MAX_FRAME_BYTES
        && !HasNewline(old(Stream())[..MAX_FRAME_BYTES])
      ensures Yields(turns, old(incoming), old(Stream())) ==> frame.Ok?
      ensures Overflows(turns, old(incoming), old(Stream())) ==> frame == Err(FrameTooLarge)
      ensures |left| <= |turns|
    {
      left := turns;
      while true
        invariant Valid() && Stream() == old(Stream()) && |left| <= |turns|
        invariant Yields(turns, old(incoming), old(Stream())) ==> Yields(left, incoming, Stream())
        invariant Overflows(turns, old(incoming), old(Stream())) ==> Overflows(left, incoming, Stream())
        decreases |left|
      {
        if left == [] || left[0].Expires? {
          return Err(Deadline), [];
        }
        if left[0].Stops? {
          return Err(Stopped), [];
        }
        var turn := left[0];
        left := left[1..];
        var end := Find(buffer);
        if end.Some? {
          var taken := buffer[..end.value + 1];
          assert |Stream()| >= MAX_FRAME_BYTES ==> Capped(Stream())[end.value] == taken[end.value] == NEWLINE;
          buffer := buffer[end.value + 1..];
          return Ok(taken), left;
        }
        if |buffer| >= MAX_FRAME_BYTES {
          return Err(FrameTooLarge), left;
        }
        match turn {
          case Ends => return Err(if buffer == [] then Closed else Protocol), left;
          case Breaks => return Err(Io), left;
          case Moves(bytes) => Receive(bytes);
          case _ =>
        }
      }
    }

    /** Read what fits of a chunk. */
    method Receive(bytes: nat)
      requires |buffer| < MAX_FRAME_BYTES
      modifies this`buffer, this`incoming
      ensures |buffer| <= MAX_FRAME_BYTES && Stream() == old(Stream())
      ensures if old(incoming) == [] then incoming == [] else |incoming| < |old(incoming)|
    {
      var capacity := if CHUNK_BYTES < MAX_FRAME_BYTES - |buffer| then CHUNK_BYTES else MAX_FRAME_BYTES - |buffer|;
      if incoming != [] {
        var n := AtMost(bytes, if capacity < |incoming| then capacity else |incoming|);
        buffer := buffer + incoming[..n];
        incoming := incoming[n..];
      }
    }

    /** Where the first newline is. */
    static method Find(bytes: seq<Byte>) returns (end: Option<nat>)
      ensures end.Some? ==> end.value < |bytes| && IsFrame(bytes[..end.value + 1])
      ensures end.None? <==> !HasNewline(bytes)
    {
      var i := 0;
      while i < |bytes|
        invariant 0 <= i <= |bytes| && !HasNewline(bytes[..i])
      {
        if bytes[i] == NEWLINE {
          assert bytes[..i + 1][..i] == bytes[..i];
          return Some(i);
        }
        assert forall k :: 0 <= k < i + 1 ==> bytes[..i + 1][k] == if k < i then bytes[..i][k] else bytes[i];
        i := i + 1;
      }
      assert bytes[..|bytes|] == bytes;
      return None;
    }

    /** Write a whole request, or tell what kept it from being written. */
    method WriteFrame(frame: seq<Byte>, turns: seq<Turn>) returns (written: Outcome<()>, left: seq<Turn>)
      requires Valid() && open
      modifies this`outgoing
      ensures written.Ok? ==> outgoing == old(outgoing) + frame
      ensures written.Err? ==> old(outgoing) <= outgoing <= old(outgoing) + frame
      ensures written.Err? && (written.error.Deadline? || written.error.Stopped?) ==> outgoing == old(outgoing)
      ensures |left| <= |turns|
    {
      left := turns;
      var done := 0;
      while done < |frame|
        invariant 0 <= done <= |frame| && outgoing == old(outgoing) + frame[..done] && |left| <= |turns|
        decreases |left|, |frame| - done
      {
        if left == [] || left[0].Expires? {
          return Err(if done == 0 then Deadline else PartialWrite), [];
        }
        if left[0].Stops? {
          return Err(if done == 0 then Stopped else PartialWrite), [];
        }
        var turn := left[0];
        left := left[1..];
        match turn {
          case Ends => return Err(Closed), left;
          case Breaks => return Err(Io), left;
          case Moves(bytes) =>
            var n := AtMost(bytes, |frame| - done);
            outgoing := outgoing + frame[done..done + n];
            assert frame[..done] + frame[done..done + n] == frame[..done + n];
            done := done + n;
          case _ =>
        }
      }
      assert frame[..done] == frame;
      return Ok(()), left;
    }

    /** Wait for the reply that carries the number of the last request. */
    method AwaitReply(member: string, decode: seq<Byte> -> Option<Reply>, turns: seq<Turn>)
      returns (reply: Outcome<Reply>, taken: seq<seq<Byte>>)
      requires Valid()
      modifies this`buffer, this`incoming
      ensures Valid()
      ensures AreFrames(taken)
      ensures old(Stream()) == Flat(taken) + Stream()
      ensures reply.Ok? ==> Paired(taken, reply.value, decode, member, sequence)
    {
      taken := [];
      var left := turns;
      while true
        invariant Valid() && AreFrames(taken) && AreLate(taken, decode, member, sequence)
        invariant old(Stream()) == Flat(taken) + Stream()
        decreases |Stream()|
      {
        ghost var before := Stream();
        var bytes;
        bytes, left := ReadFrame(left);
        if bytes.Err? {
          return Err(bytes.error), taken;
        }
        TakingOneMore(old(Stream()), taken, bytes.value, before, Stream());
        assert (taken + [bytes.value])[..|taken|] == taken;
        taken := taken + [bytes.value];
        match Judged(decode(bytes.value), member, sequence) {
          case Late =>
          case Bad(error) => return Err(error), taken;
          case Mine(answer) => return Ok(answer), taken;
        }
      }
    }

    /** Send one request and wait for the reply that carries its number. */
    method RoundTrip(frame: seq<Byte>, member: string, decode: seq<Byte> -> Option<Reply>, turns: seq<Turn>)
      returns (reply: Outcome<Reply>, taken: seq<seq<Byte>>)
      requires Valid() && open
      modifies this`buffer, this`incoming, this`outgoing, this`requests
      ensures |buffer| <= MAX_FRAME_BYTES
      ensures AreFrames(taken)
      ensures old(Stream()) == Flat(taken) + Stream()
      ensures reply.Ok? ==> Paired(taken, reply.value, decode, member, sequence) && outgoing == old(outgoing) + frame
      ensures reply.Ok? || reply.error.Deadline? ==>
        Valid() && (outgoing == old(outgoing) || outgoing == old(outgoing) + frame)
      ensures old(outgoing) <= outgoing <= old(outgoing) + frame
    {
      taken := [];
      var written, left := WriteFrame(frame, turns);
      if written.Err? {
        return Err(written.error), taken;
      }
      FlatAppends(requests, frame);
      requests := requests + [frame];
      reply, taken := AwaitReply(member, decode, left);
    }

    /** Exchange one request. Whatever breaks the channel, other than a
        deadline, closes it; a closed channel sends nothing. */
    method Exchange(encode: string -> Option<seq<Byte>>, member: string, decode: seq<Byte> -> Option<Reply>,
                    expired: bool, turns: seq<Turn>)
      returns (reply: Outcome<Reply>, taken: seq<seq<Byte>>)
      requires Valid()
      modifies this
      ensures Valid()
      ensures !old(open) ==>
        && reply == Err(Closed) && !open && taken == [] && outgoing == old(outgoing)
        && Stream() == old(Stream()) && sequence == old(sequence)
      ensures reply.Ok? ==>
        && open && sequence == old(sequence) + 1
        && Paired(taken, reply.value, decode, member, sequence)
        && encode(CtlId(sequence)).Some? && outgoing == old(outgoing) + encode(CtlId(sequence)).value
      ensures old(open) ==>
          (open <==> reply.Ok? || reply.error.Deadline? || (old(sequence) == U64_MAX && reply == Err(Stopped)))
      ensures old(sequence) <= sequence <= old(sequence) + 1
      ensures taken <= Frames(old(Stream())) && old(Stream()) == Flat(taken) + Stream()
      ensures open ==>
        || outgoing == old(outgoing)
        || (encode(CtlId(sequence)).Some? && outgoing == old(outgoing) + encode(CtlId(sequence)).value)
    {
      taken := [];
      if !open {
        return Err(Closed), taken;
      }
      if expired {
        return Err(Deadline), taken;
      }
      if sequence == U64_MAX {
        return Err(Stopped), taken;
      }
      sequence := sequence + 1;
      var frame := encode(CtlId(sequence));
      if frame.None? {
        open := false;
        return Err(Protocol), taken;
      }
      reply, taken := RoundTrip(frame.value, member, decode, turns);
      TakenFramesAreTheFirst(taken, Stream());
      if reply.Err? && !reply.error.Deadline? {
        open := false;
      }
    }
  }
}
