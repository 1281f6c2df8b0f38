/**
  Length-prefixed framing of the worker's standard streams (servo_runner/runner.rs).
  A frame is the payload length as four little-endian bytes followed by the payload.
  `send_event` writes frames; the stdin reader thread of `spawn_stdin_channel` reads them.
*/
module Framing {
  import opened Base

  /** `u32::to_le_bytes`. */
  function LittleEndian(n: u32): (r: seq<u8>)
    ensures |r| == 4
  {
    [n % 0x100, (n / 0x100) % 0x100, (n / 0x1_0000) % 0x100, n / 0x100_0000]
  }

  /** `u32::from_le_bytes`. */
  function FromLittleEndian(b: seq<u8>): (n: u32)
    requires |b| == 4
  {
    b[0] as int + 0x100 * b[1] as int + 0x1_0000 * b[2] as int + 0x100_0000 * b[3] as int
  }

  lemma {:induction false} LittleEndianRoundTrip(n: u32)
    ensures FromLittleEndian(LittleEndian(n)) == n
  {
    var b := LittleEndian(n);
    assert n == n % 0x100 + 0x100 * (n / 0x100);
    assert n / 0x100 == (n / 0x100) % 0x100 + 0x100 * (n / 0x1_0000);
    assert n / 0x1_0000 == (n / 0x1_0000) % 0x100 + 0x100 * (n / 0x100_0000);
  }

  lemma {:induction false} FromLittleEndianRoundTrip(b: seq<u8>)
    requires |b| == 4
    ensures LittleEndian(FromLittleEndian(b)) == b
  {
    var n := FromLittleEndian(b);
    assert n % 0x100 == b[0];
    assert n / 0x100 == b[1] as int + 0x100 * b[2] as int + 0x1_0000 * b[3] as int;
    assert n / 0x1_0000 == b[2] as int + 0x100 * b[3] as int;
    assert n / 0x100_0000 == b[3];
  }

  /** The bytes `send_event` writes for one encoded message: the length as
      `encoded.len() as u32` (a cast that wraps modulo 2^32) and then the payload. */
  function Frame(payload: seq<u8>): (r: seq<u8>)
    ensures |r| == 4 + |payload|
  {
    LittleEndian(|payload| % U32_MODULUS) + payload
  }

  /** A frame announces its payload's length modulo 2^32 and then carries the payload. */
  lemma {:induction false} FrameLayout(payload: seq<u8>)
    ensures FromLittleEndian(Frame(payload)[..4]) == |payload| % U32_MODULUS
    ensures Frame(payload)[4..] == payload
  {
    LittleEndianRoundTrip(|payload| % U32_MODULUS);
    assert Frame(payload)[..4] == LittleEndian(|payload| % U32_MODULUS);
  }

  /** The concatenation of the frames of `payloads`, in order. */
  function Frames(payloads: seq<seq<u8>>): (r: seq<u8>)
  {
    if payloads == [] then [] else Frame(payloads[0]) + Frames(payloads[1..])
  }

  /** A payload that `Frame` prefixes with its true length. */
  ghost predicate Framable(payloads: seq<seq<u8>>)
  {
    forall i :: 0 <= i < |payloads| ==> |payloads[i]| < U32_MODULUS
  }

  /** What one iteration of the stdin reader obtains: a whole frame, or a short
      read of the length prefix or of the payload. */
  datatype FrameRead = Complete(payload: seq<u8>, rest: seq<u8>) | ShortLength | ShortPayload

  /** One iteration of the reader loop: `read_exact` of four length bytes, then
      `read_exact` of exactly that many payload bytes (runner.rs:168-177). */
  function NextFrame(input: seq<u8>): (r: FrameRead)
    ensures r.ShortLength? <==> |input| < 4
    ensures r.Complete? ==> |r.payload| < U32_MODULUS && |r.rest| + 4 <= |input|
  {
    if |input| < 4 then ShortLength
    else
      var len := FromLittleEndian(input[..4]);
      if |input| - 4 < len then ShortPayload
      else Complete(input[4..4 + len], input[4 + len..])
  }

  /** Whatever the reader takes as a whole frame is a frame in the `send_event`
      format followed by the bytes it leaves for the next iteration. */
  lemma {:induction false} NextFrameIsFrame(input: seq<u8>)
    requires NextFrame(input).Complete?
    ensures input == Frame(NextFrame(input).payload) + NextFrame(input).rest
  {
    var len := FromLittleEndian(input[..4]);
    FromLittleEndianRoundTrip(input[..4]);
    assert input == input[..4] + input[4..4 + len] + input[4 + len..];
  }

  /** A frame is self-delimiting: reading it back from any stream that starts with it
      yields exactly its payload and leaves the bytes after it untouched. */
  lemma {:induction false} FrameSelfDelimiting(payload: seq<u8>, rest: seq<u8>)
    requires |payload| < U32_MODULUS
    ensures NextFrame(Frame(payload) + rest) == Complete(payload, rest)
  {
    var input := Frame(payload) + rest;
    FrameLayout(payload);
    assert input[..4] == Frame(payload)[..4];
    assert FromLittleEndian(input[..4]) == |payload|;
    assert input[4..4 + |payload|] == payload;
    assert input[4 + |payload|..] == rest;
  }

  /** A payload of 2^32 bytes or more is announced with a wrapped length, so the reader
      takes a shorter payload and reads the rest of the message as further frames. */
  lemma {:induction false} OversizedPayloadMisframed(payload: seq<u8>, rest: seq<u8>)
    requires |payload| >= U32_MODULUS
    ensures NextFrame(Frame(payload) + rest)
         == Complete(payload[..|payload| % U32_MODULUS], payload[|payload| % U32_MODULUS..] + rest)
  {
    var input := Frame(payload) + rest;
    var len := |payload| % U32_MODULUS;
    FrameLayout(payload);
    assert input[..4] == Frame(payload)[..4];
    assert FromLittleEndian(input[..4]) == len;
    assert input[4..4 + len] == payload[..len];
    assert input[4 + len..] == payload[len..] + rest;
  }

  /** The payloads of the whole frames at the head of `input`, up to the first short read. */
  function Payloads(input: seq<u8>): seq<seq<u8>>
    decreases |input|
  {
    match NextFrame(input)
    case Complete(p, rest) => [p] + Payloads(rest)
    case _ => []
  }

  lemma {:induction false} PayloadsOfFrame(payload: seq<u8>, rest: seq<u8>)
    requires |payload| < U32_MODULUS
    ensures Payloads(Frame(payload) + rest) == [payload] + Payloads(rest)
  {
    FrameSelfDelimiting(payload, rest);
  }

  /** Reading a stream made of frames in the `send_event` format yields their payloads
      in the same order, one per frame, followed by whatever the remaining bytes hold. */
  lemma {:induction false} PayloadsOfFrames(payloads: seq<seq<u8>>, tail: seq<u8>)
    requires Framable(payloads)
    ensures Payloads(Frames(payloads) + tail) == payloads + Payloads(tail)
    decreases |payloads|
  {
    if payloads == [] {
      assert Frames(payloads) + tail == tail;
    } else {
      PayloadsOfFramesStep(payloads, tail);
      PayloadsOfFrames(payloads[1..], tail);
      HeadAppend(payloads, Payloads(tail));
    }
  }

  lemma {:induction false} PayloadsOfFramesStep(payloads: seq<seq<u8>>, tail: seq<u8>)
    requires Framable(payloads) && payloads != []
    ensures Framable(payloads[1..])
    ensures Payloads(Frames(payloads) + tail) == [payloads[0]] + Payloads(Frames(payloads[1..]) + tail)
  {
    var rest := Frames(payloads[1..]) + tail;
    assert Frames(payloads) + tail == Frame(payloads[0]) + rest;
    PayloadsOfFrame(payloads[0], rest);
  }

  /** The messages of `payloads` that decode, in order. */
  function Decoded<A>(payloads: seq<seq<u8>>, decode: seq<u8> -> Option<A>): seq<A>
  {
    if payloads == [] then []
    else match decode(payloads[0])
      case Some(a) => [a] + Decoded(payloads[1..], decode)
      case None => Decoded(payloads[1..], decode)
  }

  /** What the stdin reader thread hands to the action channel: frame by frame, a payload
      that decodes is sent and one that does not is dropped; a short read ends the reader,
      and so does a send once the receiving side has been dropped (after `accepting` sends). */
  function Delivered<A>(input: seq<u8>, decode: seq<u8> -> Option<A>, accepting: nat): seq<A>
    decreases |input|
  {
    match NextFrame(input)
    case Complete(p, rest) =>
      (match decode(p)
       case None => Delivered(rest, decode, accepting)
       case Some(a) => if accepting == 0 then [] else [a] + Delivered(rest, decode, accepting - 1))
    case _ => []
  }

  /** One frame of `Delivered`, unfolded. */
  lemma DeliveredStep<A>(input: seq<u8>, decode: seq<u8> -> Option<A>, accepting: nat, payload: seq<u8>, rest: seq<u8>)
    requires NextFrame(input) == Complete(payload, rest)
    ensures decode(payload).None? ==> Delivered(input, decode, accepting) == Delivered(rest, decode, accepting)
    ensures decode(payload).Some? && accepting == 0 ==> Delivered(input, decode, accepting) == []
    ensures decode(payload).Some? && accepting > 0 ==>
      Delivered(input, decode, accepting) == [decode(payload).value] + Delivered(rest, decode, accepting - 1)
  {
  }

  /** The reader delivers exactly the first `accepting` decodable payloads of the
      complete frames before the first short read: nothing is reordered, an undecodable
      payload is skipped, and only a short read or a closed receiver stops it. */
  lemma {:induction false} DeliveredIsDecodedPrefix<A>(input: seq<u8>, decode: seq<u8> -> Option<A>, accepting: nat)
    ensures var all := Decoded(Payloads(input), decode);
      Delivered(input, decode, accepting) == all[..if accepting < |all| then accepting else |all|]
    decreases |input|
  {
    match NextFrame(input)
    case Complete(p, rest) =>
      assert Payloads(input) == [p] + Payloads(rest);
      assert ([p] + Payloads(rest))[1..] == Payloads(rest);
      if decode(p).None? {
        DeliveredIsDecodedPrefix(rest, decode, accepting);
      } else if accepting > 0 {
        DeliveredIsDecodedPrefix(rest, decode, accepting - 1);
      }
    case _ =>
  }

  /** An undecodable frame is dropped and reading continues with the next frame. */
  lemma {:induction false} UndecodableFrameSkipped<A>(payload: seq<u8>, rest: seq<u8>, decode: seq<u8> -> Option<A>, accepting: nat)
    requires |payload| < U32_MODULUS && decode(payload).None?
    ensures Delivered(Frame(payload) + rest, decode, accepting) == Delivered(rest, decode, accepting)
  {
    FrameSelfDelimiting(payload, rest);
  }

  /** A short read (of the length prefix or of the payload) ends the reader: whatever
      follows a whole number of frames and is not itself a whole frame delivers nothing. */
  lemma {:induction false} ShortReadEndsReader<A>(payloads: seq<seq<u8>>, tail: seq<u8>, decode: seq<u8> -> Option<A>, accepting: nat)
    requires Framable(payloads) && !NextFrame(tail).Complete?
    ensures Delivered(Frames(payloads) + tail, decode, accepting) == Delivered(Frames(payloads), decode, accepting)
  {
    PayloadsOfFrames(payloads, tail);
    PayloadsOfFrames(payloads, []);
    assert Frames(payloads) + [] == Frames(payloads);
    DeliveredIsDecodedPrefix(Frames(payloads) + tail, decode, accepting);
    DeliveredIsDecodedPrefix(Frames(payloads), decode, accepting);
  }

  /** The encodings of `messages`, one payload each. */
  function EncodeAll<A>(messages: seq<A>, encode: A -> seq<u8>): (r: seq<seq<u8>>)
    ensures |r| == |messages|
    ensures forall i :: 0 <= i < |messages| ==> r[i] == encode(messages[i])
  {
    if messages == [] then [] else [encode(messages[0])] + EncodeAll(messages[1..], encode)
  }

  /** Round trip: when the codec's `decode` inverts `encode`, the reader delivers the
      messages written with `send_event` framing, in order, one per frame. */
  lemma {:induction false} ReaderRoundTrip<A>(messages: seq<A>, encode: A -> seq<u8>, decode: seq<u8> -> Option<A>)
    requires forall m :: decode(encode(m)) == Some(m)
    requires forall i :: 0 <= i < |messages| ==> |encode(messages[i])| < U32_MODULUS
    ensures Delivered(Frames(EncodeAll(messages, encode)), decode, |messages|) == messages
  {
    var ps := EncodeAll(messages, encode);
    assert Payloads(Frames(ps)) == ps by {
      PayloadsOfFrames(ps, []);
      assert Frames(ps) + [] == Frames(ps);
      assert Payloads([]) == [];
    }
    assert Decoded(ps, decode) == messages by {
      DecodedEncoded(messages, encode, decode);
    }
    DeliveredIsDecodedPrefix(Frames(ps), decode, |messages|);
    assert messages[..|messages|] == messages;
  }

  lemma {:induction false} DecodedEncoded<A>(messages: seq<A>, encode: A -> seq<u8>, decode: seq<u8> -> Option<A>)
    requires forall m :: decode(encode(m)) == Some(m)
    ensures Decoded(EncodeAll(messages, encode), decode) == messages
  {
    if messages != [] {
      assert EncodeAll(messages, encode)[1..] == EncodeAll(messages[1..], encode);
      DecodedEncoded(messages[1..], encode, decode);
    }
  }

  /** `read_exact` from the byte stream at `pos` into `buf`: it fills the whole buffer
      when that many bytes remain, and otherwise fails at end of stream. */
  method ReadExact(stream: seq<u8>, pos: nat, buf: array<u8>) returns (ok: bool, next: nat)
    requires pos <= |stream|
    modifies buf
    ensures ok <==> buf.Length <= |stream| - pos
    ensures ok ==> next == pos + buf.Length && buf[..] == stream[pos..next]
    ensures !ok ==> next == |stream|
  {
    if buf.Length > |stream| - pos {
      return false, |stream|;
    }
    var i := 0;
    while i < buf.Length
      invariant 0 <= i <= buf.Length
      invariant buf[..i] == stream[pos..pos + i]
    {
      buf[i] := stream[pos + i];
      i := i + 1;
    }
    return true, pos + buf.Length;
  }

  /** One pass of the stdin reader's loop up to the decode (runner.rs:168-177): it fills a
      four-byte length buffer, then a payload buffer of the declared length; either read
      may come up short, which ends the reader. */
  method ReadFrame(stdin: seq<u8>, pos: nat) returns (r: FrameRead, next: nat)
    requires pos <= |stdin|
    ensures r == NextFrame(stdin[pos..])
    ensures r.Complete? ==> pos < next <= |stdin| && r.rest == stdin[next..]
  {
    ghost var input := stdin[pos..];
    var lenBuf := new u8[4](_ => 0);
    var ok;
    ok, next := ReadExact(stdin, pos, lenBuf);
    if !ok {
      return ShortLength, next;
    }
    assert lenBuf[..] == input[..4];
    var len := FromLittleEndian(lenBuf[..]);
    var msgBuf := new u8[len](_ => 0);
    ok, next := ReadExact(stdin, next, msgBuf);
    if !ok {
      return ShortPayload, next;
    }
    assert input[4..4 + len] == msgBuf[..];
    assert input[4 + len..] == stdin[next..];
    return Complete(msgBuf[..], stdin[next..]), next;
  }

  /** The loop of the stdin reader thread (runner.rs:163-187): frame after frame, a payload
      that decodes is sent on and one that does not is dropped; `accepting` is how many
      sends succeed before the receiver is dropped, and a failed send ends the thread. */
  method ReadStdin<A>(stdin: seq<u8>, decode: seq<u8> -> Option<A>, accepting: nat) returns (sent: seq<A>)
    ensures sent == Delivered(stdin, decode, accepting)
  {
    ghost var total := Delivered(stdin, decode, accepting);
    var pos := 0;
    var open := accepting;
    sent := [];
    assert stdin[pos..] == stdin;
    while true
      invariant pos <= |stdin|
      invariant sent + Delivered(stdin[pos..], decode, open) == total
      decreases |stdin| - pos
    {
      var frame, next := ReadFrame(stdin, pos);
      if !frame.Complete? {
        ReaderStops(stdin[pos..], decode, open, sent, total);
        break;
      }
      var action := decode(frame.payload);
      if action.Some? && open == 0 {
        DeliveredStep(stdin[pos..], decode, open, frame.payload, frame.rest);
        ReaderStops(stdin[pos..], decode, open, sent, total);
        break;
      }
      ReaderAdvances(stdin[pos..], decode, open, frame.payload, frame.rest, sent, total);
      if action.Some? {
        sent := sent + [action.value];
        open := open - 1;
      }
      pos := next;
    }
  }

  /** The reader's loop invariant once it stops: nothing more is delivered. */
  lemma ReaderStops<A>(input: seq<u8>, decode: seq<u8> -> Option<A>, open: nat, sent: seq<A>, total: seq<A>)
    requires sent + Delivered(input, decode, open) == total
    requires !NextFrame(input).Complete? || Delivered(input, decode, open) == []
    ensures sent == total
  {
    assert Delivered(input, decode, open) == [];
  }

  /** The reader's loop invariant after one more frame. */
  lemma ReaderAdvances<A>(input: seq<u8>, decode: seq<u8> -> Option<A>, open: nat, payload: seq<u8>, rest: seq<u8>,
                          sent: seq<A>, total: seq<A>)
    requires NextFrame(input) == Complete(payload, rest)
    requires decode(payload).Some? ==> open > 0
    requires sent + Delivered(input, decode, open) == total
    ensures decode(payload).None? ==> sent + Delivered(rest, decode, open) == total
    ensures decode(payload).Some? ==> (sent + [decode(payload).value]) + Delivered(rest, decode, open - 1) == total
  {
    DeliveredStep(input, decode, open, payload, rest);
    if decode(payload).Some? {
      AppendAssoc(sent, [decode(payload).value], Delivered(rest, decode, open - 1));
    }
  }

  /** A frame cut short by a failed write misframes what follows: here the frame of
      [1, 2] loses its payload, and the reader takes the next frame's first two bytes as
      that payload and then stops, so neither message is read back. */
  lemma TruncatedFrameMisframes()
    ensures Payloads(Frame([1, 2])[..4] + Frame([7])) == [[1, 0]]
  {
    assert Frame([1, 2])[..4] == [2, 0, 0, 0];
    assert Frame([7]) == [1, 0, 0, 0, 7];
    var input: seq<u8> := [2, 0, 0, 0, 1, 0, 0, 0, 7];
    assert input[..4] == [2, 0, 0, 0];
    assert Frame([1, 2])[..4] + Frame([7]) == input;
    assert FromLittleEndian(input[..4]) == 2;
    assert input[4..6] == [1, 0] && input[6..] == [0, 0, 7];
    assert NextFrame(input) == Complete([1, 0], [0, 0, 7]);
    assert Payloads([0, 0, 7]) == [];
    assert Payloads(input) == [[1, 0]] + Payloads([0, 0, 7]);
  }

  /** The bytes `send_event` writes for a sequence of messages. */
  function Written<E>(events: seq<E>, encode: E -> seq<u8>): seq<u8>
  {
    Frames(EncodeAll(events, encode))
  }

  /** Writing one more message appends exactly its frame. */
  lemma {:induction false} WrittenSnoc<E>(events: seq<E>, e: E, encode: E -> seq<u8>)
    ensures Written(events + [e], encode) == Written(events, encode) + Frame(encode(e))
    decreases |events|
  {
    if events == [] {
      assert events + [e] == [e];
      assert EncodeAll([e], encode) == [encode(e)];
      assert Frames([encode(e)]) == Frame(encode(e)) + [];
    } else {
      var tail := events[1..];
      assert (events + [e])[1..] == tail + [e];
      assert EncodeAll(events + [e], encode) == [encode(events[0])] + EncodeAll(tail + [e], encode);
      assert EncodeAll(events, encode) == [encode(events[0])] + EncodeAll(tail, encode);
      WrittenSnoc(tail, e, encode);
      AppendAssoc(Frame(encode(events[0])), Written(tail, encode), Frame(encode(e)));
    }
  }

  /** The worker's standard output, as the bytes written to it so far. */
  class Stdout {
    var written: seq<u8>

    constructor ()
      ensures written == []
    {
      written := [];
    }

    /** `write_all`: the stream takes the first `accepted` bytes offered and fails if
        that is not all of them. */
    method WriteAll(bytes: seq<u8>, accepted: nat) returns (ok: bool)
      modifies this
      ensures ok <==> |bytes| <= accepted
      ensures written == old(written) + bytes[..if ok then |bytes| else accepted]
    {
      if |bytes| <= accepted {
        written := written + bytes;
        return true;
      }
      written := written + bytes[..accepted];
      return false;
    }

    /** `send_event` (runner.rs:70-75): the encoded length as four little-endian bytes,
        then the encoded message. `accepted` is how many bytes the stream takes before a
        write fails; the `?` after the length skips the payload, so a failure leaves a
        prefix of the frame on the stream. */
    method TrySendEvent<E>(event: E, encode: E -> seq<u8>, accepted: nat) returns (ok: bool)
      modifies this
      ensures ok <==> |Frame(encode(event))| <= accepted
      ensures written == old(written) + Frame(encode(event))[..if ok then |Frame(encode(event))| else accepted]
    {
      var encoded := encode(event);
      var prefix := LittleEndian(|encoded| % U32_MODULUS);
      ok := WriteAll(prefix, accepted);
      if !ok {
        return;
      }
      ok := WriteAll(encoded, accepted - 4);
      assert Frame(encoded) == prefix + encoded;
      if !ok {
        assert Frame(encoded)[..accepted] == prefix + encoded[..accepted - 4];
      }
    }

    /** `send_event` on a stream that takes every byte: the whole frame is appended. */
    method SendEvent<E>(event: E, encode: E -> seq<u8>)
      modifies this
      ensures written == old(written) + Frame(encode(event))
    {
      var ok := TrySendEvent(event, encode, |Frame(encode(event))|);
    }
  }
}
