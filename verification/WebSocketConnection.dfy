/** ws.py: one established connection. Messages are byte strings here. */
module WebSocketConnection {
  import opened Vda5050
  import opened WebSocketFrames

  /** `random` stands for the mask keys the side draws, one after the other. */
  datatype Endpoint = Endpoint(masks: bool, max: nat, random: nat -> Key)

  /** What is still unread, what has been written, and how often a key was drawn. */
  datatype Conn = Conn(input: seq<Byte>, output: seq<Byte>, closed: bool, closeCode: Option<nat>, drawn: nat)

  /** A message; the peer closed or the connection dropped; a violation; the stream ended inside
      a frame. */
  datatype Received = Message(text: seq<Byte>) | Closed(code: Option<nat>, reason: seq<Byte>) | Failed(with: nat) | Cut

  function Bytes(s: string): seq<Byte> {
    seq(|s|, i requires 0 <= i < |s| => if s[i] as int < 256 then s[i] as int else 63)
  }

  function Sent(ep: Endpoint, c: Conn, opcode: nat, payload: seq<Byte>): Conn
    requires opcode < 16 && |payload| < TWO_TO_64
  {
    c.(output := c.output + Encode(ep.masks, true, opcode, payload, ep.random(c.drawn)),
       drawn := if ep.masks then c.drawn + 1 else c.drawn)
  }

  /** Two bytes of code and as much of the reason as a control frame has room for. */
  function ClosePayload(code: nat, reason: seq<Byte>): (payload: seq<Byte>)
    ensures |payload| <= 125
  {
    ToBig(code, 2) + (if |reason| <= 123 then reason else reason[..123])
  }

  function ClosedBy(ep: Endpoint, c: Conn, code: nat, reason: seq<Byte>): Conn {
    if c.closed then c
    else Sent(ep, c.(closed := true, closeCode := Some(code)), CLOSE, ClosePayload(code, reason))
  }

  function FailWith(ep: Endpoint, c: Conn, code: nat, why: string): (Conn, Received) {
    (ClosedBy(ep, c, code, Bytes(why)), Failed(code))
  }

  function CloseCode(payload: seq<Byte>): Option<nat> {
    if |payload| >= 2 then Some(FromBig(payload[..2])) else None
  }

  /** The code the close is answered with. */
  function AnswerCode(code: Option<nat>): nat {
    match code case Some(n) => if n == 0 then 1000 else n case None => 1000
  }

  /** Why a data frame is not acceptable here, with the close code. */
  function Misplaced(opcode: nat, expecting: bool): Option<(nat, string)> {
    if opcode == CONT then if expecting then None else Some((1002, "continuation frame with nothing to continue"))
    else if opcode == TEXT || opcode == BINARY then
      if expecting then Some((1002, "interleaved data frame inside fragmented message"))
      else if opcode == BINARY then Some((1003, "binary frames are not part of this protocol"))
      else None
    else Some((1002, "reserved opcode"))
  }

  /** receive_text from the point where `message` has been collected. */
  function Receive(ep: Endpoint, c: Conn, message: seq<Byte>, expecting: bool): (Conn, Received)
    decreases |c.input|
  {
    DecodeGot(ep.masks, ep.max, c.input);
    match Decode(ep.masks, ep.max, c.input)
    case Dropped => (c.(input := [], closed := true), Closed(None, Bytes("connection dropped")))
    case Truncated => (c.(input := []), Cut)
    case Violation(why, code, rest) => FailWith(ep, c.(input := rest), code, why)
    case Got(f, rest) =>
      var c' := c.(input := rest);
      if f.opcode == PING then
        if c.closed then (c', Closed(c.closeCode, []))
        else Receive(ep, Sent(ep, c', PONG, f.payload), message, expecting)
      else if f.opcode == PONG then Receive(ep, c', message, expecting)
      else if f.opcode == CLOSE then
        (ClosedBy(ep, c', AnswerCode(CloseCode(f.payload)), []),
         Closed(CloseCode(f.payload), if |f.payload| >= 2 then f.payload[2..] else []))
      else
        match Misplaced(f.opcode, expecting)
        case Some((code, why)) => FailWith(ep, c', code, why)
        case None =>
          if |message + f.payload| > ep.max then FailWith(ep, c', 1009, "message too large")
          else if f.fin then (c', Message(message + f.payload))
          else Receive(ep, c', message + f.payload, true)
  }

  // ----------------------------------------------------------- what arrives

  predicate IsControl(f: Frame) { f.opcode == PING || f.opcode == PONG }

  /** The bytes `input` are the given frames as the peer encodes them, followed by `rest`. */
  ghost predicate Arrives(ep: Endpoint, frames: seq<Frame>, input: seq<Byte>, rest: seq<Byte>)
    decreases |frames|
  {
    if frames == [] then input == rest
    else
      && OnWire(frames[0]) && Readable(frames[0], ep.max)
      && exists key: Key, tail: seq<Byte> ::
           Leads(ep, frames[0], key, input, tail) && Arrives(ep, frames[1..], tail, rest)
  }

  /** The peer's encoding of `f` comes first in `input`. */
  predicate Leads(ep: Endpoint, f: Frame, key: Key, input: seq<Byte>, tail: seq<Byte>)
    requires OnWire(f)
  {
    input == EncodeFrame(!ep.masks, f, key) + tail
  }

  /** Pings and pongs anywhere; data frames that begin a message and go on with it, none of them
      the last. */
  predicate Unfinished(frames: seq<Frame>, expecting: bool)
    decreases |frames|
  {
    if frames == [] then true
    else if IsControl(frames[0]) then Unfinished(frames[1..], expecting)
    else
      && !frames[0].fin && frames[0].opcode == (if expecting then CONT else TEXT)
      && Unfinished(frames[1..], true)
  }

  function TextOf(frames: seq<Frame>): seq<Byte> {
    if frames == [] then []
    else (if IsControl(frames[0]) then [] else frames[0].payload) + TextOf(frames[1..])
  }

  function Begun(frames: seq<Frame>, expecting: bool): bool {
    expecting || exists i | 0 <= i < |frames| :: !IsControl(frames[i])
  }

  /** The connection after each ping has been answered once, in order, with its own payload. */
  function Answered(ep: Endpoint, c: Conn, frames: seq<Frame>): Conn
    requires forall i | 0 <= i < |frames| :: OnWire(frames[i])
    decreases |frames|
  {
    if frames == [] then c
    else
      assert OnWire(frames[0]);
      Answered(ep, if frames[0].opcode == PING then Sent(ep, c, PONG, frames[0].payload) else c, frames[1..])
  }

  lemma {:induction false} ArrivesOnWire(ep: Endpoint, frames: seq<Frame>, input: seq<Byte>, rest: seq<Byte>)
    requires Arrives(ep, frames, input, rest)
    ensures forall i | 0 <= i < |frames| :: OnWire(frames[i]) && Readable(frames[i], ep.max)
    decreases |frames|
  {
    if frames != [] {
      var key: Key, tail: seq<Byte> :| Leads(ep, frames[0], key, input, tail) && Arrives(ep, frames[1..], tail, rest);
      ArrivesOnWire(ep, frames[1..], tail, rest);
    }
  }

  lemma {:induction false} ArrivesSplit(ep: Endpoint, frames: seq<Frame>, more: seq<Frame>, input: seq<Byte>,
                                        rest: seq<Byte>)
    returns (mid: seq<Byte>)
    requires Arrives(ep, frames + more, input, rest)
    ensures Arrives(ep, frames, input, mid) && Arrives(ep, more, mid, rest)
    decreases |frames|
  {
    if frames == [] {
      assert frames + more == more;
      mid := input;
    } else {
      assert (frames + more)[1..] == frames[1..] + more && (frames + more)[0] == frames[0];
      var key: Key, tail: seq<Byte> :| Leads(ep, frames[0], key, input, tail)
        && Arrives(ep, frames[1..] + more, tail, rest);
      mid := ArrivesSplit(ep, frames[1..], more, tail, rest);
    }
  }

  // --------------------------------------------------------------- theorems

  /** One frame that neither ends nor breaks the message. */
  lemma ReceiveStep(ep: Endpoint, c: Conn, message: seq<Byte>, expecting: bool, f: Frame, key: Key, tail: seq<Byte>)
    requires !c.closed && OnWire(f) && Readable(f, ep.max) && Unfinished([f], expecting)
    requires Leads(ep, f, key, c.input, tail) && (IsControl(f) || |message| + |f.payload| <= ep.max)
    ensures Receive(ep, c, message, expecting)
         == if f.opcode == PING then Receive(ep, Sent(ep, c.(input := tail), PONG, f.payload), message, expecting)
            else if f.opcode == PONG then Receive(ep, c.(input := tail), message, expecting)
            else Receive(ep, c.(input := tail), message + f.payload, true)
  {
    DecodeOne(!ep.masks, ep.max, f, key, tail);
  }

  /** Any unfinished stretch is taken in: the fragments are collected and every ping is answered. */
  lemma {:induction false} ReceiveUnfinished(ep: Endpoint, c: Conn, message: seq<Byte>, expecting: bool,
                                             frames: seq<Frame>, rest: seq<Byte>)
    requires !c.closed && Arrives(ep, frames, c.input, rest) && Unfinished(frames, expecting)
    requires |message| + |TextOf(frames)| <= ep.max
    ensures forall i | 0 <= i < |frames| :: OnWire(frames[i])
    ensures Receive(ep, c, message, expecting)
         == Receive(ep, Answered(ep, c, frames).(input := rest), message + TextOf(frames), Begun(frames, expecting))
    decreases |frames|
  {
    ArrivesOnWire(ep, frames, c.input, rest);
    if frames == [] {
      assert message + TextOf(frames) == message;
      assert c.(input := rest) == c;
    } else {
      var f := frames[0];
      var key: Key, tail: seq<Byte> :| Leads(ep, f, key, c.input, tail) && Arrives(ep, frames[1..], tail, rest);
      var next := if f.opcode == PING then Sent(ep, c.(input := tail), PONG, f.payload) else c.(input := tail);
      var text := if IsControl(f) then message else message + f.payload;
      var begun := expecting || !IsControl(f);
      ReceiveStep(ep, c, message, expecting, f, key, tail);
      assert Receive(ep, c, message, expecting) == Receive(ep, next, text, begun);
      ReceiveUnfinished(ep, next, text, begun, frames[1..], rest);
      TextOfTail(message, frames);
      BegunTail(frames, expecting);
      AnsweredTail(ep, c, frames, tail, rest);
    }
  }

  lemma TextOfTail(message: seq<Byte>, frames: seq<Frame>)
    requires frames != []
    ensures (if IsControl(frames[0]) then message else message + frames[0].payload) + TextOf(frames[1..])
         == message + TextOf(frames)
  {
  }

  lemma BegunTail(frames: seq<Frame>, expecting: bool)
    requires frames != []
    ensures Begun(frames, expecting) == Begun(frames[1..], expecting || !IsControl(frames[0]))
  {
    if i :| 0 <= i < |frames| && !IsControl(frames[i]) {
      assert i > 0 ==> frames[1..][i - 1] == frames[i];
    }
  }

  lemma {:induction false} AnsweredInput(ep: Endpoint, c: Conn, frames: seq<Frame>, input: seq<Byte>)
    requires forall i | 0 <= i < |frames| :: OnWire(frames[i])
    ensures Answered(ep, c.(input := input), frames) == Answered(ep, c, frames).(input := input)
    decreases |frames|
  {
    if frames != [] {
      var c' := if frames[0].opcode == PING then Sent(ep, c, PONG, frames[0].payload) else c;
      AnsweredInput(ep, c', frames[1..], input);
    }
  }

  lemma AnsweredTail(ep: Endpoint, c: Conn, frames: seq<Frame>, tail: seq<Byte>, rest: seq<Byte>)
    requires frames != [] && OnWire(frames[0]) && forall i | 0 <= i < |frames| :: OnWire(frames[i])
    ensures var f := frames[0];
            var next := if f.opcode == PING then Sent(ep, c.(input := tail), PONG, f.payload) else c.(input := tail);
            Answered(ep, next, frames[1..]).(input := rest) == Answered(ep, c, frames).(input := rest)
  {
    var f := frames[0];
    var answered := if f.opcode == PING then Sent(ep, c, PONG, f.payload) else c;
    AnsweredInput(ep, answered, frames[1..], tail);
  }

  /** Fragmented receive: for every legal split of a message, with any pings and pongs in between,
      receive_text returns the concatenation of the fragments, has answered each ping once, in
      order, with its own payload, and leaves what follows unread. */
  lemma ReceivesEveryLegalSplit(ep: Endpoint, c: Conn, frames: seq<Frame>, last: Frame, rest: seq<Byte>)
    requires !c.closed && Arrives(ep, frames + [last], c.input, rest)
    requires Unfinished(frames, false) && last.fin
    requires last.opcode == (if Begun(frames, false) then CONT else TEXT)
    requires |TextOf(frames)| + |last.payload| <= ep.max
    ensures forall i | 0 <= i < |frames| :: OnWire(frames[i])
    ensures Receive(ep, c, [], false)
         == (Answered(ep, c, frames).(input := rest), Message(TextOf(frames) + last.payload))
  {
    var mid := ArrivesSplit(ep, frames, [last], c.input, rest);
    ReceiveUnfinished(ep, c, [], false, frames, mid);
    LastArrives(ep, last, mid, rest);
    AnsweredOpen(ep, c, frames);
    assert [] + TextOf(frames) == TextOf(frames);
    var key: Key :| Leads(ep, last, key, mid, rest);
    OneCompletes(ep, Answered(ep, c, frames).(input := mid), TextOf(frames), Begun(frames, false), last, key, rest);
  }

  lemma OneCompletes(ep: Endpoint, c: Conn, message: seq<Byte>, expecting: bool, last: Frame, key: Key, rest: seq<Byte>)
    requires !c.closed && OnWire(last) && Readable(last, ep.max) && Leads(ep, last, key, c.input, rest)
    requires last.fin && last.opcode == (if expecting then CONT else TEXT) && |message| + |last.payload| <= ep.max
    ensures Receive(ep, c, message, expecting) == (c.(input := rest), Message(message + last.payload))
  {
    DecodeOne(!ep.masks, ep.max, last, key, rest);
  }

  lemma LastArrives(ep: Endpoint, f: Frame, input: seq<Byte>, rest: seq<Byte>)
    requires Arrives(ep, [f], input, rest)
    ensures OnWire(f) && Readable(f, ep.max) && exists key: Key :: Leads(ep, f, key, input, rest)
  {
    var key: Key, tail: seq<Byte> :| Leads(ep, f, key, input, tail) && Arrives(ep, [f][1..], tail, rest);
    assert [f][1..] == [];
  }

  lemma {:induction false} AnsweredOpen(ep: Endpoint, c: Conn, frames: seq<Frame>)
    requires forall i | 0 <= i < |frames| :: OnWire(frames[i])
    ensures Answered(ep, c, frames).closed == c.closed
    decreases |frames|
  {
    if frames != [] {
      AnsweredOpen(ep, if frames[0].opcode == PING then Sent(ep, c, PONG, frames[0].payload) else c, frames[1..]);
    }
  }

  /** What the frame after an unfinished stretch must not be. */
  predicate OutOfPlace(f: Frame, expecting: bool) {
    !IsControl(f) && f.opcode != CLOSE && (f.opcode != if expecting then CONT else TEXT)
  }

  /** The connection closed with 1003 for a binary message and 1002 for everything else. */
  function Refused(ep: Endpoint, c: Conn, opcode: nat, expecting: bool): (Conn, Received) {
    var code := if opcode == BINARY && !expecting then 1003 else 1002;
    var why := match Misplaced(opcode, expecting) case Some((_, text)) => text case None => "";
    (ClosedBy(ep, c, code, Bytes(why)), Failed(code))
  }

  /** Every out-of-place continuation, interleaved data frame, binary frame or reserved opcode fails
      the connection: the peer is told the code in a close frame, and nothing is returned. */
  lemma RefusesOutOfPlace(ep: Endpoint, c: Conn, frames: seq<Frame>, bad: Frame, rest: seq<Byte>)
    requires !c.closed && Arrives(ep, frames + [bad], c.input, rest) && Unfinished(frames, false)
    requires |TextOf(frames)| <= ep.max && OutOfPlace(bad, Begun(frames, false))
    ensures forall i | 0 <= i < |frames| :: OnWire(frames[i])
    ensures Receive(ep, c, [], false)
         == Refused(ep, Answered(ep, c, frames).(input := rest), bad.opcode, Begun(frames, false))
  {
    var mid := ArrivesSplit(ep, frames, [bad], c.input, rest);
    ReceiveUnfinished(ep, c, [], false, frames, mid);
    LastArrives(ep, bad, mid, rest);
    AnsweredOpen(ep, c, frames);
    assert [] + TextOf(frames) == TextOf(frames);
    var key: Key :| Leads(ep, bad, key, mid, rest);
    OneRefused(ep, Answered(ep, c, frames).(input := mid), TextOf(frames), Begun(frames, false), bad, key, rest);
  }

  lemma OneRefused(ep: Endpoint, c: Conn, message: seq<Byte>, expecting: bool, bad: Frame, key: Key, rest: seq<Byte>)
    requires !c.closed && OnWire(bad) && Readable(bad, ep.max) && Leads(ep, bad, key, c.input, rest)
    requires OutOfPlace(bad, expecting)
    ensures Receive(ep, c, message, expecting) == Refused(ep, c.(input := rest), bad.opcode, expecting)
  {
    DecodeOne(!ep.masks, ep.max, bad, key, rest);
  }

  /** A close frame one side writes is read by the other as that code and as much of the reason as
      fits; a message in progress is given up, and the close is answered with the same code. */
  lemma CloseRoundTrip(ep: Endpoint, c: Conn, message: seq<Byte>, expecting: bool,
                       code: nat, reason: seq<Byte>, key: Key, rest: seq<Byte>)
    requires !c.closed && 0 < code < TWO_TO_16 && ep.max >= 125
    requires c.input == Encode(!ep.masks, true, CLOSE, ClosePayload(code, reason), key) + rest
    ensures Receive(ep, c, message, expecting)
         == (ClosedBy(ep, c.(input := rest), code, []),
             Closed(Some(code), if |reason| <= 123 then reason else reason[..123]))
  {
    var payload, kept := ClosePayload(code, reason), if |reason| <= 123 then reason else reason[..123];
    CodecRoundTrip(!ep.masks, ep.max, true, CLOSE, payload, key, rest);
    assert payload[..2] == ToBig(code, 2) && payload[2..] == kept;
    Powers();
    BigRoundTrip(code, 2);
  }

  // ------------------------------------------------------- on the connection

  /** Exactly one unfragmented frame has been written, in the format of section 5.2; a client draws a new
      mask key for it. */
  ghost predicate Writes(ep: Endpoint, c: Conn, c': Conn, opcode: nat, payload: seq<Byte>) {
    && c.output <= c'.output && opcode < 16
    && FrameOf(c'.output[|c.output|..], Frame(true, opcode, payload), ep.masks, ep.random(c.drawn), Shortest(|payload|))
    && c'.drawn == (if ep.masks then c.drawn + 1 else c.drawn)
  }

  lemma SentIsExact(ep: Endpoint, c: Conn, opcode: nat, payload: seq<Byte>)
    requires opcode < 16 && |payload| < TWO_TO_64
    ensures var c' := Sent(ep, c, opcode, payload);
            Writes(ep, c, c', opcode, payload) && c' == c.(output := c'.output, drawn := c'.drawn)
  {
    SentInFormat(ep.masks, Frame(true, opcode, payload), ep.random(c.drawn));
    var wire := Encode(ep.masks, true, opcode, payload, ep.random(c.drawn));
    assert (c.output + wire)[|c.output|..] == wire;
  }

  /** A connection that is open says goodbye with `code` and is closed; a closed one stays as it is. */
  ghost predicate HangsUp(ep: Endpoint, c: Conn, c': Conn, code: nat) {
    if c.closed then c' == c
    else
      && c'.closed && c'.closeCode == Some(code) && c'.input == c.input
      && exists payload :: IsGoodbye(payload, code) && Writes(ep, c, c', 8, payload)
  }

  /** Two bytes of code before the reason. */
  ghost predicate IsGoodbye(payload: seq<Byte>, code: nat) {
    2 <= |payload| <= 125 && BigEndian(payload[..2]) == code
  }

  /** The reason is cut to what fits into a control frame. */
  lemma GoodbyeIsExact(code: nat, reason: seq<Byte>)
    requires code < TWO_TO_16
    ensures var payload := ClosePayload(code, reason);
            && IsGoodbye(payload, code) && payload[2..] <= reason
            && |payload| == (if |reason| < 123 then 2 + |reason| else 125)
  {
    var payload := ClosePayload(code, reason);
    assert payload[..2] == ToBig(code, 2);
    Powers();
    BigRoundTrip(code, 2);
    FromBigIsBigEndian(payload[..2]);
  }

  lemma ClosesExactly(ep: Endpoint, c: Conn, code: nat, reason: seq<Byte>)
    requires code < TWO_TO_16
    ensures HangsUp(ep, c, ClosedBy(ep, c, code, reason), code)
  {
    if !c.closed {
      var payload := ClosePayload(code, reason);
      GoodbyeIsExact(code, reason);
      SentIsExact(ep, c.(closed := true, closeCode := Some(code)), CLOSE, payload);
      assert Writes(ep, c, ClosedBy(ep, c, code, reason), 8, payload);
    }
  }

  /** The code of a close frame, if it has one. */
  ghost function CodeIn(payload: seq<Byte>): Option<nat> {
    if |payload| >= 2 then Some(BigEndian(payload[..2])) else None
  }

  lemma CodeIsRead(payload: seq<Byte>)
    ensures CloseCode(payload) == CodeIn(payload)
    ensures CodeIn(payload).Some? ==> CodeIn(payload).value < TWO_TO_16
  {
    if |payload| >= 2 {
      FromBigIsBigEndian(payload[..2]);
      FromBigBound(payload[..2]);
      Powers();
    }
  }

  /** The code a close is answered with: its own, or 1000 if it has none or names 0. */
  ghost predicate Answers(answer: nat, code: Option<nat>) {
    answer == if code == None || code == Some(0) then 1000 else code.value
  }

  /** Receiving goes on after the frame, from `c'` and with `message`. */
  ghost predicate GoesOn(ep: Endpoint, c': Conn, message: seq<Byte>, expecting: bool, got: (Conn, Received)) {
    got == Receive(ep, c', message, expecting)
  }

  /** What the frame `f` makes of a receive that has collected `message`, where `c` has read it. */
  ghost predicate FrameDecides(ep: Endpoint, c: Conn, message: seq<Byte>, expecting: bool, f: Frame,
                               got: (Conn, Received)) {
    if f.opcode == 9 then
      if c.closed then got == (c, Closed(c.closeCode, []))
      else exists c' :: Writes(ep, c, c', 10, f.payload) && c' == c.(output := c'.output, drawn := c'.drawn)
                        && GoesOn(ep, c', message, expecting, got)
    else if f.opcode == 10 then GoesOn(ep, c, message, expecting, got)
    else if f.opcode == 8 then
      && got.1 == Closed(CodeIn(f.payload), if |f.payload| >= 2 then f.payload[2..] else [])
      && exists answer :: Answers(answer, CodeIn(f.payload)) && HangsUp(ep, c, got.0, answer)
    else if f.opcode != (if expecting then 0 else 1) then
      var code := if f.opcode == 2 && !expecting then 1003 else 1002;
      got.1 == Failed(code) && HangsUp(ep, c, got.0, code)
    else if |message| + |f.payload| > ep.max then got.1 == Failed(1009) && HangsUp(ep, c, got.0, 1009)
    else if f.fin then got == (c, Message(message + f.payload))
    else GoesOn(ep, c, message + f.payload, true, got)
  }

  lemma PingDecides(ep: Endpoint, c: Conn, message: seq<Byte>, expecting: bool, f: Frame, rest: seq<Byte>)
    requires Decode(ep.masks, ep.max, c.input) == Got(f, rest) && f.opcode == PING
    ensures FrameDecides(ep, c.(input := rest), message, expecting, f, Receive(ep, c, message, expecting))
  {
    DecodeGot(ep.masks, ep.max, c.input);
    if !c.closed {
      var c' := c.(input := rest);
      SentIsExact(ep, c', PONG, f.payload);
      var sent := Sent(ep, c', PONG, f.payload);
      assert GoesOn(ep, sent, message, expecting, Receive(ep, c, message, expecting));
    }
  }

  lemma CloseDecides(ep: Endpoint, c: Conn, message: seq<Byte>, expecting: bool, f: Frame, rest: seq<Byte>)
    requires Decode(ep.masks, ep.max, c.input) == Got(f, rest) && f.opcode == CLOSE
    ensures FrameDecides(ep, c.(input := rest), message, expecting, f, Receive(ep, c, message, expecting))
  {
    CodeIsRead(f.payload);
    var answer := AnswerCode(CloseCode(f.payload));
    assert Answers(answer, CodeIn(f.payload));
    ClosesExactly(ep, c.(input := rest), answer, []);
  }

  lemma DataDecides(ep: Endpoint, c: Conn, message: seq<Byte>, expecting: bool, f: Frame, rest: seq<Byte>)
    requires Decode(ep.masks, ep.max, c.input) == Got(f, rest) && f.opcode !in {PING, PONG, CLOSE}
    ensures FrameDecides(ep, c.(input := rest), message, expecting, f, Receive(ep, c, message, expecting))
  {
    var c' := c.(input := rest);
    var misplaced := Misplaced(f.opcode, expecting);
    if misplaced.Some? {
      ClosesExactly(ep, c', misplaced.value.0, Bytes(misplaced.value.1));
    } else if |message + f.payload| > ep.max {
      ClosesExactly(ep, c', 1009, Bytes("message too large"));
    }
  }

  /** Whatever the input, the frame that comes next decides: a ping is answered with its payload, a close
      with its code, data is collected up to the limit or refused with the code that fits, and the end
      of the stream before or inside a frame says so without a word to the peer. */
  lemma NextDecides(ep: Endpoint, c: Conn, message: seq<Byte>, expecting: bool)
    ensures var got := Receive(ep, c, message, expecting);
            match Decode(ep.masks, ep.max, c.input)
            case Dropped => got == (c.(input := [], closed := true), Closed(None, Bytes("connection dropped")))
            case Truncated => got == (c.(input := []), Cut)
            case Violation(_, code, rest) => got.1 == Failed(code) && HangsUp(ep, c.(input := rest), got.0, code)
            case Got(f, rest) => FrameDecides(ep, c.(input := rest), message, expecting, f, got)
  {
    DecodeGot(ep.masks, ep.max, c.input);
    match Decode(ep.masks, ep.max, c.input)
    case Dropped =>
    case Truncated =>
    case Violation(why, code, rest) => ClosesExactly(ep, c.(input := rest), code, Bytes(why));
    case Got(f, rest) =>
      if f.opcode == PING { PingDecides(ep, c, message, expecting, f, rest); }
      else if f.opcode == CLOSE { CloseDecides(ep, c, message, expecting, f, rest); }
      else if f.opcode != PONG { DataDecides(ep, c, message, expecting, f, rest); }
  }

  // ---------------------------------------------------------------- object

  class WebSocket {
    const maskOutgoing: bool
    const maxMessageBytes: nat
    const random: nat -> Key
    var input: seq<Byte>
    var output: seq<Byte>
    var closed: bool
    var closeCode: Option<nat>
    var drawn: nat

    ghost function State(): Conn
      reads this
    {
      Conn(input, output, closed, closeCode, drawn)
    }

    ghost function End(): Endpoint { Endpoint(maskOutgoing, maxMessageBytes, random) }

    constructor (stream: seq<Byte>, maskOutgoing: bool, maxMessageBytes: nat, random: nat -> Key)
      ensures State() == Conn(stream, [], false, None, 0) && End() == Endpoint(maskOutgoing, maxMessageBytes, random)
    {
      this.maskOutgoing, this.maxMessageBytes, this.random := maskOutgoing, maxMessageBytes, random;
      input, output, closed, closeCode, drawn := stream, [], false, None, 0;
    }

    /** `size` bytes, most significant first. */
    method BigEndian(n: nat, size: nat) returns (bytes: seq<Byte>)
      ensures bytes == ToBig(n, size)
    {
      bytes := [];
      var left := n;
      for i := 0 to size
        invariant ToBig(n, size) == ToBig(left, size - i) + bytes
      {
        bytes := [left % 256] + bytes;
        left := left / 256;
      }
    }

    method MaskPayload(payload: seq<Byte>, mask: Key) returns (masked: seq<Byte>)
      ensures masked == Masked(payload, mask)
    {
      masked := [];
      for i := 0 to |payload|
        invariant masked == Masked(payload, mask)[..i]
      {
        masked := masked + [Xor(payload[i], mask[i % 4])];
      }
    }

    method SendFrame(opcode: nat, payload: seq<Byte>, evenIfClosed: bool) returns (sent: bool)
      requires opcode < 16 && |payload| < TWO_TO_64
      modifies this`output, this`drawn
      ensures sent == (!closed || evenIfClosed)
      ensures State() == if sent then Sent(End(), old(State()), opcode, payload) else old(State())
    {
      if closed && !evenIfClosed { return false; }
      var head: seq<Byte> := [0x80 + opcode];
      var maskBit := if maskOutgoing then 0x80 else 0;
      var length := |payload|;
      if length < 126 {
        head := head + [maskBit + length];
      } else if length < TWO_TO_16 {
        var size := BigEndian(length, 2);
        head := head + [maskBit + 126] + size;
      } else {
        var size := BigEndian(length, 8);
        head := head + [maskBit + 127] + size;
      }
      assert head == [0x80 + opcode] + LengthBytes(maskOutgoing, length);
      var body := payload;
      if maskOutgoing {
        var mask := random(drawn);
        drawn := drawn + 1;
        body := MaskPayload(payload, mask);
        body := mask + body;
      }
      output := output + (head + body);
      return true;
    }

    method Close(code: nat, reason: seq<Byte>)
      modifies this`closed, this`closeCode, this`output, this`drawn
      ensures State() == ClosedBy(End(), old(State()), code, reason)
    {
      if closed { return; }
      closed, closeCode := true, Some(code);
      var payload := BigEndian(code, 2);
      payload := payload + (if |reason| <= 123 then reason else reason[..123]);
      var _ := SendFrame(CLOSE, payload, true);
    }

    /** Fails the connection; `code` becomes the error the caller raises. */
    method Fail(why: string, code: nat)
      modifies this`closed, this`closeCode, this`output, this`drawn
      ensures State() == ClosedBy(End(), old(State()), code, Bytes(why))
    {
      Close(code, Bytes(why));
    }

    /** Nothing is left of the stream when it ends before `count` bytes. */
    method ReadExactly(count: nat) returns (bytes: Option<seq<Byte>>)
      modifies this`input
      ensures if count <= |old(input)| then bytes == Some(old(input)[..count]) && input == old(input)[count..]
              else bytes == None && input == []
    {
      if |input| < count {
        input := [];
        return None;
      }
      bytes := Some(input[..count]);
      input := input[count..];
    }

    method ReadNumber(bytes: seq<Byte>) returns (n: nat)
      ensures n == FromBig(bytes)
    {
      n := 0;
      for i := 0 to |bytes|
        invariant n == FromBig(bytes[..i])
      {
        assert bytes[..i + 1][..i] == bytes[..i];
        n := 256 * n + bytes[i];
      }
      assert bytes[..|bytes|] == bytes;
    }

    /** Mask and payload. */
    method ReadPayloadOf(masked: bool, fin: bool, opcode: nat, length: nat) returns (read: Read)
      modifies this`input
      ensures read == ReadPayload(masked, fin, opcode, length, old(input))
      ensures read.Got? ==> input == read.rest
      ensures !read.Got? ==> read.Truncated? && input == []
    {
      var mask: Option<seq<Byte>> := Some([]);
      if masked { mask := ReadExactly(4); }
      if mask.None? { return Truncated; }
      var payload := ReadExactly(length);
      if payload.None? { return Truncated; }
      if masked {
        var clear := MaskPayload(payload.value, mask.value);
        assert old(input)[4..][..length] == old(input)[4..4 + length];
        assert old(input)[4..][length..] == old(input)[4 + length..];
        return Got(Frame(fin, opcode, clear), input);
      }
      return Got(Frame(fin, opcode, payload.value), input);
    }

    /** Length, masking mode and payload of a frame whose first two bytes are acceptable. */
    method ReadRest(masked: bool, fin: bool, opcode: nat, short: nat) returns (read: Read)
      modifies this
      ensures var extra := if short == 126 then 2 else if short == 127 then 8 else 0;
              var bytes := old(input);
              read == if |bytes| < extra then Truncated
                      else ReadBody(maskOutgoing, maxMessageBytes, masked, fin, opcode,
                                    if extra == 0 then short else FromBig(bytes[..extra]), bytes[extra..])
      ensures Followed(read, old(State()))
    {
      var extra := if short == 126 then 2 else if short == 127 then 8 else 0;
      var length := short;
      if extra > 0 {
        var extended := ReadExactly(extra);
        if extended.None? { return Truncated; }
        length := ReadNumber(extended.value);
      }
      if length > maxMessageBytes {
        read := Violation("frame too large", 1009, input);
        Fail("frame too large", 1009);
        return;
      }
      if maskOutgoing == masked {
        read := Violation("peer used the wrong masking mode", 1002, input);
        Fail("peer used the wrong masking mode", 1002);
        return;
      }
      read := ReadPayloadOf(masked, fin, opcode, length);
    }

    /** The state reading a frame leaves behind. */
    ghost predicate Followed(read: Read, before: Conn)
      reads this
    {
      match read
      case Got(_, rest) => State() == before.(input := rest)
      case Violation(why, code, rest) => State() == ClosedBy(End(), before.(input := rest), code, Bytes(why))
      case Dropped => State() == before.(input := [], closed := true)
      case Truncated => State() == before.(input := [])
    }

    method ReadFrame() returns (read: Read)
      modifies this
      ensures read == Decode(maskOutgoing, maxMessageBytes, old(input))
      ensures Followed(read, old(State()))
    {
      var head := ReadExactly(2);
      if head.None? {
        closed := true;
        return Dropped;
      }
      var fin, opcode := head.value[0] / 128 == 1, head.value[0] % 16;
      if head.value[0] / 16 % 8 != 0 {
        read := Violation("RSV bits set without a negotiated extension", 1002, input);
        Fail("RSV bits set without a negotiated extension", 1002);
        return;
      }
      var masked, short := head.value[1] / 128 == 1, head.value[1] % 128;
      if opcode >= CLOSE && (!fin || short > 125) {
        read := Violation("fragmented or oversized control frame", 1002, input);
        Fail("fragmented or oversized control frame", 1002);
        return;
      }
      ghost var bytes := old(input);
      assert forall n | 0 <= n && 2 + n <= |bytes| ::
               bytes[2..][..n] == bytes[2..2 + n] && bytes[2..][n..] == bytes[2 + n..];
      read := ReadRest(masked, fin, opcode, short);
    }

    method ReceiveText() returns (received: Received)
      modifies this
      ensures (State(), received) == Receive(End(), old(State()), [], false)
    {
      var message, expecting := [], false;
      ghost var start := State();
      while true
        invariant Receive(End(), State(), message, expecting) == Receive(End(), start, [], false)
        decreases |input|
      {
        DecodeGot(maskOutgoing, maxMessageBytes, input);
        var read := ReadFrame();
        if read.Dropped? { return Closed(None, Bytes("connection dropped")); }
        if read.Truncated? { return Cut; }
        if read.Violation? { return Failed(read.code); }
        var f := read.frame;
        if f.opcode == PING {
          var sent := SendFrame(PONG, f.payload, false);
          if !sent { return Closed(closeCode, []); }
          continue;
        }
        if f.opcode == PONG { continue; }
        if f.opcode == CLOSE {
          var code := CloseCode(f.payload);
          Close(AnswerCode(code), []);
          return Closed(code, if |f.payload| >= 2 then f.payload[2..] else []);
        }
        var refusal := Misplaced(f.opcode, expecting);
        if refusal.Some? {
          Fail(refusal.value.1, refusal.value.0);
          return Failed(refusal.value.0);
        }
        message := message + f.payload;
        if |message| > maxMessageBytes {
          Fail("message too large", 1009);
          return Failed(1009);
        }
        if f.fin { return Message(message); }
        expecting := true;
      }
    }
  }
}
