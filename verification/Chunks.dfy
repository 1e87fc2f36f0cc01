/** Reassembly of a payload sent in several commands, and the client that splits it. */
module Chunks {
  import opened Bytes

  const PAYLOAD_BUFFER_SIZE := 1020
  const MAX_APDU_LEN := 255

  /** Which handler a payload is for; the C code compares function pointers. */
  datatype Handler = MetadataHandler | ActionHandler

  /** What has been buffered: nothing, or a strict prefix of a payload of a known size. */
  datatype ChunkState =
    | Idle
    | Receiving(handler: Handler, size: nat, received: seq<byte>)

  predicate ValidState(s: ChunkState) {
    s.Receiving? ==> |s.received| < s.size <= PAYLOAD_BUFFER_SIZE
  }

  /** What one command does: nothing is complete yet, or the whole payload is there, or the chunk is refused. */
  datatype Outcome = Pending(state: ChunkState) | Complete(payload: seq<byte>) | Refused

  function Append(handler: Handler, size: nat, received: seq<byte>, data: seq<byte>): Outcome {
    if |received| + |data| > size then Refused
    else if |received| + |data| == size then Complete(received + data)
    else Pending(Receiving(handler, size, received + data))
  }

  /** process_chunked_payload_internal up to the call of the handler. */
  function Accept(s: ChunkState, first: bool, data: seq<byte>, handler: Handler): Outcome {
    if first then
      if s.Receiving? || |data| < 2 then Refused
      else
        var size := FromBE(data[..2]);
        if size == 0 || size > PAYLOAD_BUFFER_SIZE then Refused
        else Append(handler, size, [], data[2..])
    else
      if |data| == 0 || s.Idle? || s.handler != handler then Refused
      else Append(handler, s.size, s.received, data)
  }

  /** The state after the command: a refusal, a completed payload and a failed handler all wipe it. */
  function StateAfter(o: Outcome): ChunkState {
    if o.Pending? then o.state else Idle
  }

  /** The chunk state is sound after every command, whatever the command was. */
  lemma StateStaysValid(s: ChunkState, first: bool, data: seq<byte>, handler: Handler)
    requires ValidState(s)
    ensures ValidState(StateAfter(Accept(s, first, data, handler)))
    ensures var o := Accept(s, first, data, handler);
            o.Complete? ==> 1 <= |o.payload| <= 1020
  {
  }

  datatype Command = Command(handler: Handler, first: bool, data: seq<byte>)

  /** The state after any commands, for either handler, from the start of the application. */
  function StateOf(commands: seq<Command>): ChunkState {
    if commands == [] then Idle
    else
      var c := commands[|commands| - 1];
      StateAfter(Accept(StateOf(commands[..|commands| - 1]), c.first, c.data, c.handler))
  }

  function DataOf(commands: seq<Command>): seq<byte> {
    if commands == [] then [] else DataOf(commands[..|commands| - 1]) + commands[|commands| - 1].data
  }

  /** s is what the commands from i on have built up: a first one and its followers, for one handler. */
  ghost predicate BuiltFrom(commands: seq<Command>, i: nat, s: ChunkState) {
    s.Receiving? && i < |commands| && StateOf(commands[..i]) == Idle
    && (forall j :: i <= j < |commands| ==> commands[j].handler == s.handler && commands[j].first == (j == i))
    && DataOf(commands[i..]) == BE(s.size, 2) + s.received
  }

  /** After any interleaving of commands and failures: idle, or the bytes received since the last first chunk. */
  lemma {:induction false} BufferInvariant(commands: seq<Command>)
    ensures ValidState(StateOf(commands))
    ensures StateOf(commands).Receiving? ==> exists i :: BuiltFrom(commands, i, StateOf(commands))
  {
    if commands != [] {
      var n := |commands| - 1;
      var before, c, s := StateOf(commands[..n]), commands[n], StateOf(commands);
      BufferInvariant(commands[..n]);
      StateStaysValid(before, c.first, c.data, c.handler);
      if s.Receiving? {
        if c.first {
          StartsBuilding(commands, n);
        } else {
          var i :| BuiltFrom(commands[..n], i, before);
          KeepsBuilding(commands, n, i);
        }
      }
    }
  }

  lemma StartsBuilding(commands: seq<Command>, n: nat)
    requires |commands| == n + 1 && commands[n].first && StateOf(commands).Receiving?
    ensures BuiltFrom(commands, n, StateOf(commands))
  {
    hide BE, FromBE;
    var c := commands[n];
    assert commands[n..] == [c] && DataOf([c]) == c.data by { assert [] + c.data == c.data; }
    assert c.data == c.data[..2] + c.data[2..] && [] + c.data[2..] == c.data[2..];
    BEInvertsFromBE(c.data[..2]);
  }

  /** A follower that leaves the device receiving has been appended. */
  lemma LastFollower(commands: seq<Command>, n: nat)
    requires |commands| == n + 1 && !commands[n].first
    requires StateOf(commands).Receiving? && StateOf(commands[..n]).Receiving?
    ensures var c, before := commands[n], StateOf(commands[..n]);
            c.handler == before.handler
            && StateOf(commands) == Receiving(before.handler, before.size, before.received + c.data)
  {
    hide Accept;
    FollowerAppends(StateOf(commands[..n]), commands[n]);
  }

  lemma KeepsBuilding(commands: seq<Command>, n: nat, i: nat)
    requires |commands| == n + 1 && !commands[n].first && StateOf(commands).Receiving?
    requires BuiltFrom(commands[..n], i, StateOf(commands[..n]))
    ensures BuiltFrom(commands, i, StateOf(commands))
  {
    hide BE, Accept, StateOf, DataOf;
    LastFollower(commands, n);
    var c, before, s := commands[n], StateOf(commands[..n]), StateOf(commands);
    assert commands[..n][..i] == commands[..i];
    DataSnoc(commands[..n][i..], c);
    assert commands[..n][i..] + [c] == commands[i..];
    assert (BE(s.size, 2) + before.received) + c.data == BE(s.size, 2) + (before.received + c.data);
    forall j | i <= j < |commands| ensures commands[j].handler == s.handler && commands[j].first == (j == i) {
      if j < n { assert commands[..n][j] == commands[j]; }
    }
  }

  lemma FollowerAppends(before: ChunkState, c: Command)
    requires before.Receiving? && !c.first && StateAfter(Accept(before, false, c.data, c.handler)).Receiving?
    ensures c.handler == before.handler
    ensures StateAfter(Accept(before, false, c.data, c.handler))
            == Receiving(before.handler, before.size, before.received + c.data)
  {
  }

  lemma DataSnoc(commands: seq<Command>, c: Command)
    ensures DataOf(commands + [c]) == DataOf(commands) + c.data
  {
    assert (commands + [c])[..|commands|] == commands;
  }

  /** process_chunked_payload over its static buffer. */
  class ChunkedPayload {
    const buffer: array<byte>
    var size: nat
    var received: nat
    var handler: Option<Handler>

    ghost predicate Valid()
      reads this, buffer
    {
      buffer.Length == PAYLOAD_BUFFER_SIZE &&
      if handler.None? then size == 0 && received == 0 && buffer[..] == Zeros(PAYLOAD_BUFFER_SIZE)
      else received < size <= PAYLOAD_BUFFER_SIZE
    }

    ghost function State(): (s: ChunkState)
      requires Valid()
      reads this, buffer
      ensures ValidState(s)
    {
      if handler.None? then Idle else Receiving(handler.value, size, buffer[..received])
    }

    constructor ()
      ensures Valid() && State() == Idle && fresh(buffer)
    {
      buffer := new byte[PAYLOAD_BUFFER_SIZE](_ => 0);
      size, received, handler := 0, 0, None;
    }

    /** explicit_bzero of the whole structure. */
    method Wipe()
      requires buffer.Length == PAYLOAD_BUFFER_SIZE
      modifies this, buffer
      ensures Valid() && State() == Idle
    {
      forall i | 0 <= i < buffer.Length {
        buffer[i] := 0;
      }
      size, received, handler := 0, 0, None;
    }

    /** memcpy of data behind what is already there. */
    method Store(data: seq<byte>)
      requires buffer.Length == PAYLOAD_BUFFER_SIZE && received + |data| <= PAYLOAD_BUFFER_SIZE
      modifies this`received, buffer
      ensures received == old(received) + |data|
      ensures buffer[..received] == old(buffer[..received]) + data
    {
      forall i | 0 <= i < |data| {
        buffer[received + i] := data[i];
      }
      received := received + |data|;
    }

    /**
     One command. When it completes the payload, the payload is returned for the handler to be run on it; in every
     case but Pending the caller ends with the wiped state.
     */
    method Process(first: bool, data: seq<byte>, forHandler: Handler) returns (o: Outcome)
      requires Valid()
      modifies this, buffer
      ensures o == Accept(old(State()), first, data, forHandler)
      ensures Valid() && State() == StateAfter(o)
    {
      var offset;
      ghost var before := State();
      if first {
        if handler.Some? || |data| < 2 {
          Wipe();
          return Refused;
        }
        size := FromBE(data[..2]);
        if size == 0 || size > PAYLOAD_BUFFER_SIZE {
          Wipe();
          return Refused;
        }
        received := 0;
        offset := 2;
        handler := Some(forHandler);
      } else {
        if |data| == 0 || handler != Some(forHandler) {
          Wipe();
          return Refused;
        }
        offset := 0;
      }
      ghost var so := buffer[..received];
      if received + |data| - offset > size {
        Wipe();
        return Refused;
      }
      Store(data[offset..]);
      assert buffer[..received] == so + data[offset..];
      if received == size {
        o := Complete(buffer[..size]);
        Wipe();
      } else {
        o := Pending(Receiving(forHandler, size, buffer[..received]));
      }
    }
  }

  // ---------------------------------------------------------------- the sender

  /** A run of commands for one handler: the outcomes, from state s on, the first chunk marked as such. */
  function Deliver(s: ChunkState, first: bool, chunks: seq<seq<byte>>, handler: Handler): seq<Outcome>
    decreases |chunks|
  {
    if chunks == [] then []
    else
      var o := Accept(s, first, chunks[0], handler);
      [o] + Deliver(StateAfter(o), false, chunks[1..], handler)
  }

  /** The handler is given exactly payload, at the last command; the earlier ones leave it unfinished. */
  predicate DeliveredOnce(outcomes: seq<Outcome>, payload: seq<byte>) {
    |outcomes| >= 1 && outcomes[|outcomes| - 1] == Complete(payload) &&
    forall i :: 0 <= i < |outcomes| - 1 ==> outcomes[i].Pending?
  }

  /** A legal split: the length and the payload, cut anywhere, with no empty chunk and the length in the first. */
  predicate IsSplit(chunks: seq<seq<byte>>, payload: seq<byte>) {
    chunks != [] && |chunks[0]| >= 2 && (forall i :: 1 <= i < |chunks| ==> chunks[i] != []) &&
    Join(chunks) == BE(|payload|, 2) + payload
  }

  lemma {:induction false} JoinNonEmpty(chunks: seq<seq<byte>>)
    requires chunks != [] && forall i :: 0 <= i < |chunks| ==> chunks[i] != []
    ensures Join(chunks) != []
  {
  }

  lemma {:induction false} DeliverRest(s: ChunkState, chunks: seq<seq<byte>>, handler: Handler, payload: seq<byte>)
    requires s.Receiving? && s.handler == handler && s.size == |payload| && ValidState(s)
    requires forall i :: 0 <= i < |chunks| ==> chunks[i] != []
    requires s.received + Join(chunks) == payload
    ensures DeliveredOnce(Deliver(s, false, chunks, handler), payload)
    decreases |chunks|
  {
    assert chunks != [];
    var o := Accept(s, false, chunks[0], handler);
    var rest := chunks[1..];
    assert s.received + Join(chunks) == (s.received + chunks[0]) + Join(rest);
    if rest == [] {
      assert s.received + chunks[0] == payload;
    } else {
      JoinNonEmpty(rest);
      assert o == Pending(Receiving(handler, |payload|, s.received + chunks[0]));
      DeliverRest(o.state, rest, handler, payload);
    }
  }

  lemma DeliveredStep(s: ChunkState, first: bool, chunks: seq<seq<byte>>, handler: Handler, payload: seq<byte>)
    requires chunks != []
    ensures DeliveredOnce(Deliver(s, first, chunks, handler), payload) <==>
            var o := Accept(s, first, chunks[0], handler);
            if |chunks| == 1 then o == Complete(payload)
            else o.Pending? && DeliveredOnce(Deliver(o.state, false, chunks[1..], handler), payload)
  {
    hide Accept;
    var o, rest := Accept(s, first, chunks[0], handler), chunks[1..];
    var outcomes, later := Deliver(s, first, chunks, handler), Deliver(StateAfter(o), false, rest, handler);
    assert outcomes == [o] + later;
    DeliverLength(StateAfter(o), false, rest, handler);
    OnceStep(o, later, payload);
  }

  lemma OnceStep(o: Outcome, later: seq<Outcome>, payload: seq<byte>)
    ensures DeliveredOnce([o] + later, payload) <==>
            if later == [] then o == Complete(payload) else o.Pending? && DeliveredOnce(later, payload)
  {
    var all := [o] + later;
    if later != [] {
      assert all[|all| - 1] == later[|later| - 1];
      assert forall i :: 0 <= i < |later| ==> later[i] == all[i + 1];
      assert forall i :: 0 <= i < |all| ==> all[i] == if i == 0 then o else later[i - 1];
      assert all[0] == o;
    }
  }

  lemma {:induction false} DeliverLength(s: ChunkState, first: bool, chunks: seq<seq<byte>>, handler: Handler)
    ensures |Deliver(s, first, chunks, handler)| == |chunks|
    decreases |chunks|
  {
    if chunks != [] {
      DeliverLength(StateAfter(Accept(s, first, chunks[0], handler)), false, chunks[1..], handler);
    }
  }

  /** From an idle device, every legal split delivers exactly its payload, once, with the last chunk. */
  lemma TransportRoundTrip(chunks: seq<seq<byte>>, handler: Handler, payload: seq<byte>)
    requires 1 <= |payload| <= 1020 && IsSplit(chunks, payload)
    ensures DeliveredOnce(Deliver(Idle, true, chunks, handler), payload)
  {
    DeliveredStep(Idle, true, chunks, handler, payload);
    hide BE, FromBE, Pow256, Deliver, DeliveredOnce;
    var c, rest := chunks[0], chunks[1..];
    assert c[..2] + (c[2..] + Join(rest)) == c + Join(rest);
    SplitEqual(c[..2], c[2..] + Join(rest), BE(|payload|, 2), payload);
    Pow256Values();
    FromBEInvertsBE(|payload|, 2);
    assert [] + c[2..] == c[2..];
    if rest == [] {
      assert c[2..] + Join(rest) == c[2..];
    } else {
      JoinNonEmpty(rest);
      DeliverRest(Receiving(handler, |payload|, c[2..]), rest, handler, payload);
    }
  }

  lemma {:induction false} DeliveredRestIsJoin(s: ChunkState, chunks: seq<seq<byte>>, handler: Handler, payload: seq<byte>)
    requires s.Receiving? && ValidState(s)
    requires DeliveredOnce(Deliver(s, false, chunks, handler), payload)
    ensures s.size == |payload| && s.received + Join(chunks) == payload
    ensures forall i :: 0 <= i < |chunks| ==> chunks[i] != []
    decreases |chunks|
  {
    DeliveredStep(s, false, chunks, handler, payload);
    hide Deliver, DeliveredOnce;
    var c, rest := chunks[0], chunks[1..];
    assert s.received + (c + Join(rest)) == (s.received + c) + Join(rest);
    if rest == [] {
      assert (s.received + c) + Join(rest) == s.received + c;
    } else {
      DeliveredRestIsJoin(Accept(s, false, c, handler).state, rest, handler, payload);
    }
  }

  /** Nothing else is ever delivered: the handler sees a payload only if the chunks were a legal split of it. */
  lemma TransportExact(chunks: seq<seq<byte>>, handler: Handler, payload: seq<byte>)
    ensures DeliveredOnce(Deliver(Idle, true, chunks, handler), payload)
            <==> 1 <= |payload| <= 1020 && IsSplit(chunks, payload)
  {
    if 1 <= |payload| <= PAYLOAD_BUFFER_SIZE && IsSplit(chunks, payload) {
      TransportRoundTrip(chunks, handler, payload);
    }
    var outcomes := Deliver(Idle, true, chunks, handler);
    if DeliveredOnce(outcomes, payload) {
      DeliveredIsSplit(chunks, handler, payload);
    }
  }

  lemma DeliveredIsSplit(chunks: seq<seq<byte>>, handler: Handler, payload: seq<byte>)
    requires DeliveredOnce(Deliver(Idle, true, chunks, handler), payload)
    ensures 1 <= |payload| <= 1020 && IsSplit(chunks, payload)
  {
    DeliverLength(Idle, true, chunks, handler);
    DeliveredStep(Idle, true, chunks, handler, payload);
    hide BE, FromBE, Deliver, DeliveredOnce;
    var c, rest := chunks[0], chunks[1..];
    assert |c| >= 2;
    var h, d := c[..2], c[2..];
    assert c == h + d && [] + d == d;
    BEInvertsFromBE(h);
    if rest == [] {
      assert c + Join(rest) == c;
    } else {
      DeliveredRestIsJoin(Accept(Idle, true, c, handler).state, rest, handler, payload);
      assert c + Join(rest) == h + (d + Join(rest));
      forall i | 1 <= i < |chunks| ensures chunks[i] != [] {
        assert chunks[i] == rest[i - 1];
      }
    }
  }

  /** command_sender.py: split_message */
  function SplitMessage(message: seq<byte>): seq<seq<byte>>
    decreases |message|
  {
    if message == [] then []
    else if |message| <= MAX_APDU_LEN then [message]
    else [message[..MAX_APDU_LEN]] + SplitMessage(message[MAX_APDU_LEN..])
  }

  lemma {:induction false} SplitMessageJoins(message: seq<byte>)
    ensures Join(SplitMessage(message)) == message
    ensures forall i :: 0 <= i < |SplitMessage(message)| ==> 1 <= |SplitMessage(message)[i]| <= 255
    decreases |message|
  {
    if |message| > MAX_APDU_LEN {
      SplitMessageJoins(message[MAX_APDU_LEN..]);
      assert message == message[..MAX_APDU_LEN] + message[MAX_APDU_LEN..];
      assert SplitMessage(message)[1..] == SplitMessage(message[MAX_APDU_LEN..]);
    } else if message != [] {
      assert Join([message]) == message + Join([]);
    }
  }

  /** command_sender.py: _send_chunked */
  function ClientChunks(payload: seq<byte>): seq<seq<byte>>
    requires |payload| <= PAYLOAD_BUFFER_SIZE
  {
    SplitMessage(BE(|payload|, 2) + payload)
  }

  /** In particular the client's own split, whose chunks each fit one command. */
  lemma ClientTransport(handler: Handler, payload: seq<byte>)
    requires 1 <= |payload| <= 1020
    ensures DeliveredOnce(Deliver(Idle, true, ClientChunks(payload), handler), payload)
  {
    var message := BE(|payload|, 2) + payload;
    SplitMessageJoins(message);
    assert |SplitMessage(message)[0]| >= 2;
    TransportRoundTrip(ClientChunks(payload), handler, payload);
  }
}
