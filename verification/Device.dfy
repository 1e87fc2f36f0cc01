/** The command handlers over the application's global state. */
module Device {
  import opened Bytes
  import opened Model
  import opened Eip712
  import opened ActionHash
  import opened Serializer
  import opened MetadataParser
  import opened ActionParser
  import opened Chunks
  import opened Review
  import opened ReviewUi
  import opened Session
  import opened HlContext

  class App {
    const env: Env
    const store: ActionStore
    const payload: ChunkedPayload
    const scratch: array<byte>
    var signing: Signing
    var comm: bool
    var reviewing: bool
    var alive: bool

    ghost predicate Valid()
      reads this, store, payload, payload.buffer
    {
      store.Valid() && payload.Valid() && scratch.Length == MAX_SERIALIZED_ACTION_SIZE
      && payload.buffer != scratch
    }

    ghost function Value(): State
      requires Valid()
      reads this, store, store.slots, payload, payload.buffer
    {
      State(alive, comm, reviewing, store.Value(), payload.State(), signing)
    }

    /** The application starts with an empty context, nothing buffered, and communication enabled. */
    constructor (e: Env)
      ensures Valid() && Value() == INITIAL && env == e
      ensures fresh(store) && fresh(store.slots) && fresh(payload) && fresh(payload.buffer) && fresh(scratch)
    {
      env := e;
      store := new ActionStore();
      payload := new ChunkedPayload();
      scratch := new byte[MAX_SERIALIZED_ACTION_SIZE](_ => 0);
      signing := NO_SIGNING;
      comm, reviewing, alive := true, false, true;
    }

    /** parse_action_metadata */
    method ParseActionMetadata(bytes: seq<byte>)
      requires Valid()
      modifies store, store.slots
      ensures Valid() && store.Value() == ProvideMetadata(old(store.Value()), bytes, env.pki)
    {
      var m := ParseMetadata(bytes, env.pki);
      if m.None? { return; }
      if store.index != 0 {
        store.Reset();
        return;
      }
      store.Reset();
      store.SaveMetadata(m.value);
    }

    /** parse_action */
    method ParseActionPayload(bytes: seq<byte>)
      requires Valid()
      modifies store, store.slots
      ensures Valid() && store.Value() == SetAction(old(store.Value()), bytes)
    {
      hide ParseAction, Compatible;
      if store.metadata.None? { return; }
      var m := store.metadata.value;
      var a := ParseAction(bytes, m.assetId);
      if a.None? { return; }
      var compatible := store.IsCompatible(TypeOf(a.value.body), m.opType);
      if !compatible { return; }
      var _ := store.Push(a.value);
    }

    /** PROVIDE_ACTION_METADATA and SET_ACTION behind the dispatcher; a handled payload leaves nothing buffered. */
    method HandleChunk(handler: Handler, first: bool, data: seq<byte>, luck: Luck) returns (ret: int)
      requires Valid()
      modifies this, store, store.slots, payload, payload.buffer
      ensures Valid()
      ensures (Value(), [], ret) == ChunkCommand(env, old(Value()), handler, first, data, luck)
    {
      hide ProvideMetadata, SetAction;
      ret := luck.send;
      if data == [] { return; }
      var o := payload.Process(first, data, handler);
      match o
      case Complete(bytes) =>
        if handler == MetadataHandler {
          ParseActionMetadata(bytes);
        } else {
          ParseActionPayload(bytes);
        }
      case _ =>
    }

    /** sign_action */
    method SignNext(luck: Luck) returns (outs: seq<Output>, ret: int)
      requires Valid()
      modifies store, store.slots, scratch
      ensures Valid()
      ensures (store.Value(), outs, ret) == SignAction(env, old(store.Value()), signing, luck)
    {
      hide DomainHash, MessageHash;
      outs, ret := [], luck.send;
      var a := store.Current();
      if a.None? || store.metadata.None? { return; }
      var network := store.metadata.value.network;
      var ok, domain, message := HashAction(env.keccak, luck.hashes, a.value, network, signing.wallet, scratch);
      if !ok { return; }
      var hashed, digest := ComputeSigningDigest(env.keccak, luck.signs, domain, message);
      if !hashed || !(1 <= signing.length <= MAX_BIP32_PATH) { return; }
      var path: Path := signing.padded[..signing.length];
      var signature := env.sign(path, digest);
      store.Next();
      var remaining := store.Remaining();
      outs := [Signed(Message(a.value, path, signature, remaining))];
      if ret >= 0 && remaining == 0 {
        store.Reset();
      }
    }

    /** handler_sign_action with handle_ui */
    method HandleSign(data: seq<byte>, luck: Luck) returns (outs: seq<Output>, ret: int)
      requires Valid()
      modifies this`signing, this`comm, this`reviewing, store, store.slots, scratch
      ensures Valid()
      ensures (Value(), outs, ret) == SignCommand(env, old(Value()), data, luck)
    {
      hide SignAction, FullScreen, ReadPath;
      outs, ret := [], luck.send;
      var read := ReadPath(data);
      if read.None? { return; }
      var path := read.value;
      if store.index == 0 {
        signing := Signing(Pad(path), |path|, Zeros(ADDRESS_LENGTH));
        var remaining := store.Remaining();
        if remaining == 0 || !luck.derives { return; }
        signing := signing.(wallet := env.derive(path));
        if store.metadata.None? { return; }
        var meta, actions := store.metadata.value, store.slots[..store.count];
        var ui := new UiContext();
        var screen := ui.HandleUi(meta, actions);
        if screen.None? { return; }
        comm, reviewing := false, true;
        return [Opened(Bundle(actions, meta, path, signing.wallet), screen.value)], 0;
      }
      if |path| != signing.length || Pad(path) != signing.padded { return; }
      outs, ret := SignNext(luck);
    }

    /** review_choice */
    method HandleChoice(approve: bool, luck: Luck) returns (outs: seq<Output>)
      requires Valid()
      modifies this`comm, this`reviewing, store, store.slots, scratch
      ensures Valid()
      ensures (Value(), outs) == ReviewChoice(env, old(Value()), approve, luck)
    {
      hide SignAction;
      comm, reviewing := true, false;
      if approve {
        var ret;
        outs, ret := SignNext(luck);
        outs := [Approved] + outs;
        if ret == -1 {
          store.Reset();
        }
      } else {
        store.Reset();
        outs := [Rejected];
      }
    }

    /** One turn of the command loop, or one choice on the screen. */
    method Handle(e: Event) returns (outs: seq<Output>)
      requires Valid()
      modifies this, store, store.slots, payload, payload.buffer, scratch
      ensures Valid()
      ensures (Value(), outs) == Step(env, old(Value()), e)
    {
      hide ChunkCommand, SignCommand, ReviewChoice;
      outs := [];
      if !alive { return; }
      var ret;
      match e
      case Choice(approve, luck) =>
        if reviewing {
          outs := HandleChoice(approve, luck);
        }
      case Chunk(handler, first, data, luck) =>
        if comm {
          ret := HandleChunk(handler, first, data, luck);
          alive := ret >= 0;
        }
      case Sign(data, luck) =>
        if comm {
          outs, ret := HandleSign(data, luck);
          alive := ret >= 0;
        }
    }

    /** Any run of the application, from its start. */
    static method RunApp(env: Env, events: seq<Event>) returns (app: App, trace: seq<Output>)
      ensures app.Valid() && (app.Value(), trace) == Run(env, events)
    {
      hide Step;
      app := new App(env);
      trace := [];
      for i := 0 to |events|
        invariant fresh(app) && fresh(app.store) && fresh(app.store.slots) && fresh(app.payload)
        invariant fresh(app.payload.buffer) && fresh(app.scratch)
        invariant app.Valid() && app.env == env
        invariant (app.Value(), trace) == Run(env, events[..i])
      {
        var outs := app.Handle(events[i]);
        trace := trace + outs;
        assert events[..i + 1][..i] == events[..i];
      }
      assert events[..|events|] == events;
    }
  }
}
