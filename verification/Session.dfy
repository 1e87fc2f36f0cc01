/**
 The signing session as a state machine: host commands and user choices in, reviews and signatures out. The
 cryptographic primitives are functions of the device; whether a primitive or a send works is part of each event.
 */
module Session {
  import opened Bytes
  import opened Model
  import opened Eip712
  import opened MetadataParser
  import opened ActionParser
  import opened Chunks
  import opened Review

  // ---------------------------------------------------------------- the action context

  const MAX_ACTION_COUNT := 10

  datatype Ctx = Ctx(metadata: Option<Metadata>, actions: seq<Action>, index: nat)

  const EMPTY_CTX := Ctx(None, [], 0)

  predicate HasType(actions: seq<Action>, t: ActionType) {
    exists i :: 0 <= i < |actions| && TypeOf(actions[i].body) == t
  }

  /** ctx_push_action: room, signing not started, and no action of the same type. */
  predicate CanPush(c: Ctx, a: Action) {
    |c.actions| < MAX_ACTION_COUNT && c.index == 0 && !HasType(c.actions, TypeOf(a.body))
  }

  /** is_action_compatible */
  predicate Compatible(t: ActionType, op: OpType, actions: seq<Action>) {
    match op
    case OpOrder => t in {TBulkOrder, TUpdateLeverage, TApproveBuilderFee, TUserSetAbstraction}
    case OpModify =>
      t in {TBulkModify, TBulkOrder} && Lookup(actions, TBulkModify).None? && Lookup(actions, TBulkOrder).None?
    case OpClose => t == TBulkOrder
    case OpUpdateMargin => t == TUpdateIsolatedMargin
    case _ => t == TBulkCancel
  }

  /** parse_action_metadata: verified metadata empties the list; it is kept only when no signing was under way. */
  function ProvideMetadata(c: Ctx, payload: seq<byte>, pki: Pki): Ctx {
    match ParseMetadata(payload, pki)
    case None => c
    case Some(m) => if c.index > 0 then EMPTY_CTX else Ctx(Some(m), [], 0)
  }

  /** parse_action */
  function SetAction(c: Ctx, payload: seq<byte>): Ctx {
    if c.metadata.None? then c else
    match ParseAction(payload, c.metadata.value.assetId)
    case None => c
    case Some(a) =>
      if Compatible(TypeOf(a.body), c.metadata.value.opType, c.actions) && CanPush(c, a) then
        c.(actions := c.actions + [a])
      else c
  }

  // ---------------------------------------------------------------- paths

  const MAX_BIP32_PATH := 10

  predicate IsPath(p: seq<u32>) { 1 <= |p| <= MAX_BIP32_PATH }

  type Path = p: seq<u32> | IsPath(p) witness [0]

  /** The path of a SIGN_ACTION command: a count and that many 4-byte indices. */
  function ReadPath(data: seq<byte>): Option<Path> {
    if |data| < 1 || data[0] == 0 || data[0] > MAX_BIP32_PATH || |data| < 1 + 4 * data[0] then None
    else Some(seq(data[0], i requires 0 <= i < data[0] => ReadIndex(data, i)))
  }

  function ReadIndex(data: seq<byte>, i: nat): u32
    requires 1 + 4 * (i + 1) <= |data|
  {
    BEInvertsFromBE(data[1 + 4 * i..5 + 4 * i]);
    Pow256Values();
    FromBE(data[1 + 4 * i..5 + 4 * i])
  }

  function IndexBytes(n: u32): seq<byte> { BE(n, 4) }

  /** What the client sends for a path: the number of indices, and each as 4 bytes, most significant first. */
  function PrintPath(p: Path): seq<byte> {
    [|p|] + FlatMap(IndexBytes, p)
  }

  lemma {:induction false} IndicesAreBytes(data: seq<byte>, p: seq<u32>)
    requires 1 + 4 * |p| <= |data| && forall i :: 0 <= i < |p| ==> p[i] == ReadIndex(data, i)
    ensures FlatMap(IndexBytes, p) == data[1..1 + 4 * |p|]
  {
    hide BE, FromBE;
    if p == [] {
      assert data[1..1] == [];
    } else {
      var n := |p| - 1;
      IndicesAreBytes(data, p[..n]);
      BEInvertsFromBE(data[1 + 4 * n..5 + 4 * n]);
      assert data[1..1 + 4 * |p|] == data[1..1 + 4 * n] + data[1 + 4 * n..5 + 4 * n];
    }
  }

  lemma {:induction false} BytesAreIndices(p: seq<u32>, q: seq<u32>)
    requires |p| == |q| && FlatMap(IndexBytes, p) == FlatMap(IndexBytes, q)
    ensures p == q
  {
    hide BE;
    if p != [] {
      var n := |p| - 1;
      var a, b := FlatMap(IndexBytes, p[..n]), FlatMap(IndexBytes, q[..n]);
      FourEach(p[..n]);
      FourEach(q[..n]);
      SplitEqual(a, BE(p[n], 4), b, BE(q[n], 4));
      BytesAreIndices(p[..n], q[..n]);
      Pow256Values();
      BEInjective(p[n], q[n], 4);
      assert p == p[..n] + [p[n]] && q == q[..n] + [q[n]];
    }
  }

  lemma {:induction false} FourEach(p: seq<u32>)
    ensures |FlatMap(IndexBytes, p)| == 4 * |p|
  {
    if p != [] { FourEach(p[..|p| - 1]); }
  }

  /** The path read is exactly the one that was printed, in its order, whatever follows it. */
  lemma ReadPathExact(data: seq<byte>, p: Path)
    ensures ReadPath(data) == Some(p) <==> PrintPath(p) <= data
  {
    hide FlatMap, ReadIndex;
    FourEach(p);
    assert PrintPath(p) <= data ==> data[0] == PrintPath(p)[0];
    if ReadPath(data).Some? {
      var q := ReadPath(data).value;
      IndicesAreBytes(data, q);
      FourEach(q);
      assert data[..1 + 4 * |q|] == [data[0]] + data[1..1 + 4 * |q|];
      assert PrintPath(q) <= data;
      if PrintPath(p) <= data {
        assert PrintPath(p) == PrintPath(q);
        SplitEqual([|p|], FlatMap(IndexBytes, p), [|q|], FlatMap(IndexBytes, q));
        BytesAreIndices(p, q);
      }
    }
  }

  /** A path is refused exactly when its count is missing, zero or above ten, or when indices are missing. */
  lemma ReadPathRefuses(data: seq<byte>)
    ensures ReadPath(data) == None <==> data == [] || data[0] == 0 || data[0] > 10 || |data| < 1 + 4 * data[0]
  {
  }

  type PathArray = a: seq<u32> | |a| == MAX_BIP32_PATH witness [0, 0, 0, 0, 0, 0, 0, 0, 0, 0]

  function Pad(p: Path): PathArray {
    p + seq(MAX_BIP32_PATH - |p|, i => 0)
  }

  /** g_signing_ctx: a zero-padded path with its length, and the address derived from it. */
  datatype Signing = Signing(padded: PathArray, length: nat, wallet: Address)

  const NO_SIGNING := Signing(Pad([0]), 0, Zeros(20))

  lemma PadKeepsPath(p: Path)
    ensures Pad(p)[..|p|] == p
  {
  }

  /** Comparing length and padded array is comparing paths. */
  lemma PaddedComparison(p: Path, q: Path)
    ensures |p| == |q| && Pad(p) == Pad(q) <==> p == q
  {
    if |p| == |q| && Pad(p) == Pad(q) {
      SplitEqual(p, seq(MAX_BIP32_PATH - |p|, i => 0), q, seq(MAX_BIP32_PATH - |q|, i => 0));
    }
  }

  // ---------------------------------------------------------------- events and outputs

  type Signature = seq<byte>

  /** The fixed functions of the device. */
  datatype Env = Env(
    keccak: Keccak,
    pki: Pki,
    derive: Path -> Address,
    sign: (Path, Hash) -> Signature)

  /** Which fallible steps of one event work, and what its one send returns. */
  datatype Luck = Luck(derives: bool, hashes: bool, signs: bool, send: int)

  datatype Event =
    | Chunk(handler: Handler, first: bool, data: seq<byte>, luck: Luck)
    | Sign(data: seq<byte>, luck: Luck)
    | Choice(approve: bool, luck: Luck)

  /** The actions a review is about, and what they are signed with. */
  datatype Bundle = Bundle(actions: seq<Action>, metadata: Metadata, path: Path, wallet: Address)

  datatype Message = Message(action: Action, path: Path, signature: Signature, remaining: nat)

  datatype Output =
    | Opened(bundle: Bundle, screen: Screen)
    | Approved
    | Rejected
    | Signed(message: Message)

  datatype State = State(
    alive: bool,
    comm: bool,
    reviewing: bool,
    ctx: Ctx,
    chunk: ChunkState,
    signing: Signing)

  const INITIAL := State(true, true, false, EMPTY_CTX, Idle, NO_SIGNING)

  // ---------------------------------------------------------------- steps

  /** What signing the current action produces. */
  function MessageFor(env: Env, actions: seq<Action>, index: nat, network: Network, path: Path, wallet: Address): Message
    requires index < |actions|
  {
    Message(actions[index], path,
            env.sign(path, SigningDigest(env.keccak, actions[index], network, wallet)),
            |actions| - (index + 1))
  }

  /** sign_action: the new context, what is released, and the value returned. */
  function SignAction(env: Env, c: Ctx, signing: Signing, luck: Luck): (Ctx, seq<Output>, int) {
    if c.index >= |c.actions| || c.metadata.None? || !luck.hashes || !luck.signs || !(1 <= signing.length <= MAX_BIP32_PATH) then
      (c, [], luck.send)
    else
      var path: Path := signing.padded[..signing.length];
      var m := MessageFor(env, c.actions, c.index, c.metadata.value.network, path, signing.wallet);
      var next := c.(index := c.index + 1);
      (if luck.send >= 0 && m.remaining == 0 then EMPTY_CTX else next, [Signed(m)], luck.send)
  }

  /** handler_sign_action with handle_ui: the first call opens the review, the later ones sign. */
  function SignCommand(env: Env, s: State, data: seq<byte>, luck: Luck): (State, seq<Output>, int) {
    match ReadPath(data)
    case None => (s, [], luck.send)
    case Some(path) =>
      if s.ctx.index == 0 then
        var captured := s.(signing := Signing(Pad(path), |path|, Zeros(20)));
        if s.ctx.actions == [] || !luck.derives then (captured, [], luck.send)
        else
          var wallet := env.derive(path);
          var ready := s.(signing := Signing(Pad(path), |path|, wallet));
          if s.ctx.metadata.None? then (ready, [], luck.send)
          else
            match FullScreen(s.ctx.metadata.value, s.ctx.actions)
            case None => (ready, [], luck.send)
            case Some(screen) =>
              (ready.(comm := false, reviewing := true),
               [Opened(Bundle(s.ctx.actions, s.ctx.metadata.value, path, wallet), screen)], 0)
      else if |path| != s.signing.length || Pad(path) != s.signing.padded then (s, [], luck.send)
      else
        var (c, outs, ret) := SignAction(env, s.ctx, s.signing, luck);
        (s.(ctx := c), outs, ret)
  }

  /** The effect of a whole payload on the context. */
  function Provide(env: Env, c: Ctx, handler: Handler, payload: seq<byte>): Ctx {
    if handler == MetadataHandler then ProvideMetadata(c, payload, env.pki) else SetAction(c, payload)
  }

  /** PROVIDE_ACTION_METADATA and SET_ACTION, by chunks; the dispatcher keeps commands without data away from them. */
  function ChunkCommand(env: Env, s: State, handler: Handler, first: bool, data: seq<byte>, luck: Luck): (State, seq<Output>, int) {
    if data == [] then (s, [], luck.send)
    else
      var o := Accept(s.chunk, first, data, handler);
      (s.(chunk := StateAfter(o), ctx := if o.Complete? then Provide(env, s.ctx, handler, o.payload) else s.ctx),
       [], luck.send)
  }

  /** review_choice */
  function ReviewChoice(env: Env, s: State, approve: bool, luck: Luck): (State, seq<Output>) {
    var open := s.(comm := true, reviewing := false);
    if approve then
      var (c, outs, ret) := SignAction(env, s.ctx, s.signing, luck);
      (open.(ctx := if ret == -1 then EMPTY_CTX else c), [Approved] + outs)
    else (open.(ctx := EMPTY_CTX), [Rejected])
  }

  /**
   One event. Host commands are dispatched only while communication is enabled, and a negative result ends the
   application; a choice exists only while a review is on the screen.
   */
  function Step(env: Env, s: State, e: Event): (State, seq<Output>) {
    if !s.alive then (s, []) else
    match e
    case Choice(approve, luck) =>
      if s.reviewing then ReviewChoice(env, s, approve, luck) else (s, [])
    case Chunk(handler, first, data, luck) =>
      if !s.comm then (s, [])
      else
        var (t, outs, ret) := ChunkCommand(env, s, handler, first, data, luck);
        (t.(alive := ret >= 0), outs)
    case Sign(data, luck) =>
      if !s.comm then (s, [])
      else
        var (t, outs, ret) := SignCommand(env, s, data, luck);
        (t.(alive := ret >= 0), outs)
  }

  /** A run from a given state: the state reached and everything output on the way. */
  function RunFrom(env: Env, s: State, events: seq<Event>): (State, seq<Output>) {
    if events == [] then (s, [])
    else
      var (t, outs) := RunFrom(env, s, events[..|events| - 1]);
      var (u, more) := Step(env, t, events[|events| - 1]);
      (u, outs + more)
  }

  function Run(env: Env, events: seq<Event>): (State, seq<Output>) {
    RunFrom(env, INITIAL, events)
  }
}
