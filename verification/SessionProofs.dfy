/** What holds in every run of the session: the stored context, and where each released signature comes from. */
module SessionProofs {
  import opened Bytes
  import opened Model
  import opened Eip712
  import opened MetadataParser
  import opened ActionParser
  import opened Chunks
  import opened Review
  import opened Session

  // ---------------------------------------------------------------- the stored context

  /** The action types an operation allows at all. */
  function AllowedTypes(op: OpType): set<ActionType> {
    match op
    case OpOrder => {TBulkOrder, TUpdateLeverage, TApproveBuilderFee, TUserSetAbstraction}
    case OpModify => {TBulkModify, TBulkOrder}
    case OpClose => {TBulkOrder}
    case OpUpdateMargin => {TUpdateIsolatedMargin}
    case _ => {TBulkCancel}
  }

  /** An action that came out of the parser under these metadata, with a type their operation allows. */
  ghost predicate Stored(a: Action, m: Metadata) {
    TypeOf(a.body) in AllowedTypes(m.opType) && exists bs :: ParseAction(bs, m.assetId) == Some(a)
  }

  ghost predicate DistinctTypes(actions: seq<Action>) {
    forall i, j :: 0 <= i < j < |actions| ==> TypeOf(actions[i].body) != TypeOf(actions[j].body)
  }

  ghost predicate SignedByKey(m: Metadata, pki: Pki) {
    exists bs :: ParseMetadata(bs, pki) == Some(m)
  }

  /** A list of actions that the device can hold under given metadata. */
  ghost predicate ValidList(m: Metadata, actions: seq<Action>) {
    DistinctTypes(actions)
    && (forall i :: 0 <= i < |actions| ==> Stored(actions[i], m))
    && (m.opType.OpModify? ==> |actions| <= 1)
  }

  ghost predicate ValidCtx(c: Ctx, pki: Pki) {
    c.index <= |c.actions|
    && (c.metadata.None? ==> c.actions == [])
    && (c.metadata.Some? ==> SignedByKey(c.metadata.value, pki) && ValidList(c.metadata.value, c.actions))
  }

  lemma {:induction false} LookupNone(actions: seq<Action>, t: ActionType)
    ensures Lookup(actions, t).None? <==> !HasType(actions, t)
  {
    if actions != [] {
      LookupNone(actions[1..], t);
      if HasType(actions[1..], t) {
        var i :| 0 <= i < |actions[1..]| && TypeOf(actions[1..][i].body) == t;
        assert TypeOf(actions[i + 1].body) == t;
      }
      if HasType(actions, t) && TypeOf(actions[0].body) != t {
        var i :| 0 <= i < |actions| && TypeOf(actions[i].body) == t;
        assert TypeOf(actions[1..][i - 1].body) == t;
      }
    }
  }

  /** The types accepted for an operation are exactly the allowed ones, while MODIFY holds none of its two yet. */
  lemma CompatibleExact(t: ActionType, op: OpType, actions: seq<Action>)
    ensures Compatible(t, op, actions) <==>
            t in AllowedTypes(op) && (op.OpModify? ==> !HasType(actions, TBulkModify) && !HasType(actions, TBulkOrder))
  {
    hide HasType, Lookup;
    LookupNone(actions, TBulkModify);
    LookupNone(actions, TBulkOrder);
  }

  /** Looking an action up by type finds the very entry that signing reaches by index. */
  lemma {:induction false} LookupIsWalk(actions: seq<Action>, i: nat)
    requires DistinctTypes(actions) && i < |actions|
    ensures Lookup(actions, TypeOf(actions[i].body)) == Some(actions[i])
  {
    if i > 0 {
      assert TypeOf(actions[0].body) != TypeOf(actions[i].body);
      assert DistinctTypes(actions[1..]);
      LookupIsWalk(actions[1..], i - 1);
    }
  }

  ghost predicate TypesWithin(actions: seq<Action>, types: set<ActionType>) {
    forall i :: 0 <= i < |actions| ==> TypeOf(actions[i].body) in types
  }

  lemma {:induction false} DistinctFitInSet(actions: seq<Action>, types: set<ActionType>)
    requires DistinctTypes(actions) && TypesWithin(actions, types)
    ensures |actions| <= |types|
    decreases |actions|
  {
    if actions != [] {
      var n := |actions| - 1;
      var t := TypeOf(actions[n].body);
      assert TypesWithin(actions[..n], types - {t}) by {
        forall i | 0 <= i < n ensures TypeOf(actions[..n][i].body) in types - {t} {
          assert TypeOf(actions[i].body) != t;
        }
      }
      DistinctFitInSet(actions[..n], types - {t});
    }
  }

  /** At most four actions, one for modifications, are ever stored; the capacity of ten is never reached. */
  lemma ListIsShort(m: Metadata, actions: seq<Action>)
    requires ValidList(m, actions)
    ensures |actions| <= |AllowedTypes(m.opType)| <= 4
    ensures !m.opType.OpOrder? ==> |actions| <= 1
  {
    assert TypesWithin(actions, AllowedTypes(m.opType)) by {
      forall i | 0 <= i < |actions| ensures TypeOf(actions[i].body) in AllowedTypes(m.opType) {
        assert Stored(actions[i], m);
      }
    }
    DistinctFitInSet(actions, AllowedTypes(m.opType));
    AllowedSizes(m.opType);
  }

  lemma AllowedSizes(op: OpType)
    ensures |AllowedTypes(op)| <= 4
    ensures op != OpOrder && op != OpModify ==> |AllowedTypes(op)| == 1
  {
  }

  /** Every asset in a stored action is the metadata's, and no stored bulk list is empty. */
  lemma StoredIsConsistent(a: Action, m: Metadata)
    requires Stored(a, m)
    ensures AssetsAre(a.body, m.assetId) && NonEmptyBatch(a.body)
  {
    hide ParseAction;
    var bs :| ParseAction(bs, m.assetId) == Some(a);
    ParsedActionIsSound(bs, m.assetId);
  }

  lemma ProvideMetadataKeeps(c: Ctx, payload: seq<byte>, pki: Pki)
    requires ValidCtx(c, pki)
    ensures ValidCtx(ProvideMetadata(c, payload, pki), pki)
  {
    hide ParseMetadata;
  }

  lemma PushKeepsList(m: Metadata, actions: seq<Action>, a: Action)
    requires ValidList(m, actions) && Stored(a, m) && !HasType(actions, TypeOf(a.body))
    requires m.opType.OpModify? ==> actions == []
    ensures ValidList(m, actions + [a])
  {
    hide Stored;
  }

  lemma SetActionKeeps(c: Ctx, payload: seq<byte>, pki: Pki)
    requires ValidCtx(c, pki)
    ensures ValidCtx(SetAction(c, payload), pki)
  {
    hide ParseAction;
    var d := SetAction(c, payload);
    if d != c {
      var m := c.metadata.value;
      var a := ParseAction(payload, m.assetId).value;
      assert Stored(a, m);
      LookupNone(c.actions, TBulkModify);
      LookupNone(c.actions, TBulkOrder);
      if c.actions != [] {
        assert Stored(c.actions[0], m);
        assert HasType(c.actions, TypeOf(c.actions[0].body));
      }
      PushKeepsList(m, c.actions, a);
    }
  }

  // ---------------------------------------------------------------- where signatures come from

  /** A review that the device really makes: a list it can hold, its own screen, and the address of the path. */
  ghost predicate Honest(env: Env, b: Bundle, screen: Screen) {
    ValidList(b.metadata, b.actions) && SignedByKey(b.metadata, env.pki) && b.actions != []
    && FullScreen(b.metadata, b.actions) == Some(screen)
    && b.wallet == env.derive(b.path)
  }

  /** What is signed at position i of a bundle. */
  function MessageAt(env: Env, b: Bundle, i: nat): Message
    requires i < |b.actions|
  {
    MessageFor(env, b.actions, i, b.metadata.network, b.path, b.wallet)
  }

  /** The signatures of the first n actions of a bundle, in order. */
  function Released(env: Env, b: Bundle, n: nat): (r: seq<Output>)
    requires n <= |b.actions|
    ensures |r| == n
  {
    if n == 0 then [] else Released(env, b, n - 1) + [Signed(MessageAt(env, b, n - 1))]
  }

  /** A review, its approval, and the first n signatures. */
  function Exchange(env: Env, b: Bundle, screen: Screen, n: nat): (r: seq<Output>)
    requires n <= |b.actions|
    ensures |r| == n + 2
  {
    [Opened(b, screen), Approved] + Released(env, b, n)
  }

  /** part is what the trace holds just before position k. */
  predicate Ends(trace: seq<Output>, k: nat, part: seq<Output>) {
    |part| <= k <= |trace| && trace[k - |part|..k] == part
  }

  ghost predicate Justifies(env: Env, trace: seq<Output>, k: nat, b: Bundle, screen: Screen, n: nat) {
    n <= |b.actions| && Honest(env, b, screen) && Ends(trace, k, Exchange(env, b, screen, n))
  }

  /** Just before position k an exchange ends: an honest review, its approval, and the first signatures in order. */
  ghost predicate Justified(env: Env, trace: seq<Output>, k: nat) {
    exists b, screen, n: nat :: Justifies(env, trace, k, b, screen, n)
  }

  ghost predicate AllJustified(env: Env, trace: seq<Output>) {
    forall k :: 0 <= k < |trace| && trace[k].Signed? ==> Justified(env, trace, k + 1)
  }

  /** The context still holds the actions of a review, with its path and address. */
  ghost predicate Holds(s: State, b: Bundle) {
    s.ctx.actions == b.actions && s.ctx.metadata == Some(b.metadata)
    && s.signing == Signing(Pad(b.path), |b.path|, b.wallet)
  }

  ghost predicate PendingReview(env: Env, s: State, trace: seq<Output>, b: Bundle, screen: Screen) {
    s.ctx.index == 0 && Holds(s, b) && Honest(env, b, screen) && Ends(trace, |trace|, [Opened(b, screen)])
  }

  ghost predicate UnderWay(env: Env, s: State, trace: seq<Output>, b: Bundle, screen: Screen) {
    Holds(s, b) && Justifies(env, trace, |trace|, b, screen, s.ctx.index)
  }

  /** A pending review is the last output; signing under way is a last exchange with one signature per step. */
  ghost predicate Inv(env: Env, s: State, trace: seq<Output>) {
    ValidCtx(s.ctx, env.pki) && ValidState(s.chunk) && s.comm == !s.reviewing
    && AllJustified(env, trace)
    && (s.reviewing ==> exists b, screen :: PendingReview(env, s, trace, b, screen))
    && (s.ctx.index > 0 ==> exists b, screen :: UnderWay(env, s, trace, b, screen))
  }

  lemma JustifiesGrows(env: Env, trace: seq<Output>, more: seq<Output>, k: nat, b: Bundle, screen: Screen, n: nat)
    requires Justifies(env, trace, k, b, screen, n)
    ensures Justifies(env, trace + more, k, b, screen, n)
  {
    hide Honest, Exchange;
    var part := Exchange(env, b, screen, n);
    assert (trace + more)[k - |part|..k] == trace[k - |part|..k];
  }

  lemma JustifiedGrows(env: Env, trace: seq<Output>, more: seq<Output>, k: nat)
    requires Justified(env, trace, k)
    ensures Justified(env, trace + more, k)
  {
    hide Justifies;
    var b, screen, n: nat :| Justifies(env, trace, k, b, screen, n);
    JustifiesGrows(env, trace, more, k, b, screen, n);
  }

  /** The trace stays justified when the signatures added to it are. */
  lemma TraceGrows(env: Env, trace: seq<Output>, more: seq<Output>)
    requires AllJustified(env, trace)
    requires forall i :: 0 <= i < |more| && more[i].Signed? ==> Justified(env, trace + more, |trace| + i + 1)
    ensures AllJustified(env, trace + more)
  {
    hide Justified;
    var all := trace + more;
    forall k | 0 <= k < |all| && all[k].Signed? ensures Justified(env, all, k + 1) {
      if k < |trace| {
        assert trace[k] == all[k];
        JustifiedGrows(env, trace, more, k + 1);
      } else {
        assert more[k - |trace|] == all[k];
      }
    }
  }

  lemma EndsSnoc(trace: seq<Output>, part: seq<Output>, more: seq<Output>)
    requires Ends(trace, |trace|, part)
    ensures Ends(trace + more, |trace + more|, part + more)
  {
    assert (trace + more)[|trace| - |part|..] == trace[|trace| - |part|..] + more;
  }

  /** One more signature, of the next action of the bundle. */
  lemma OneMoreSigned(env: Env, trace: seq<Output>, b: Bundle, screen: Screen, n: nat)
    requires n < |b.actions| && Justifies(env, trace, |trace|, b, screen, n)
    ensures var next := trace + [Signed(MessageAt(env, b, n))]; Justifies(env, next, |next|, b, screen, n + 1)
  {
    hide Honest, MessageAt, Ends;
    var last := [Signed(MessageAt(env, b, n))];
    EndsSnoc(trace, Exchange(env, b, screen, n), last);
    assert Exchange(env, b, screen, n) + last == Exchange(env, b, screen, n + 1);
  }

  // ---------------------------------------------------------------- every step keeps the invariant

  /** A step that outputs no signature keeps the trace justified, and a review keeps being the last output. */
  lemma QuietStep(env: Env, s: State, trace: seq<Output>, t: State)
    requires Inv(env, s, trace)
    requires ValidCtx(t.ctx, env.pki) && ValidState(t.chunk) && t.comm == s.comm && t.reviewing == s.reviewing
    requires (t.ctx == s.ctx && t.signing == s.signing) || (t.ctx.index == 0 && !s.reviewing)
    ensures Inv(env, t, trace + [])
  {
    hide ValidCtx, AllJustified, Honest, Justifies;
    assert trace + [] == trace;
    if t.ctx == s.ctx && t.signing == s.signing {
      if s.reviewing {
        var b, screen :| PendingReview(env, s, trace, b, screen);
        assert PendingReview(env, t, trace, b, screen);
      }
      if s.ctx.index > 0 {
        var b, screen :| UnderWay(env, s, trace, b, screen);
        assert UnderWay(env, t, trace, b, screen);
      }
    }
  }

  lemma ChunkCommandKeeps(env: Env, s: State, trace: seq<Output>, handler: Handler, first: bool, data: seq<byte>, luck: Luck)
    requires Inv(env, s, trace) && s.comm
    ensures var (t, outs, ret) := ChunkCommand(env, s, handler, first, data, luck);
            Inv(env, t, trace + outs)
  {
    hide Inv, ValidCtx, Accept, SetAction, ProvideMetadata;
    var (t, outs, ret) := ChunkCommand(env, s, handler, first, data, luck);
    InvParts(env, s, trace);
    StateStaysValid(s.chunk, first, data, handler);
    var o := Accept(s.chunk, first, data, handler);
    if o.Complete? && handler == MetadataHandler {
      ProvideMetadataKeeps(s.ctx, o.payload, env.pki);
      MetadataIndex(s.ctx, o.payload, env.pki);
    } else if o.Complete? {
      SetActionKeeps(s.ctx, o.payload, env.pki);
      SetActionIndex(s.ctx, o.payload);
    }
    QuietStep(env, s, trace, t);
  }

  lemma InvParts(env: Env, s: State, trace: seq<Output>)
    requires Inv(env, s, trace)
    ensures ValidCtx(s.ctx, env.pki) && ValidState(s.chunk) && s.comm == !s.reviewing && AllJustified(env, trace)
  {
  }

  lemma MetadataIndex(c: Ctx, payload: seq<byte>, pki: Pki)
    ensures var d := ProvideMetadata(c, payload, pki); d == c || d.index == 0
  {
    hide ParseMetadata;
  }

  lemma SetActionIndex(c: Ctx, payload: seq<byte>)
    ensures var d := SetAction(c, payload); d == c || d.index == 0
  {
    hide ParseAction;
  }

  /** sign_action on a context that holds a bundle: nothing, or the next signature of the bundle. */
  lemma SignActionCases(env: Env, s: State, b: Bundle, luck: Luck)
    requires Holds(s, b)
    ensures var (c, outs, ret) := SignAction(env, s.ctx, s.signing, luck);
            || (outs == [] && c == s.ctx)
            || (s.ctx.index < |b.actions| && outs == [Signed(MessageAt(env, b, s.ctx.index))]
                && (c == s.ctx.(index := s.ctx.index + 1) || c == EMPTY_CTX))
  {
    hide SigningDigest;
    assert Pad(b.path)[..|b.path|] == b.path;
  }

  lemma EmptyCtxIsValid(pki: Pki)
    ensures ValidCtx(EMPTY_CTX, pki)
  {
  }

  lemma AdvanceKeepsCtx(c: Ctx, pki: Pki)
    requires ValidCtx(c, pki) && c.index < |c.actions|
    ensures ValidCtx(c.(index := c.index + 1), pki)
  {
    hide ValidList, SignedByKey;
  }

  /** sign_action under an exchange keeps the invariant, once communication is open. */
  lemma SignActionKeeps(env: Env, s: State, trace: seq<Output>, b: Bundle, screen: Screen, luck: Luck, t: State)
    requires ValidCtx(s.ctx, env.pki) && ValidState(s.chunk) && AllJustified(env, trace)
    requires UnderWay(env, s, trace, b, screen)
    requires var c := SignAction(env, s.ctx, s.signing, luck).0;
             (t.ctx == c || t.ctx == EMPTY_CTX)
             && t.comm && !t.reviewing && t.signing == s.signing && t.chunk == s.chunk
    ensures Inv(env, t, trace + SignAction(env, s.ctx, s.signing, luck).1)
  {
    hide SignAction, ValidCtx, Honest, Exchange, Justifies, AllJustified, MessageAt;
    var (c, outs, ret) := SignAction(env, s.ctx, s.signing, luck);
    var n := s.ctx.index;
    SignActionCases(env, s, b, luck);
    EmptyCtxIsValid(env.pki);
    if outs == [] {
      assert trace + outs == trace;
    } else {
      AdvanceKeepsCtx(s.ctx, env.pki);
      JustifiesBound(env, trace, b, screen, n);
      OneMoreSigned(env, trace, b, screen, n);
      assert Justified(env, trace + outs, |trace| + 1);
      TraceGrows(env, trace, outs);
    }
    if t.ctx.index > 0 {
      assert UnderWay(env, t, trace + outs, b, screen);
    }
  }

  lemma JustifiesBound(env: Env, trace: seq<Output>, b: Bundle, screen: Screen, n: nat)
    requires Justifies(env, trace, |trace|, b, screen, n)
    ensures n <= |b.actions|
  {
  }

  lemma ApprovalStartsExchange(env: Env, trace: seq<Output>, b: Bundle, screen: Screen)
    requires Honest(env, b, screen) && Ends(trace, |trace|, [Opened(b, screen)])
    ensures Justifies(env, trace + [Approved], |trace| + 1, b, screen, 0)
  {
    hide Honest, Ends;
    EndsSnoc(trace, [Opened(b, screen)], [Approved]);
    assert [Opened(b, screen)] + [Approved] == Exchange(env, b, screen, 0);
  }

  lemma ReviewChoiceKeeps(env: Env, s: State, trace: seq<Output>, approve: bool, luck: Luck)
    requires Inv(env, s, trace) && s.reviewing
    ensures var (t, outs) := ReviewChoice(env, s, approve, luck);
            Inv(env, t, trace + outs)
  {
    hide SignAction, ValidCtx, Honest, AllJustified, Justifies, Ends;
    var (t, outs) := ReviewChoice(env, s, approve, luck);
    EmptyCtxIsValid(env.pki);
    if approve {
      var b, screen :| PendingReview(env, s, trace, b, screen);
      ApprovalStartsExchange(env, trace, b, screen);
      var now := trace + [Approved];
      TraceGrows(env, trace, [Approved]);
      assert UnderWay(env, s, now, b, screen);
      SignActionKeeps(env, s, now, b, screen, luck, t);
      assert trace + outs == now + SignAction(env, s.ctx, s.signing, luck).1;
    } else {
      TraceGrows(env, trace, outs);
    }
  }

  lemma OpeningIsHonest(env: Env, s: State, trace: seq<Output>, path: Path, screen: Screen, t: State)
    requires Inv(env, s, trace) && s.ctx.index == 0 && s.ctx.metadata.Some? && s.ctx.actions != []
    requires FullScreen(s.ctx.metadata.value, s.ctx.actions) == Some(screen)
    requires t == s.(signing := Signing(Pad(path), |path|, env.derive(path)), comm := false, reviewing := true)
    ensures Inv(env, t, trace + [Opened(Bundle(s.ctx.actions, s.ctx.metadata.value, path, env.derive(path)), screen)])
  {
    hide ValidList, SignedByKey, AllJustified, Justifies, FullScreen;
    var b := Bundle(s.ctx.actions, s.ctx.metadata.value, path, env.derive(path));
    var now := trace + [Opened(b, screen)];
    TraceGrows(env, trace, [Opened(b, screen)]);
    assert PendingReview(env, t, now, b, screen);
  }

  lemma SignCommandKeeps(env: Env, s: State, trace: seq<Output>, data: seq<byte>, luck: Luck)
    requires Inv(env, s, trace) && s.comm
    ensures var (t, outs, ret) := SignCommand(env, s, data, luck);
            Inv(env, t, trace + outs)
  {
    hide SignAction, ValidCtx, Honest, AllJustified, Justifies, FullScreen, ReadPath, Pad;
    var (t, outs, ret) := SignCommand(env, s, data, luck);
    InvParts(env, s, trace);
    if outs != [] && s.ctx.index == 0 {
      OpeningIsHonest(env, s, trace, ReadPath(data).value, outs[0].screen, t);
    } else if outs != [] || (s.ctx.index > 0 && t != s) {
      var b, screen :| UnderWay(env, s, trace, b, screen);
      SignActionKeeps(env, s, trace, b, screen, luck, t);
    } else {
      QuietStep(env, s, trace, t);
    }
  }

  lemma StepKeeps(env: Env, s: State, trace: seq<Output>, e: Event)
    requires Inv(env, s, trace)
    ensures var (t, outs) := Step(env, s, e);
            Inv(env, t, trace + outs)
  {
    hide Inv, ChunkCommand, SignCommand, ReviewChoice;
    InvParts(env, s, trace);
    var (t, outs) := Step(env, s, e);
    assert trace + [] == trace;
    if s.alive {
      match e
      case Choice(approve, luck) =>
        if s.reviewing { ReviewChoiceKeeps(env, s, trace, approve, luck); }
      case Chunk(handler, first, data, luck) =>
        if s.comm {
          ChunkCommandKeeps(env, s, trace, handler, first, data, luck);
          AliveIsFree(env, ChunkCommand(env, s, handler, first, data, luck).0, trace + outs, t);
        }
      case Sign(data, luck) =>
        if s.comm {
          SignCommandKeeps(env, s, trace, data, luck);
          AliveIsFree(env, SignCommand(env, s, data, luck).0, trace + outs, t);
        }
    }
  }

  lemma AliveIsFree(env: Env, s: State, trace: seq<Output>, t: State)
    requires Inv(env, s, trace) && t == s.(alive := t.alive)
    ensures Inv(env, t, trace)
  {
    hide ValidCtx, AllJustified, Honest, Justifies, Ends;
    if s.reviewing {
      var b, screen :| PendingReview(env, s, trace, b, screen);
      assert PendingReview(env, t, trace, b, screen);
    }
    if s.ctx.index > 0 {
      var b, screen :| UnderWay(env, s, trace, b, screen);
      assert UnderWay(env, t, trace, b, screen);
    }
  }

  lemma {:induction false} RunFromKeeps(env: Env, s: State, trace: seq<Output>, events: seq<Event>)
    requires Inv(env, s, trace)
    ensures var (t, outs) := RunFrom(env, s, events);
            Inv(env, t, trace + outs)
    decreases |events|
  {
    hide Inv, Step;
    if events == [] {
      assert trace + [] == trace;
    } else {
      var n := |events| - 1;
      RunFromKeeps(env, s, trace, events[..n]);
      var (t, outs) := RunFrom(env, s, events[..n]);
      StepKeeps(env, t, trace + outs, events[n]);
      var (u, more) := Step(env, t, events[n]);
      assert trace + (outs + more) == (trace + outs) + more;
    }
  }

  lemma InitialInv(env: Env)
    ensures Inv(env, INITIAL, [])
  {
    hide ValidCtx;
    EmptyCtxIsValid(env.pki);
  }

  lemma RunKeeps(env: Env, events: seq<Event>)
    ensures Inv(env, Run(env, events).0, Run(env, events).1)
  {
    hide Inv, RunFrom;
    InitialInv(env);
    RunFromKeeps(env, INITIAL, [], events);
    assert [] + Run(env, events).1 == Run(env, events).1;
  }
}
