/** What holds in every state a run can reach, and that runs of an honest client and user come to an end. */
module SessionRuns {
  import opened Bytes
  import opened Model
  import opened Eip712
  import opened MetadataParser
  import opened ActionParser
  import opened Chunks
  import opened Review
  import opened ReviewProofs
  import opened Session
  import opened SessionProofs

  // ---------------------------------------------------------------- reachable states

  /**
   In every run: the index never passes the count, at most four actions are stored, there are none without metadata,
   all their assets are the metadata's, and each is what looking up its type finds.
   */
  lemma ContextInEveryRun(env: Env, events: seq<Event>)
    ensures var c := Run(env, events).0.ctx;
            c.index <= |c.actions| <= 4
            && (c.actions != [] ==> c.metadata.Some?)
            && (c.metadata.Some? ==> SignedByKey(c.metadata.value, env.pki))
            && (c.metadata.Some? && c.metadata.value.opType != OpOrder ==> |c.actions| <= 1)
            && forall i :: 0 <= i < |c.actions| ==>
                 AssetsAre(c.actions[i].body, c.metadata.value.assetId) && NonEmptyBatch(c.actions[i].body)
                 && TypeOf(c.actions[i].body) in AllowedTypes(c.metadata.value.opType)
                 && Lookup(c.actions, TypeOf(c.actions[i].body)) == Some(c.actions[i])
  {
    hide Run, Inv, Lookup, AssetsAre, NonEmptyBatch, AllowedTypes, SignedByKey, Session.Compatible;
    RunKeeps(env, events);
    var c := Run(env, events).0.ctx;
    InvParts(env, Run(env, events).0, Run(env, events).1);
    if c.metadata.Some? {
      ListIsShort(c.metadata.value, c.actions);
      forall i | 0 <= i < |c.actions|
        ensures AssetsAre(c.actions[i].body, c.metadata.value.assetId) && NonEmptyBatch(c.actions[i].body)
        ensures TypeOf(c.actions[i].body) in AllowedTypes(c.metadata.value.opType)
        ensures Lookup(c.actions, TypeOf(c.actions[i].body)) == Some(c.actions[i])
      {
        StoredIsConsistent(c.actions[i], c.metadata.value);
        LookupIsWalk(c.actions, i);
      }
    }
  }

  /**
   The review of b is the current one: it is the last output while it is pending, and once signing is under way the
   trace ends with it, its approval and one signature for each step of the index. The state holds b.
   */
  ghost predicate IsCurrentReview(env: Env, s: State, trace: seq<Output>, b: Bundle, screen: Screen) {
    Holds(s, b) && b.wallet == env.derive(b.path) && s.ctx.index <= |b.actions|
    && Ends(trace, |trace|, if s.reviewing then [Opened(b, screen)] else Exchange(env, b, screen, s.ctx.index))
  }

  /** While a review is pending or signing is under way, the stored path, padded, and address are those of that review. */
  lemma OnePathPerReview(env: Env, events: seq<Event>)
    requires var s := Run(env, events).0; s.reviewing || s.ctx.index > 0
    ensures var (s, trace) := Run(env, events);
            exists b, screen :: IsCurrentReview(env, s, trace, b, screen)
  {
    hide Run, AllJustified, ValidCtx, UnderWay, PendingReview, IsCurrentReview;
    RunKeeps(env, events);
    var (s, trace) := Run(env, events);
    if s.reviewing {
      var b, screen :| PendingReview(env, s, trace, b, screen);
      PendingIsCurrent(env, s, trace, b, screen);
    } else {
      var b, screen :| UnderWay(env, s, trace, b, screen);
      UnderWayIsCurrent(env, s, trace, b, screen);
    }
  }

  lemma PendingIsCurrent(env: Env, s: State, trace: seq<Output>, b: Bundle, screen: Screen)
    requires PendingReview(env, s, trace, b, screen) && s.reviewing
    ensures IsCurrentReview(env, s, trace, b, screen)
  {
    hide ValidList, SignedByKey, FullScreen, Exchange, Ends;
  }

  lemma UnderWayIsCurrent(env: Env, s: State, trace: seq<Output>, b: Bundle, screen: Screen)
    requires UnderWay(env, s, trace, b, screen) && !s.reviewing
    ensures IsCurrentReview(env, s, trace, b, screen)
  {
    hide ValidList, SignedByKey, FullScreen, Exchange, Ends;
  }

  /** Once signing is under way, a command with any other path is refused and changes nothing. */
  lemma OtherPathsAreRefused(env: Env, s: State, b: Bundle, data: seq<byte>, luck: Luck)
    requires s.ctx.index > 0 && Holds(s, b) && !(PrintPath(b.path) <= data)
    ensures SignCommand(env, s, data, luck) == (s, [], luck.send)
  {
    ReadPathExact(data, b.path);
    hide SignAction, ReadPath, PrintPath, Pad;
    if ReadPath(data).Some? {
      PaddedComparison(ReadPath(data).value, b.path);
    }
  }

  /**
   Metadata change only together with emptying the list. New ones are exactly what a complete payload for the
   metadata handler parses to, signed, outside of signing; otherwise the whole context is emptied, by a choice, a
   signing command, or such a payload during signing. A chunk command changes the context in no other way than
   through a complete payload that parses.
   */
  lemma MetadataOnlyWithEmptyList(env: Env, s: State, e: Event)
    ensures var t := Step(env, s, e).0;
            t.ctx.metadata != s.ctx.metadata ==>
              t.ctx.actions == [] && t.ctx.index == 0 &&
              if e.Chunk? then
                var o := Accept(s.chunk, e.first, e.data, e.handler);
                o.Complete? && e.handler == MetadataHandler && ParseMetadata(o.payload, env.pki).Some?
                && t.ctx.metadata == if s.ctx.index > 0 then None else ParseMetadata(o.payload, env.pki)
              else t.ctx == EMPTY_CTX
    ensures var t := Step(env, s, e).0;
            e.Chunk? && t.ctx != s.ctx ==>
              var o := Accept(s.chunk, e.first, e.data, e.handler);
              o.Complete? &&
              if e.handler == MetadataHandler then ParseMetadata(o.payload, env.pki).Some?
              else s.ctx.metadata.Some? && ParseAction(o.payload, s.ctx.metadata.value.assetId).Some? && s.ctx.index == 0
  {
    hide ParseMetadata, ParseAction, Accept, FullScreen, ReadPath, SigningDigest, Pad, Session.Compatible;
  }

  /**
   The list is frozen by the first signature, not by the approval: after an approved review it is still there and
   still open exactly when nothing could be signed and the refusal went out. The next signing command then starts
   over with a new review, so no later signature relies on this approval.
   */
  lemma FrozenBySignature(env: Env, events: seq<Event>, luck: Luck)
    requires Run(env, events).0.reviewing
    ensures var s := Run(env, events).0;
            var (t, outs) := ReviewChoice(env, s, true, luck);
            && (t.ctx == s.ctx <==> (!luck.hashes || !luck.signs) && luck.send != -1)
            && (t.ctx == s.ctx ==> outs == [Approved] && t.ctx.index == 0 && t.comm)
            && (t.ctx != s.ctx ==> t.ctx.index > 0 || t.ctx == EMPTY_CTX)
  {
    hide Run, AllJustified, ValidCtx, FullScreen, Ends, SigningDigest;
    RunKeeps(env, events);
    var (s, trace) := Run(env, events);
    var b, screen :| PendingReview(env, s, trace, b, screen);
  }

  // ---------------------------------------------------------------- composing runs

  lemma {:induction false} RunSplit(env: Env, s: State, a: seq<Event>, b: seq<Event>)
    ensures var (t, outs) := RunFrom(env, s, a);
            var (u, more) := RunFrom(env, t, b);
            RunFrom(env, s, a + b) == (u, outs + more)
    decreases |b|
  {
    hide Step;
    if b == [] {
      assert a + b == a;
      assert RunFrom(env, s, a).1 + [] == RunFrom(env, s, a).1;
    } else {
      var n := |b| - 1;
      RunSplit(env, s, a, b[..n]);
      assert (a + b)[..|a| + n] == a + b[..n] && (a + b)[|a| + n] == b[n];
      var (t, outs) := RunFrom(env, s, a);
      var (u, more) := RunFrom(env, t, b[..n]);
      var (v, last) := Step(env, u, b[n]);
      assert (outs + more) + last == outs + (more + last);
    }
  }

  /** After events without output, the run goes on as if from the state they lead to. */
  lemma QuietSplit(env: Env, s: State, a: seq<Event>, b: seq<Event>, t: State)
    requires RunFrom(env, s, a) == (t, [])
    ensures RunFrom(env, s, a + b) == RunFrom(env, t, b)
  {
    hide RunFrom;
    RunSplit(env, s, a, b);
    assert [] + RunFrom(env, t, b).1 == RunFrom(env, t, b).1;
  }

  // ---------------------------------------------------------------- progress

  predicate Works(luck: Luck) { luck.derives && luck.hashes && luck.signs && luck.send >= 0 }

  /** A signing command with a printed path, in a moment when everything works. */
  predicate SignsWell(e: Event, path: Path) {
    e.Sign? && PrintPath(path) <= e.data && Works(e.luck)
  }

  /** The state after k signatures of an approved bundle. */
  function AfterSignatures(s: State, k: nat): State {
    s.(comm := true, reviewing := false, ctx := if k == |s.ctx.actions| then EMPTY_CTX else s.ctx.(index := k))
  }

  lemma SignNext(env: Env, s: State, b: Bundle, k: nat, luck: Luck)
    requires Holds(s, b) && k < |b.actions| && Works(luck)
    ensures var (c, outs, ret) := SignAction(env, s.ctx.(index := k), s.signing, luck);
            c == AfterSignatures(s, k + 1).ctx && outs == [Signed(MessageAt(env, b, k))] && ret == luck.send
    ensures MessageAt(env, b, k).remaining == |b.actions| - (k + 1)
  {
    hide SigningDigest;
    assert Pad(b.path)[..|b.path|] == b.path;
  }

  /**
   Progress: the approval of a pending review and one further signing command for each remaining action release
   every signature in order, counting down to 0, and end in the empty context.
   */
  lemma {:induction false} SigningProgress(env: Env, s: State, b: Bundle, luck: Luck, signs: seq<Event>)
    requires s.alive && s.reviewing && s.ctx.index == 0 && Holds(s, b) && b.actions != [] && Works(luck)
    requires |signs| < |b.actions| && forall i :: 0 <= i < |signs| ==> SignsWell(signs[i], b.path)
    ensures RunFrom(env, s, [Choice(true, luck)] + signs)
            == (AfterSignatures(s, |signs| + 1), [Approved] + Released(env, b, |signs| + 1))
    decreases |signs|
  {
    hide SignAction, MessageAt, ReadPath, PrintPath, RunFrom, Pad;
    var events := [Choice(true, luck)] + signs;
    if signs == [] {
      SignNext(env, s, b, 0, luck);
      assert s.ctx.(index := 0) == s.ctx;
      RunOne(env, s, events[0]);
      assert events == [events[0]] && Released(env, b, 1) == [Signed(MessageAt(env, b, 0))];
    } else {
      var k := |signs| - 1;
      SigningProgress(env, s, b, luck, signs[..k]);
      assert events == ([Choice(true, luck)] + signs[..k]) + [signs[k]];
      RunSplit(env, s, [Choice(true, luck)] + signs[..k], [signs[k]]);
      var t := AfterSignatures(s, k + 1);
      ReadPathExact(signs[k].data, b.path);
      RunOne(env, t, signs[k]);
      SignNext(env, s, b, k + 1, signs[k].luck);
      PaddedComparison(b.path, b.path);
      assert [Approved] + Released(env, b, k + 1) + [Signed(MessageAt(env, b, k + 1))]
             == [Approved] + Released(env, b, k + 2);
    }
  }

  lemma RunOne(env: Env, s: State, e: Event)
    ensures RunFrom(env, s, [e]) == Step(env, s, e)
  {
    hide Step;
    assert [e][..0] == [];
    assert [] + Step(env, s, e).1 == Step(env, s, e).1;
  }

  // ---------------------------------------------------------------- a whole client session

  /** events are the commands that send chunks to a handler, the first one marked as such, every answer sent. */
  ghost predicate Sends(events: seq<Event>, handler: Handler, chunks: seq<seq<byte>>, first: bool) {
    |events| == |chunks| && forall i :: 0 <= i < |events| ==>
      events[i].Chunk? && events[i].handler == handler && events[i].first == (first && i == 0)
      && events[i].data == chunks[i] && events[i].luck.send >= 0
  }

  /** A delivered payload has exactly the effect of its handler, and outputs nothing. */
  lemma {:induction false} ChunkRun(env: Env, s: State, events: seq<Event>, handler: Handler, chunks: seq<seq<byte>>,
                                    first: bool, payload: seq<byte>)
    requires s.alive && s.comm && Sends(events, handler, chunks, first)
    requires chunks != [] && DeliveredOnce(Deliver(s.chunk, first, chunks, handler), payload)
    ensures RunFrom(env, s, events) == (s.(chunk := Idle, ctx := Provide(env, s.ctx, handler, payload)), [])
    decreases |chunks|
  {
    hide Accept, Provide, RunFrom, Deliver, DeliveredOnce;
    DeliveredStep(s.chunk, first, chunks, handler, payload);
    var e, rest := events[0], events[1..];
    var o := Accept(s.chunk, first, chunks[0], handler);
    AcceptNeedsData(s.chunk, first, handler);
    RunOne(env, s, e);
    assert events == [e] + rest;
    if |chunks| == 1 {
      assert events == [e];
    } else {
      var t := s.(chunk := o.state);
      QuietSplit(env, s, [e], rest, t);
      ChunkRun(env, t, rest, handler, chunks[1..], false, payload);
    }
  }

  lemma AcceptNeedsData(s: ChunkState, first: bool, handler: Handler)
    ensures Accept(s, first, [], handler) == Refused
  {
  }

  /** What a client sends for one action. */
  ghost predicate SendsAction(events: seq<Event>, a: Action) {
    Sends(events, ActionHandler, ClientChunks(PrintAction(a)), true)
  }

  ghost predicate SendsMetadata(events: seq<Event>, m: Metadata, signature: seq<byte>)
    requires |signature| <= 72
  {
    MetadataSize(m, signature);
    Sends(events, MetadataHandler, ClientChunks(PrintMetadata(m, signature)), true)
  }

  /** What may be sent next: its assets fit, its list is not empty, its type is allowed and new, and MODIFY takes one. */
  ghost predicate CanFollow(m: Metadata, actions: seq<Action>, a: Action) {
    AssetsAre(a.body, m.assetId) && NonEmptyBatch(a.body)
    && TypeOf(a.body) in AllowedTypes(m.opType) && !HasType(actions, TypeOf(a.body))
    && (m.opType.OpModify? ==> actions == [])
  }

  ghost predicate Pushable(m: Metadata, actions: seq<Action>) {
    forall i :: 0 <= i < |actions| ==> CanFollow(m, actions[..i], actions[i])
  }

  lemma PushableIsShort(m: Metadata, actions: seq<Action>)
    requires Pushable(m, actions)
    ensures |actions| <= 4
  {
    hide AssetsAre, NonEmptyBatch;
    assert DistinctTypes(actions) by {
      forall i, j | 0 <= i < j < |actions| ensures TypeOf(actions[i].body) != TypeOf(actions[j].body) {
        assert CanFollow(m, actions[..j], actions[j]);
        assert actions[..j][i] == actions[i];
      }
    }
    assert TypesWithin(actions, AllowedTypes(m.opType)) by {
      forall i | 0 <= i < |actions| ensures TypeOf(actions[i].body) in AllowedTypes(m.opType) {
        assert CanFollow(m, actions[..i], actions[i]);
      }
    }
    DistinctFitInSet(actions, AllowedTypes(m.opType));
    AllowedSizes(m.opType);
  }

  /** A client's action reaches the context: printed, split, sent, reassembled, parsed, checked and stored. */
  lemma ActionArrives(env: Env, s: State, m: Metadata, a: Action, events: seq<Event>)
    requires s.alive && s.comm && s.chunk == Idle && s.ctx.metadata == Some(m) && s.ctx.index == 0
    requires SendsAction(events, a) && CanFollow(m, s.ctx.actions, a) && |s.ctx.actions| < MAX_ACTION_COUNT
    ensures RunFrom(env, s, events) == (s.(ctx := s.ctx.(actions := s.ctx.actions + [a])), [])
  {
    CompatibleExact(TypeOf(a.body), m.opType, s.ctx.actions);
    hide ParseAction, PrintAction, AssetsAre, NonEmptyBatch, Compatible, AllowedTypes, DeliveredOnce, Deliver,
         ClientChunks, RunFrom;
    var payload := PrintAction(a);
    ClientTransport(ActionHandler, payload);
    ClientSendsSomething(payload);
    ActionPrintParse(a, m.assetId);
    ChunkRun(env, s, events, ActionHandler, ClientChunks(payload), true, payload);
  }

  lemma ClientSendsSomething(payload: seq<byte>)
    requires 1 <= |payload| <= PAYLOAD_BUFFER_SIZE
    ensures ClientChunks(payload) != []
  {
  }

  lemma {:induction false} ActionsArrive(env: Env, s: State, m: Metadata, actions: seq<Action>, sends: seq<seq<Event>>)
    requires s.alive && s.comm && s.chunk == Idle && s.ctx == Ctx(Some(m), [], 0)
    requires Pushable(m, actions) && |sends| == |actions|
    requires forall i :: 0 <= i < |actions| ==> SendsAction(sends[i], actions[i])
    ensures RunFrom(env, s, Join(sends)) == (s.(ctx := Ctx(Some(m), actions, 0)), [])
    decreases |actions|
  {
    hide SendsAction, CanFollow, RunFrom;
    if actions == [] {
      EmptyRun(env, s);
    } else {
      var n := |actions| - 1;
      forall i | 0 <= i < n ensures CanFollow(m, actions[..n][..i], actions[..n][i]) {
        assert actions[..n][..i] == actions[..i];
      }
      ActionsArrive(env, s, m, actions[..n], sends[..n]);
      PushableIsShort(m, actions);
      var t := s.(ctx := Ctx(Some(m), actions[..n], 0));
      JoinSnoc(sends[..n], sends[n]);
      assert sends[..n] + [sends[n]] == sends;
      QuietSplit(env, s, Join(sends[..n]), sends[n], t);
      ActionArrives(env, t, m, actions[n], sends[n]);
      assert actions[..n] + [actions[n]] == actions;
    }
  }

  lemma EmptyRun(env: Env, s: State)
    ensures RunFrom(env, s, []) == (s, [])
  {
  }

  lemma MetadataArrive(env: Env, s: State, m: Metadata, signature: seq<byte>, events: seq<Event>)
    requires s.alive && s.comm && s.chunk == Idle && s.ctx.index == 0
    requires 70 <= |signature| <= 72 && env.pki(MetadataBytes(m), signature) && SendsMetadata(events, m, signature)
    ensures RunFrom(env, s, events) == (s.(ctx := Ctx(Some(m), [], 0)), [])
  {
    hide ParseMetadata, PrintMetadata, MetadataBytes, DeliveredOnce, Deliver, ClientChunks, RunFrom;
    MetadataSize(m, signature);
    var payload := PrintMetadata(m, signature);
    ClientTransport(MetadataHandler, payload);
    ClientSendsSomething(payload);
    MetadataPrintParse(m, signature, env.pki);
    ChunkRun(env, s, events, MetadataHandler, ClientChunks(payload), true, payload);
  }

  lemma ReviewOpens(env: Env, s: State, b: Bundle, screen: Screen, e: Event)
    requires s.alive && s.comm && s.ctx == Ctx(Some(b.metadata), b.actions, 0) && b.actions != []
    requires FullScreen(b.metadata, b.actions) == Some(screen) && b.wallet == env.derive(b.path) && SignsWell(e, b.path)
    ensures var t := s.(comm := false, reviewing := true, signing := Signing(Pad(b.path), |b.path|, b.wallet));
            RunFrom(env, s, [e]) == (t, [Opened(b, screen)]) && Holds(t, b)
  {
    hide FullScreen, ReadPath, PrintPath, Pad, RunFrom;
    ReadPathExact(e.data, b.path);
    RunOne(env, s, e);
  }

  /**
   A whole session of an honest client, over its own encoding and transport: signed metadata, any actions that may
   follow each other, one signing command, the user's approval, and one more signing command for each further action.
   The device shows the review of exactly these actions, releases their signatures in order, and forgets everything.
   */
  lemma HonestSession(env: Env, s: State, b: Bundle, screen: Screen, signature: seq<byte>, metadata: seq<Event>,
                      sends: seq<seq<Event>>, review: Event, luck: Luck, signs: seq<Event>)
    requires s.alive && s.comm && !s.reviewing && s.chunk == Idle && s.ctx.index == 0
    requires 70 <= |signature| <= 72 && env.pki(MetadataBytes(b.metadata), signature)
    requires SendsMetadata(metadata, b.metadata, signature)
    requires Pushable(b.metadata, b.actions) && b.actions != [] && |sends| == |b.actions|
    requires forall i :: 0 <= i < |sends| ==> SendsAction(sends[i], b.actions[i])
    requires FullScreen(b.metadata, b.actions) == Some(screen) && b.wallet == env.derive(b.path)
    requires SignsWell(review, b.path) && Works(luck)
    requires |signs| == |b.actions| - 1 && forall i :: 0 <= i < |signs| ==> SignsWell(signs[i], b.path)
    ensures var (t, outs) := RunFrom(env, s, metadata + (Join(sends) + ([review] + ([Choice(true, luck)] + signs))));
            outs == Exchange(env, b, screen, |b.actions|) && t.ctx == EMPTY_CTX && t.comm && !t.reviewing && t.alive
  {
    hide RunFrom, SendsMetadata, SendsAction, Pushable, FullScreen, SignsWell, MetadataBytes, Pad, MessageAt;
    MetadataArrive(env, s, b.metadata, signature, metadata);
    var s1 := s.(ctx := Ctx(Some(b.metadata), [], 0));
    ActionsArrive(env, s1, b.metadata, b.actions, sends);
    var s2 := s.(ctx := Ctx(Some(b.metadata), b.actions, 0));
    ReviewOpens(env, s2, b, screen, review);
    var s3 := s2.(comm := false, reviewing := true, signing := Signing(Pad(b.path), |b.path|, b.wallet));
    SigningProgress(env, s3, b, luck, signs);
    var approved := [Choice(true, luck)] + signs;
    RunSplit(env, s2, [review], approved);
    QuietSplit(env, s1, Join(sends), [review] + approved, s2);
    QuietSplit(env, s, metadata, Join(sends) + ([review] + approved), s1);
    assert [Opened(b, screen)] + ([Approved] + Released(env, b, |b.actions|))
           == [Opened(b, screen), Approved] + Released(env, b, |b.actions|);
  }

  // ---------------------------------------------------------------- an approval does not freeze the list

  /** An approval under which hashing fails leaves the list open: the next action a client sends is still appended. */
  lemma ApprovalDoesNotFreeze(env: Env, s: State, m: Metadata, a: Action, luck: Luck, sends: seq<Event>)
    requires s.alive && s.reviewing && s.chunk == Idle && s.ctx.index == 0 && s.ctx.metadata == Some(m)
    requires !luck.hashes && luck.send >= 0
    requires SendsAction(sends, a) && CanFollow(m, s.ctx.actions, a) && |s.ctx.actions| < MAX_ACTION_COUNT
    ensures RunFrom(env, s, [Choice(true, luck)] + sends)
            == (s.(comm := true, reviewing := false, ctx := s.ctx.(actions := s.ctx.actions + [a])), [Approved])
  {
    hide RunFrom, SendsAction, CanFollow;
    var t := s.(comm := true, reviewing := false);
    RunOne(env, s, Choice(true, luck));
    assert [Approved] + [] == [Approved];
    RunSplit(env, s, [Choice(true, luck)], sends);
    ActionArrives(env, t, m, a, sends);
  }

  /** The same from a fresh device: reviewed and approved, and yet the list grows afterwards. */
  lemma ApprovedListGrows(env: Env, b: Bundle, screen: Screen, signature: seq<byte>, metadata: seq<Event>,
                          sends: seq<seq<Event>>, review: Event, luck: Luck, a: Action, more: seq<Event>)
    requires 70 <= |signature| <= 72 && env.pki(MetadataBytes(b.metadata), signature)
    requires SendsMetadata(metadata, b.metadata, signature)
    requires Pushable(b.metadata, b.actions) && b.actions != [] && |sends| == |b.actions|
    requires forall i :: 0 <= i < |sends| ==> SendsAction(sends[i], b.actions[i])
    requires FullScreen(b.metadata, b.actions) == Some(screen) && b.wallet == env.derive(b.path)
    requires SignsWell(review, b.path) && !luck.hashes && luck.send >= 0
    requires CanFollow(b.metadata, b.actions, a) && SendsAction(more, a)
    ensures var (t, outs) := Run(env, metadata + (Join(sends) + ([review] + ([Choice(true, luck)] + more))));
            outs == [Opened(b, screen), Approved] && t.ctx == Ctx(Some(b.metadata), b.actions + [a], 0)
  {
    hide RunFrom, SendsMetadata, SendsAction, Pushable, CanFollow, FullScreen, SignsWell, MetadataBytes, Pad;
    var s := INITIAL;
    MetadataArrive(env, s, b.metadata, signature, metadata);
    var s1 := s.(ctx := Ctx(Some(b.metadata), [], 0));
    ActionsArrive(env, s1, b.metadata, b.actions, sends);
    var s2 := s.(ctx := Ctx(Some(b.metadata), b.actions, 0));
    ReviewOpens(env, s2, b, screen, review);
    var s3 := s2.(comm := false, reviewing := true, signing := Signing(Pad(b.path), |b.path|, b.wallet));
    PushableIsShort(b.metadata, b.actions);
    ApprovalDoesNotFreeze(env, s3, b.metadata, a, luck, more);
    var approved := [Choice(true, luck)] + more;
    RunSplit(env, s2, [review], approved);
    QuietSplit(env, s1, Join(sends), [review] + approved, s2);
    QuietSplit(env, s, metadata, Join(sends) + ([review] + approved), s1);
    assert [Opened(b, screen)] + [Approved] == [Opened(b, screen), Approved];
  }

  function ChunkEvents(handler: Handler, chunks: seq<seq<byte>>, luck: Luck): seq<Event> {
    seq(|chunks|, i requires 0 <= i < |chunks| => Chunk(handler, i == 0, chunks[i], luck))
  }

  /** A review of b was shown and approved, nothing was signed, and the list that can be signed now is a longer one. */
  ghost predicate GrowsAfterApproval(env: Env, events: seq<Event>, b: Bundle, screen: Screen, a: Action) {
    var (t, outs) := Run(env, events);
    outs == [Opened(b, screen), Approved] && t.ctx.actions == b.actions + [a]
  }

  const SOME_METADATA := Metadata(OpOrder, 0, [48], Mainnet, None, None, None)
  const SOME_ORDER := Action(BulkOrder([OrderRequest(0, true, [49], [49], false, Limit(Gtc), None)], Na, None), 0)
  const SOME_LEVERAGE := Action(UpdateLeverage(0, false, 1), 1)
  const SOME_ENV := Env(_ => Zeros(32), (_, _) => true, _ => Zeros(20), (_, _) => [])

  /** Such a run exists: an order is reviewed and approved, hashing fails, and a leverage change is added to it. */
  lemma SomeApprovedListGrows()
    ensures exists env, events, b, screen, a :: GrowsAfterApproval(env, events, b, screen, a)
  {
    hide Run, MetadataBytes, PrintMetadata, PrintAction, PrintPath, ClientChunks, FullScreen;
    var works := Luck(true, true, true, 0);
    var path: Path := [0];
    var b := Bundle([SOME_ORDER], SOME_METADATA, path, Zeros(20));
    var screen := SomeReview();
    var signature := Zeros(70);
    MetadataSize(SOME_METADATA, signature);
    var metadata := ChunkEvents(MetadataHandler, ClientChunks(PrintMetadata(SOME_METADATA, signature)), works);
    var order := ChunkEvents(ActionHandler, ClientChunks(PrintAction(SOME_ORDER)), works);
    var more := ChunkEvents(ActionHandler, ClientChunks(PrintAction(SOME_LEVERAGE)), works);
    var fails := works.(hashes := false);
    SomePushable();
    ApprovedListGrows(SOME_ENV, b, screen, signature, metadata, [order], Sign(PrintPath(path), works), fails,
                      SOME_LEVERAGE, more);
    var events := metadata + (Join([order]) + ([Sign(PrintPath(path), works)] + ([Choice(true, fails)] + more)));
    assert GrowsAfterApproval(SOME_ENV, events, b, screen, SOME_LEVERAGE);
  }

  lemma SomePushable()
    ensures Pushable(SOME_METADATA, [SOME_ORDER]) && CanFollow(SOME_METADATA, [SOME_ORDER], SOME_LEVERAGE)
  {
  }

  lemma SomeReview() returns (screen: Screen)
    ensures FullScreen(SOME_METADATA, [SOME_ORDER]) == Some(screen)
  {
    hide OrderScreen, First, Filter;
    LoneBracket(SOME_ORDER.body.orders[0], None);
    assert [SOME_ORDER][1..] == [];
    screen := FullScreen(SOME_METADATA, [SOME_ORDER]).value;
  }
}
