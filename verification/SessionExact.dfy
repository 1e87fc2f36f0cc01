/** What each command and choice does, exactly: accepted and refused inputs, forgotten lists, failed answers. */
module SessionExact {
  import opened Bytes
  import opened Model
  import opened Eip712
  import opened MetadataParser
  import opened ActionParser
  import opened Chunks
  import opened Review
  import opened Session
  import opened SessionProofs
  import opened SessionRuns

  // ---------------------------------------------------------------- which actions are accepted

  /** The action types, by their wire codes, that each operation accepts, by its own. */
  const ACCEPTED_CODES: set<(nat, nat)> :=
    {(0, 0), (0, 3), (0, 4), (0, 6), (1, 0), (1, 1), (2, 2), (4, 0), (5, 5), (6, 2), (7, 2), (8, 2)}

  lemma AllowedByCode(opCode: nat, typeCode: nat)
    requires OpTypeOf(opCode).Some? && ActionTypeOf(typeCode).Some?
    ensures ActionTypeOf(typeCode).value in AllowedTypes(OpTypeOf(opCode).value)
            <==> (opCode, typeCode) in ACCEPTED_CODES
  {
  }

  /** The codes that are read at all: eight operations, without number 3, and seven action types. */
  lemma CodesRead(n: nat)
    ensures OpTypeOf(n).Some? <==> n <= 8 && n != 3
    ensures ActionTypeOf(n).Some? <==> n <= 6
  {
  }

  /**
   In every run, a payload for SET_ACTION is stored exactly when metadata are there, it parses under their asset, no
   signature has been released yet, and its type is allowed, new and, for MODIFY, the only one. There is always room.
   */
  lemma SetActionInEveryRun(env: Env, events: seq<Event>, payload: seq<byte>)
    ensures var c := Run(env, events).0.ctx;
            SetAction(c, payload) ==
            if c.metadata.None? then c else
            match ParseAction(payload, c.metadata.value.assetId)
            case None => c
            case Some(a) =>
              if c.index == 0 && TypeOf(a.body) in AllowedTypes(c.metadata.value.opType)
                 && !HasType(c.actions, TypeOf(a.body)) && (c.metadata.value.opType.OpModify? ==> c.actions == [])
              then Ctx(c.metadata, c.actions + [a], 0) else c
  {
    hide Run, Inv, ParseAction, Compatible, AllowedTypes, TypeOf;
    RunKeeps(env, events);
    var c := Run(env, events).0.ctx;
    InvParts(env, Run(env, events).0, Run(env, events).1);
    if c.metadata.Some? && ParseAction(payload, c.metadata.value.assetId).Some? {
      var m, a := c.metadata.value, ParseAction(payload, c.metadata.value.assetId).value;
      CompatibleExact(TypeOf(a.body), m.opType, c.actions);
      ListIsShort(m, c.actions);
      if m.opType.OpModify? { ModifyHoldsItsTypes(m, c.actions); }
    }
  }

  lemma ModifyHoldsItsTypes(m: Metadata, actions: seq<Action>)
    requires ValidList(m, actions) && m.opType.OpModify?
    ensures !HasType(actions, TBulkModify) && !HasType(actions, TBulkOrder) <==> actions == []
  {
    hide ParseAction;
    if actions != [] {
      assert Stored(actions[0], m);
      assert HasType(actions, TypeOf(actions[0].body));
    }
  }

  // ---------------------------------------------------------------- metadata

  /** The command completes a payload that parses to signed metadata. */
  predicate ProvidesMetadata(env: Env, s: State, e: Event) {
    s.alive && s.comm && e.Chunk? && e.handler == MetadataHandler
    && var o := Accept(s.chunk, e.first, e.data, e.handler);
       o.Complete? && ParseMetadata(o.payload, env.pki).Some?
  }

  /** Such a payload replaces the whole context, and during signing it empties it, the metadata included. */
  lemma MetadataReplaceOrReset(env: Env, s: State, e: Event)
    requires ProvidesMetadata(env, s, e)
    ensures var (t, outs) := Step(env, s, e);
            outs == [] && t.ctx == if s.ctx.index > 0 then Ctx(None, [], 0)
                                   else Ctx(ParseMetadata(Accept(s.chunk, e.first, e.data, e.handler).payload, env.pki), [], 0)
  {
    hide ParseMetadata;
    assert e.data != [];
  }

  // ---------------------------------------------------------------- rejection

  /** A rejection enables communication again and forgets everything. */
  lemma RejectionForgets(env: Env, s: State, luck: Luck)
    requires s.alive && s.reviewing
    ensures Step(env, s, Choice(false, luck))
            == (s.(comm := true, reviewing := false, ctx := Ctx(None, [], 0)), [Rejected])
  {
  }

  lemma StepOfEmpty(env: Env, s: State, e: Event)
    requires s.ctx == EMPTY_CTX && !s.reviewing && !ProvidesMetadata(env, s, e)
    ensures var (t, outs) := Step(env, s, e); t.ctx == EMPTY_CTX && !t.reviewing && outs == []
  {
    hide ParseMetadata, ParseAction, ReadPath, FullScreen, Accept;
  }

  /** From an empty context nothing is shown or released, and nothing stored, until metadata are provided. */
  lemma {:induction false} NothingWithoutMetadata(env: Env, s: State, events: seq<Event>)
    requires s.ctx == EMPTY_CTX && !s.reviewing
    requires forall i :: 0 <= i < |events| ==> !ProvidesMetadata(env, RunFrom(env, s, events[..i]).0, events[i])
    ensures var (t, outs) := RunFrom(env, s, events); t.ctx == EMPTY_CTX && !t.reviewing && outs == []
    decreases |events|
  {
    hide Step, ProvidesMetadata;
    if events != [] {
      var n := |events| - 1;
      forall i | 0 <= i < n ensures !ProvidesMetadata(env, RunFrom(env, s, events[..n][..i]).0, events[..n][i]) {
        assert events[..n][..i] == events[..i];
      }
      NothingWithoutMetadata(env, s, events[..n]);
      StepOfEmpty(env, RunFrom(env, s, events[..n]).0, events[n]);
    }
  }

  lemma OutputNeedsMetadata(env: Env, s: State, events: seq<Event>)
    requires s.ctx == EMPTY_CTX && !s.reviewing && RunFrom(env, s, events).1 != []
    ensures exists i :: 0 <= i < |events| && ProvidesMetadata(env, RunFrom(env, s, events[..i]).0, events[i])
  {
    hide RunFrom, ProvidesMetadata;
    if forall i :: 0 <= i < |events| ==> !ProvidesMetadata(env, RunFrom(env, s, events[..i]).0, events[i]) {
      NothingWithoutMetadata(env, s, events);
    }
  }

  lemma EmptyInv(env: Env, s: State)
    requires s.ctx == EMPTY_CTX && !s.reviewing && s.comm && ValidState(s.chunk)
    ensures Inv(env, s, [])
  {
    hide ValidCtx;
    EmptyCtxIsValid(env.pki);
  }

  /**
   After a rejection, in every run: a signature is released only after new metadata have been provided and a new
   review has been opened and approved, all after the rejection.
   */
  lemma NoSignatureAfterRejection(env: Env, before: seq<Event>, luck: Luck, after: seq<Event>, k: nat)
    requires var s := Run(env, before).0; s.alive && s.reviewing
    requires var t := Step(env, Run(env, before).0, Choice(false, luck)).0;
             k < |RunFrom(env, t, after).1| && RunFrom(env, t, after).1[k].Signed?
    ensures var t := Step(env, Run(env, before).0, Choice(false, luck)).0;
            && (exists i :: 0 <= i < |after| && ProvidesMetadata(env, RunFrom(env, t, after[..i]).0, after[i]))
            && Justified(env, RunFrom(env, t, after).1, k + 1)
  {
    hide Run, RunFrom, Step, ProvidesMetadata, Justified;
    RunKeeps(env, before);
    InvParts(env, Run(env, before).0, Run(env, before).1);
    var s := Run(env, before).0;
    var t := Step(env, s, Choice(false, luck)).0;
    RejectionForgets(env, s, luck);
    OutputNeedsMetadata(env, t, after);
    EmptyInv(env, t);
    RunFromKeeps(env, t, [], after);
    var outs := RunFrom(env, t, after).1;
    assert [] + outs == outs;
    InvParts(env, RunFrom(env, t, after).0, outs);
  }

  // ---------------------------------------------------------------- signing

  /** What is released: the action, the reviewed path, the signature of its digest by that path's key, and the rest. */
  lemma MessageWrittenOut(env: Env, b: Bundle, i: nat)
    requires i < |b.actions|
    ensures MessageAt(env, b, i)
            == Message(b.actions[i], b.path,
                       env.sign(b.path, SigningDigest(env.keccak, b.actions[i], b.metadata.network, b.wallet)),
                       |b.actions| - i - 1)
  {
    hide SigningDigest;
  }

  /**
   The first signing command, in every run: it opens a review exactly when it carries a path, actions are stored, the
   address can be derived, and the review accepts the list. The context stays as it is either way.
   */
  lemma OpeningExact(env: Env, events: seq<Event>, data: seq<byte>, luck: Luck)
    requires var s := Run(env, events).0; s.alive && s.comm && s.ctx.index == 0
    ensures var s := Run(env, events).0;
            var (t, outs) := Step(env, s, Sign(data, luck));
            t.ctx == s.ctx && t.chunk == s.chunk &&
            if s.ctx.metadata.Some? && s.ctx.actions != [] && ReadPath(data).Some? && luck.derives
               && FullScreen(s.ctx.metadata.value, s.ctx.actions).Some? then
              var path := ReadPath(data).value;
              outs == [Opened(Bundle(s.ctx.actions, s.ctx.metadata.value, path, env.derive(path)),
                              FullScreen(s.ctx.metadata.value, s.ctx.actions).value)]
              && t.reviewing && !t.comm && t.alive
            else outs == [] && !t.reviewing && t.comm && t.alive == (luck.send >= 0)
  {
    hide Run, Inv, ValidList, SignedByKey, AllJustified, ReadPath, FullScreen, Pad;
    RunKeeps(env, events);
    InvParts(env, Run(env, events).0, Run(env, events).1);
  }

  /**
   A later signing command, in every run: for the reviewed path, on working crypto and with actions left, it releases
   the next signature, steps on, and forgets everything after the last one that could be sent; in any other case it
   changes nothing.
   */
  lemma NextSignatureExact(env: Env, events: seq<Event>, data: seq<byte>, luck: Luck)
    requires var s := Run(env, events).0; s.alive && s.comm && s.ctx.index > 0
    ensures var (s, trace) := Run(env, events);
            exists b, screen :: UnderWay(env, s, trace, b, screen) && IsNextSignature(env, s, b, data, luck)
  {
    hide Run, ValidCtx, AllJustified, Justifies;
    RunKeeps(env, events);
    var (s, trace) := Run(env, events);
    InvParts(env, s, trace);
    var b, screen :| UnderWay(env, s, trace, b, screen);
    NextSignature(env, s, b, data, luck);
  }

  ghost predicate IsNextSignature(env: Env, s: State, b: Bundle, data: seq<byte>, luck: Luck) {
    var n := s.ctx.index;
    Step(env, s, Sign(data, luck)) ==
    if PrintPath(b.path) <= data && n < |b.actions| && luck.hashes && luck.signs then
      (s.(alive := luck.send >= 0,
          ctx := if luck.send >= 0 && n + 1 == |b.actions| then Ctx(None, [], 0) else s.ctx.(index := n + 1)),
       [Signed(MessageAt(env, b, n))])
    else (s.(alive := luck.send >= 0), [])
  }

  lemma NextSignature(env: Env, s: State, b: Bundle, data: seq<byte>, luck: Luck)
    requires s.alive && s.comm && s.ctx.index > 0 && Holds(s, b)
    ensures IsNextSignature(env, s, b, data, luck)
  {
    hide ReadPath, PrintPath, SigningDigest, Pad, FullScreen;
    PadKeepsPath(b.path);
    ReadPathExact(data, b.path);
    if ReadPath(data).Some? {
      PaddedComparison(ReadPath(data).value, b.path);
    }
  }

  /**
   An approval, in every run: on working crypto the first signature is released. A single action is then forgotten if
   its signature could be sent; a list goes on with its second. Nothing is kept after the answer -1.
   */
  lemma ApprovalExact(env: Env, events: seq<Event>, luck: Luck)
    requires var s := Run(env, events).0; s.alive && s.reviewing
    ensures var (s, trace) := Run(env, events);
            exists b, screen :: PendingReview(env, s, trace, b, screen) && IsApproval(env, s, b, luck)
  {
    hide Run, ValidCtx, AllJustified, Honest, Ends;
    RunKeeps(env, events);
    var (s, trace) := Run(env, events);
    var b, screen :| PendingReview(env, s, trace, b, screen);
    HonestList(env, b, screen);
    Approval(env, s, b, luck);
  }

  lemma HonestList(env: Env, b: Bundle, screen: Screen)
    requires Honest(env, b, screen)
    ensures b.actions != []
  {
    hide ValidList, SignedByKey, FullScreen;
  }

  ghost predicate IsApproval(env: Env, s: State, b: Bundle, luck: Luck)
    requires b.actions != []
  {
    var works := luck.hashes && luck.signs;
    Step(env, s, Choice(true, luck)) ==
    (s.(comm := true, reviewing := false,
        ctx := if luck.send == -1 then Ctx(None, [], 0)
               else if !works then s.ctx
               else if luck.send >= 0 && |b.actions| == 1 then Ctx(None, [], 0)
               else s.ctx.(index := 1)),
     [Approved] + if works then [Signed(MessageAt(env, b, 0))] else [])
  }

  lemma Approval(env: Env, s: State, b: Bundle, luck: Luck)
    requires s.alive && s.reviewing && s.ctx.index == 0 && Holds(s, b) && b.actions != []
    ensures IsApproval(env, s, b, luck)
  {
    hide SigningDigest, Pad;
    PadKeepsPath(b.path);
  }

  // ---------------------------------------------------------------- answers

  /**
   A choice never ends the application, a chunk command does exactly when its answer cannot be sent, and while a review
   keeps communication disabled no command does anything.
   */
  lemma AnswersAndGate(env: Env, s: State, e: Event)
    requires s.alive
    ensures e.Choice? ==> Step(env, s, e).0.alive
    ensures e.Chunk? && s.comm ==> (Step(env, s, e).0.alive <==> e.luck.send >= 0)
    ensures !e.Choice? && !s.comm ==> Step(env, s, e) == (s, [])
  {
    hide SignAction, Accept, Provide;
  }

  lemma EndedStep(env: Env, s: State, e: Event)
    requires !s.alive
    ensures Step(env, s, e) == (s, [])
  {
  }

  /** Once it has ended, nothing happens any more. */
  lemma {:induction false} EndedIsSilent(env: Env, s: State, events: seq<Event>)
    requires !s.alive
    ensures RunFrom(env, s, events) == (s, [])
    decreases |events|
  {
    hide RunFrom;
    if events == [] {
      SessionRuns.EmptyRun(env, s);
    } else {
      var n := |events| - 1;
      EndedIsSilent(env, s, events[..n]);
      EndedStep(env, s, events[n]);
      QuietSplit(env, s, events[..n], [events[n]], s);
      RunOne(env, s, events[n]);
      assert events == events[..n] + [events[n]];
    }
  }
}
