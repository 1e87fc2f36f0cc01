/** The hashing code: a running hash fed field by field, from the serialized action to the two EIP-712 hashes. */
module ActionHash {
  import opened Bytes
  import opened Model
  import opened Serializer
  import opened Decoder
  import opened SizeBound
  import opened Writer
  import opened Eip712

  /** A running Keccak hash. The crypto library either works throughout one request or fails at its first use. */
  class HashContext {
    const h: Keccak
    const works: bool
    var fed: seq<byte>

    /** cx_keccak_init_no_throw */
    constructor (h: Keccak, works: bool)
      ensures this.h == h && this.works == works && fed == []
    {
      this.h, this.works, fed := h, works, [];
    }

    /** cx_hash_update */
    method Update(data: seq<byte>) returns (ok: bool)
      modifies this
      ensures ok == works && (ok ==> fed == old(fed) + data)
    {
      if !works { return false; }
      fed := fed + data;
      return true;
    }

    /** cx_hash_final */
    method Final() returns (ok: bool, out: Hash)
      ensures ok == works && (ok ==> out == h(fed))
    {
      return works, h(fed);
    }

    /** eip712_encode_val: right-aligns data in a zeroed 32-byte word. */
    method EncodeVal(data: seq<byte>) returns (ok: bool)
      modifies this
      ensures ok <==> works && |data| <= 32
      ensures ok ==> fed == old(fed) + Word(h, Atomic(data))
    {
      if |data| > 32 { return false; }
      var tmp := new byte[32](_ => 0);
      var offset := 32 - |data|;
      forall i | 0 <= i < |data| {
        tmp[offset + i] := data[i];
      }
      assert tmp[..] == Zeros(offset) + data;
      ok := Update(tmp[..]);
    }

    /** eip712_encode_dyn_val: feeds the hash of data. */
    method EncodeDynVal(data: seq<byte>) returns (ok: bool)
      modifies this
      ensures ok == works
      ensures ok ==> fed == old(fed) + Word(h, Dynamic(data))
    {
      if !works { return false; }
      ok := Update(h(data));
    }

    /** The first feed of a struct: the hash of its type. */
    method Start(typ: seq<byte>) returns (ok: bool)
      requires fed == []
      modifies this
      ensures ok == works && (ok ==> fed == h(typ))
    {
      ok := EncodeDynVal(typ);
    }
  }

  method ComputeDomainHash(h: Keccak, works: bool, name: string, chainId: u64) returns (ok: bool, out: Hash)
    ensures ok == works
    ensures ok ==> out == HashStruct(h, Ascii(DOMAIN_TYPE), DomainFields(name, chainId))
  {
    hide Ascii, BE, Word, Words;
    out := Zeros(32);
    var ctx := new HashContext(h, works);
    ok := ctx.Start(Ascii(DOMAIN_TYPE));
    if !ok { return; }
    ok := ctx.EncodeDynVal(Ascii(name));
    if !ok { return; }
    ok := ctx.EncodeDynVal(Ascii("1"));
    if !ok { return; }
    ok := ctx.EncodeVal(BE(chainId, 8));
    if !ok { return; }
    ok := ctx.EncodeVal(Zeros(20));
    if !ok { return; }
    ok, out := ctx.Final();
    FourFed(h, Ascii(DOMAIN_TYPE), Dynamic(Ascii(name)), Dynamic(Ascii("1")), Atomic(BE(chainId, 8)), Atomic(Zeros(20)));
  }

  /** eip712_cid.c: compute_message_hash */
  method AgentMessageHash(h: Keccak, works: bool, source: seq<byte>, cid: Hash) returns (ok: bool, out: Hash)
    ensures ok == works
    ensures ok ==> out == HashStruct(h, Ascii(AGENT_TYPE), [Dynamic(source), Atomic(cid)])
  {
    hide Ascii, Word, Words;
    out := Zeros(32);
    var ctx := new HashContext(h, works);
    ok := ctx.Start(Ascii(AGENT_TYPE));
    if !ok { return; }
    ok := ctx.EncodeDynVal(source);
    if !ok { return; }
    ok := ctx.EncodeVal(cid);
    if !ok { return; }
    ok, out := ctx.Final();
    TwoFed(h, Ascii(AGENT_TYPE), Dynamic(source), Atomic(cid));
  }

  /** eip712_builder_fee.c: compute_message_hash */
  method FeeMessageHash(h: Keccak, works: bool, chain: seq<byte>, rate: seq<byte>, builder: Address, nonce: u64)
    returns (ok: bool, out: Hash)
    ensures ok == works
    ensures ok ==> out == HashStruct(h, Ascii(FEE_TYPE),
                                     [Dynamic(chain), Dynamic(rate), Atomic(builder), Atomic(BE(nonce, 8))])
  {
    hide Ascii, BE, Word, Words;
    out := Zeros(32);
    var ctx := new HashContext(h, works);
    ok := ctx.Start(Ascii(FEE_TYPE));
    if !ok { return; }
    ok := ctx.EncodeDynVal(chain);
    if !ok { return; }
    ok := ctx.EncodeDynVal(rate);
    if !ok { return; }
    ok := ctx.EncodeVal(builder);
    if !ok { return; }
    ok := ctx.EncodeVal(BE(nonce, 8));
    if !ok { return; }
    ok, out := ctx.Final();
    FourFed(h, Ascii(FEE_TYPE), Dynamic(chain), Dynamic(rate), Atomic(builder), Atomic(BE(nonce, 8)));
  }

  /** eip712_abstraction.c: compute_message_hash */
  method AbstractionMessageHash(h: Keccak, works: bool, chain: seq<byte>, user: Address, text: seq<byte>, nonce: u64)
    returns (ok: bool, out: Hash)
    ensures ok == works
    ensures ok ==> out == HashStruct(h, Ascii(ABSTRACTION_TYPE),
                                     [Dynamic(chain), Atomic(user), Dynamic(text), Atomic(BE(nonce, 8))])
  {
    hide Ascii, BE, Word, Words;
    out := Zeros(32);
    var ctx := new HashContext(h, works);
    ok := ctx.Start(Ascii(ABSTRACTION_TYPE));
    if !ok { return; }
    ok := ctx.EncodeDynVal(chain);
    if !ok { return; }
    ok := ctx.EncodeVal(user);
    if !ok { return; }
    ok := ctx.EncodeDynVal(text);
    if !ok { return; }
    ok := ctx.EncodeVal(BE(nonce, 8));
    if !ok { return; }
    ok, out := ctx.Final();
    FourFed(h, Ascii(ABSTRACTION_TYPE), Dynamic(chain), Atomic(user), Dynamic(text), Atomic(BE(nonce, 8)));
  }

  /** compute_connection_id with end byte 0; nothing is hashed unless the whole action was serialized. */
  method ComputeConnectionId(h: Keccak, works: bool, a: Action, raw: array<byte>) returns (ok: bool, out: Hash)
    requires raw.Length == MAX_SERIALIZED_ACTION_SIZE
    modifies raw
    ensures ok <==> works && Serializable(a.body)
    ensures ok ==> out == h(ConnectionPreimage(a))
  {
    hide BodyBytes, BE;
    out := Zeros(32);
    var end;
    if Serializable(a.body) {
      EveryActionFits(a.body);
    }
    ok, end := ActionSerialize(a.body, raw, 0);
    if !ok { return; }
    assert raw[..0] == [];
    var ctx := new HashContext(h, works);
    if !works { ok := false; return; }
    ok := ctx.Update(raw[..end]);
    if !ok { return; }
    ok := ctx.Update(BE(a.nonce, 8));
    if !ok { return; }
    ok := ctx.Update([0]);
    if !ok { return; }
    ok, out := ctx.Final();
    assert ctx.fed == ConnectionPreimage(a);
  }

  /**
   action_hash. Every action that the model can hold is hashed whenever the crypto library works, and the two
   hashes are the EIP-712 ones.
   */
  method HashAction(h: Keccak, works: bool, a: Action, network: Network, wallet: Address, raw: array<byte>)
    returns (ok: bool, domain: Hash, message: Hash)
    requires raw.Length == MAX_SERIALIZED_ACTION_SIZE
    modifies raw
    ensures ok == works
    ensures ok ==> domain == DomainHash(h, a) && message == MessageHash(h, a, network, wallet)
  {
    hide Ascii, BE, HashStruct, BodyBytes;
    message := Zeros(32);
    match a.body {
      case ApproveBuilderFee(chainId, rate, builder) =>
        ok, domain := ComputeDomainHash(h, works, "HyperliquidSignTransaction", chainId);
        if !ok { return; }
        ok, message := FeeMessageHash(h, works, ChainText(network), rate, builder, a.nonce);
      case UserSetAbstraction(chainId, abstraction) =>
        ok, domain := ComputeDomainHash(h, works, "HyperliquidSignTransaction", chainId);
        if !ok { return; }
        ok, message := AbstractionMessageHash(h, works, ChainText(network), wallet, AbstractionText(abstraction), a.nonce);
      case _ =>
        var cid;
        domain := Zeros(32);
        ok, cid := ComputeConnectionId(h, works, a, raw);
        if !ok { return; }
        ok, domain := ComputeDomainHash(h, works, "Exchange", 1337);
        if !ok { return; }
        ok, message := AgentMessageHash(h, works, SourceText(network), cid);
    }
  }

  /** The digest of eip712_sign, before the signature primitive. */
  method ComputeSigningDigest(h: Keccak, works: bool, domain: Hash, message: Hash) returns (ok: bool, out: Hash)
    ensures ok == works
    ensures ok ==> out == h(SigningPreimage(domain, message))
  {
    out := Zeros(32);
    var ctx := new HashContext(h, works);
    ok := ctx.Update([0x19, 0x01]);
    if !ok { return; }
    ok := ctx.Update(domain);
    if !ok { return; }
    ok := ctx.Update(message);
    if !ok { return; }
    ok, out := ctx.Final();
    assert ctx.fed == SigningPreimage(domain, message);
  }
}
