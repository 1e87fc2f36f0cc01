/**
 The hashes that are signed. HashStruct and its parts follow the "Definition of hashStruct", "Definition of
 encodeData" and "Definition of domainSeparator" sections of EIP-712; the hash function itself is a parameter.
 */
module Eip712 {
  import opened Bytes
  import opened Model
  import opened Serializer
  import opened Decoder

  type Hash = s: seq<byte> | |s| == 32 witness Zeros(32)
  type Keccak = seq<byte> -> Hash

  /** One member of a struct: a value of at most 32 bytes, or a string that is hashed first. */
  datatype Field = Atomic(data: seq<byte>) | Dynamic(data: seq<byte>)

  predicate Fits(f: Field) { f.Atomic? ==> |f.data| <= 32 }

  type Member = f: Field | Fits(f) witness Dynamic([])

  function Word(h: Keccak, f: Member): Hash {
    if f.Dynamic? then h(f.data) else Zeros(32 - |f.data|) + f.data
  }

  function Words(h: Keccak, fs: seq<Member>): (r: seq<byte>)
    ensures |r| == 32 * |fs|
  {
    if fs == [] then [] else Words(h, fs[..|fs| - 1]) + Word(h, fs[|fs| - 1])
  }

  function EncodeData(h: Keccak, typ: seq<byte>, fs: seq<Member>): seq<byte> {
    h(typ) + Words(h, fs)
  }

  function HashStruct(h: Keccak, typ: seq<byte>, fs: seq<Member>): Hash {
    h(EncodeData(h, typ, fs))
  }

  const DOMAIN_TYPE := "EIP712Domain(string name,string version,uint256 chainId,address verifyingContract)"
  const AGENT_TYPE := "Agent(string source,bytes32 connectionId)"
  const FEE_TYPE := "HyperliquidTransaction:ApproveBuilderFee(string hyperliquidChain,string maxFeeRate,address builder,uint64 nonce)"
  const ABSTRACTION_TYPE := "HyperliquidTransaction:UserSetAbstraction(string hyperliquidChain,address user,string abstraction,uint64 nonce)"

  function DomainFields(name: string, chainId: u64): seq<Member> {
    [Dynamic(Ascii(name)), Dynamic(Ascii("1")), Atomic(BE(chainId, 8)), Atomic(Zeros(20))]
  }

  function AbstractionText(a: Abstraction): seq<byte> {
    match a
    case Disabled => Ascii("disabled")
    case UnifiedAccount => Ascii("unifiedAccount")
    case PortfolioMargin => Ascii("portfolioMargin")
  }

  function ChainText(n: Network): seq<byte> {
    if n == Mainnet then Ascii("Mainnet") else Ascii("Testnet")
  }

  function SourceText(n: Network): seq<byte> {
    if n == Mainnet then Ascii("a") else Ascii("b")
  }

  /** What is hashed into the connection id: the serialized action, its nonce and the end byte. */
  function ConnectionPreimage(a: Action): seq<byte>
    requires Serializable(a.body)
  {
    BodyBytes(a.body) + (BE(a.nonce, 8) + [0])
  }

  function DomainOf(a: Action): seq<Member> {
    match a.body
    case ApproveBuilderFee(chainId, _, _) => DomainFields("HyperliquidSignTransaction", chainId)
    case UserSetAbstraction(chainId, _) => DomainFields("HyperliquidSignTransaction", chainId)
    case _ => DomainFields("Exchange", 1337)
  }

  function MessageType(a: Action): seq<byte> {
    match a.body
    case ApproveBuilderFee(_, _, _) => Ascii(FEE_TYPE)
    case UserSetAbstraction(_, _) => Ascii(ABSTRACTION_TYPE)
    case _ => Ascii(AGENT_TYPE)
  }

  function MessageFields(h: Keccak, a: Action, network: Network, wallet: Address): seq<Member> {
    match a.body
    case ApproveBuilderFee(_, rate, builder) =>
      [Dynamic(ChainText(network)), Dynamic(rate), Atomic(builder), Atomic(BE(a.nonce, 8))]
    case UserSetAbstraction(_, abstraction) =>
      [Dynamic(ChainText(network)), Atomic(wallet), Dynamic(AbstractionText(abstraction)), Atomic(BE(a.nonce, 8))]
    case _ =>
      [Dynamic(SourceText(network)), Atomic(h(ConnectionPreimage(a)))]
  }

  function DomainHash(h: Keccak, a: Action): Hash {
    HashStruct(h, Ascii(DOMAIN_TYPE), DomainOf(a))
  }

  function MessageHash(h: Keccak, a: Action, network: Network, wallet: Address): Hash {
    HashStruct(h, MessageType(a), MessageFields(h, a, network, wallet))
  }

  function SigningPreimage(domain: Hash, message: Hash): seq<byte> {
    [0x19, 0x01] + (domain + message)
  }

  /** The 32 bytes handed to the signature primitive. */
  function SigningDigest(h: Keccak, a: Action, network: Network, wallet: Address): Hash {
    h(SigningPreimage(DomainHash(h, a), MessageHash(h, a, network, wallet)))
  }

  lemma FedWords(h: Keccak, fs: seq<Member>, f: Member)
    ensures Words(h, fs + [f]) == Words(h, fs) + Word(h, f)
  {
    assert (fs + [f])[..|fs|] == fs;
  }

  /** Feeding the type and two members in order feeds the encodeData of the struct. */
  lemma TwoFed(h: Keccak, typ: seq<byte>, a: Member, b: Member)
    ensures h(typ) + Word(h, a) + Word(h, b) == EncodeData(h, typ, [a, b])
  {
    hide Word;
    FedWords(h, [], a);
    FedWords(h, [a], b);
    assert [a, b] == [a] + [b] && [a] == [] + [a];
  }

  lemma FourFed(h: Keccak, typ: seq<byte>, a: Member, b: Member, c: Member, d: Member)
    ensures h(typ) + Word(h, a) + Word(h, b) + Word(h, c) + Word(h, d) == EncodeData(h, typ, [a, b, c, d])
  {
    hide Word;
    TwoFed(h, typ, a, b);
    FedWords(h, [a, b], c);
    FedWords(h, [a, b, c], d);
    assert [a, b, c] == [a, b] + [c] && [a, b, c, d] == [a, b, c] + [d];
  }

  // ---------------------------------------------------------------- the preimages, written out

  /** eip712_sign: the two magic bytes and the two hashes. */
  lemma DigestWrittenOut(h: Keccak, a: Action, network: Network, wallet: Address)
    ensures SigningDigest(h, a, network, wallet)
            == h([0x19, 0x01] + (DomainHash(h, a) + MessageHash(h, a, network, wallet)))
  {
  }

  lemma DomainWrittenOut(h: Keccak, name: string, chainId: u64)
    ensures HashStruct(h, Ascii(DOMAIN_TYPE), DomainFields(name, chainId))
            == h(h(Ascii("EIP712Domain(string name,string version,uint256 chainId,address verifyingContract)"))
                 + h(Ascii(name)) + h([49]) + (Zeros(24) + BE(chainId, 8)) + Zeros(32))
  {
    hide Ascii, BE;
    FourFed(h, Ascii(DOMAIN_TYPE), Dynamic(Ascii(name)), Dynamic(Ascii("1")), Atomic(BE(chainId, 8)), Atomic(Zeros(20)));
    assert Ascii("1") == [49] by { AsciiAt("1", 0); }
    assert Zeros(12) + Zeros(20) == Zeros(32);
  }

  /** An action that is hashed through its connection id: the Exchange domain on chain 1337, and an Agent message. */
  lemma AgentWrittenOut(h: Keccak, a: Action, network: Network, wallet: Address)
    requires Serializable(a.body)
    ensures DomainHash(h, a)
            == h(h(Ascii("EIP712Domain(string name,string version,uint256 chainId,address verifyingContract)"))
                 + h(Ascii("Exchange")) + h([49]) + (Zeros(24) + [0, 0, 0, 0, 0, 0, 0x05, 0x39]) + Zeros(32))
    ensures MessageHash(h, a, network, wallet)
            == h(h(Ascii("Agent(string source,bytes32 connectionId)"))
                 + h(if network == Mainnet then [97] else [98]) + h(BodyBytes(a.body) + (BE(a.nonce, 8) + [0])))
  {
    hide Ascii, BE, BodyBytes;
    DomainWrittenOut(h, "Exchange", 1337);
    ChainIdBytes();
    AsciiAt("a", 0);
    AsciiAt("b", 0);
    assert SourceText(network) == if network == Mainnet then [97] else [98];
    TwoFed(h, Ascii(AGENT_TYPE), Dynamic(SourceText(network)), Atomic(h(ConnectionPreimage(a))));
    assert Zeros(0) + h(ConnectionPreimage(a)) == h(ConnectionPreimage(a));
  }

  lemma ChainIdBytes()
    ensures BE(1337, 8) == [0, 0, 0, 0, 0, 0, 0x05, 0x39]
  {
    var bs: seq<byte> := [0, 0, 0, 0, 0, 0, 0x05, 0x39];
    assert bs == Zeros(6) + [0x05, 0x39];
    FromBELeadingZeros(6, [0x05, 0x39]);
    assert FromBE([0x05, 0x39]) == 1337 by {
      assert [0x05, 0x39][..1] == [0x05];
      assert FromBE([0x05]) == 5 by { assert [0x05][..0] == []; }
    }
    BEInvertsFromBE(bs);
  }

  /** A fee approval: the domain of its own chain id, and its four members in order. */
  lemma FeeWrittenOut(h: Keccak, a: Action, network: Network, wallet: Address)
    requires a.body.ApproveBuilderFee?
    ensures DomainHash(h, a)
            == h(h(Ascii("EIP712Domain(string name,string version,uint256 chainId,address verifyingContract)"))
                 + h(Ascii("HyperliquidSignTransaction")) + h([49])
                 + (Zeros(24) + BE(a.body.feeChainId, 8)) + Zeros(32))
    ensures MessageHash(h, a, network, wallet)
            == h(h(Ascii("HyperliquidTransaction:ApproveBuilderFee(string hyperliquidChain,string maxFeeRate,address builder,uint64 nonce)"))
                 + h(Ascii(if network == Mainnet then "Mainnet" else "Testnet")) + h(a.body.maxFeeRate)
                 + (Zeros(12) + a.body.feeBuilder) + (Zeros(24) + BE(a.nonce, 8)))
  {
    hide Ascii, BE;
    DomainWrittenOut(h, "HyperliquidSignTransaction", a.body.feeChainId);
    FourFed(h, Ascii(FEE_TYPE), Dynamic(ChainText(network)), Dynamic(a.body.maxFeeRate), Atomic(a.body.feeBuilder),
            Atomic(BE(a.nonce, 8)));
  }

  /** An abstraction change: the domain of its own chain id, and its four members in order. */
  lemma AbstractionWrittenOut(h: Keccak, a: Action, network: Network, wallet: Address)
    requires a.body.UserSetAbstraction?
    ensures DomainHash(h, a)
            == h(h(Ascii("EIP712Domain(string name,string version,uint256 chainId,address verifyingContract)"))
                 + h(Ascii("HyperliquidSignTransaction")) + h([49])
                 + (Zeros(24) + BE(a.body.abstractionChainId, 8)) + Zeros(32))
    ensures MessageHash(h, a, network, wallet)
            == h(h(Ascii("HyperliquidTransaction:UserSetAbstraction(string hyperliquidChain,address user,string abstraction,uint64 nonce)"))
                 + h(Ascii(if network == Mainnet then "Mainnet" else "Testnet")) + (Zeros(12) + wallet)
                 + h(Ascii(match a.body.abstraction case Disabled => "disabled" case UnifiedAccount => "unifiedAccount"
                           case PortfolioMargin => "portfolioMargin"))
                 + (Zeros(24) + BE(a.nonce, 8)))
  {
    hide Ascii, BE;
    DomainWrittenOut(h, "HyperliquidSignTransaction", a.body.abstractionChainId);
    FourFed(h, Ascii(ABSTRACTION_TYPE), Dynamic(ChainText(network)), Atomic(wallet),
            Dynamic(AbstractionText(a.body.abstraction)), Atomic(BE(a.nonce, 8)));
  }

  // ---------------------------------------------------------------- binding

  ghost predicate NoCollision(h: Keccak, inputs: set<seq<byte>>) {
    forall x, y :: x in inputs && y in inputs && h(x) == h(y) ==> x == y
  }

  /** Everything hashed to obtain HashStruct(h, typ, fs). */
  ghost function StructInputs(h: Keccak, typ: seq<byte>, fs: seq<Member>): set<seq<byte>> {
    {typ, EncodeData(h, typ, fs)} + set f | f in fs && f.Dynamic? :: f.data
  }

  /** Everything hashed to obtain the signing digest of a. */
  ghost function DigestInputs(h: Keccak, a: Action, network: Network, wallet: Address): set<seq<byte>> {
    StructInputs(h, Ascii(DOMAIN_TYPE), DomainOf(a))
    + StructInputs(h, MessageType(a), MessageFields(h, a, network, wallet))
    + {SigningPreimage(DomainHash(h, a), MessageHash(h, a, network, wallet))}
    + if Serializable(a.body) then {ConnectionPreimage(a)} else {}
  }

  lemma {:induction false} WordsBind(h: Keccak, fs: seq<Member>, gs: seq<Member>)
    requires Words(h, fs) == Words(h, gs)
    ensures |fs| == |gs| && forall i :: 0 <= i < |fs| ==> Word(h, fs[i]) == Word(h, gs[i])
  {
    assert |fs| == |gs|;
    if fs != [] {
      var n := |fs| - 1;
      SplitEqual(Words(h, fs[..n]), Word(h, fs[n]), Words(h, gs[..n]), Word(h, gs[n]));
      WordsBind(h, fs[..n], gs[..n]);
      hide Words, Word;
      forall i | 0 <= i < |fs| ensures Word(h, fs[i]) == Word(h, gs[i]) {
        if i < n {
          assert fs[..n][i] == fs[i] && gs[..n][i] == gs[i];
        }
      }
    }
  }

  /** Without collisions, equal struct hashes come from the same type and the same members. */
  lemma HashStructBinds(h: Keccak, inputs: set<seq<byte>>, t: seq<byte>, fs: seq<Member>, u: seq<byte>, gs: seq<Member>)
    requires NoCollision(h, inputs)
    requires StructInputs(h, t, fs) <= inputs && StructInputs(h, u, gs) <= inputs
    requires HashStruct(h, t, fs) == HashStruct(h, u, gs)
    ensures t == u && |fs| == |gs|
    ensures forall i :: 0 <= i < |fs| ==> Word(h, fs[i]) == Word(h, gs[i])
    ensures forall i :: 0 <= i < |fs| && fs[i].Dynamic? && gs[i].Dynamic? ==> fs[i] == gs[i]
  {
    var a, b := EncodeData(h, t, fs), EncodeData(h, u, gs);
    assert a in inputs && b in inputs && t in inputs && u in inputs;
    assert a == b;
    assert a[..32] == h(t) && b[..32] == h(u);
    assert a[32..] == Words(h, fs) && b[32..] == Words(h, gs);
    WordsBind(h, fs, gs);
    forall i | 0 <= i < |fs| && fs[i].Dynamic? && gs[i].Dynamic? ensures fs[i] == gs[i] {
      assert fs[i].data in StructInputs(h, t, fs) && gs[i].data in StructInputs(h, u, gs);
      assert Word(h, fs[i]) == Word(h, gs[i]);
    }
  }

  lemma AtomicWordBinds(h: Keccak, a: seq<byte>, b: seq<byte>)
    requires |a| == |b| <= 32 && Word(h, Atomic(a)) == Word(h, Atomic(b))
    ensures a == b
  {
    var k := 32 - |a|;
    assert Word(h, Atomic(a))[k..] == a && Word(h, Atomic(b))[k..] == b;
  }

  lemma TextsDiffer()
    ensures Ascii("Mainnet") != Ascii("Testnet") && Ascii("a") != Ascii("b")
    ensures Ascii(FEE_TYPE) != Ascii(ABSTRACTION_TYPE)
    ensures Ascii(AGENT_TYPE) != Ascii(FEE_TYPE) && Ascii(AGENT_TYPE) != Ascii(ABSTRACTION_TYPE)
  {
    hide Ascii;
    AsciiAt("Mainnet", 0);
    AsciiAt("Testnet", 0);
    AsciiAt("a", 0);
    AsciiAt("b", 0);
    AsciiAt(FEE_TYPE, 23);
    AsciiAt(ABSTRACTION_TYPE, 23);
    AsciiAt(AGENT_TYPE, 0);
    AsciiAt(FEE_TYPE, 0);
    AsciiAt(ABSTRACTION_TYPE, 0);
  }

  lemma NonceBinds(h: Keccak, m: u64, n: u64)
    requires Word(h, Atomic(BE(m, 8))) == Word(h, Atomic(BE(n, 8)))
    ensures m == n
  {
    hide BE;
    AtomicWordBinds(h, BE(m, 8), BE(n, 8));
    Pow256Values();
    BEInjective(m, n, 8);
  }

  /** The connection preimage determines the whole action: body and nonce. */
  lemma ConnectionPreimageInjective(a: Action, b: Action)
    requires Serializable(a.body) && Serializable(b.body) && ConnectionPreimage(a) == ConnectionPreimage(b)
    ensures a == b
  {
    hide BodyBytes, BE;
    SerializationInjective(a.body, BE(a.nonce, 8) + [0], b.body, BE(b.nonce, 8) + [0]);
    assert (BE(a.nonce, 8) + [0])[..8] == BE(a.nonce, 8) && (BE(b.nonce, 8) + [0])[..8] == BE(b.nonce, 8);
    Pow256Values();
    BEInjective(a.nonce, b.nonce, 8);
  }

  /** The message determines the type, the network, and each member that is hashed or padded into it. */
  lemma MessageWordsBind(h: Keccak, inputs: set<seq<byte>>, a: Action, n: Network, w: Address,
                         b: Action, m: Network, v: Address)
    requires NoCollision(h, inputs)
    requires DigestInputs(h, a, n, w) <= inputs && DigestInputs(h, b, m, v) <= inputs
    requires MessageHash(h, a, n, w) == MessageHash(h, b, m, v)
    ensures MessageType(a) == MessageType(b) && n == m
    ensures var fs, gs := MessageFields(h, a, n, w), MessageFields(h, b, m, v);
            |fs| == |gs| && forall i :: 0 <= i < |fs| ==> Word(h, fs[i]) == Word(h, gs[i])
    ensures var fs, gs := MessageFields(h, a, n, w), MessageFields(h, b, m, v);
            forall i :: 0 <= i < |fs| && fs[i].Dynamic? && gs[i].Dynamic? ==> fs[i] == gs[i]
  {
    hide Ascii, BE, ConnectionPreimage, EncodeData, HashStruct, AbstractionText;
    var fs, gs := MessageFields(h, a, n, w), MessageFields(h, b, m, v);
    MessageInputs(h, inputs, a, n, w);
    MessageInputs(h, inputs, b, m, v);
    HashStructBinds(h, inputs, MessageType(a), fs, MessageType(b), gs);
    TextsDiffer();
    assert fs[0] == gs[0];
  }

  lemma MessageInputs(h: Keccak, inputs: set<seq<byte>>, a: Action, n: Network, w: Address)
    requires DigestInputs(h, a, n, w) <= inputs
    ensures StructInputs(h, MessageType(a), MessageFields(h, a, n, w)) <= inputs
    ensures StructInputs(h, Ascii(DOMAIN_TYPE), DomainOf(a)) <= inputs
    ensures Serializable(a.body) ==> ConnectionPreimage(a) in inputs
  {
    hide StructInputs, ConnectionPreimage, MessageType, MessageFields, DomainOf, Ascii, SigningPreimage;
  }

  lemma ConnectionBinds(h: Keccak, inputs: set<seq<byte>>, a: Action, n: Network, w: Address,
                        b: Action, m: Network, v: Address)
    requires NoCollision(h, inputs) && Serializable(a.body)
    requires DigestInputs(h, a, n, w) <= inputs && DigestInputs(h, b, m, v) <= inputs
    requires MessageHash(h, a, n, w) == MessageHash(h, b, m, v)
    ensures a == b && n == m
  {
    hide Ascii, BE, ConnectionPreimage, HashStruct, StructInputs, DigestInputs, BodyBytes;
    MessageWordsBind(h, inputs, a, n, w, b, m, v);
    TextsDiffer();
    assert Serializable(b.body);
    var fs, gs := MessageFields(h, a, n, w), MessageFields(h, b, m, v);
    assert fs[1] == Atomic(h(ConnectionPreimage(a))) && gs[1] == Atomic(h(ConnectionPreimage(b)));
    AtomicWordBinds(h, h(ConnectionPreimage(a)), h(ConnectionPreimage(b)));
    MessageInputs(h, inputs, a, n, w);
    MessageInputs(h, inputs, b, m, v);
    ConnectionPreimageInjective(a, b);
  }

  lemma DomainBinds(h: Keccak, inputs: set<seq<byte>>, a: Action, b: Action)
    requires NoCollision(h, inputs) && DomainHash(h, a) == DomainHash(h, b)
    requires StructInputs(h, Ascii(DOMAIN_TYPE), DomainOf(a)) <= inputs
    requires StructInputs(h, Ascii(DOMAIN_TYPE), DomainOf(b)) <= inputs
    ensures Word(h, DomainOf(a)[2]) == Word(h, DomainOf(b)[2])
  {
    hide Ascii, BE, HashStruct, StructInputs;
    HashStructBinds(h, inputs, Ascii(DOMAIN_TYPE), DomainOf(a), Ascii(DOMAIN_TYPE), DomainOf(b));
  }

  lemma UserSignedBinds(h: Keccak, inputs: set<seq<byte>>, a: Action, n: Network, w: Address,
                        b: Action, m: Network, v: Address)
    requires NoCollision(h, inputs) && !Serializable(a.body)
    requires DigestInputs(h, a, n, w) <= inputs && DigestInputs(h, b, m, v) <= inputs
    requires DomainHash(h, a) == DomainHash(h, b) && MessageHash(h, a, n, w) == MessageHash(h, b, m, v)
    ensures a == b && n == m && (a.body.UserSetAbstraction? ==> w == v)
  {
    hide Ascii, BE, ConnectionPreimage, HashStruct, StructInputs, DigestInputs;
    MessageInputs(h, inputs, a, n, w);
    MessageInputs(h, inputs, b, m, v);
    MessageWordsBind(h, inputs, a, n, w, b, m, v);
    TextsDiffer();
    DomainBinds(h, inputs, a, b);
    var fs, gs := MessageFields(h, a, n, w), MessageFields(h, b, m, v);
    assert Word(h, fs[3]) == Word(h, gs[3]);
    NonceBinds(h, a.nonce, b.nonce);
    if a.body.ApproveBuilderFee? {
      assert b.body.ApproveBuilderFee?;
      assert fs[1] == gs[1] && Word(h, fs[2]) == Word(h, gs[2]);
      NonceBinds(h, a.body.feeChainId, b.body.feeChainId);
      AtomicWordBinds(h, a.body.feeBuilder, b.body.feeBuilder);
    } else {
      assert b.body.UserSetAbstraction?;
      assert fs[2] == gs[2] && Word(h, fs[1]) == Word(h, gs[1]);
      NonceBinds(h, a.body.abstractionChainId, b.body.abstractionChainId);
      AtomicWordBinds(h, w, v);
      assert |AbstractionText(a.body.abstraction)| == |AbstractionText(b.body.abstraction)|;
    }
  }

  /**
   Two signatures over the same digest were asked for the same action, on the same network, and for the same
   wallet where the wallet is part of the message, unless the hash function collides on the inputs at hand.
   */
  lemma DigestBinds(h: Keccak, a: Action, n: Network, w: Address, b: Action, m: Network, v: Address)
    requires NoCollision(h, DigestInputs(h, a, n, w) + DigestInputs(h, b, m, v))
    requires SigningDigest(h, a, n, w) == SigningDigest(h, b, m, v)
    ensures a == b && n == m && (a.body.UserSetAbstraction? ==> w == v)
  {
    hide Ascii, BE, ConnectionPreimage, HashStruct, StructInputs, MessageFields, MessageType, DomainOf;
    var inputs := DigestInputs(h, a, n, w) + DigestInputs(h, b, m, v);
    var d, e := DomainHash(h, a), DomainHash(h, b);
    var x, y := SigningPreimage(d, MessageHash(h, a, n, w)), SigningPreimage(e, MessageHash(h, b, m, v));
    assert x in inputs && y in inputs && x == y;
    SplitEqual([0x19, 0x01], d + MessageHash(h, a, n, w), [0x19, 0x01], e + MessageHash(h, b, m, v));
    SplitEqual(d, MessageHash(h, a, n, w), e, MessageHash(h, b, m, v));
    if Serializable(a.body) {
      ConnectionBinds(h, inputs, a, n, w, b, m, v);
    } else {
      UserSignedBinds(h, inputs, a, n, w, b, m, v);
    }
  }
}
