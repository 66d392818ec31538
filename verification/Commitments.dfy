/**
 Channel states, activations and L1 anchors: what a valid one is, and the bytes that are hashed and signed
 (src/channel_state.rs:73-176, src/channel_activation.rs:50-113, src/l1_anchor.rs:53-178).
 */
module Commitments {
  import opened Prelude
  import opened LineFiles
  import opened Encoding
  import Text

  datatype StateCommitment = StateCommitment(
    schema: U16, genesis: string, channelId: string, anchor: string, sequence: U64, previous: string,
    left: string, right: string,
    leftHac: U64, rightHac: U64, leftSatoshi: U64, rightSatoshi: U64, fundedHac: U64, fundedSatoshi: U64,
    conditionalRoot: string, expiryUnix: U64)

  datatype ActivationCommitment = ActivationCommitment(
    schema: U16, scope: U8, genesis: string, channelId: string, anchor: string,
    initialSequence: U64, initialHash: string, left: string, right: string,
    settlementAuthority: bool, l1Enforceable: bool)

  datatype Anchor = Anchor(
    schema: U16, genesis: string, channelId: string, incarnationHash: string,
    reuseVersion: U32, openHeight: U64, arbitrationLock: U16, interestAttribution: U8,
    left: string, right: string, leftHac: U64, rightHac: U64, leftSatoshi: U64, rightSatoshi: U64,
    observedHeight: U64, observedUnix: U64)

  datatype CommitmentError =
    | UnsupportedSchema
    | UnsupportedScope
    | BadHex
    | ZeroSequence
    | FirstStateHasPrevious
    | BadAddress
    | SameParties
    | TotalOverflow
    | ConservationFailed
    | GrantsAuthority
    | NotMainnet
    | BadHeight
    | BadAttribution

  const STATE_DOMAIN := "HACASH_L2_CHANNEL_STATE_V2"
  const ACTIVATION_DOMAIN := "HACASH_L2_CHANNEL_ACTIVATION_V1"
  const ANCHOR_DOMAIN := "HACASH_L1_CHANNEL_ANCHOR_V1"
  const MAINNET_GENESIS := "000000077790ba2fcdeaef4a4299d9b667135bac577ce204dee8388f1b97f7e6"

  /** `validate_address`: trimmed, 1 to 128 bytes. */
  predicate ValidAddress(a: string) {
    a != "" && |Utf8(a)| <= 128 && Text.Trim(a) == a
  }

  function CheckState(c: StateCommitment): Option<CommitmentError> {
    if c.schema != 2 then Some(UnsupportedSchema)
    else if !IsHexOf(c.genesis, 32) || !IsHexOf(c.channelId, 16) || !IsHexOf(c.anchor, 32) then Some(BadHex)
    else if c.sequence == 0 then Some(ZeroSequence)
    else if c.sequence == 1 && c.previous != "" then Some(FirstStateHasPrevious)
    else if c.sequence != 1 && !IsHexOf(c.previous, 32) then Some(BadHex)
    else if !ValidAddress(c.left) || !ValidAddress(c.right) then Some(BadAddress)
    else if c.left == c.right then Some(SameParties)
    else if c.leftHac + c.rightHac > U64_MAX then Some(TotalOverflow)
    else if c.leftHac + c.rightHac != c.fundedHac then Some(ConservationFailed)
    else if c.leftSatoshi + c.rightSatoshi > U64_MAX then Some(TotalOverflow)
    else if c.leftSatoshi + c.rightSatoshi != c.fundedSatoshi then Some(ConservationFailed)
    else if c.conditionalRoot != "" && !IsHexOf(c.conditionalRoot, 32) then Some(BadHex)
    else None
  }

  function CheckActivation(c: ActivationCommitment): Option<CommitmentError> {
    if c.schema != 1 then Some(UnsupportedSchema)
    else if c.scope != 1 then Some(UnsupportedScope)
    else if !IsHexOf(c.genesis, 32) || !IsHexOf(c.channelId, 16) || !IsHexOf(c.anchor, 32) then Some(BadHex)
    else if c.initialSequence == 0 then Some(ZeroSequence)
    else if !IsHexOf(c.initialHash, 32) then Some(BadHex)
    else if !ValidAddress(c.left) || !ValidAddress(c.right) then Some(BadAddress)
    else if c.left == c.right then Some(SameParties)
    else if c.settlementAuthority || c.l1Enforceable then Some(GrantsAuthority)
    else None
  }

  /** `L1ChannelAnchorV1::validate` but for its last check, that the stored hash is the hash of the fields. */
  function CheckAnchorFields(a: Anchor): Option<CommitmentError> {
    if a.schema != 1 then Some(UnsupportedSchema)
    else if !IsHexOf(a.genesis, 32) then Some(BadHex)
    else if a.genesis != MAINNET_GENESIS then Some(NotMainnet)
    else if !IsHexOf(a.channelId, 16) || !IsHexOf(a.incarnationHash, 32) then Some(BadHex)
    else if a.openHeight == 0 || a.observedHeight < a.openHeight || a.observedUnix == 0 then Some(BadHeight)
    else if a.interestAttribution > 2 then Some(BadAttribution)
    else if !ValidAddress(a.left) || !ValidAddress(a.right) then Some(BadAddress)
    else if a.left == a.right then Some(SameParties)
    else if a.leftHac + a.rightHac > U64_MAX || a.leftSatoshi + a.rightSatoshi > U64_MAX then Some(TotalOverflow)
    else None
  }

  /** `n` bytes as lower-case hexadecimal digits. */
  predicate LowerHex(text: string, n: nat) {
    |text| == 2 * n && forall i :: 0 <= i < |text| ==> '0' <= text[i] <= '9' || 'a' <= text[i] <= 'f'
  }

  lemma HexIsLower(text: string, n: nat)
    ensures IsHexOf(text, n) <==> LowerHex(text, n)
  {
  }

  /** A commitment is valid exactly if it splits the whole funding between two parties and names its predecessor. */
  lemma StateIsSound(c: StateCommitment)
    ensures CheckState(c).None? <==>
            && c.schema == 2 && LowerHex(c.genesis, 32) && LowerHex(c.channelId, 16) && LowerHex(c.anchor, 32)
            && c.sequence >= 1 && (if c.sequence == 1 then c.previous == "" else LowerHex(c.previous, 32))
            && ValidAddress(c.left) && ValidAddress(c.right) && c.left != c.right
            && c.leftHac + c.rightHac == c.fundedHac && c.leftSatoshi + c.rightSatoshi == c.fundedSatoshi
            && (c.conditionalRoot == "" || LowerHex(c.conditionalRoot, 32))
  {
    HexIsLower(c.genesis, 32);
    HexIsLower(c.channelId, 16);
    HexIsLower(c.anchor, 32);
    HexIsLower(c.previous, 32);
    HexIsLower(c.conditionalRoot, 32);
  }

  /** An activation is valid exactly if it names an initial state of two parties and claims no authority. */
  lemma ActivationIsSound(c: ActivationCommitment)
    ensures CheckActivation(c).None? <==>
            && c.schema == 1 && c.scope == 1
            && LowerHex(c.genesis, 32) && LowerHex(c.channelId, 16) && LowerHex(c.anchor, 32)
            && c.initialSequence >= 1 && LowerHex(c.initialHash, 32)
            && ValidAddress(c.left) && ValidAddress(c.right) && c.left != c.right
            && !c.settlementAuthority && !c.l1Enforceable
  {
    HexIsLower(c.genesis, 32);
    HexIsLower(c.channelId, 16);
    HexIsLower(c.anchor, 32);
    HexIsLower(c.initialHash, 32);
  }

  /** An anchor is valid, but for its hash, exactly if it describes an opening seen on the main network since. */
  lemma AnchorIsSound(a: Anchor)
    ensures CheckAnchorFields(a).None? <==>
            && a.schema == 1 && a.genesis == "000000077790ba2fcdeaef4a4299d9b667135bac577ce204dee8388f1b97f7e6"
            && LowerHex(a.genesis, 32) && LowerHex(a.channelId, 16) && LowerHex(a.incarnationHash, 32)
            && 0 < a.openHeight <= a.observedHeight && a.observedUnix > 0 && a.interestAttribution <= 2
            && ValidAddress(a.left) && ValidAddress(a.right) && a.left != a.right
            && a.leftHac + a.rightHac <= U64_MAX && a.leftSatoshi + a.rightSatoshi <= U64_MAX
  {
    HexIsLower(a.genesis, 32);
    HexIsLower(a.channelId, 16);
    HexIsLower(a.incarnationHash, 32);
  }

  // ----- the fields, in the order they are written -----

  function Text4(s: string): Field { Str(s, 4) }

  function Hex4(s: string): Field { Hex(s, 4) }

  function Amount(n: U64): Field { Num(n, 8) }

  function Flag(b: bool): Field { Num(if b then 1 else 0, 1) }

  function StateHead(c: StateCommitment): seq<Field> {
    [Text4(STATE_DOMAIN), Num(c.schema, 2), Hex4(c.genesis), Hex4(c.channelId), Hex4(c.anchor)]
  }

  function StateParties(c: StateCommitment): seq<Field> {
    [Num(c.sequence, 8), Hex4(c.previous), Text4(c.left), Text4(c.right)]
  }

  function StateBalances(c: StateCommitment): seq<Field> {
    [Amount(c.leftHac), Amount(c.rightHac), Amount(c.leftSatoshi), Amount(c.rightSatoshi), Amount(c.fundedHac),
     Amount(c.fundedSatoshi)]
  }

  function StateTail(c: StateCommitment): seq<Field> {
    [Hex4(c.conditionalRoot), Num(c.expiryUnix, 8)]
  }

  function StateFields(c: StateCommitment): seq<Field> {
    StateHead(c) + StateParties(c) + StateBalances(c) + StateTail(c)
  }

  function ActivationHead(c: ActivationCommitment): seq<Field> {
    [Text4(ACTIVATION_DOMAIN), Num(c.schema, 2), Num(c.scope, 1), Hex4(c.genesis), Hex4(c.channelId), Hex4(c.anchor)]
  }

  function ActivationTail(c: ActivationCommitment): seq<Field> {
    [Num(c.initialSequence, 8), Hex4(c.initialHash), Text4(c.left), Text4(c.right), Flag(c.settlementAuthority),
     Flag(c.l1Enforceable)]
  }

  function ActivationFields(c: ActivationCommitment): seq<Field> {
    ActivationHead(c) + ActivationTail(c)
  }

  function AnchorHead(a: Anchor): seq<Field> {
    [Text4(ANCHOR_DOMAIN), Num(a.schema, 2), Hex4(a.genesis), Hex4(a.channelId)]
  }

  function AnchorOpening(a: Anchor): seq<Field> {
    [Num(a.reuseVersion, 4), Num(a.openHeight, 8), Num(a.arbitrationLock, 2), Num(a.interestAttribution, 1)]
  }

  function AnchorFunding(a: Anchor): seq<Field> {
    [Text4(a.left), Text4(a.right), Amount(a.leftHac), Amount(a.rightHac), Amount(a.leftSatoshi),
     Amount(a.rightSatoshi)]
  }

  function AnchorFields(a: Anchor): seq<Field> {
    AnchorHead(a) + AnchorOpening(a) + AnchorFunding(a)
  }

  lemma AddressFits(a: string)
    requires ValidAddress(a)
    ensures ValidField(Text4(a))
  {
    Widths();
    Utf8Length(a);
  }

  lemma StateHeadFits(c: StateCommitment)
    requires CheckState(c).None?
    ensures ValidFields(StateHead(c))
  {
    Widths();
  }

  lemma StatePartiesFit(c: StateCommitment)
    requires CheckState(c).None?
    ensures ValidFields(StateParties(c))
  {
    Widths();
    AddressFits(c.left);
    AddressFits(c.right);
  }

  lemma StateBalancesFit(c: StateCommitment)
    ensures ValidFields(StateBalances(c))
  {
    Widths();
  }

  lemma StateTailFits(c: StateCommitment)
    requires CheckState(c).None?
    ensures ValidFields(StateTail(c))
  {
    Widths();
  }

  lemma StateFieldsFit(c: StateCommitment)
    requires CheckState(c).None?
    ensures ValidFields(StateFields(c))
  {
    StateHeadFits(c);
    StatePartiesFit(c);
    StateBalancesFit(c);
    StateTailFits(c);
  }

  lemma ActivationHeadFits(c: ActivationCommitment)
    requires CheckActivation(c).None?
    ensures ValidFields(ActivationHead(c))
  {
    Widths();
  }

  lemma ActivationTailFits(c: ActivationCommitment)
    requires CheckActivation(c).None?
    ensures ValidFields(ActivationTail(c))
  {
    Widths();
    AddressFits(c.left);
    AddressFits(c.right);
  }

  lemma ActivationFieldsFit(c: ActivationCommitment)
    requires CheckActivation(c).None?
    ensures ValidFields(ActivationFields(c))
  {
    ActivationHeadFits(c);
    ActivationTailFits(c);
  }

  lemma AnchorFieldsFit(a: Anchor)
    requires CheckAnchorFields(a).None?
    ensures ValidFields(AnchorFields(a))
  {
    assert ValidFields(AnchorHead(a)) by { Widths(); }
    assert ValidFields(AnchorOpening(a)) by { Widths(); }
    assert ValidFields(AnchorFunding(a)) by {
      Widths();
      AddressFits(a.left);
      AddressFits(a.right);
    }
  }

  function StateBytes(c: StateCommitment): seq<Byte>
    requires CheckState(c).None?
  {
    StateFieldsFit(c);
    Written(StateFields(c))
  }

  function ActivationBytes(c: ActivationCommitment): seq<Byte>
    requires CheckActivation(c).None?
  {
    ActivationFieldsFit(c);
    Written(ActivationFields(c))
  }

  function AnchorBytes(a: Anchor): seq<Byte>
    requires CheckAnchorFields(a).None?
  {
    AnchorFieldsFit(a);
    Written(AnchorFields(a))
  }

  // ----- the appends of the source -----

  /** The fields of a state, in order and with their widths. */
  lemma StateOrder(c: StateCommitment)
    ensures StateFields(c) ==
            [Str("HACASH_L2_CHANNEL_STATE_V2", 4), Num(c.schema, 2), Hex(c.genesis, 4), Hex(c.channelId, 4),
             Hex(c.anchor, 4), Num(c.sequence, 8), Hex(c.previous, 4), Str(c.left, 4), Str(c.right, 4),
             Num(c.leftHac, 8), Num(c.rightHac, 8), Num(c.leftSatoshi, 8), Num(c.rightSatoshi, 8),
             Num(c.fundedHac, 8), Num(c.fundedSatoshi, 8), Hex(c.conditionalRoot, 4), Num(c.expiryUnix, 8)]
  {
  }

  method StateText(c: StateCommitment) returns (r: Result<seq<Byte>, CommitmentError>)
    ensures r == if CheckState(c).Some? then Err(CheckState(c).value) else Ok(StateBytes(c))
  {
    var error := CheckState(c);
    if error.Some? {
      return Err(error.value);
    }
    StateFieldsFit(c);
    var out := new Output();
    out.AppendAll(StateFields(c));
    assert [] + StateFields(c) == StateFields(c);
    return Ok(out.bytes);
  }

  /** `ChannelStateCommitmentV2::canonical_bytes`. */
  method WriteState(c: StateCommitment) returns (r: Result<seq<Byte>, CommitmentError>)
    ensures r == if CheckState(c).Some? then Err(CheckState(c).value) else Ok(StateBytes(c))
    ensures StateFields(c) ==
            [Str("HACASH_L2_CHANNEL_STATE_V2", 4), Num(c.schema, 2), Hex(c.genesis, 4), Hex(c.channelId, 4),
             Hex(c.anchor, 4), Num(c.sequence, 8), Hex(c.previous, 4), Str(c.left, 4), Str(c.right, 4),
             Num(c.leftHac, 8), Num(c.rightHac, 8), Num(c.leftSatoshi, 8), Num(c.rightSatoshi, 8),
             Num(c.fundedHac, 8), Num(c.fundedSatoshi, 8), Hex(c.conditionalRoot, 4), Num(c.expiryUnix, 8)]
  {
    StateOrder(c);
    r := StateText(c);
  }

  /** Those of an activation. */
  lemma ActivationOrder(c: ActivationCommitment)
    ensures ActivationFields(c) ==
            [Str("HACASH_L2_CHANNEL_ACTIVATION_V1", 4), Num(c.schema, 2), Num(c.scope, 1), Hex(c.genesis, 4),
             Hex(c.channelId, 4), Hex(c.anchor, 4), Num(c.initialSequence, 8), Hex(c.initialHash, 4), Str(c.left, 4),
             Str(c.right, 4), Num(if c.settlementAuthority then 1 else 0, 1), Num(if c.l1Enforceable then 1 else 0, 1)]
  {
  }

  method ActivationText(c: ActivationCommitment) returns (r: Result<seq<Byte>, CommitmentError>)
    ensures r == if CheckActivation(c).Some? then Err(CheckActivation(c).value) else Ok(ActivationBytes(c))
  {
    var error := CheckActivation(c);
    if error.Some? {
      return Err(error.value);
    }
    ActivationFieldsFit(c);
    var out := new Output();
    out.AppendAll(ActivationFields(c));
    assert [] + ActivationFields(c) == ActivationFields(c);
    return Ok(out.bytes);
  }

  /** `ChannelActivationCommitmentV1::canonical_bytes`. */
  method WriteActivation(c: ActivationCommitment) returns (r: Result<seq<Byte>, CommitmentError>)
    ensures r == if CheckActivation(c).Some? then Err(CheckActivation(c).value) else Ok(ActivationBytes(c))
    ensures ActivationFields(c) ==
            [Str("HACASH_L2_CHANNEL_ACTIVATION_V1", 4), Num(c.schema, 2), Num(c.scope, 1), Hex(c.genesis, 4),
             Hex(c.channelId, 4), Hex(c.anchor, 4), Num(c.initialSequence, 8), Hex(c.initialHash, 4), Str(c.left, 4),
             Str(c.right, 4), Num(if c.settlementAuthority then 1 else 0, 1), Num(if c.l1Enforceable then 1 else 0, 1)]
  {
    ActivationOrder(c);
    r := ActivationText(c);
  }

  // ----- unique decodability -----

  lemma StateLayout(a: StateCommitment, b: StateCommitment)
    ensures SameLayout(StateFields(a), StateFields(b))
  {
    assert SameLayout(StateHead(a), StateHead(b));
    assert SameLayout(StateParties(a), StateParties(b));
    assert SameLayout(StateBalances(a), StateBalances(b));
    assert SameLayout(StateTail(a), StateTail(b));
  }

  lemma SplitJoined(a: seq<Field>, b: seq<Field>, c: seq<Field>, d: seq<Field>)
    requires a + b == c + d && |a| == |c|
    ensures a == c && b == d
  {
    assert a == (a + b)[..|a|] && c == (c + d)[..|c|];
    assert b == (a + b)[|a|..] && d == (c + d)[|c|..];
  }

  lemma StateFieldsTell(a: StateCommitment, b: StateCommitment)
    requires StateFields(a) == StateFields(b)
    ensures a == b
  {
    SplitJoined(StateHead(a) + StateParties(a) + StateBalances(a), StateTail(a),
                StateHead(b) + StateParties(b) + StateBalances(b), StateTail(b));
    SplitJoined(StateHead(a) + StateParties(a), StateBalances(a), StateHead(b) + StateParties(b), StateBalances(b));
    SplitJoined(StateHead(a), StateParties(a), StateHead(b), StateParties(b));
    assert StateHead(a)[1] == StateHead(b)[1] && StateHead(a)[2] == StateHead(b)[2]
        && StateHead(a)[3] == StateHead(b)[3]
        && StateHead(a)[4] == StateHead(b)[4];
    assert StateParties(a)[0] == StateParties(b)[0] && StateParties(a)[1] == StateParties(b)[1]
        && StateParties(a)[2] == StateParties(b)[2] && StateParties(a)[3] == StateParties(b)[3];
    assert StateBalances(a)[0] == StateBalances(b)[0] && StateBalances(a)[1] == StateBalances(b)[1]
        && StateBalances(a)[2] == StateBalances(b)[2] && StateBalances(a)[3] == StateBalances(b)[3]
        && StateBalances(a)[4] == StateBalances(b)[4] && StateBalances(a)[5] == StateBalances(b)[5];
    assert StateTail(a)[0] == StateTail(b)[0] && StateTail(a)[1] == StateTail(b)[1];
  }

  /** No two valid channel states have the same canonical bytes, even as prefixes of longer messages. */
  lemma StateBytesInjective(a: StateCommitment, b: StateCommitment, ra: seq<Byte>, rb: seq<Byte>)
    requires CheckState(a).None? && CheckState(b).None? && StateBytes(a) + ra == StateBytes(b) + rb
    ensures a == b && ra == rb
  {
    StateFieldsFit(a);
    StateFieldsFit(b);
    StateLayout(a, b);
    WrittenInjective(StateFields(a), StateFields(b), ra, rb);
    StateFieldsTell(a, b);
  }

  lemma ActivationFieldsTell(a: ActivationCommitment, b: ActivationCommitment)
    requires ActivationFields(a) == ActivationFields(b)
    ensures a == b
  {
    SplitJoined(ActivationHead(a), ActivationTail(a), ActivationHead(b), ActivationTail(b));
    var f, g, h, k := ActivationHead(a), ActivationHead(b), ActivationTail(a), ActivationTail(b);
    assert f[1] == g[1] && f[2] == g[2] && f[3] == g[3] && f[4] == g[4] && f[5] == g[5];
    assert h[0] == k[0] && h[1] == k[1] && h[2] == k[2] && h[3] == k[3] && h[4] == k[4] && h[5] == k[5];
  }

  lemma ActivationLayout(a: ActivationCommitment, b: ActivationCommitment)
    ensures SameLayout(ActivationFields(a), ActivationFields(b))
  {
    assert SameLayout(ActivationHead(a), ActivationHead(b));
    assert SameLayout(ActivationTail(a), ActivationTail(b));
  }

  /** Nor do two valid activations. */
  lemma ActivationBytesInjective(a: ActivationCommitment, b: ActivationCommitment, ra: seq<Byte>, rb: seq<Byte>)
    requires CheckActivation(a).None? && CheckActivation(b).None? && ActivationBytes(a) + ra == ActivationBytes(b) + rb
    ensures a == b && ra == rb
  {
    ActivationFieldsFit(a);
    ActivationFieldsFit(b);
    ActivationLayout(a, b);
    WrittenInjective(ActivationFields(a), ActivationFields(b), ra, rb);
    ActivationFieldsTell(a, b);
  }

  /** The opening fields an anchor's hash commits to. */
  function Opening(a: Anchor): Anchor {
    a.(incarnationHash := "", observedHeight := 0, observedUnix := 0)
  }

  lemma AnchorFieldsTell(a: Anchor, b: Anchor)
    ensures AnchorFields(a) == AnchorFields(b) <==> Opening(a) == Opening(b)
  {
    if AnchorFields(a) == AnchorFields(b) {
      SplitJoined(AnchorHead(a) + AnchorOpening(a), AnchorFunding(a), AnchorHead(b) + AnchorOpening(b),
                  AnchorFunding(b));
      SplitJoined(AnchorHead(a), AnchorOpening(a), AnchorHead(b), AnchorOpening(b));
      var f, g, h, k, m, n :=
        AnchorHead(a), AnchorHead(b), AnchorOpening(a), AnchorOpening(b), AnchorFunding(a), AnchorFunding(b);
      assert f[1] == g[1] && f[2] == g[2] && f[3] == g[3];
      assert h[0] == k[0] && h[1] == k[1] && h[2] == k[2] && h[3] == k[3];
      assert m[0] == n[0] && m[1] == n[1] && m[2] == n[2] && m[3] == n[3] && m[4] == n[4] && m[5] == n[5];
    }
    assert AnchorFields(Opening(a)) == AnchorFields(a) && AnchorFields(Opening(b)) == AnchorFields(b);
  }

  lemma AnchorLayout(a: Anchor, b: Anchor)
    ensures SameLayout(AnchorFields(a), AnchorFields(b))
  {
    assert SameLayout(AnchorHead(a), AnchorHead(b));
    assert SameLayout(AnchorOpening(a), AnchorOpening(b));
    assert SameLayout(AnchorFunding(a), AnchorFunding(b));
  }

  /** Valid anchors hash the same bytes exactly if they describe the same channel opening. */
  lemma AnchorBytesInjective(a: Anchor, b: Anchor)
    requires CheckAnchorFields(a).None? && CheckAnchorFields(b).None?
    ensures AnchorBytes(a) == AnchorBytes(b) <==> Opening(a) == Opening(b)
  {
    AnchorFieldsFit(a);
    AnchorFieldsFit(b);
    AnchorLayout(a, b);
    AnchorFieldsTell(a, b);
    if AnchorBytes(a) == AnchorBytes(b) {
      WrittenInjective(AnchorFields(a), AnchorFields(b), [], []);
    }
  }

  /** A signature over one kind of object is never valid for another: the signed bytes differ. */
  lemma DomainsNeverCollide(s: StateCommitment, c: ActivationCommitment, a: Anchor)
    requires CheckState(s).None? && CheckActivation(c).None? && CheckAnchorFields(a).None?
    ensures StateBytes(s) != ActivationBytes(c) && StateBytes(s) != AnchorBytes(a)
    ensures ActivationBytes(c) != AnchorBytes(a)
  {
    StateFieldsFit(s);
    ActivationFieldsFit(c);
    AnchorFieldsFit(a);
    assert |STATE_DOMAIN| == 26 && |ACTIVATION_DOMAIN| == 31 && |ANCHOR_DOMAIN| == 27;
    DomainsSeparate(StateFields(s), ActivationFields(c));
    DomainsSeparate(StateFields(s), AnchorFields(a));
    DomainsSeparate(ActivationFields(c), AnchorFields(a));
  }
}
