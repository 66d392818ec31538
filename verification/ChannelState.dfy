/**
 Signed channel states, equivocation proofs and activation records
 (src/channel_state.rs:178-281, src/channel_activation.rs:115-167, src/channel_state_store.rs:392-462).
 */
module ChannelState {
  import opened Prelude
  import opened LineFiles
  import opened Text
  import opened Encoding
  import opened Commitments

  /**
   SHA3-256 in hex, its length left open so that it can be injective, and the verification of one signature
   over a hash by an address's key.
   */
  datatype Crypto = Crypto(sha: seq<Byte> -> string, verifies: (string, string, string, string) -> bool)

  ghost predicate Injective(x: Crypto) {
    forall a, b :: x.sha(a) == x.sha(b) ==> a == b
  }

  datatype StateSignature = StateSignature(address: string, signatureHex: string, publicKeyHex: string)

  datatype SignedState = SignedState(commitment: StateCommitment, hash: string, signatures: seq<StateSignature>)

  datatype SignedActivation = SignedActivation(
    commitment: ActivationCommitment, hash: string, signatures: seq<StateSignature>)

  datatype EquivocationProof = EquivocationProof(
    schema: string, channelId: string, sequence: nat, signer: string, first: SignedState, second: SignedState)

  const PROOF_SCHEMA := "hacash-l2-channel-equivocation-proof/2"

  datatype StateError =
    | SignatureCount
    | BadCommitment(error: CommitmentError)
    | HashMismatch
    | DuplicateSignature
    | NotAParty
    | MissingSignature
    | BadSignature
    | UnsupportedProofSchema
    | ChannelsDiffer
    | SequencesDiffer
    | AnchorsDiffer
    | PartiesDiffer
    | StatesIdentical
    | NotByBothParties

  // ----- signatures -----

  function FindBy(signatures: seq<StateSignature>, address: string): (s: Option<StateSignature>)
    ensures s.None? <==> forall k :: 0 <= k < |signatures| ==> signatures[k].address != address
    ensures s.Some? ==> s.value in signatures && s.value.address == address
  {
    if signatures == [] then None
    else if signatures[0].address == address then Some(signatures[0])
    else FindBy(signatures[1..], address)
  }

  /** `verify_signature`, for a state or an activation hash. */
  function CheckSigner(
      x: Crypto, left: string, right: string, hash: string, signatures: seq<StateSignature>, signer: string)
    : Option<StateError>
  {
    var a := Trim(signer);
    if a != left && a != right then Some(NotAParty)
    else
      var s := FindBy(signatures, a);
      if s.None? then Some(MissingSignature)
      else if !x.verifies(hash, a, s.value.signatureHex, s.value.publicKeyHex) then Some(BadSignature)
      else None
  }

  /** The signature loop of `validate`: no address twice, every one verified. */
  function CheckSignatures(
      x: Crypto, left: string, right: string, hash: string, all: seq<StateSignature>, from: nat): Option<StateError>
    requires from <= |all|
    decreases |all| - from
  {
    if from == |all| then None
    else if exists k :: 0 <= k < from && all[k].address == all[from].address then Some(DuplicateSignature)
    else
      var e := CheckSigner(x, left, right, hash, all, all[from].address);
      if e.Some? then e else CheckSignatures(x, left, right, hash, all, from + 1)
  }

  /** `SignedChannelStateV2::validate`. */
  function CheckSigned(x: Crypto, s: SignedState): Option<StateError> {
    var c := s.commitment;
    if s.signatures == [] || |s.signatures| > 2 then Some(SignatureCount)
    else if CheckState(c).Some? then Some(BadCommitment(CheckState(c).value))
    else if x.sha(StateBytes(c)) != s.hash then Some(HashMismatch)
    else CheckSignatures(x, c.left, c.right, s.hash, s.signatures, 0)
  }

  /** `verify_signature` of a state whose hash field was checked. */
  function CheckSignedBy(x: Crypto, s: SignedState, signer: string): Option<StateError> {
    CheckSigner(x, s.commitment.left, s.commitment.right, s.hash, s.signatures, signer)
  }

  predicate HasBoth(x: Crypto, s: SignedState) {
    CheckSignedBy(x, s, s.commitment.left).None? && CheckSignedBy(x, s, s.commitment.right).None?
  }

  /** Signature `k` is by a new address, and verified. */
  predicate SignaturePasses(x: Crypto, left: string, right: string, hash: string, all: seq<StateSignature>, k: nat)
    requires k < |all|
  {
    && (forall i :: 0 <= i < k ==> all[i].address != all[k].address)
    && CheckSigner(x, left, right, hash, all, all[k].address).None?
  }

  lemma OneSignature(x: Crypto, left: string, right: string, hash: string, all: seq<StateSignature>, from: nat)
    requires from < |all|
    ensures CheckSignatures(x, left, right, hash, all, from).None? <==>
            SignaturePasses(x, left, right, hash, all, from)
                && CheckSignatures(x, left, right, hash, all, from + 1).None?
  {
  }

  lemma {:induction false} SignaturesPass(
      x: Crypto, left: string, right: string, hash: string, all: seq<StateSignature>, from: nat)
    requires from <= |all|
    ensures CheckSignatures(x, left, right, hash, all, from).None? <==>
            forall k :: from <= k < |all| ==> SignaturePasses(x, left, right, hash, all, k)
    decreases |all| - from
  {
    if from < |all| {
      OneSignature(x, left, right, hash, all, from);
      SignaturesPass(x, left, right, hash, all, from + 1);
    }
  }

  /** What validity of a signed state means. */
  lemma SignedIsSound(x: Crypto, s: SignedState)
    ensures CheckSigned(x, s).None? <==>
            && 1 <= |s.signatures| <= 2 && CheckState(s.commitment).None? && s.hash == x.sha(StateBytes(s.commitment))
            && (forall i, k :: 0 <= i < k < |s.signatures| ==> s.signatures[i].address != s.signatures[k].address)
            && (forall k :: 0 <= k < |s.signatures| ==> CheckSignedBy(x, s, s.signatures[k].address).None?)
  {
    SignaturesPass(x, s.commitment.left, s.commitment.right, s.hash, s.signatures, 0);
    assert forall k :: 0 <= k < |s.signatures| ==>
      (SignaturePasses(x, s.commitment.left, s.commitment.right, s.hash, s.signatures, k) <==>
         (forall i :: 0 <= i < k ==> s.signatures[i].address != s.signatures[k].address)
         && CheckSignedBy(x, s, s.signatures[k].address).None?);
  }

  lemma BlankBeforeTrims(a: string)
    requires Trim(a) == a
    ensures Trim(" " + a) == a
  {
    assert (" " + a)[1..] == a;
    assert TrimStart(" " + a) == TrimStart(a);
  }

  /**
   Signers are compared with the parties trimmed, but told apart as written: one signature, stated twice
   with and without a blank, makes a valid state of two signatures by one party.
   */
  lemma OneSignerCountsTwice(x: Crypto, s: SignedState, one: StateSignature)
    requires CheckSigned(x, s).None? && s.signatures == [one] && Trim(one.address) == one.address
    ensures var twice := s.(signatures := [one.(address := " " + one.address), one]);
            CheckSigned(x, twice).None? && |twice.signatures| == 2
                && (s.commitment.left != s.commitment.right ==> !HasBoth(x, twice))
  {
    var twice := s.(signatures := [one.(address := " " + one.address), one]);
    BlankBeforeTrims(one.address);
    SignedIsSound(x, s);
    SignedIsSound(x, twice);
    assert FindBy(s.signatures, one.address) == Some(one);
    assert FindBy(twice.signatures, one.address) == Some(one);
  }

  /** A hash names one state. */
  lemma HashNamesState(x: Crypto, s: SignedState, t: SignedState)
    requires Injective(x) && CheckSigned(x, s).None? && CheckSigned(x, t).None?
    ensures s.hash == t.hash <==> s.commitment == t.commitment
  {
    SignedIsSound(x, s);
    SignedIsSound(x, t);
    if s.hash == t.hash {
      assert StateBytes(s.commitment) + [] == StateBytes(t.commitment) + [];
      StateBytesInjective(s.commitment, t.commitment, [], []);
    }
  }

  // ----- equivocation proofs -----

  function CheckProof(x: Crypto, p: EquivocationProof): Option<StateError> {
    var a, b := p.first.commitment, p.second.commitment;
    if p.schema != PROOF_SCHEMA then Some(UnsupportedProofSchema)
    else if CheckSigned(x, p.first).Some? then CheckSigned(x, p.first)
    else if CheckSigned(x, p.second).Some? then CheckSigned(x, p.second)
    else if a.channelId != b.channelId || a.channelId != p.channelId then Some(ChannelsDiffer)
    else if a.sequence != b.sequence || a.sequence != p.sequence then Some(SequencesDiffer)
    else if a.genesis != b.genesis || a.anchor != b.anchor then Some(AnchorsDiffer)
    else if a.left != b.left || a.right != b.right then Some(PartiesDiffer)
    else if p.first.hash == p.second.hash then Some(StatesIdentical)
    else if CheckSignedBy(x, p.first, p.signer).Some? then CheckSignedBy(x, p.first, p.signer)
    else CheckSignedBy(x, p.second, p.signer)
  }

  function Assembled(signer: string, first: SignedState, second: SignedState): EquivocationProof {
    var swap := TextBefore(second.hash, first.hash);
    EquivocationProof(PROOF_SCHEMA, first.commitment.channelId, first.commitment.sequence, Trim(signer),
                      if swap then second else first, if swap then first else second)
  }

  /** `ChannelEquivocationProofV2::build`. */
  method BuildProof(x: Crypto, signer: string, first: SignedState, second: SignedState)
    returns (r: Result<EquivocationProof, StateError>)
    ensures r == Build(x, signer, first, second)
  {
    var a, b := first, second;
    if TextBefore(b.hash, a.hash) {
      a, b := b, a;
    }
    var proof := EquivocationProof(PROOF_SCHEMA, first.commitment.channelId, first.commitment.sequence, Trim(signer),
                                   a, b);
    var error := CheckProof(x, proof);
    return if error.Some? then Err(error.value) else Ok(proof);
  }

  function Build(
      x: Crypto, signer: string, first: SignedState, second: SignedState): Result<EquivocationProof, StateError> {
    var proof := Assembled(signer, first, second);
    if CheckProof(x, proof).Some? then Err(CheckProof(x, proof).value) else Ok(proof)
  }

  /** A proof holds two different valid states of one channel and sequence, both signed by the named party. */
  lemma ProofIsEvidence(x: Crypto, p: EquivocationProof)
    requires Injective(x) && CheckProof(x, p).None?
    ensures p.first.commitment != p.second.commitment
    ensures p.first.commitment.channelId == p.second.commitment.channelId
    ensures p.first.commitment.sequence == p.second.commitment.sequence
    ensures p.first.commitment.left == p.second.commitment.left && p.first.commitment.right == p.second.commitment.right
    ensures Trim(p.signer) == p.first.commitment.left || Trim(p.signer) == p.first.commitment.right
    ensures FindBy(p.first.signatures, Trim(p.signer)).Some? && FindBy(p.second.signatures, Trim(p.signer)).Some?
  {
    HashNamesState(x, p.first, p.second);
  }

  lemma PassingProofAgrees(x: Crypto, p: EquivocationProof)
    requires CheckProof(x, p).None?
    ensures p.first.hash != p.second.hash
    ensures p.first.commitment.channelId == p.second.commitment.channelId
    ensures p.first.commitment.sequence == p.second.commitment.sequence
  {
  }

  lemma AssembledAlike(signer: string, first: SignedState, second: SignedState)
    requires first.hash != second.hash
    requires first.commitment.channelId == second.commitment.channelId
    requires first.commitment.sequence == second.commitment.sequence
    ensures Assembled(signer, first, second) == Assembled(signer, second, first)
  {
    TextOrder(first.hash, second.hash, first.hash);
    TextOrder(second.hash, first.hash, second.hash);
  }

  /** Either order of the two states gives the same proof, so its id deduplicates. */
  lemma BuildIsSymmetric(x: Crypto, signer: string, first: SignedState, second: SignedState)
    ensures Build(x, signer, first, second).Ok? <==> Build(x, signer, second, first).Ok?
    ensures Build(x, signer, first, second).Ok? ==> Build(x, signer, first, second) == Build(x, signer, second, first)
  {
    var p, q := Assembled(signer, first, second), Assembled(signer, second, first);
    if CheckProof(x, p).None? {
      PassingProofAgrees(x, p);
      AssembledAlike(signer, first, second);
    }
    if CheckProof(x, q).None? {
      PassingProofAgrees(x, q);
      AssembledAlike(signer, first, second);
    }
  }

  function Delimit(s: string): seq<Byte> {
    BigEndian(|Utf8(s)|, 4) + Utf8(s)
  }

  const PROOF_ID_DOMAIN := "HACASH_L2_EQUIVOCATION_PROOF_ID_V2"

  /** `proof_id_hex` of a valid proof. */
  function ProofId(x: Crypto, p: EquivocationProof): string {
    x.sha(Delimit(PROOF_ID_DOMAIN) + Delimit(p.channelId) + BigEndian(p.sequence, 8) + Delimit(p.signer)
          + Delimit(p.first.hash) + Delimit(p.second.hash))
  }

  // ----- activations -----

  /** `SignedChannelActivationV1::validate`. */
  function CheckSignedActivation(x: Crypto, a: SignedActivation): Option<StateError> {
    var c := a.commitment;
    if CheckActivation(c).Some? then Some(BadCommitment(CheckActivation(c).value))
    else if x.sha(ActivationBytes(c)) != a.hash then Some(HashMismatch)
    else if |a.signatures| != 2 then Some(SignatureCount)
    else if CheckSignatures(x, c.left, c.right, a.hash, a.signatures, 0).Some? then
      CheckSignatures(x, c.left, c.right, a.hash, a.signatures, 0)
    else if FindBy(a.signatures, c.left).None? || FindBy(a.signatures, c.right).None? then Some(NotByBothParties)
    else None
  }

  datatype ActivationRecord = ActivationRecord(activatedUnix: nat, certificate: SignedActivation, head: SignedState)

  datatype RecordError =
    | NoTimestamp
    | BadCertificate(error: StateError)
    | BadHead(error: StateError)
    | HeadNotByBoth
    | HeadBindingMismatch
    | HeadPrecedesInitial
    | InitialHashMismatch

  predicate MatchesState(a: SignedActivation, s: SignedState) {
    var c, d := a.commitment, s.commitment;
    && c.channelId == d.channelId && c.genesis == d.genesis && c.anchor == d.anchor
    && c.initialSequence == d.sequence && c.initialHash == s.hash && c.left == d.left && c.right == d.right
  }

  /** `validate_activation_record`. */
  function CheckActivationRecord(x: Crypto, r: ActivationRecord): Option<RecordError> {
    var a, h := r.certificate.commitment, r.head.commitment;
    if r.activatedUnix == 0 then Some(NoTimestamp)
    else if CheckSignedActivation(x, r.certificate).Some?
        then Some(BadCertificate(CheckSignedActivation(x, r.certificate).value))
    else if CheckSigned(x, r.head).Some? then Some(BadHead(CheckSigned(x, r.head).value))
    else if !HasBoth(x, r.head) then Some(HeadNotByBoth)
    else if a.channelId != h.channelId || a.genesis != h.genesis || a.anchor != h.anchor || a.left != h.left
        || a.right != h.right
    then Some(HeadBindingMismatch)
    else if h.sequence < a.initialSequence then Some(HeadPrecedesInitial)
    else if h.sequence == a.initialSequence && r.head.hash != a.initialHash then Some(InitialHashMismatch)
    else None
  }

  datatype SuccessorError = BadRecord(error: RecordError) | SequenceOverflow | SequenceGap | DoesNotBindHead

  /** `validate_successor_against_activation`. */
  function CheckSuccessor(x: Crypto, s: SignedState, r: ActivationRecord): Option<SuccessorError> {
    if CheckActivationRecord(x, r).Some? then Some(BadRecord(CheckActivationRecord(x, r).value))
    else if s.commitment.sequence <= r.head.commitment.sequence then None
    else if r.head.commitment.sequence >= U64_MAX then Some(SequenceOverflow)
    else if s.commitment.sequence != r.head.commitment.sequence + 1 then Some(SequenceGap)
    else if s.commitment.previous != r.head.hash then Some(DoesNotBindHead)
    else None
  }

  /**
   A later state passes exactly if it is the head's direct successor and binds its hash; what is not later than
   the head always passes.
   */
  lemma SuccessorIff(x: Crypto, s: SignedState, r: ActivationRecord)
    ensures CheckSuccessor(x, s, r).None? <==>
            && CheckActivationRecord(x, r).None?
            && (|| s.commitment.sequence <= r.head.commitment.sequence
                || (s.commitment.sequence == r.head.commitment.sequence + 1 && s.commitment.previous == r.head.hash))
  {
  }

  /** `party` signed the hash, under its own spelling. */
  predicate HasSigned(x: Crypto, hash: string, signatures: seq<StateSignature>, party: string) {
    exists k :: 0 <= k < |signatures| && signatures[k].address == party
                && x.verifies(hash, party, signatures[k].signatureHex, signatures[k].publicKeyHex)
  }

  lemma FoundIsThere(signatures: seq<StateSignature>, a: string, k: nat)
    requires DistinctSigners(signatures) && k < |signatures| && signatures[k].address == a
    ensures FindBy(signatures, a) == Some(signatures[k])
  {
    var f := FindBy(signatures, a);
    if f.Some? {
      var j :| 0 <= j < |signatures| && signatures[j] == f.value;
      assert j == k;
    }
  }

  lemma SignerChecked(x: Crypto, left: string, right: string, hash: string, all: seq<StateSignature>, a: string)
    requires DistinctSigners(all) && (a == left || a == right) && Trim(a) == a
    ensures CheckSigner(x, left, right, hash, all, a).None? <==> HasSigned(x, hash, all, a)
  {
    forall k | 0 <= k < |all| && all[k].address == a ensures FindBy(all, a) == Some(all[k]) {
      FoundIsThere(all, a, k);
    }
    if FindBy(all, a).Some? {
      var k :| 0 <= k < |all| && all[k] == FindBy(all, a).value;
    }
  }

  /** A certificate is valid exactly if exactly the two parties signed the hash of a valid activation. */
  lemma CertificateIsSound(x: Crypto, a: SignedActivation)
    ensures CheckSignedActivation(x, a).None? <==>
            && CheckActivation(a.commitment).None? && a.hash == x.sha(ActivationBytes(a.commitment))
            && |a.signatures| == 2 && HasSigned(x, a.hash, a.signatures, a.commitment.left)
            && HasSigned(x, a.hash, a.signatures, a.commitment.right)
  {
    var c, all := a.commitment, a.signatures;
    if CheckActivation(c).None? && |all| == 2 {
      assert Trim(c.left) == c.left && Trim(c.right) == c.right && c.left != c.right;
      SignaturesPass(x, c.left, c.right, a.hash, all, 0);
      if HasSigned(x, a.hash, all, c.left) && HasSigned(x, a.hash, all, c.right) {
        BothSigned(x, c.left, c.right, a.hash, all);
      }
      if CheckSignatures(x, c.left, c.right, a.hash, all, 0).None? {
        assert SignaturePasses(x, c.left, c.right, a.hash, all, 0);
        assert SignaturePasses(x, c.left, c.right, a.hash, all, 1);
        assert DistinctSigners(all);
        SignerChecked(x, c.left, c.right, a.hash, all, c.left);
        SignerChecked(x, c.left, c.right, a.hash, all, c.right);
        PassingParties(x, c.left, c.right, a.hash, all);
      }
    }
  }

  lemma BothSigned(x: Crypto, left: string, right: string, hash: string, all: seq<StateSignature>)
    requires |all| == 2 && left != right && Trim(left) == left && Trim(right) == right
    requires HasSigned(x, hash, all, left) && HasSigned(x, hash, all, right)
    ensures CheckSignatures(x, left, right, hash, all, 0).None?
    ensures FindBy(all, left).Some? && FindBy(all, right).Some?
  {
    var i :| 0 <= i < |all| && all[i].address == left
             && x.verifies(hash, left, all[i].signatureHex, all[i].publicKeyHex);
    var j :| 0 <= j < |all| && all[j].address == right
             && x.verifies(hash, right, all[j].signatureHex, all[j].publicKeyHex);
    assert DistinctSigners(all);
    SignerChecked(x, left, right, hash, all, left);
    SignerChecked(x, left, right, hash, all, right);
    SignaturesPass(x, left, right, hash, all, 0);
    forall k | 0 <= k < |all| ensures SignaturePasses(x, left, right, hash, all, k) {
      assert k == i || k == j;
    }
  }

  /** Signatures that pass and include both parties' are theirs. */
  lemma PassingParties(x: Crypto, left: string, right: string, hash: string, all: seq<StateSignature>)
    requires CheckSignatures(x, left, right, hash, all, 0).None? && Trim(left) == left && Trim(right) == right
    ensures FindBy(all, left).Some? ==> CheckSigner(x, left, right, hash, all, left).None?
    ensures FindBy(all, right).Some? ==> CheckSigner(x, left, right, hash, all, right).None?
  {
    SignaturesPass(x, left, right, hash, all, 0);
    forall a | (a == left || a == right) && FindBy(all, a).Some?
      ensures CheckSigner(x, left, right, hash, all, a).None?
    {
      var k :| 0 <= k < |all| && all[k] == FindBy(all, a).value;
      assert SignaturePasses(x, left, right, hash, all, k);
    }
  }

  /** Two states of one channel and sequence that differ. */
  predicate Opposed(s: SignedState, t: SignedState) {
    SameChannel(s.commitment, t.commitment) && s.commitment.sequence == t.commitment.sequence && s.hash != t.hash
  }

  lemma ProofParts(x: Crypto, p: EquivocationProof)
    ensures CheckProof(x, p).None? <==>
            && p.schema == PROOF_SCHEMA && CheckSigned(x, p.first).None? && CheckSigned(x, p.second).None?
            && Opposed(p.first, p.second) && p.first.commitment.channelId == p.channelId
            && p.first.commitment.sequence == p.sequence
            && CheckSignedBy(x, p.first, p.signer).None? && CheckSignedBy(x, p.second, p.signer).None?
  {
  }

  /** A proof is valid exactly if it holds two valid states of one channel and sequence, different, signed by it. */
  lemma ProofIff(x: Crypto, p: EquivocationProof)
    ensures CheckProof(x, p).None? <==>
            && p.schema == PROOF_SCHEMA && CheckSigned(x, p.first).None? && CheckSigned(x, p.second).None?
            && SameChannel(p.first.commitment, p.second.commitment) && p.first.commitment.channelId == p.channelId
            && p.first.commitment.sequence == p.second.commitment.sequence == p.sequence
            && p.first.hash != p.second.hash
            && (Trim(p.signer) == p.first.commitment.left || Trim(p.signer) == p.first.commitment.right)
            && HasAddress(p.first.signatures, Trim(p.signer)) && HasAddress(p.second.signatures, Trim(p.signer))
  {
    ProofParts(x, p);
    if CheckSigned(x, p.first).None? && CheckSigned(x, p.second).None? && Opposed(p.first, p.second) {
      SignedByIff(x, p.first, p.signer);
      SignedByIff(x, p.second, p.signer);
    }
  }

  /** A party's signature on a valid state is looked up, and then verified, exactly if it is there. */
  lemma SignedByIff(x: Crypto, s: SignedState, signer: string)
    requires CheckSigned(x, s).None?
    ensures CheckSignedBy(x, s, signer).None? <==>
            && (Trim(signer) == s.commitment.left || Trim(signer) == s.commitment.right)
            && HasAddress(s.signatures, Trim(signer))
  {
    var a := Trim(signer);
    if HasAddress(s.signatures, a) && (a == s.commitment.left || a == s.commitment.right) {
      PartiesTrimmed(s.commitment);
      AddressedIsVerified(x, s, a);
    }
    if CheckSignedBy(x, s, signer).None? {
      var k :| 0 <= k < |s.signatures| && s.signatures[k] == FindBy(s.signatures, a).value;
    }
  }

  /** A valid state is both-signed exactly if it carries a signature of each party. */
  lemma BothIff(x: Crypto, s: SignedState)
    requires CheckSigned(x, s).None?
    ensures HasBoth(x, s) <==>
            HasAddress(s.signatures, s.commitment.left) && HasAddress(s.signatures, s.commitment.right)
  {
    PartiesTrimmed(s.commitment);
    SignedByIff(x, s, s.commitment.left);
    SignedByIff(x, s, s.commitment.right);
  }

  lemma PartyAddressed(x: Crypto, s: SignedState, party: string)
    requires CheckSignedBy(x, s, party).None? && Trim(party) == party
    ensures HasAddress(s.signatures, party)
  {
    var f := FindBy(s.signatures, party).value;
    var i :| 0 <= i < |s.signatures| && s.signatures[i] == f;
  }

  lemma PartiesTrimmed(c: StateCommitment)
    requires CheckState(c).None?
    ensures Trim(c.left) == c.left && Trim(c.right) == c.right && c.left != c.right
  {
  }

  /** Both-signed states carry exactly the two party signatures. */
  lemma BothMeansTwo(x: Crypto, s: SignedState)
    requires CheckSigned(x, s).None? && HasBoth(x, s)
    ensures |s.signatures| == 2 && HasAddress(s.signatures, s.commitment.left)
    ensures HasAddress(s.signatures, s.commitment.right)
  {
    SignedIsSound(x, s);
    PartiesTrimmed(s.commitment);
    PartyAddressed(x, s, s.commitment.left);
    PartyAddressed(x, s, s.commitment.right);
  }

  // ----- the checks as one value -----

  type Ids = EquivocationProof -> string

  /** What the evidence store consults. */
  datatype Rules = Rules(
    signed: SignedState -> Option<StateError>,
    both: SignedState -> bool,
    build: (string, SignedState, SignedState) -> Result<EquivocationProof, StateError>,
    proof: EquivocationProof -> Option<StateError>,
    id: Ids,
    certificate: SignedActivation -> Option<StateError>,
    record: ActivationRecord -> Option<RecordError>,
    successor: (SignedState, ActivationRecord) -> Option<SuccessorError>)

  function RulesOf(x: Crypto): Rules {
    Rules(
      (s: SignedState) => CheckSigned(x, s),
      (s: SignedState) => HasBoth(x, s),
      (a: string, s: SignedState, t: SignedState) => Build(x, a, s, t),
      (p: EquivocationProof) => CheckProof(x, p),
      (p: EquivocationProof) => ProofId(x, p),
      (a: SignedActivation) => CheckSignedActivation(x, a),
      (r: ActivationRecord) => CheckActivationRecord(x, r),
      (s: SignedState, r: ActivationRecord) => CheckSuccessor(x, s, r))
  }

  predicate HasAddress(signatures: seq<StateSignature>, a: string) {
    exists k :: 0 <= k < |signatures| && signatures[k].address == a
  }

  /** Signers are written without surrounding blanks, as the parties are. */
  predicate TrimmedSigners(s: SignedState) {
    forall k :: 0 <= k < |s.signatures| ==> Trim(s.signatures[k].address) == s.signatures[k].address
  }

  ghost predicate DistinctSigners(signatures: seq<StateSignature>) {
    forall i, k :: 0 <= i < k < |signatures| ==> signatures[i].address != signatures[k].address
  }

  predicate IsParty(c: StateCommitment, a: string) { a == c.left || a == c.right }

  predicate SameChannel(c: StateCommitment, d: StateCommitment) {
    c.channelId == d.channelId && c.genesis == d.genesis && c.anchor == d.anchor && c.left == d.left
        && c.right == d.right
  }

  /** A valid state has one or two signers, told apart as written, parties once trimmed. */
  ghost predicate SignedLaw(v: Rules) {
    forall s :: v.signed(s).None? ==>
      && 1 <= |s.signatures| <= 2 && DistinctSigners(s.signatures) && s.commitment.left != s.commitment.right
      && forall k :: 0 <= k < |s.signatures| ==> IsParty(s.commitment, Trim(s.signatures[k].address))
  }

  /** The party that `a` names once trimmed signed under its own spelling. */
  predicate NamesSigner(s: SignedState, a: string) { HasAddress(s.signatures, Trim(a)) }

  /** Whoever signs with blanks around its address signs without them too: that is where its signature is looked up. */
  ghost predicate NameLaw(v: Rules) {
    forall s, a {:trigger NamesSigner(s, a)} ::
      v.signed(s).None? && HasAddress(s.signatures, a) ==> NamesSigner(s, a)
  }

  /** A hash names one commitment. */
  ghost predicate HashLaw(v: Rules) {
    forall s, t :: v.signed(s).None? && v.signed(t).None? && s.hash == t.hash ==> s.commitment == t.commitment
  }

  /** Both-signed means signed by the two parties, and by nobody else. */
  ghost predicate BothLaw(v: Rules) {
    forall s :: v.signed(s).None? ==>
      && (v.both(s) <==>
           HasAddress(s.signatures, s.commitment.left) && HasAddress(s.signatures, s.commitment.right))
      && (v.both(s) ==> |s.signatures| == 2)
  }

  /** Two states of one channel and sequence, different, both signed by the party `a` names. */
  predicate Contradict(a: string, s: SignedState, t: SignedState) {
    && SameChannel(s.commitment, t.commitment) && s.commitment.sequence == t.commitment.sequence && s.hash != t.hash
    && HasAddress(s.signatures, Trim(a)) && HasAddress(t.signatures, Trim(a))
  }

  /** A later state of the record's channel. */
  predicate MayHead(r: ActivationRecord, m: SignedState) {
    SameChannel(r.head.commitment, m.commitment) && m.commitment.sequence > r.head.commitment.sequence
  }

  /**
   A built proof is the assembled one and valid; two valid contradicting states of one signer always build.
   */
  ghost predicate BuildLaw(v: Rules) {
    && (forall a, s, t :: v.build(a, s, t).Ok? ==>
          v.build(a, s, t).value == Assembled(a, s, t) && v.proof(v.build(a, s, t).value).None?)
    && (forall a, s, t :: v.signed(s).None? && v.signed(t).None? && Contradict(a, s, t) ==> v.build(a, s, t).Ok?)
  }

  /** What a valid activation record is, and that a later both-signed state of its channel may become its head. */
  ghost predicate RecordLaw(v: Rules) {
    && (forall r :: v.record(r).None? ==>
          && r.activatedUnix > 0 && v.signed(r.head).None? && v.both(r.head)
          && r.certificate.commitment.channelId == r.head.commitment.channelId)
    && (forall r, m :: v.record(r).None? && v.signed(m).None? && v.both(m) && MayHead(r, m) ==>
         v.record(r.(head := m)).None?)
  }

  /** What is later than the head must be its direct successor and bind it. */
  ghost predicate SuccessorLaw(v: Rules) {
    forall s, r :: v.successor(s, r).None? <==>
      && v.record(r).None?
      && (|| s.commitment.sequence <= r.head.commitment.sequence
          || (s.commitment.sequence == r.head.commitment.sequence + 1 && s.commitment.previous == r.head.hash))
  }

  ghost predicate Lawful(v: Rules) {
    SignedLaw(v) && NameLaw(v) && HashLaw(v) && BothLaw(v) && BuildLaw(v) && RecordLaw(v) && SuccessorLaw(v)
  }

  // ----- the source's checks obey the laws -----

  lemma SignedIsLawful(x: Crypto)
    ensures SignedLaw(RulesOf(x))
  {
    var v := RulesOf(x);
    forall s | v.signed(s).None?
      ensures 1 <= |s.signatures| <= 2 && DistinctSigners(s.signatures) && s.commitment.left != s.commitment.right
      ensures forall k :: 0 <= k < |s.signatures| ==> IsParty(s.commitment, Trim(s.signatures[k].address))
    {
      SignedIsSound(x, s);
      PartiesTrimmed(s.commitment);
    }
  }

  lemma NameIsLawful(x: Crypto)
    ensures NameLaw(RulesOf(x))
  {
    forall s, a | CheckSigned(x, s).None? && HasAddress(s.signatures, a) ensures NamesSigner(s, a) {
      AddressedIsVerified(x, s, a);
    }
  }

  lemma HashIsLawful(x: Crypto)
    requires Injective(x)
    ensures HashLaw(RulesOf(x))
  {
    var v := RulesOf(x);
    forall s, t | v.signed(s).None? && v.signed(t).None? && s.hash == t.hash ensures s.commitment == t.commitment {
      HashNamesState(x, s, t);
    }
  }

  lemma BothIsLawful(x: Crypto)
    ensures BothLaw(RulesOf(x))
  {
    var v := RulesOf(x);
    forall s | v.signed(s).None?
      ensures v.both(s) <==>
              HasAddress(s.signatures, s.commitment.left) && HasAddress(s.signatures, s.commitment.right)
      ensures v.both(s) ==> |s.signatures| == 2
    {
      BothIff(x, s);
      if HasBoth(x, s) {
        BothMeansTwo(x, s);
      }
    }
  }

  lemma ContradictionBuilds(x: Crypto, a: string, s: SignedState, t: SignedState)
    requires CheckSigned(x, s).None? && CheckSigned(x, t).None? && Contradict(a, s, t)
    requires CheckSignedBy(x, s, Trim(a)).None? && CheckSignedBy(x, t, Trim(a)).None?
    ensures Build(x, a, s, t).Ok?
  {
  }

  lemma AddressedIsVerified(x: Crypto, s: SignedState, a: string)
    requires CheckSigned(x, s).None? && HasAddress(s.signatures, a)
    ensures CheckSignedBy(x, s, a).None?
  {
    SignedIsSound(x, s);
    var k :| 0 <= k < |s.signatures| && s.signatures[k].address == a;
  }

  lemma BuildIsLawful(x: Crypto)
    ensures BuildLaw(RulesOf(x))
  {
    var v := RulesOf(x);
    forall a, s, t | v.signed(s).None? && v.signed(t).None? && Contradict(a, s, t) ensures v.build(a, s, t).Ok? {
      AddressedIsVerified(x, s, Trim(a));
      AddressedIsVerified(x, t, Trim(a));
      ContradictionBuilds(x, a, s, t);
    }
  }

  /** What a valid record's head must be, once certificate and timestamp are right. */
  predicate HeadFits(x: Crypto, certificate: SignedActivation, head: SignedState) {
    var a, h := certificate.commitment, head.commitment;
    && CheckSigned(x, head).None? && HasBoth(x, head)
    && a.channelId == h.channelId && a.genesis == h.genesis && a.anchor == h.anchor && a.left == h.left
    && a.right == h.right
    && (h.sequence > a.initialSequence || (h.sequence == a.initialSequence && head.hash == a.initialHash))
  }

  lemma RecordParts(x: Crypto, r: ActivationRecord)
    ensures CheckActivationRecord(x, r).None? <==>
            r.activatedUnix > 0 && CheckSignedActivation(x, r.certificate).None? && HeadFits(x, r.certificate, r.head)
  {
  }

  lemma RecordMayAdvance(x: Crypto, r: ActivationRecord, m: SignedState)
    requires CheckActivationRecord(x, r).None? && CheckSigned(x, m).None? && HasBoth(x, m) && MayHead(r, m)
    ensures CheckActivationRecord(x, r.(head := m)).None?
  {
    RecordParts(x, r);
    RecordParts(x, r.(head := m));
  }

  lemma RecordIsLawful(x: Crypto)
    ensures RecordLaw(RulesOf(x))
  {
    var v := RulesOf(x);
    forall r | v.record(r).None?
      ensures r.activatedUnix > 0 && v.signed(r.head).None? && v.both(r.head)
      ensures r.certificate.commitment.channelId == r.head.commitment.channelId
    {
      RecordParts(x, r);
    }
    forall r, m | v.record(r).None? && v.signed(m).None? && v.both(m) && MayHead(r, m)
      ensures v.record(r.(head := m)).None?
    {
      RecordMayAdvance(x, r, m);
    }
  }

  lemma SuccessorIsLawful(x: Crypto)
    ensures SuccessorLaw(RulesOf(x))
  {
    forall s, r
      ensures CheckSuccessor(x, s, r).None? <==>
              && CheckActivationRecord(x, r).None?
              && (|| s.commitment.sequence <= r.head.commitment.sequence
                  || (s.commitment.sequence == r.head.commitment.sequence + 1 && s.commitment.previous == r.head.hash))
    {
      SuccessorIff(x, s, r);
    }
  }

  /** The validators of the source obey the laws the evidence store relies on. */
  lemma RulesAreLawful(x: Crypto)
    requires Injective(x)
    ensures Lawful(RulesOf(x))
  {
    SignedIsLawful(x);
    NameIsLawful(x);
    HashIsLawful(x);
    BothIsLawful(x);
    BuildIsLawful(x);
    RecordIsLawful(x);
    SuccessorIsLawful(x);
  }
}
