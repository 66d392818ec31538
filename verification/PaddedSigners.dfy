/**
 Runs of the evidence store in which one signer is written in two ways: an export that cannot be restored in every
 order, and a state by both parties that is refused
 (src/channel_state.rs:185-204, src/channel_state_store.rs:82-101, 212-235).
 */
module PaddedSigners {
  import opened Prelude
  import LineFiles
  import opened Text
  import opened Sorting
  import opened Encoding
  import opened Commitments
  import opened ChannelState
  import opened ChannelStateStore
  import opened ChannelStateRuns
  import opened ChannelStateRestore
  import ChannelStateProgress

  // ----- three signed states -----

  function Signed(a: string): StateSignature { StateSignature(a, "", "") }

  /** An injective stand-in for the hash, and signatures that all verify. */
  function Bytewise(b: seq<LineFiles.Byte>): string { seq(|b|, i requires 0 <= i < |b| => b[i] as int as char) }

  const SAMPLE: Crypto := Crypto(Bytewise, (hash, a, s, k) => true)

  lemma BytewiseInjective(a: seq<LineFiles.Byte>, b: seq<LineFiles.Byte>)
    requires Bytewise(a) == Bytewise(b)
    ensures a == b
  {
    assert |Bytewise(a)| == |a| && |Bytewise(b)| == |b|;
    forall i | 0 <= i < |a| ensures a[i] == b[i] {
      assert Bytewise(a)[i] == Bytewise(b)[i];
    }
  }

  lemma SampleIsInjective()
    ensures Injective(SAMPLE)
  {
    forall a, b | SAMPLE.sha(a) == SAMPLE.sha(b) ensures a == b {
      BytewiseInjective(a, b);
    }
  }

  function Zeros(n: nat): string { seq(n, i => '0') }

  /** The channel splits two HAC units between "a" and "b". */
  function Split(sequence: U64, leftHac: U64): StateCommitment
    requires sequence >= 1 && leftHac <= 2
  {
    StateCommitment(2, Zeros(64), Zeros(32), Zeros(64), sequence, if sequence == 1 then "" else Zeros(64), "a", "b",
                    leftHac, 2 - leftHac, 0, 0, 2, 0, "", 0)
  }

  lemma AddressesAreValid()
    ensures ValidAddress("a") && ValidAddress("b")
  {
    assert Utf8("a") == Utf8Char('a') + Utf8("") && Utf8("b") == Utf8Char('b') + Utf8("");
  }

  lemma SplitIsValid(sequence: U64, leftHac: U64)
    requires sequence >= 1 && leftHac <= 2
    ensures CheckState(Split(sequence, leftHac)).None?
  {
    AddressesAreValid();
  }

  function State(c: StateCommitment, signatures: seq<StateSignature>): SignedState
    requires CheckState(c).None?
  {
    SignedState(c, SAMPLE.sha(StateBytes(c)), signatures)
  }

  lemma SignedByOne(c: StateCommitment, a: string)
    requires CheckState(c).None? && (a == c.left || a == c.right)
    ensures CheckSigned(SAMPLE, State(c, [Signed(a)])).None?
  {
    assert Trim(a) == a;
    assert FindBy([Signed(a)], a) == Some(Signed(a));
    SignedIsSound(SAMPLE, State(c, [Signed(a)]));
  }

  lemma SignedByTwo(c: StateCommitment)
    requires CheckState(c).None?
    ensures CheckSigned(SAMPLE, State(c, [Signed(c.left), Signed(c.right)])).None?
  {
    var s := State(c, [Signed(c.left), Signed(c.right)]);
    assert Trim(c.left) == c.left && Trim(c.right) == c.right && c.left != c.right;
    assert FindBy(s.signatures, c.left) == Some(s.signatures[0]);
    assert FindBy(s.signatures[1..], c.right) == Some(s.signatures[1]);
    SignedIsSound(SAMPLE, s);
  }

  /** State 1 of the channel, signed by "a" alone, once with a blank before its address. */
  function First(): SignedState
    requires CheckState(Split(1, 1)).None?
  {
    State(Split(1, 1), [Signed(" a"), Signed("a")])
  }

  /** Another state 1, signed by both. */
  function Other(): SignedState
    requires CheckState(Split(1, 2)).None?
  {
    State(Split(1, 2), [Signed("a"), Signed("b")])
  }

  /** State 2, signed by "a". */
  function Second(): SignedState
    requires CheckState(Split(2, 1)).None?
  {
    State(Split(2, 1), [Signed("a")])
  }

  lemma SplitsAreValid()
    ensures CheckState(Split(1, 1)).None? && CheckState(Split(1, 2)).None? && CheckState(Split(2, 1)).None?
  {
    SplitIsValid(1, 1);
    SplitIsValid(1, 2);
    SplitIsValid(2, 1);
  }

  lemma StatesAreSigned()
    ensures CheckState(Split(1, 1)).None? && CheckState(Split(1, 2)).None? && CheckState(Split(2, 1)).None?
    ensures CheckSigned(SAMPLE, First()).None? && CheckSigned(SAMPLE, Other()).None?
    ensures CheckSigned(SAMPLE, Second()).None?
  {
    SplitsAreValid();
    SignedByOne(Split(1, 1), "a");
    OneSignerCountsTwice(SAMPLE, State(Split(1, 1), [Signed("a")]), Signed("a"));
    assert " " + "a" == " a";
    SignedByTwo(Split(1, 2));
    SignedByOne(Split(2, 1), "a");
  }

  lemma HashesDiffer()
    requires CheckState(Split(1, 1)).None? && CheckState(Split(1, 2)).None? && CheckState(Split(2, 1)).None?
    ensures First().hash != Other().hash && First().hash != Second().hash && Other().hash != Second().hash
  {
    SampleIsInjective();
    assert Split(1, 1).leftHac != Split(1, 2).leftHac;
    StateBytesTell(Split(1, 1), Split(1, 2));
    StateBytesTell(Split(1, 1), Split(2, 1));
    StateBytesTell(Split(1, 2), Split(2, 1));
  }

  lemma StateBytesTell(a: StateCommitment, b: StateCommitment)
    requires CheckState(a).None? && CheckState(b).None? && a != b
    ensures StateBytes(a) != StateBytes(b)
  {
    if StateBytes(a) == StateBytes(b) {
      StateBytesInjective(a, b, [], []);
    }
  }

  // ----- observing them -----

  lemma {:induction false} NothingBuilt(v: Rules, obs: map<Key, Observation>, m: SignedState, i: nat)
    requires i <= |m.signatures| && NoneConflict(obs, m)
    ensures Conflicts(v, obs, m, i) == Ok([])
  {
    if i > 0 {
      NothingBuilt(v, obs, m, i - 1);
      assert HasAddress(m.signatures, m.signatures[i - 1].address);
    }
  }

  lemma {:induction false} FewUpdates(obs: map<Key, Observation>, m: SignedState, i: nat)
    requires i <= |m.signatures|
    ensures |Updates(obs, m, i)| <= i
  {
    if i > 0 {
      FewUpdates(obs, m, i - 1);
    }
  }

  lemma {:induction false} FewNew(obs: map<Key, Observation>, keys: seq<Key>)
    ensures NewKeys(obs, keys) <= |keys|
  {
    if keys != [] {
      FewNew(obs, keys[..|keys| - 1]);
    }
  }

  lemma JudgedRecords(v: Rules, limits: Limits, s: Store, m: SignedState, now: nat)
    requires Conflicts(v, s.observations, m, |m.signatures|) == Ok([])
    requires |s.observations| + |m.signatures| <= limits.maxObservations
    ensures Judged(v, limits, s, m, now) == Recorded(v, limits, s, m, now)
    ensures Recorded(v, limits, s, m, now).0 ==
            s.(observations := WithObservations(s.observations, Updates(s.observations, m, |m.signatures|),
                                                Observation(now, m)),
               activations := WithHead(v, s.activations, m))
  {
    FewUpdates(s.observations, m, |m.signatures|);
    FewNew(s.observations, Updates(s.observations, m, |m.signatures|));
  }

  /** A valid state that contradicts nobody is recorded while there is room. */
  lemma ObserveRecords(v: Rules, limits: Limits, obs: map<Key, Observation>, m: SignedState, now: nat)
    returns (after: map<Key, Observation>)
    requires v.signed(m).None? && NoneConflict(obs, m) && |obs| + |m.signatures| <= limits.maxObservations
    ensures Records(obs, m, now, after)
    ensures Observed(v, limits, Store(obs, map[], map[]), m, now).0 == Store(after, map[], map[])
  {
    NothingBuilt(v, obs, m, |m.signatures|);
    JudgedRecords(v, limits, Store(obs, map[], map[]), m, now);
    RecordingUpdatesTargets(obs, m, now);
    after := WithObservations(obs, Updates(obs, m, |m.signatures|), Observation(now, m));
  }

  function KeyOf(a: string): Key { Key(Zeros(32), a) }

  function Held1(o1: Observation): map<Key, Observation> { map[KeyOf(" a") := o1, KeyOf("a") := o1] }

  function Held2(o1: Observation, o2: Observation): map<Key, Observation> { map[KeyOf(" a") := o1, KeyOf("a") := o2] }

  function Held3(o1: Observation, o2: Observation, o3: Observation): map<Key, Observation> {
    map[KeyOf(" a") := o1, KeyOf("a") := o2, KeyOf("b") := o3]
  }

  /** The facts about the three states that the store looks at. */
  ghost predicate Trio(first: SignedState, second: SignedState, other: SignedState) {
    && first.signatures == [Signed(" a"), Signed("a")] && second.signatures == [Signed("a")]
    && other.signatures == [Signed("a"), Signed("b")]
    && first.commitment.channelId == second.commitment.channelId == other.commitment.channelId == Zeros(32)
    && first.commitment.sequence == other.commitment.sequence == 1 && second.commitment.sequence == 2
    && first.hash != second.hash && first.hash != other.hash && second.hash != other.hash
  }

  lemma KeysDiffer()
    ensures KeyOf(" a") != KeyOf("a") && KeyOf("a") != KeyOf("b") && KeyOf(" a") != KeyOf("b")
  {
    assert |" a"| != |"a"|;
  }

  lemma TheirSigners(first: SignedState, second: SignedState, other: SignedState, a: string)
    requires Trio(first, second, other)
    ensures HasAddress(first.signatures, a) <==> a == " a" || a == "a"
    ensures HasAddress(second.signatures, a) <==> a == "a"
    ensures HasAddress(other.signatures, a) <==> a == "a" || a == "b"
  {
    assert first.signatures[0].address == " a" && first.signatures[1].address == "a";
    assert second.signatures[0].address == "a";
    assert other.signatures[0].address == "a" && other.signatures[1].address == "b";
  }

  lemma AfterFirst(v: Rules, limits: Limits, first: SignedState, second: SignedState, other: SignedState)
    requires Trio(first, second, other) && v.signed(first).None? && limits.maxObservations >= 4
    ensures Observed(v, limits, EMPTY, first, 1).0 == Store(Held1(Observation(1, first)), map[], map[])
  {
    forall a ensures !Classify(map[], first, a).Conflicting? {
      TheirSigners(first, second, other, a);
    }
    var after := ObserveRecords(v, limits, map[], first, 1);
    forall k ensures k in after <==> k in Held1(Observation(1, first)) {
      TheirSigners(first, second, other, k.signer);
    }
    assert after == Held1(Observation(1, first));
  }

  lemma SecondFinds(first: SignedState, second: SignedState, other: SignedState)
    requires Trio(first, second, other)
    ensures NoneConflict(Held1(Observation(1, first)), second)
    ensures forall k :: IsTarget(Held1(Observation(1, first)), second, k) <==> k == KeyOf("a")
  {
    var obs := Held1(Observation(1, first));
    KeysDiffer();
    forall a | HasAddress(second.signatures, a) ensures Classify(obs, second, a).Fresh? {
      TheirSigners(first, second, other, a);
    }
    forall k ensures IsTarget(obs, second, k) <==> k == KeyOf("a") {
      TheirSigners(first, second, other, k.signer);
    }
  }

  lemma AfterSecond(v: Rules, limits: Limits, first: SignedState, second: SignedState, other: SignedState)
    requires Trio(first, second, other) && v.signed(second).None? && limits.maxObservations >= 4
    ensures var o1, o2 := Observation(1, first), Observation(2, second);
            Observed(v, limits, Store(Held1(o1), map[], map[]), second, 2).0 == Store(Held2(o1, o2), map[], map[])
  {
    var o1, o2 := Observation(1, first), Observation(2, second);
    SecondFinds(first, second, other);
    var after := ObserveRecords(v, limits, Held1(o1), second, 2);
    OneTarget(Held1(o1), second, 2, after, KeyOf("a"));
    KeysDiffer();
    assert Held1(o1)[KeyOf("a") := o2] == Held2(o1, o2);
  }

  /** What recording does when one entry is updated. */
  lemma OneTarget(obs: map<Key, Observation>, m: SignedState, now: nat, after: map<Key, Observation>, target: Key)
    requires Records(obs, m, now, after) && forall k :: IsTarget(obs, m, k) <==> k == target
    ensures after == obs[target := Observation(now, m)]
  {
  }

  lemma OtherFinds(first: SignedState, second: SignedState, other: SignedState)
    requires Trio(first, second, other)
    ensures NoneConflict(Held2(Observation(1, first), Observation(2, second)), other)
    ensures forall k :: IsTarget(Held2(Observation(1, first), Observation(2, second)), other, k) <==> k == KeyOf("b")
  {
    var obs := Held2(Observation(1, first), Observation(2, second));
    KeysDiffer();
    assert Classify(obs, other, "a").Older? && Classify(obs, other, "b").Fresh?;
    forall a | HasAddress(other.signatures, a) ensures a == "a" || a == "b" {
      TheirSigners(first, second, other, a);
    }
    forall k ensures IsTarget(obs, other, k) <==> k == KeyOf("b") {
      TheirSigners(first, second, other, k.signer);
    }
  }

  lemma AfterOther(v: Rules, limits: Limits, first: SignedState, second: SignedState, other: SignedState)
    requires Trio(first, second, other) && v.signed(other).None? && limits.maxObservations >= 4
    ensures var o1, o2, o3 := Observation(1, first), Observation(2, second), Observation(3, other);
            Observed(v, limits, Store(Held2(o1, o2), map[], map[]), other, 3).0
                == Store(Held3(o1, o2, o3), map[], map[])
  {
    var o1, o2, o3 := Observation(1, first), Observation(2, second), Observation(3, other);
    OtherFinds(first, second, other);
    var after := ObserveRecords(v, limits, Held2(o1, o2), other, 3);
    OneTarget(Held2(o1, o2), other, 3, after, KeyOf("b"));
    KeysDiffer();
    assert Held2(o1, o2)[KeyOf("b") := o3] == Held3(o1, o2, o3);
  }

  /** The states as they are, since the store knows no other signature of them, and their signers are in order. */
  lemma MergesAsItIs(obs: map<Key, Observation>, state: SignedState)
    requires DistinctSigners(state.signatures) && Ordered(state.signatures, AddressAtMost)
    requires forall k :: k in obs ==> obs[k].state.hash != state.hash
    ensures IsMerge(obs, state, state)
  {
  }

  lemma InOrder()
    ensures TextAtMost(" a", "a") && TextAtMost("a", "b")
  {
  }

  lemma AllMerge(first: SignedState, second: SignedState, other: SignedState)
    requires Trio(first, second, other)
    ensures var o1, o2 := Observation(1, first), Observation(2, second);
            && IsMerge(map[], first, first) && IsMerge(Held1(o1), second, second)
                 && IsMerge(Held2(o1, o2), other, other)
  {
    InOrder();
    MergesAsItIs(map[], first);
    MergesAsItIs(Held1(Observation(1, first)), second);
    MergesAsItIs(Held2(Observation(1, first), Observation(2, second)), other);
  }

  lemma ObservedOne(v: Rules, reg: Registry, limits: Limits, s: Store, state: SignedState, now: nat, s2: Store)
    requires Admissible(v, reg, state) && IsMerge(s.observations, state, state)
    requires Observed(v, limits, s, state, now).0 == s2
    ensures Ran(v, reg, limits, s, [ObserveOp(state, state, now)]) == Some(s2)
  {
    var op := ObserveOp(state, state, now);
    assert Possible(v, reg, s, op) && After(v, limits, s, op) == s2;
    assert [op][1..] == [];
  }

  lemma {:induction false} RanMore(v: Rules, reg: Registry, limits: Limits, s: Store, a: seq<Op>, b: seq<Op>)
    requires Ran(v, reg, limits, s, a).Some?
    ensures Ran(v, reg, limits, s, a + b) == Ran(v, reg, limits, Ran(v, reg, limits, s, a).value, b)
    decreases a
  {
    if a == [] {
      assert a + b == b;
    } else {
      assert (a + b)[0] == a[0] && (a + b)[1..] == a[1..] + b;
      RanMore(v, reg, limits, After(v, limits, s, a[0]), a[1..], b);
    }
  }

  lemma TrioRuns(v: Rules, reg: Registry, limits: Limits, first: SignedState, second: SignedState, other: SignedState)
    returns (ops: seq<Op>)
    requires Trio(first, second, other) && limits.maxObservations >= 4
    requires Admissible(v, reg, first) && Admissible(v, reg, second) && Admissible(v, reg, other)
    ensures var o1, o2, o3 := Observation(1, first), Observation(2, second), Observation(3, other);
            Ran(v, reg, limits, EMPTY, ops) == Some(Store(Held3(o1, o2, o3), map[], map[]))
  {
    var o1, o2, o3 := Observation(1, first), Observation(2, second), Observation(3, other);
    var s1, s2 := Store(Held1(o1), map[], map[]), Store(Held2(o1, o2), map[], map[]);
    AllMerge(first, second, other);
    AfterFirst(v, limits, first, second, other);
    ObservedOne(v, reg, limits, EMPTY, first, 1, s1);
    AfterSecond(v, limits, first, second, other);
    ObservedOne(v, reg, limits, s1, second, 2, s2);
    AfterOther(v, limits, first, second, other);
    ObservedOne(v, reg, limits, s2, other, 3, Store(Held3(o1, o2, o3), map[], map[]));
    var a, b := [ObserveOp(first, first, 1)], [ObserveOp(second, second, 2)];
    RanMore(v, reg, limits, EMPTY, a, b);
    RanMore(v, reg, limits, EMPTY, a + b, [ObserveOp(other, other, 3)]);
    ops := a + b + [ObserveOp(other, other, 3)];
  }

  /** "a" signed two different states 1, and both are still there: one under its padded spelling, one under "b". */
  lemma TheyDisagree(first: SignedState, second: SignedState, other: SignedState)
    requires Trio(first, second, other)
    ensures var o1, o2, o3 := Observation(1, first), Observation(2, second), Observation(3, other);
            !SignersAgree(Held3(o1, o2, o3))
  {
    var obs := Held3(Observation(1, first), Observation(2, second), Observation(3, other));
    KeysDiffer();
    TheirSigners(first, second, other, "a");
    assert !Agree(obs, KeyOf(" a"), KeyOf("b"), "a");
  }

  function SampleRegistry(): Registry { map[Zeros(32) := Registered("a", "b", Zeros(64), Zeros(64))] }

  /**
   Three valid states, one of them signed by "a" both with a blank before its address and without, lead to a
   store that an empty store of the same capacity cannot restore from every order of its export.
   */
  lemma PaddedSignerBreaksRoundTrip() returns (ops: seq<Op>, s: Store)
    ensures Injective(SAMPLE) && Ran(RulesOf(SAMPLE), SampleRegistry(), LimitsFor(2), EMPTY, ops) == Some(s)
    ensures !SignersAgree(s.observations) && !Restores(RulesOf(SAMPLE), LimitsFor(2), s.observations)
  {
    StatesAreSigned();
    HashesDiffer();
    SampleIsInjective();
    ops := TrioRuns(RulesOf(SAMPLE), SampleRegistry(), LimitsFor(2), First(), Second(), Other());
    s := Ran(RulesOf(SAMPLE), SampleRegistry(), LimitsFor(2), EMPTY, ops).value;
    TheyDisagree(First(), Second(), Other());
    RoundTrip(SAMPLE, SampleRegistry(), LimitsFor(2), ops, s);
  }

  // ----- a state by both parties that is refused -----

  /** The padded signer of the first state is missing from the same state by both parties. */
  lemma PaddedIsMissing(first: SignedState, second: SignedState, other: SignedState, full: SignedState)
    requires Trio(first, second, other) && full.signatures == [Signed("a"), Signed("b")]
    requires full.commitment == first.commitment && full.hash == first.hash
    ensures !CarriesKnown(Held1(Observation(1, first)), full)
  {
    var obs := Held1(Observation(1, first));
    TheirSigners(first, second, other, " a");
    KeysDiffer();
    assert SameState(obs[KeyOf("a")].state, full) && HasAddress(obs[KeyOf("a")].state.signatures, " a");
    assert full.signatures[0].address == "a" && full.signatures[1].address == "b";
    assert |" a"| != |"a"| && |" a"| != |"b"|;
  }

  lemma AllRefused(first: SignedState, second: SignedState, other: SignedState, full: SignedState)
    requires Trio(first, second, other) && CheckSigned(SAMPLE, first).None? && CheckSigned(SAMPLE, full).None?
    requires full.commitment == first.commitment && full.hash == first.hash
    requires full.signatures == [Signed("a"), Signed("b")]
    ensures var s := Store(Held1(Observation(1, first)), map[], map[]);
            forall m, now :: IsMerge(s.observations, full, m) ==>
              Observed(RulesOf(SAMPLE), LimitsFor(2), s, m, now) == (s, Err(Invalid(SignatureCount)))
  {
    var obs := Held1(Observation(1, first));
    SampleIsInjective();
    PaddedIsMissing(first, second, other, full);
    forall m | IsMerge(obs, full, m) ensures CheckSigned(SAMPLE, m) == Some(SignatureCount) {
      ChannelStateProgress.BothMergesIff(SAMPLE, obs, full, m);
    }
  }

  /** The first state, signed by both. */
  function Full(): SignedState
    requires CheckState(Split(1, 1)).None?
  {
    State(Split(1, 1), [Signed("a"), Signed("b")])
  }

  lemma FullIsByBoth()
    ensures CheckState(Split(1, 1)).None? && CheckSigned(SAMPLE, Full()).None? && HasBoth(SAMPLE, Full())
  {
    SplitsAreValid();
    SignedByTwo(Split(1, 1));
    var full := Full();
    assert full.signatures[0].address == "a" && full.signatures[1].address == "b";
    BothIff(SAMPLE, full);
  }

  lemma FirstObserved(first: SignedState, second: SignedState, other: SignedState) returns (ops: seq<Op>, s: Store)
    requires Trio(first, second, other) && Admissible(RulesOf(SAMPLE), SampleRegistry(), first)
    ensures s == Store(Held1(Observation(1, first)), map[], map[])
    ensures Ran(RulesOf(SAMPLE), SampleRegistry(), LimitsFor(2), EMPTY, ops) == Some(s)
  {
    s := Store(Held1(Observation(1, first)), map[], map[]);
    ops := [ObserveOp(first, first, 1)];
    AllMerge(first, second, other);
    AfterFirst(RulesOf(SAMPLE), LimitsFor(2), first, second, other);
    ObservedOne(RulesOf(SAMPLE), SampleRegistry(), LimitsFor(2), EMPTY, first, 1, s);
  }

  /**
   A state observed with one party's signature twice, with a blank before the address and without, is refused
   when it comes with both parties' signatures, although it is valid and contradicts nothing.
   */
  lemma PaddingBlocksBothSigned() returns (ops: seq<Op>, s: Store, full: SignedState)
    ensures Injective(SAMPLE) && Ran(RulesOf(SAMPLE), SampleRegistry(), LimitsFor(2), EMPTY, ops) == Some(s)
    ensures Admissible(RulesOf(SAMPLE), SampleRegistry(), full) && HasBoth(SAMPLE, full)
    ensures ChannelStateProgress.Uncontradicted(s.observations, full)
    ensures forall m, now :: IsMerge(s.observations, full, m) ==>
              Observed(RulesOf(SAMPLE), LimitsFor(2), s, m, now) == (s, Err(Invalid(SignatureCount)))
  {
    StatesAreSigned();
    HashesDiffer();
    SampleIsInjective();
    FullIsByBoth();
    full := Full();
    ops, s := FirstObserved(First(), Second(), Other());
    AllRefused(First(), Second(), Other(), full);
  }
}
