/** A hub's journal as the sequence of records it accepted, and what that sequence determines. */
module Log {
  import opened Prelude
  import opened Transactions

  type Log = seq<Transaction>

  /** The newest record of every transaction. */
  function Latest(log: Log): (m: map<TxId, Transaction>)
    ensures forall t :: t in m ==> m[t].txId == t
  {
    if log == [] then map[] else
      var tx := log[|log| - 1];
      Latest(log[..|log| - 1])[tx.txId := tx]
  }

  function Lookup<V>(m: map<TxId, V>, t: TxId): Option<V> {
    if t in m then Some(m[t]) else None
  }

  /** Every record was accepted by `validate_journal_transition` when it was appended. */
  ghost predicate ValidLog(log: Log) {
    log == [] || (
      var init, tx := log[..|log| - 1], log[|log| - 1];
      ValidLog(init) && MayFollow(Lookup(Latest(init), tx.txId), tx))
  }

  /** Transactions with a commit decision, in the order their first decision record was appended. */
  function CommitOrder(log: Log): seq<TxId> {
    if log == [] then [] else
      var order, tx := CommitOrder(log[..|log| - 1]), log[|log| - 1];
      if HasCommitDecision(tx.state) && tx.txId !in order then order + [tx.txId] else order
  }

  lemma Extended(log: Log, tx: Transaction)
    ensures (log + [tx])[..|log|] == log && (log + [tx])[|log|] == tx
    ensures Latest(log + [tx]) == Latest(log)[tx.txId := tx]
    ensures ValidLog(log + [tx]) <==> ValidLog(log) && MayFollow(Lookup(Latest(log), tx.txId), tx)
    ensures CommitOrder(log + [tx]) ==
            if HasCommitDecision(tx.state) && tx.txId !in CommitOrder(log)
            then CommitOrder(log) + [tx.txId] else CommitOrder(log)
  {
    var more := log + [tx];
    assert more != [] && more[..|more| - 1] == log && more[|more| - 1] == tx;
  }

  /** The order lists exactly the transactions whose newest record carries a commit decision, once each. */
  lemma {:induction false} CommitOrderIsDecided(log: Log)
    requires ValidLog(log)
    ensures Distinct(CommitOrder(log))
    ensures forall t :: t in CommitOrder(log) <==> t in Latest(log) && HasCommitDecision(Latest(log)[t].state)
  {
    if log != [] {
      var init, tx := log[..|log| - 1], log[|log| - 1];
      CommitOrderIsDecided(init);
      if tx.txId in Latest(init) {
        assert StateMayFollow(Latest(init)[tx.txId].state, tx.state);
      }
    }
  }

  /** Every journaled record's role matches its state. */
  lemma {:induction false} RolesMatch(log: Log)
    requires ValidLog(log)
    ensures forall t :: t in Latest(log) ==> RoleMatchesState(Latest(log)[t])
  {
    if log != [] {
      RolesMatch(log[..|log| - 1]);
    }
  }

  /** The records of one transaction. */
  function Of(log: Log, t: TxId): seq<Transaction> {
    if log == [] then [] else
      Of(log[..|log| - 1], t) + if log[|log| - 1].txId == t then [log[|log| - 1]] else []
  }

  /** In a valid log every single transaction has an accepted history ending in its newest record. */
  lemma {:induction false} EachHistoryIsAccepted(log: Log, t: TxId)
    requires ValidLog(log)
    ensures t in Latest(log) <==> Of(log, t) != []
    ensures t in Latest(log) ==> Accepted(Of(log, t)) && Of(log, t)[|Of(log, t)| - 1] == Latest(log)[t]
  {
    if log != [] {
      EachHistoryIsAccepted(log[..|log| - 1], t);
    }
  }

  // ----- the in-memory index the journal keeps -----

  datatype Stored = Stored(tx: Transaction, lastSequence: nat, commitSequence: Option<nat>)

  type Index = map<TxId, Stored>

  /** The index after storing `tx` under `sequence`; an existing commit sequence is kept. */
  function Store(index: Index, tx: Transaction, sequence: nat): Index {
    var previous := if tx.txId in index then index[tx.txId].commitSequence else None;
    var commit := if previous.Some? then previous
                  else if HasCommitDecision(tx.state) then Some(sequence) else None;
    index[tx.txId := Stored(tx, sequence, commit)]
  }

  function IndexOf(log: Log): Index {
    if log == [] then map[] else Store(IndexOf(log[..|log| - 1]), log[|log| - 1], |log|)
  }

  /** What the index says about a log: newest records, and commit sequences that increase along CommitOrder. */
  ghost predicate Indexes(index: Index, log: Log) {
    IndexesRecords(index, Latest(log), |log|) && IndexesCommits(index, CommitOrder(log), |log|)
  }

  ghost predicate IndexesRecords(index: Index, latest: map<TxId, Transaction>, n: nat) {
    && index.Keys == latest.Keys
    && (forall t :: t in index ==> index[t].tx == latest[t])
    && (forall t :: t in index ==> 1 <= index[t].lastSequence <= n)
    && (forall t, u :: t in index && u in index && index[t].lastSequence == index[u].lastSequence ==> t == u)
  }

  ghost predicate IndexesCommits(index: Index, order: seq<TxId>, n: nat) {
    && (forall t :: t in order ==> t in index)
    && (forall t :: t in index ==> (index[t].commitSequence.Some? <==> t in order))
    && (forall t :: t in index ==> CommitSequence(index, t) <= n)
    && (forall i, j :: 0 <= i < j < |order| ==> CommitSequence(index, order[i]) < CommitSequence(index, order[j]))
  }

  function CommitSequence(index: Index, t: TxId): nat {
    if t in index && index[t].commitSequence.Some? then index[t].commitSequence.value else 0
  }

  lemma StoreKeepsRecords(index: Index, latest: map<TxId, Transaction>, n: nat, tx: Transaction)
    requires IndexesRecords(index, latest, n)
    ensures IndexesRecords(Store(index, tx, n + 1), latest[tx.txId := tx], n + 1)
  {
  }

  lemma StoreKeepsCommits(index: Index, order: seq<TxId>, n: nat, tx: Transaction)
    requires IndexesCommits(index, order, n)
    ensures IndexesCommits(
              Store(index, tx, n + 1),
              if HasCommitDecision(tx.state) && tx.txId !in order then order + [tx.txId] else order,
              n + 1)
  {
    var next := Store(index, tx, n + 1);
    assert forall t :: t in order ==> CommitSequence(next, t) == CommitSequence(index, t);
    if HasCommitDecision(tx.state) && tx.txId !in order {
      assert CommitSequence(next, tx.txId) == n + 1;
    }
  }

  lemma {:induction false} IndexIsRight(log: Log)
    requires ValidLog(log)
    ensures Indexes(IndexOf(log), log)
  {
    if log != [] {
      var init, tx := log[..|log| - 1], log[|log| - 1];
      IndexIsRight(init);
      StoreKeepsRecords(IndexOf(init), Latest(init), |init|, tx);
      StoreKeepsCommits(IndexOf(init), CommitOrder(init), |init|, tx);
    }
  }

  /** A transaction's commit sequence is fixed forever by its first decision record. */
  lemma {:induction false} CommitSequenceIsFixed(log: Log, n: nat, t: TxId)
    requires n <= |log| && t in IndexOf(log[..n]) && IndexOf(log[..n])[t].commitSequence.Some?
    ensures t in IndexOf(log) && IndexOf(log)[t].commitSequence == IndexOf(log[..n])[t].commitSequence
  {
    if n == |log| {
      assert log[..n] == log;
    } else {
      assert log[..|log| - 1][..n] == log[..n];
      CommitSequenceIsFixed(log[..|log| - 1], n, t);
    }
  }

  // ----- list() -----

  /** `sort_by_key(|item| (commit_sequence.unwrap_or(u64::MAX), last_sequence))`. */
  predicate KeyBefore(a: Stored, b: Stored) {
    var ka := if a.commitSequence.Some? then a.commitSequence.value else U64_MAX;
    var kb := if b.commitSequence.Some? then b.commitSequence.value else U64_MAX;
    ka < kb || (ka == kb && a.lastSequence <= b.lastSequence)
  }

  /** `ids` is the order in which `list()` returns the index. */
  ghost predicate IsListing(index: Index, ids: seq<TxId>) {
    && Distinct(ids)
    && Elements(ids) == index.Keys
    && (forall i :: 0 <= i < |ids| ==> ids[i] in index)
    && (forall i, j :: 0 <= i < j < |ids| ==> KeyBefore(index[ids[i]], index[ids[j]]))
  }

  lemma NoElements(b: seq<TxId>)
    ensures Elements(b) == {} ==> b == []
  {
    if b != [] {
      assert b[0] in Elements(b);
    }
  }

  lemma SortedByIndex(a: seq<TxId>, key: TxId -> nat, p: nat, q: nat)
    requires StrictlySorted(a, key) && p < |a| && q < |a|
    ensures key(a[p]) <= key(a[q]) ==> p <= q
  {
    if q < p {
      assert key(a[q]) < key(a[p]);
    }
  }

  ghost predicate StrictlySorted(a: seq<TxId>, key: TxId -> nat) {
    forall i, j :: 0 <= i < j < |a| ==> key(a[i]) < key(a[j])
  }

  /** A strictly sorted sequence is determined by its elements. */
  lemma {:induction false} SortedIsUnique(a: seq<TxId>, b: seq<TxId>, key: TxId -> nat)
    requires StrictlySorted(a, key) && StrictlySorted(b, key)
    requires Elements(a) == Elements(b)
    ensures a == b
  {
    if a == [] {
      NoElements(b);
    } else {
      var m := |a| - 1;
      assert a[m] in Elements(b);
      var k :| 0 <= k < |b| && b[k] == a[m];
      var n := |b| - 1;
      assert b[n] in Elements(a);
      var l :| 0 <= l < |a| && a[l] == b[n];
      assert a[m] == b[n];
      SortedIsUnique(a[..m], b[..n], key) by {
        forall t ensures t in Elements(a[..m]) <==> t in Elements(b[..n]) {
          ElementsOfTake(a, m);
          ElementsOfTake(b, n);
          assert a[..m + 1] == a && b[..n + 1] == b;
          assert a[m] !in a[..m];
          assert b[n] !in b[..n];
        }
      }
      assert a == a[..m] + [a[m]] && b == b[..n] + [b[n]];
    }
  }

  /** `list()` returns the decided transactions in CommitOrder, then every undecided one. */
  lemma ListingStartsWithCommitOrder(log: Log, ids: seq<TxId>)
    requires ValidLog(log) && |log| < U64_MAX
    requires IsListing(IndexOf(log), ids)
    ensures |CommitOrder(log)| <= |ids| && ids[..|CommitOrder(log)|] == CommitOrder(log)
    ensures forall i :: |CommitOrder(log)| <= i < |ids| ==> ids[i] !in CommitOrder(log)
  {
    var index, order := IndexOf(log), CommitOrder(log);
    IndexIsRight(log);
    CommitOrderIsDecided(log);
    var n := DecidedPrefix(index, order, ids);
    assert Elements(ids[..n]) == Elements(order) by {
      forall t | t in order ensures t in ids[..n] {
        assert t in index && t in Elements(ids);
        var i :| 0 <= i < |ids| && ids[i] == t;
      }
    }
    var key := (t: TxId) => CommitSequence(index, t);
    forall i, j | 0 <= i < j < n ensures key(ids[i]) < key(ids[j]) {
      assert KeyBefore(index[ids[i]], index[ids[j]]);
      var p :| 0 <= p < |order| && order[p] == ids[i];
      var q :| 0 <= q < |order| && order[q] == ids[j];
      SortedByIndex(order, key, p, q);
    }
    SortedIsUnique(ids[..n], order, key);
  }

  /** Decided ids come first in a listing. */
  lemma DecidedPrefix(index: Index, order: seq<TxId>, ids: seq<TxId>) returns (n: nat)
    requires IsListing(index, ids)
    requires forall t :: t in index ==> (index[t].commitSequence.Some? <==> t in order)
    requires forall t :: t in index && index[t].commitSequence.Some? ==> index[t].commitSequence.value < U64_MAX
    ensures n <= |ids|
    ensures forall i :: 0 <= i < n ==> ids[i] in order
    ensures forall i :: n <= i < |ids| ==> ids[i] !in order
  {
    n := 0;
    while n < |ids| && ids[n] in order
      invariant n <= |ids| && forall i :: 0 <= i < n ==> ids[i] in order
    {
      n := n + 1;
    }
    if n < |ids| {
      forall i | n <= i < |ids| ensures ids[i] !in order {
        if i > n {
          assert KeyBefore(index[ids[n]], index[ids[i]]);
        }
      }
    }
  }
}
