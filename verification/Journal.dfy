/**
 The append-only, hash-chained journal file: append with every write outcome, replay with
 torn-tail repair (src/distributed_tx.rs). Serialization is a codec that writes one
 newline-free, non-blank line per record and reads back what it wrote.
 */
module Journal {
  import opened Prelude
  import opened Transactions
  import opened Log
  import opened LineFiles

  const JOURNAL_VERSION: nat := 2
  const MAX_JOURNAL_BYTES: nat := 512 * 1024 * 1024

  /** Record hashes: SHA3-256 over the core is injective; the chain starts from the empty string. */
  datatype ChainHash =
    | Genesis
    | CoreHash(core: Core)
    | OtherText(text: string)

  datatype Core = Core(version: nat, sequence: nat, prevHash: ChainHash, tx: Transaction)

  datatype Record = Record(core: Core, hash: ChainHash)

  /** What `serde_json` makes of a line: the hash of its raw "core" value and the typed record, if any. */
  datatype Reading =
    | NotJson
    | NoCore
    | NotARecord
    | Parsed(rawCoreHash: ChainHash, record: Record)

  datatype Codec = Codec(encode: Record -> seq<Byte>, parse: seq<Byte> -> Reading)

  predicate IsAsciiWhitespace(b: Byte) {
    b == 9 || b == 10 || b == 12 || b == 13 || b == 32
  }

  predicate IsBlank(line: seq<Byte>) {
    forall i :: 0 <= i < |line| ==> IsAsciiWhitespace(line[i])
  }

  /** A record is written on one non-blank line, and the line reads back as that record. */
  ghost predicate Faithful(c: Codec) {
    forall r: Record ::
      && NEWLINE !in c.encode(r) && !IsBlank(c.encode(r))
      && c.parse(c.encode(r)) == Parsed(CoreHash(r.core), r)
  }

  datatype JournalState = JournalState(sequence: nat, lastHash: ChainHash, transactions: Index)

  const EMPTY: JournalState := JournalState(0, Genesis, map[])

  datatype JournalError =
    | CorruptLine
    | LacksCore
    | UnsupportedVersion
    | SequenceGap
    | HashChainMismatch
    | RecordHashMismatch
    | Rejected(why: TransitionError)
    | ExceedsSafetyCap
    | WriteFailed
    | WriteAndReplayFailed

  function NewestOf(index: Index, t: TxId): Option<Transaction> {
    if t in index then Some(index[t].tx) else None
  }

  /** The state after record `sequence` with hash `hash` stored `tx`. */
  function Stepped(s: JournalState, tx: Transaction, sequence: nat, hash: ChainHash): JournalState {
    JournalState(sequence, hash, Store(s.transactions, tx, sequence))
  }

  /** One complete, non-blank line during replay. */
  function ReplayLine(s: JournalState, line: Reading): Result<JournalState, JournalError> {
    match line
    case NotJson => Err(CorruptLine)
    case NoCore => Err(LacksCore)
    case NotARecord => Err(CorruptLine)
    case Parsed(rawCoreHash, record) =>
      var core := record.core;
      if core.version != JOURNAL_VERSION then Err(UnsupportedVersion)
      else if core.sequence != SaturatingNext(s.sequence) then Err(SequenceGap)
      else if core.prevHash != s.lastHash then Err(HashChainMismatch)
      else if rawCoreHash != record.hash then Err(RecordHashMismatch)
      else
        var bad := CheckTransition(NewestOf(s.transactions, core.tx.txId), core.tx);
        if bad.Some? then Err(Rejected(bad.value)) else Ok(Stepped(s, core.tx, core.sequence, record.hash))
  }

  /** One complete line during replay; blank lines are skipped. */
  function Stepper(c: Codec): (JournalState, seq<Byte>) -> Result<JournalState, JournalError> {
    (s: JournalState, line: seq<Byte>) => if IsBlank(line) then Ok(s) else ReplayLine(s, c.parse(line))
  }

  /** The state, and how many bytes its complete lines take. */
  datatype Replayed = Replayed(state: JournalState, validLen: nat)

  function ReplayOnto(c: Codec, f: File, s: JournalState): Result<JournalState, JournalError> {
    Fold(Stepper(c), f, s)
  }

  /** `replay_journal` without the truncation: an oversized or inconsistent file is an error. */
  function ReplayFile(c: Codec, bytes: seq<Byte>): Result<Replayed, JournalError> {
    if |bytes| > MAX_JOURNAL_BYTES then Err(ExceedsSafetyCap) else
      match ReplayOnto(c, Lines(bytes), EMPTY)
      case Err(e) => Err(e)
      case Ok(s) => Ok(Replayed(s, CompleteLen(Lines(bytes))))
  }

  /** The record `append` writes for `tx`. */
  function NextRecord(s: JournalState, tx: Transaction): Record {
    var core := Core(JOURNAL_VERSION, SaturatingNext(s.sequence), s.lastHash, tx);
    Record(core, CoreHash(core))
  }

  function LineFor(c: Codec, s: JournalState, tx: Transaction): seq<Byte> {
    c.encode(NextRecord(s, tx)) + [NEWLINE]
  }

  function Appended(s: JournalState, tx: Transaction): JournalState {
    var r := NextRecord(s, tx);
    Stepped(s, tx, r.core.sequence, r.hash)
  }

  /** How the write and fsync went; `written` bytes of the line reached the file. */
  datatype WriteOutcome =
    | Durable
    | Failed(written: nat)
    | FailedUnreadable(written: nat)

  class DurableTxJournal {
    const codec: Codec
    var disk: seq<Byte>
    var state: JournalState

    /** The refinement: memory holds what a replay of the file would rebuild, and the file has no torn tail. */
    ghost predicate Synced()
      reads this
    {
      Faithful(codec) && ReplayFile(codec, disk) == Ok(Replayed(state, |disk|))
    }

    /** Opening a journal file; on an error nothing is opened. */
    constructor Open(codec: Codec, file: seq<Byte>)
      requires Faithful(codec) && ReplayFile(codec, file).Ok?
      ensures this.codec == codec && Synced()
      ensures disk <= file && |disk| == ReplayFile(codec, file).value.validLen
      ensures state == ReplayFile(codec, file).value.state
    {
      this.codec := codec;
      var r := Replay(codec, file);
      ReplayRepairs(codec, file);
      this.state := r.value.state;
      this.disk := file[..r.value.validLen];
    }

    method Append(tx: Transaction, outcome: WriteOutcome) returns (r: Result<(), JournalError>)
      requires Synced()
      modifies this`disk, this`state
      // The only way to lose the refinement is a failed write whose re-read fails too.
      ensures Synced() || r == Err(WriteAndReplayFailed)
      ensures r.Ok? ==> && MayFollow(NewestOf(old(state).transactions, tx.txId), tx)
                        && disk == old(disk) + LineFor(codec, old(state), tx)
                        && state == Appended(old(state), tx)
      ensures r == Err(WriteFailed) ==>
                || (disk == old(disk) && state == old(state))
                || (disk == old(disk) + LineFor(codec, old(state), tx) && state == Appended(old(state), tx))
      ensures r.Err? && r.error != WriteFailed && r.error != WriteAndReplayFailed ==>
                disk == old(disk) && state == old(state)
      ensures old(disk) <= disk
      ensures r.Ok? <==> outcome.Durable? && MayFollow(NewestOf(old(state).transactions, tx.txId), tx)
                         && |old(disk)| + |LineFor(codec, old(state), tx)| <= MAX_JOURNAL_BYTES
    {
      var bad := CheckTransition(NewestOf(state.transactions, tx.txId), tx);
      if bad.Some? {
        return Err(Rejected(bad.value));
      }
      var line := LineFor(codec, state, tx);
      if |disk| + |line| > MAX_JOURNAL_BYTES {
        return Err(ExceedsSafetyCap);
      }
      match outcome {
        case Durable =>
          AppendReplays(codec, disk, state, tx, |line|);
          assert line[..|line|] == line;
          disk := disk + line;
          state := Appended(state, tx);
          return Ok(());
        case Failed(written) =>
          var w := if written < |line| then written else |line|;
          var file := disk + line[..w];
          AppendReplays(codec, disk, state, tx, w);
          var replayed := Replay(codec, file);
          ReplayRepairs(codec, file);
          state := replayed.value.state;
          disk := file[..replayed.value.validLen];
          assert line[..|line|] == line;
          return Err(WriteFailed);
        case FailedUnreadable(written) =>
          disk := disk + line[..if written < |line| then written else |line|];
          return Err(WriteAndReplayFailed);
      }
    }

    /** `list()`: ids sorted by commit sequence, undecided ones last, ties by newest record. */
    method List() returns (ids: seq<TxId>)
      ensures IsListing(state.transactions, ids)
    {
      ids := [];
      var todo := state.transactions.Keys;
      while todo != {}
        invariant todo <= state.transactions.Keys
        invariant Distinct(ids) && Elements(ids) == state.transactions.Keys - todo
        invariant forall i :: 0 <= i < |ids| ==> ids[i] in state.transactions
        invariant forall i, j :: 0 <= i < j < |ids| ==>
                      KeyBefore(state.transactions[ids[i]], state.transactions[ids[j]])
        decreases |todo|
      {
        var t :| t in todo;
        todo := todo - {t};
        var at := 0;
        while at < |ids| && KeyBefore(state.transactions[ids[at]], state.transactions[t])
          invariant at <= |ids|
          invariant forall i :: 0 <= i < at ==> KeyBefore(state.transactions[ids[i]], state.transactions[t])
        {
          at := at + 1;
        }
        InsertKeepsSorted(state.transactions, ids, at, t);
        ids := ids[..at] + [t] + ids[at..];
      }
    }
  }

  lemma InsertKeepsSorted(index: Index, ids: seq<TxId>, at: nat, t: TxId)
    requires at <= |ids| && t in index && t !in Elements(ids) && Distinct(ids)
    requires forall i :: 0 <= i < |ids| ==> ids[i] in index
    requires forall i, j :: 0 <= i < j < |ids| ==> KeyBefore(index[ids[i]], index[ids[j]])
    requires forall i :: 0 <= i < at ==> KeyBefore(index[ids[i]], index[t])
    requires at < |ids| ==> !KeyBefore(index[ids[at]], index[t])
    ensures var out := ids[..at] + [t] + ids[at..];
            && Distinct(out) && Elements(out) == Elements(ids) + {t}
            && (forall i :: 0 <= i < |out| ==> out[i] in index)
            && (forall i, j :: 0 <= i < j < |out| ==> KeyBefore(index[out[i]], index[out[j]]))
  {
    InsertedElements(ids, at, t);
    forall i | at <= i < |ids| ensures KeyBefore(index[t], index[ids[i]]) {
      if i > at {
        assert KeyBefore(index[ids[at]], index[ids[i]]);
      }
    }
  }

  lemma InsertedElements(ids: seq<TxId>, at: nat, t: TxId)
    requires at <= |ids| && t !in Elements(ids) && Distinct(ids)
    ensures Distinct(ids[..at] + [t] + ids[at..]) && Elements(ids[..at] + [t] + ids[at..]) == Elements(ids) + {t}
  {
    var out := ids[..at] + [t] + ids[at..];
    forall x ensures x in Elements(out) <==> x in Elements(ids) + {t} {
      assert ids == ids[..at] + ids[at..];
    }
    assert forall i :: 0 <= i < |ids| ==> ids[i] in Elements(ids);
  }

  ghost predicate ReadUnfolded(u: Unfolding, c: Codec, bytes: seq<Byte>, f: File, state: JournalState, offset: nat)
  {
    && offset <= |bytes| && Split(f) && Bytes(f) == bytes[offset..]
    && ReplayOnto(c, Lines(bytes), EMPTY) == ReplayOnto(c, f, state)
    && CompleteLen(Lines(bytes)) == offset + CompleteLen(f)
  }

  /** The lines before `offset` lead to `state`; `f` is what follows them. Unfolded only by ReadMeans. */
  ghost predicate Read(c: Codec, bytes: seq<Byte>, f: File, state: JournalState, offset: nat) {
    forall u: Unfolding :: ReadUnfolded(u, c, bytes, f, state, offset)
  }

  lemma ReadMeans(c: Codec, bytes: seq<Byte>, f: File, state: JournalState, offset: nat)
    ensures Read(c, bytes, f, state, offset) <==> ReadUnfolded(Unfolding, c, bytes, f, state, offset)
  {
  }

  lemma NothingRead(c: Codec, bytes: seq<Byte>)
    ensures Read(c, bytes, Lines(bytes), EMPTY, 0)
  {
    assert bytes[0..] == bytes;
    ReadMeans(c, bytes, Lines(bytes), EMPTY, 0);
  }

  /** What one line does to a replay. */
  lemma OneLine(c: Codec, f: File, s: JournalState)
    requires f.Line?
    ensures CompleteLen(f) == |f.text| + 1 + CompleteLen(f.rest)
    ensures IsBlank(f.text) ==> ReplayOnto(c, f, s) == ReplayOnto(c, f.rest, s)
    ensures !IsBlank(f.text) ==>
              var one := ReplayLine(s, c.parse(f.text));
              ReplayOnto(c, f, s) == if one.Err? then Err(one.error) else ReplayOnto(c, f.rest, one.value)
  {
  }

  /** One complete line further, or the error it ends with. */
  lemma ReadOn(c: Codec, bytes: seq<Byte>, f: File, state: JournalState, offset: nat, end: nat)
    requires Read(c, bytes, f, state, offset) && offset <= end < |bytes| && end == NewlineFrom(bytes, offset)
    ensures var line := bytes[offset..end];
            && f.Line?
            && if IsBlank(line) then Read(c, bytes, f.rest, state, end + 1)
               else
                 var one := ReplayLine(state, c.parse(line));
                 if one.Ok? then Read(c, bytes, f.rest, one.value, end + 1)
                 else |bytes| <= MAX_JOURNAL_BYTES ==> ReplayFile(c, bytes) == Err(one.error)
  {
    ReadMeans(c, bytes, f, state, offset);
    NextLine(f, bytes, offset, end);
    OneLine(c, f, state);
    var one := ReplayLine(state, c.parse(f.text));
    ReadMeans(c, bytes, f.rest, state, end + 1);
    if one.Ok? {
      ReadMeans(c, bytes, f.rest, one.value, end + 1);
    }
  }

  /** No complete line is left. */
  lemma ReadAll(c: Codec, bytes: seq<Byte>, f: File, state: JournalState, offset: nat)
    requires Read(c, bytes, f, state, offset) && offset <= |bytes| && NewlineFrom(bytes, offset) == |bytes|
    requires |bytes| <= MAX_JOURNAL_BYTES
    ensures ReplayFile(c, bytes) == Ok(Replayed(state, offset))
  {
    ReadMeans(c, bytes, f, state, offset);
    LineHasNewline(f);
  }

  /** The replay loop: offset and valid length advance line by line. */
  method Replay(c: Codec, bytes: seq<Byte>) returns (r: Result<Replayed, JournalError>)
    ensures r == ReplayFile(c, bytes)
  {
    if |bytes| > MAX_JOURNAL_BYTES {
      return Err(ExceedsSafetyCap);
    }
    var state := EMPTY;
    var offset, validLen := 0, 0;
    ghost var f := Lines(bytes);
    NothingRead(c, bytes);
    while offset < |bytes|
      invariant offset == validLen <= |bytes| && Read(c, bytes, f, state, offset)
      decreases |bytes| - offset
    {
      var end := NewlineFrom(bytes, offset);
      if end == |bytes| {
        break;
      }
      ReadOn(c, bytes, f, state, offset, end);
      var line := bytes[offset..end];
      f := f.rest;
      offset := end + 1;
      validLen := offset;
      if IsBlank(line) {
        continue;
      }
      var stepped := ReplayLine(state, c.parse(line));
      if stepped.Err? {
        return Err(stepped.error);
      }
      state := stepped.value;
    }
    ReadAll(c, bytes, f, state, offset);
    return Ok(Replayed(state, validLen));
  }

  lemma NextLine(f: File, bytes: seq<Byte>, offset: nat, end: nat)
    requires offset <= end < |bytes| && Split(f) && Bytes(f) == bytes[offset..] && end == NewlineFrom(bytes, offset)
    ensures f.Line? && f.text == bytes[offset..end] && Bytes(f.rest) == bytes[end + 1..]
  {
    assert bytes[offset..] == bytes[offset..end] + [NEWLINE] + bytes[end + 1..];
    FirstLine(f, bytes[offset..end], bytes[end + 1..]);
  }

  // ----- prefixes, repair and appended lines -----

  /**
   Any byte prefix of a journal that replays also replays: to the state of exactly its complete lines.
   Cutting it at that boundary is idempotent, and the rest of the file continues from that state.
   */
  lemma PrefixReplays(c: Codec, bytes: seq<Byte>, k: nat)
    requires k <= |bytes| && ReplayFile(c, bytes).Ok?
    ensures var f := Lines(bytes);
            && Lines(bytes[..k]) == Cut(f, k)
            && ReplayFile(c, bytes[..k]).Ok?
            && var p := ReplayFile(c, bytes[..k]).value;
            && p.validLen <= k
            && bytes[..p.validLen] == Bytes(Complete(Cut(f, k)))
            && ReplayFile(c, bytes[..p.validLen]) == Ok(p)
            && bytes[p.validLen..] == Bytes(After(f, k))
            && ReplayOnto(c, After(f, k), p.state) == Ok(ReplayFile(c, bytes).value.state)
  {
    var f := Lines(bytes);
    CutIsPrefix(f, k);
    LinesOf(Cut(f, k));
    FoldCut(Stepper(c), f, k, EMPTY);
    CompleteIsPrefix(Cut(f, k));
    var v := CompleteLen(Cut(f, k));
    assert bytes[..k][..v] == bytes[..v];
    LinesOf(Complete(Cut(f, k)));
    FoldComplete(Stepper(c), Cut(f, k), EMPTY);
    CutAndAfter(f, k);
    assert bytes == bytes[..v] + Bytes(After(f, k));
  }

  /** Truncating to the valid length leaves a file that replays to the same state with no tail. */
  lemma ReplayRepairs(c: Codec, bytes: seq<Byte>)
    requires ReplayFile(c, bytes).Ok?
    ensures var p := ReplayFile(c, bytes).value;
            p.validLen <= |bytes| && ReplayFile(c, bytes[..p.validLen]) == Ok(p)
  {
    PrefixReplays(c, bytes, |bytes|);
    assert bytes[..|bytes|] == bytes;
  }

  lemma OwnLineSteps(c: Codec, s: JournalState, tx: Transaction)
    requires Faithful(c) && MayFollow(NewestOf(s.transactions, tx.txId), tx)
    ensures Stepper(c)(s, c.encode(NextRecord(s, tx))) == Ok(Appended(s, tx))
  {
    var r := NextRecord(s, tx);
    assert c.parse(c.encode(r)) == Parsed(CoreHash(r.core), r);
  }

  /** `w` bytes of a record's line behind a synced file: nothing changes until the newline is there. */
  lemma AppendReplays(c: Codec, disk: seq<Byte>, s: JournalState, tx: Transaction, w: nat)
    requires Faithful(c) && ReplayFile(c, disk) == Ok(Replayed(s, |disk|))
    requires MayFollow(NewestOf(s.transactions, tx.txId), tx)
    requires w <= |LineFor(c, s, tx)| && |disk| + w <= MAX_JOURNAL_BYTES
    ensures var line := LineFor(c, s, tx);
            ReplayFile(c, disk + line[..w]) ==
            if w == |line| then Ok(Replayed(Appended(s, tx), |disk| + |line|)) else Ok(Replayed(s, |disk|))
  {
    var line, more := LineFor(c, s, tx), Written(c, s, tx, w);
    WrittenFolds(c, s, tx, w);
    BehindFile(c, disk, s, more);
  }

  /** The first `w` bytes of a record's line, as a file of their own. */
  function Written(c: Codec, s: JournalState, tx: Transaction, w: nat): File
    requires w <= |LineFor(c, s, tx)|
  {
    var body := c.encode(NextRecord(s, tx));
    if w == |LineFor(c, s, tx)| then Line(body, Tail([])) else Tail(body[..w])
  }

  lemma WrittenFolds(c: Codec, s: JournalState, tx: Transaction, w: nat)
    requires Faithful(c) && MayFollow(NewestOf(s.transactions, tx.txId), tx) && w <= |LineFor(c, s, tx)|
    ensures var line, more := LineFor(c, s, tx), Written(c, s, tx, w);
            && Split(more) && Bytes(more) == line[..w] && CompleteLen(more) == (if w == |line| then w else 0)
            && ReplayOnto(c, more, s) == Ok(if w == |line| then Appended(s, tx) else s)
  {
    OwnLineSteps(c, s, tx);
    var body := c.encode(NextRecord(s, tx));
    assert Stepper(c)(s, body) == Ok(Appended(s, tx));
    assert Fold(Stepper(c), Tail([]), Appended(s, tx)) == Ok(Appended(s, tx));
    assert LineFor(c, s, tx)[..|LineFor(c, s, tx)|] == LineFor(c, s, tx);
    if w < |LineFor(c, s, tx)| {
      assert body[..w] == LineFor(c, s, tx)[..w];
    }
  }

  lemma ReplayIs(c: Codec, bytes: seq<Byte>, f: File, s: JournalState, validLen: nat)
    requires |bytes| <= MAX_JOURNAL_BYTES && Lines(bytes) == f && ReplayOnto(c, f, EMPTY) == Ok(s)
    requires CompleteLen(f) == validLen
    ensures ReplayFile(c, bytes).Ok?
    ensures ReplayFile(c, bytes).value.state == s && ReplayFile(c, bytes).value.validLen == validLen
  {
  }

  lemma WholeReplay(c: Codec, bytes: seq<Byte>, s: JournalState)
    requires ReplayFile(c, bytes) == Ok(Replayed(s, |bytes|))
    ensures var f := Lines(bytes);
            Split(f) && Bytes(f) == bytes && ReplayOnto(c, f, EMPTY) == Ok(s) && CompleteLen(f) == |bytes|
  {
  }

  /** What stands behind a file that replays completely is replayed onto its state. */
  lemma BehindFile(c: Codec, disk: seq<Byte>, s: JournalState, more: File)
    requires ReplayFile(c, disk) == Ok(Replayed(s, |disk|)) && Split(more) && ReplayOnto(c, more, s).Ok?
    requires |disk + Bytes(more)| <= MAX_JOURNAL_BYTES
    ensures var p := ReplayFile(c, disk + Bytes(more));
            && p.Ok? && p.value.state == ReplayOnto(c, more, s).value
            && p.value.validLen == |disk| + CompleteLen(more)
  {
    WholeReplay(c, disk, s);
    JoinedLines(disk, more);
    JoinedReplay(c, Lines(disk), more, s);
    ReplayIs(c, disk + Bytes(more), Join(Lines(disk), more), ReplayOnto(c, more, s).value,
             |disk| + CompleteLen(more));
  }

  lemma JoinedReplay(c: Codec, f: File, more: File, s: JournalState)
    requires Split(f) && ReplayOnto(c, f, EMPTY) == Ok(s) && CompleteLen(f) == |Bytes(f)|
    ensures ReplayOnto(c, Join(f, more), EMPTY) == ReplayOnto(c, more, s)
    ensures CompleteLen(Join(f, more)) == |Bytes(f)| + CompleteLen(more)
  {
    WholeFileIsComplete(f);
    FoldJoin(Stepper(c), f, more, EMPTY, s);
    JoinLength(f, more);
  }

  lemma JoinedLines(disk: seq<Byte>, more: File)
    requires Split(more) && CompleteLen(Lines(disk)) == |disk|
    ensures Lines(disk + Bytes(more)) == Join(Lines(disk), more)
  {
    WholeFileIsComplete(Lines(disk));
    JoinBytes(Lines(disk), more);
    LinesOf(Join(Lines(disk), more));
  }

  lemma {:induction false} JoinLength(f: File, g: File)
    ensures CompleteLen(Join(f, g)) == CompleteLen(f) + CompleteLen(g)
  {
    if f.Line? {
      JoinLength(f.rest, g);
    }
  }

  /** A crash anywhere inside an append loses no acknowledged record and keeps at most the one being written. */
  lemma TornAppendRecovers(c: Codec, disk: seq<Byte>, s: JournalState, tx: Transaction, w: nat)
    requires Faithful(c) && ReplayFile(c, disk) == Ok(Replayed(s, |disk|))
    requires MayFollow(NewestOf(s.transactions, tx.txId), tx)
    requires w <= |LineFor(c, s, tx)| && |disk| + w <= MAX_JOURNAL_BYTES
    ensures var file := disk + LineFor(c, s, tx)[..w];
            && ReplayFile(c, file).Ok?
            && var p := ReplayFile(c, file).value;
            && |disk| <= p.validLen <= |file|
            && p.state == (if w == |LineFor(c, s, tx)| then Appended(s, tx) else s)
            && ReplayFile(c, file[..p.validLen]) == Ok(p)
  {
    AppendReplays(c, disk, s, tx, w);
    ReplayRepairs(c, disk + LineFor(c, s, tx)[..w]);
  }

  // ----- the file, the log and the hash chain -----

  /** The chain hash after a whole log. */
  function ChainOf(log: Log): ChainHash {
    if log == [] then Genesis else
      CoreHash(Core(JOURNAL_VERSION, |log|, ChainOf(log[..|log| - 1]), log[|log| - 1]))
  }

  /** The journal state a log determines. */
  function StateOf(log: Log): JournalState {
    JournalState(|log|, ChainOf(log), IndexOf(log))
  }

  /** The record a line carries, if any. */
  function RecordOn(c: Codec, text: seq<Byte>): Log {
    if IsBlank(text) || !c.parse(text).Parsed? then [] else [c.parse(text).record.core.tx]
  }

  /** Records carried by the complete lines of a file. */
  function RecordsIn(c: Codec, f: File): Log {
    match f
    case Tail(_) => []
    case Line(text, rest) => RecordOn(c, text) + RecordsIn(c, rest)
  }

  /** On every line the raw "core" hashes like the typed one, as on all lines this version writes. */
  ghost predicate HonestHashes(c: Codec, f: File) {
    match f
    case Tail(_) => true
    case Line(text, rest) =>
      && (c.parse(text).Parsed? ==> c.parse(text).rawCoreHash == CoreHash(c.parse(text).record.core))
      && HonestHashes(c, rest)
  }

  lemma StepOfLog(log: Log, tx: Transaction)
    requires |log| < U64_MAX
    ensures Stepped(StateOf(log), tx, |log| + 1, ChainOf(log + [tx])) == StateOf(log + [tx])
    ensures Appended(StateOf(log), tx) == StateOf(log + [tx])
  {
    assert (log + [tx])[..|log|] == log;
  }

  /** An accepted line holds exactly the record `append` would have written. */
  lemma AcceptedLine(s: JournalState, r: Reading)
    requires ReplayLine(s, r).Ok? && r.rawCoreHash == CoreHash(r.record.core)
    ensures r.record == NextRecord(s, r.record.core.tx)
    ensures MayFollow(NewestOf(s.transactions, r.record.core.tx.txId), r.record.core.tx)
    ensures ReplayLine(s, r) == Ok(Appended(s, r.record.core.tx))
  {
  }

  lemma LogGrows(before: Log, tx: Transaction)
    requires ValidLog(before) && |before| < U64_MAX
    requires MayFollow(NewestOf(IndexOf(before), tx.txId), tx)
    ensures ValidLog(before + [tx]) && Appended(StateOf(before), tx) == StateOf(before + [tx])
  {
    IndexIsRight(before);
    assert NewestOf(IndexOf(before), tx.txId) == Lookup(Latest(before), tx.txId);
    StepOfLog(before, tx);
    Extended(before, tx);
  }

  lemma LogReading(before: Log, r: Reading)
    requires ValidLog(before) && |before| < U64_MAX && r.Parsed? && r.rawCoreHash == CoreHash(r.record.core)
    requires ReplayLine(StateOf(before), r).Ok?
    ensures var now := before + [r.record.core.tx];
            ValidLog(now) && ReplayLine(StateOf(before), r) == Ok(StateOf(now))
  {
    AcceptedLine(StateOf(before), r);
    LogGrows(before, r.record.core.tx);
  }

  /** One replayed line moves from the state of a log to the state of that log with one more record. */
  lemma LogLine(c: Codec, text: seq<Byte>, rest: File, before: Log)
    requires ValidLog(before) && |before| < U64_MAX && HonestHashes(c, Line(text, rest))
    requires ReplayOnto(c, Line(text, rest), StateOf(before)).Ok?
    ensures var now := before + RecordOn(c, text);
            ValidLog(now) && ReplayOnto(c, Line(text, rest), StateOf(before)) == ReplayOnto(c, rest, StateOf(now))
  {
    if IsBlank(text) {
      assert before + [] == before;
    } else {
      LogReading(before, c.parse(text));
    }
  }

  /** Replay rebuilds the state of a valid log: the one its complete lines carry. */
  lemma {:induction false} ReplayIsTheLog(c: Codec, f: File, before: Log) returns (log: Log)
    requires ValidLog(before) && |before| + CompleteLen(f) < U64_MAX && HonestHashes(c, f)
    requires ReplayOnto(c, f, StateOf(before)).Ok?
    ensures log == before + RecordsIn(c, f)
    ensures ValidLog(log) && ReplayOnto(c, f, StateOf(before)).value == StateOf(log)
    decreases f
  {
    match f
    case Tail(_) =>
      log := before;
    case Line(text, rest) =>
      LogLine(c, text, rest, before);
      log := ReplayIsTheLog(c, rest, before + RecordOn(c, text));
      ConcatAssociates(before, RecordOn(c, text), RecordsIn(c, rest));
  }

  lemma ConcatAssociates(a: Log, b: Log, c: Log)
    ensures a + b + c == a + (b + c)
  {
  }

  /** The in-memory state of a synced journal is the one its file's log determines, and that log is valid. */
  lemma JournalIsItsLog(c: Codec, bytes: seq<Byte>)
    requires ReplayFile(c, bytes).Ok? && HonestHashes(c, Lines(bytes))
    ensures var log := RecordsIn(c, Lines(bytes));
            ValidLog(log) && ReplayFile(c, bytes).value.state == StateOf(log)
  {
    CompleteIsPrefix(Lines(bytes));
    var log := ReplayIsTheLog(c, Lines(bytes), []);
    assert [] + RecordsIn(c, Lines(bytes)) == RecordsIn(c, Lines(bytes));
  }

  /** Equal last hashes mean equal histories: the chain pins every record before it. */
  lemma {:induction false} ChainPinsHistory(a: Log, b: Log)
    requires ChainOf(a) == ChainOf(b)
    ensures a == b
  {
    if a != [] {
      ChainPinsHistory(a[..|a| - 1], b[..|b| - 1]);
      assert a == a[..|a| - 1] + [a[|a| - 1]];
      assert b == b[..|b| - 1] + [b[|b| - 1]];
    }
  }
}
