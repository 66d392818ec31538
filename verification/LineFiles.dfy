/** Byte files as complete lines plus a torn tail, and folds over their lines. */
module LineFiles {
  import opened Prelude

  newtype Byte = x: int | 0 <= x < 256

  const NEWLINE: Byte := 10

  datatype File =
    | Tail(bytes: seq<Byte>)
    | Line(text: seq<Byte>, rest: File)

  function Bytes(f: File): seq<Byte> {
    match f
    case Tail(b) => b
    case Line(text, rest) => text + [NEWLINE] + Bytes(rest)
  }

  /** No text or tail holds a newline. */
  ghost predicate Split(f: File) {
    match f
    case Tail(b) => NEWLINE !in b
    case Line(text, rest) => NEWLINE !in text && Split(rest)
  }

  /** Bytes that belong to complete lines. */
  function CompleteLen(f: File): nat {
    match f
    case Tail(_) => 0
    case Line(text, rest) => |text| + 1 + CompleteLen(rest)
  }

  /** The file without its torn tail. */
  function Complete(f: File): File {
    match f
    case Tail(_) => Tail([])
    case Line(text, rest) => Line(text, Complete(rest))
  }

  /** Index of the first newline at or after `from`, or the length. */
  function NewlineFrom(bytes: seq<Byte>, from: nat): (n: nat)
    requires from <= |bytes|
    ensures from <= n <= |bytes|
    ensures n < |bytes| ==> bytes[n] == NEWLINE
    ensures NEWLINE !in bytes[from..n]
    decreases |bytes| - from
  {
    if from == |bytes| || bytes[from] == NEWLINE then from else
      var n := NewlineFrom(bytes, from + 1);
      assert bytes[from..n] == [bytes[from]] + bytes[from + 1..n];
      n
  }

  /** The lines of `bytes`. */
  function Lines(bytes: seq<Byte>): (f: File)
    ensures Split(f) && Bytes(f) == bytes
    decreases |bytes|
  {
    var n := NewlineFrom(bytes, 0);
    if n == |bytes| then
      assert bytes == bytes[0..n];
      Tail(bytes)
    else
      assert bytes == bytes[0..n] + [NEWLINE] + bytes[n + 1..];
      Line(bytes[0..n], Lines(bytes[n + 1..]))
  }

  lemma SameFirstLine(a: seq<Byte>, x: seq<Byte>, b: seq<Byte>, y: seq<Byte>)
    requires NEWLINE !in a && NEWLINE !in b && a + [NEWLINE] + x == b + [NEWLINE] + y
    ensures a == b && x == y
  {
    var s := a + [NEWLINE] + x;
    assert s[|a|] == NEWLINE && s[|b|] == NEWLINE;
    assert forall i :: 0 <= i < |a| ==> s[i] == a[i];
    assert forall i :: 0 <= i < |b| ==> s[i] == b[i];
    assert |a| == |b|;
    assert a == s[..|a|] && b == s[..|b|];
    assert x == s[|a| + 1..] && y == s[|b| + 1..];
  }

  lemma LineHasNewline(f: File)
    ensures f.Line? ==> NEWLINE in Bytes(f)
  {
    if f.Line? {
      assert Bytes(f)[|f.text|] == NEWLINE;
    }
  }

  /** There is only one way to split a file into lines. */
  lemma {:induction false} SplitIsUnique(f: File, g: File)
    requires Split(f) && Split(g) && Bytes(f) == Bytes(g)
    ensures f == g
  {
    match f {
      case Tail(b) =>
        LineHasNewline(g);
      case Line(text, rest) =>
        if g.Line? {
          SameFirstLine(text, Bytes(rest), g.text, Bytes(g.rest));
          SplitIsUnique(rest, g.rest);
        } else {
          LineHasNewline(f);
        }
    }
  }

  lemma LinesOf(f: File)
    requires Split(f)
    ensures Lines(Bytes(f)) == f
  {
    SplitIsUnique(Lines(Bytes(f)), f);
  }

  /** The first line of a file that starts with `text` and a newline. */
  lemma FirstLine(f: File, text: seq<Byte>, tail: seq<Byte>)
    requires Split(f) && NEWLINE !in text && Bytes(f) == text + [NEWLINE] + tail
    ensures f.Line? && f.text == text && Bytes(f.rest) == tail
  {
    SplitIsUnique(f, Line(text, Lines(tail)));
  }

  // ----- cutting and joining files -----

  /** The file cut after `k` bytes. */
  function Cut(f: File, k: nat): File
    requires k <= |Bytes(f)|
  {
    match f
    case Tail(b) => Tail(b[..k])
    case Line(text, rest) => if k <= |text| then Tail(text[..k]) else Line(text, Cut(rest, k - |text| - 1))
  }

  /** What is left of the file behind the complete lines of its first `k` bytes. */
  function After(f: File, k: nat): File
    requires k <= |Bytes(f)|
  {
    match f
    case Tail(_) => f
    case Line(text, rest) => if k <= |text| then f else After(rest, k - |text| - 1)
  }

  /** A file without a tail, continued by another. */
  function Join(f: File, g: File): File {
    match f
    case Tail(_) => g
    case Line(text, rest) => Line(text, Join(rest, g))
  }

  lemma {:induction false} CutIsPrefix(f: File, k: nat)
    requires k <= |Bytes(f)| && Split(f)
    ensures Bytes(Cut(f, k)) == Bytes(f)[..k] && Split(Cut(f, k)) && Split(After(f, k))
    ensures CompleteLen(Cut(f, k)) <= k
  {
    match f
    case Tail(b) =>
    case Line(text, rest) =>
      if k > |text| {
        CutIsPrefix(rest, k - |text| - 1);
        assert Bytes(f)[..k] == text + [NEWLINE] + Bytes(rest)[..k - |text| - 1];
      } else {
        assert Bytes(f)[..k] == text[..k];
      }
  }

  lemma {:induction false} JoinBytes(f: File, g: File)
    requires Split(f) && Split(g)
    ensures Bytes(Join(Complete(f), g)) == Bytes(Complete(f)) + Bytes(g)
    ensures Split(Join(Complete(f), g))
  {
    if f.Line? {
      JoinBytes(f.rest, g);
      assert f.text + [NEWLINE] + (Bytes(Complete(f.rest)) + Bytes(g))
          == f.text + [NEWLINE] + Bytes(Complete(f.rest)) + Bytes(g);
    }
  }

  /** The complete part is a byte prefix of length CompleteLen. */
  lemma {:induction false} CompleteIsPrefix(f: File)
    requires Split(f)
    ensures CompleteLen(f) <= |Bytes(f)| && Bytes(f)[..CompleteLen(f)] == Bytes(Complete(f))
    ensures Split(Complete(f)) && CompleteLen(Complete(f)) == CompleteLen(f) == |Bytes(Complete(f))|
  {
    if f.Line? {
      CompleteIsPrefix(f.rest);
      assert Bytes(f)[..CompleteLen(f)] == f.text + [NEWLINE] + Bytes(f.rest)[..CompleteLen(f.rest)];
    }
  }

  lemma {:induction false} WholeFileIsComplete(f: File)
    requires Split(f) && CompleteLen(f) == |Bytes(f)|
    ensures Complete(f) == f
  {
    if f.Line? {
      WholeFileIsComplete(f.rest);
    }
  }

  // ----- folding -----

  /** Folds the complete lines onto `s`. */
  function Fold<S, E>(step: (S, seq<Byte>) -> Result<S, E>, f: File, s: S): Result<S, E> {
    match f
    case Tail(_) => Ok(s)
    case Line(text, rest) =>
      match step(s, text)
      case Err(e) => Err(e)
      case Ok(next) => Fold(step, rest, next)
  }

  lemma {:induction false} FoldJoin<S, E>(step: (S, seq<Byte>) -> Result<S, E>, f: File, g: File, s: S, mid: S)
    requires Fold(step, f, s) == Ok(mid)
    ensures Fold(step, Join(f, g), s) == Fold(step, g, mid)
    decreases f
  {
    if f.Line? {
      FoldJoin(step, f.rest, g, step(s, f.text).value, mid);
    }
  }

  lemma {:induction false} FoldComplete<S, E>(step: (S, seq<Byte>) -> Result<S, E>, f: File, s: S)
    ensures Fold(step, Complete(f), s) == Fold(step, f, s)
    decreases f
  {
    if f.Line? && step(s, f.text).Ok? {
      FoldComplete(step, f.rest, step(s, f.text).value);
    }
  }

  /** If the whole file folds, so does every cut, and folding resumes behind the cut without loss. */
  lemma {:induction false} FoldCut<S, E>(step: (S, seq<Byte>) -> Result<S, E>, f: File, k: nat, s: S)
    requires k <= |Bytes(f)| && Fold(step, f, s).Ok?
    ensures Fold(step, Cut(f, k), s).Ok?
    ensures Fold(step, After(f, k), Fold(step, Cut(f, k), s).value) == Fold(step, f, s)
    decreases f
  {
    match f
    case Tail(_) =>
    case Line(text, rest) =>
      if k > |text| {
        FoldCut(step, rest, k - |text| - 1, step(s, text).value);
      }
  }

  /** Cut and remainder together are the file, with the torn bytes of the cut re-read as part of the remainder. */
  lemma {:induction false} CutAndAfter(f: File, k: nat)
    requires k <= |Bytes(f)| && Split(f)
    ensures Join(Complete(Cut(f, k)), After(f, k)) == f
    ensures Bytes(Complete(Cut(f, k))) + Bytes(After(f, k)) == Bytes(f)
  {
    match f
    case Tail(_) =>
    case Line(text, rest) =>
      if k > |text| {
        CutAndAfter(rest, k - |text| - 1);
        assert text + [NEWLINE] + (Bytes(Complete(Cut(rest, k - |text| - 1))) + Bytes(After(rest, k - |text| - 1)))
            == text + [NEWLINE] + Bytes(Complete(Cut(rest, k - |text| - 1))) + Bytes(After(rest, k - |text| - 1));
      }
  }
}
