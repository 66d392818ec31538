/** Big-endian numbers, UTF-8, hex and length-delimited fields: the building blocks of every signed encoding. */
module Encoding {
  import opened Prelude
  import opened LineFiles

  type U8 = n: nat | n <= 0xFF
  type U16 = n: nat | n <= 0xFFFF
  type U32 = n: nat | n <= 0xFFFF_FFFF
  type U64 = n: nat | n <= U64_MAX

  // ----- numbers -----

  function Pow256(width: nat): (p: nat)
    ensures p >= 1
  {
    if width == 0 then 1 else 256 * Pow256(width - 1)
  }

  /** `to_be_bytes`. */
  function BigEndian(n: nat, width: nat): (b: seq<Byte>)
    ensures |b| == width
  {
    if width == 0 then [] else BigEndian(n / 256, width - 1) + [(n % 256) as Byte]
  }

  function Value(b: seq<Byte>): nat {
    if b == [] then 0 else 256 * Value(b[..|b| - 1]) + b[|b| - 1] as nat
  }

  lemma {:induction false} ValueOfBigEndian(n: nat, width: nat)
    requires n < Pow256(width)
    ensures Value(BigEndian(n, width)) == n
  {
    if width > 0 {
      ValueOfBigEndian(n / 256, width - 1);
      var b := BigEndian(n, width);
      assert b[..|b| - 1] == BigEndian(n / 256, width - 1);
    }
  }

  lemma Widths()
    ensures Pow256(1) == 0x100 && Pow256(2) == 0x1_0000 && Pow256(4) == 0x1_0000_0000
    ensures Pow256(8) == U64_MAX + 1
  {
    assert Pow256(2) == 256 * Pow256(1);
    assert Pow256(4) == 256 * Pow256(3) && Pow256(3) == 256 * Pow256(2);
    assert Pow256(6) == 256 * Pow256(5) && Pow256(5) == 256 * Pow256(4);
    assert Pow256(8) == 256 * Pow256(7) && Pow256(7) == 256 * Pow256(6);
  }

  // ----- UTF-8 -----

  function Utf8Char(c: char): seq<Byte> {
    var n := c as int;
    if n < 0x80 then [n as Byte]
    else if n < 0x800 then [(0xC0 + n / 0x40) as Byte, (0x80 + n % 0x40) as Byte]
    else if n < 0x1_0000 then [(0xE0 + n / 0x1000) as Byte, (0x80 + n / 0x40 % 0x40) as Byte, (0x80 + n % 0x40) as Byte]
    else
      [(0xF0 + n / 0x4_0000) as Byte, (0x80 + n / 0x1000 % 0x40) as Byte, (0x80 + n / 0x40 % 0x40) as Byte,
       (0x80 + n % 0x40) as Byte]
  }

  /** The bytes of a Rust string. */
  function Utf8(s: string): seq<Byte> {
    if s == "" then [] else Utf8Char(s[0]) + Utf8(s[1..])
  }

  /** The first byte tells how long the character is. */
  function LeadLength(b: Byte): nat {
    if b < 0x80 then 1 else if b < 0xE0 then 2 else if b < 0xF0 then 3 else 4
  }

  lemma CharLength(c: char)
    ensures |Utf8Char(c)| == LeadLength(Utf8Char(c)[0])
  {
  }

  lemma CharInjective(c: char, d: char)
    requires Utf8Char(c) == Utf8Char(d)
    ensures c == d
  {
    var m, n := c as int, d as int;
    CharLength(c);
    CharLength(d);
    var b, e := Utf8Char(c), Utf8Char(d);
    if |b| == 2 {
      assert m == (b[0] as int - 0xC0) * 0x40 + (b[1] as int - 0x80);
      assert n == (e[0] as int - 0xC0) * 0x40 + (e[1] as int - 0x80);
    } else if |b| == 3 {
      ThreeBytes(m);
      ThreeBytes(n);
    } else if |b| == 4 {
      FourBytes(m);
      FourBytes(n);
    }
  }

  lemma ThreeBytes(n: nat)
    ensures n == n / 0x1000 * 0x1000 + n / 0x40 % 0x40 * 0x40 + n % 0x40
  {
    var a := n / 0x40;
    assert n / 0x1000 == a / 0x40;
  }

  lemma FourBytes(n: nat)
    ensures n == n / 0x4_0000 * 0x4_0000 + n / 0x1000 % 0x40 * 0x1000 + n / 0x40 % 0x40 * 0x40 + n % 0x40
  {
    var a := n / 0x1000;
    assert n / 0x4_0000 == a / 0x40;
    ThreeBytes(n);
  }

  /** No two texts have the same bytes. */
  lemma {:induction false} Utf8Injective(s: string, t: string)
    requires Utf8(s) == Utf8(t)
    ensures s == t
  {
    if s != "" && t != "" {
      CharLength(s[0]);
      CharLength(t[0]);
      var b := Utf8(s);
      assert b[0] == Utf8Char(s[0])[0] && b[0] == Utf8Char(t[0])[0];
      var k := LeadLength(b[0]);
      assert b[..k] == Utf8Char(s[0]) && b[..k] == Utf8Char(t[0]);
      assert b[k..] == Utf8(s[1..]) && b[k..] == Utf8(t[1..]);
      CharInjective(s[0], t[0]);
      Utf8Injective(s[1..], t[1..]);
      assert s == [s[0]] + s[1..] && t == [t[0]] + t[1..];
    }
  }

  // ----- lower-case hex -----

  predicate IsLowerHexDigit(c: char) {
    '0' <= c <= '9' || 'a' <= c <= 'f'
  }

  function HexDigit(c: char): nat
    requires IsLowerHexDigit(c)
    ensures HexDigit(c) < 16
  {
    if c <= '9' then c as int - '0' as int else c as int - 'a' as int + 10
  }

  /** Lower-case hex of exactly `bytes` bytes. */
  predicate IsHexOf(s: string, bytes: nat) {
    |s| == 2 * bytes && forall i :: 0 <= i < |s| ==> IsLowerHexDigit(s[i])
  }

  /** `hex::decode` of a lower-case string. */
  function HexBytes(s: string): (b: seq<Byte>)
    requires IsHexOf(s, |s| / 2)
    ensures |b| == |s| / 2
  {
    if s == "" then [] else [(16 * HexDigit(s[0]) + HexDigit(s[1])) as Byte] + HexBytes(s[2..])
  }

  lemma {:induction false} HexInjective(s: string, t: string)
    requires IsHexOf(s, |s| / 2) && IsHexOf(t, |t| / 2) && HexBytes(s) == HexBytes(t)
    ensures s == t
  {
    if s != "" {
      assert HexBytes(s)[0] == HexBytes(t)[0];
      assert HexBytes(s)[1..] == HexBytes(s[2..]) && HexBytes(t)[1..] == HexBytes(t[2..]);
      HexInjective(s[2..], t[2..]);
      assert s == s[..2] + s[2..] && t == t[..2] + t[2..];
    }
  }

  // ----- records of fields -----

  /** How a field is written: raw bytes of a known width, or its length first. */
  datatype Shape = Fixed(width: nat) | Delimited(lengthWidth: nat)

  predicate FieldFits(shape: Shape, b: seq<Byte>) {
    match shape
    case Fixed(w) => |b| == w
    case Delimited(w) => |b| < Pow256(w)
  }

  function EncodeField(shape: Shape, b: seq<Byte>): seq<Byte> {
    match shape
    case Fixed(w) => b
    case Delimited(w) => BigEndian(|b|, w) + b
  }

  predicate Fit(shapes: seq<Shape>, fields: seq<seq<Byte>>) {
    |shapes| == |fields| && forall i :: 0 <= i < |shapes| ==> FieldFits(shapes[i], fields[i])
  }

  function Encode(shapes: seq<Shape>, fields: seq<seq<Byte>>): seq<Byte>
    requires |shapes| == |fields|
  {
    if shapes == [] then [] else EncodeField(shapes[0], fields[0]) + Encode(shapes[1..], fields[1..])
  }

  /** Reads one field; None if the bytes are too short. */
  function DecodeField(shape: Shape, b: seq<Byte>): Option<(seq<Byte>, seq<Byte>)> {
    match shape
    case Fixed(w) => if |b| < w then None else Some((b[..w], b[w..]))
    case Delimited(w) =>
      if |b| < w then None else
        var n := Value(b[..w]);
        if |b| < w + n then None else Some((b[w..w + n], b[w + n..]))
  }

  /** The fields at the start of `b`, and what follows them. */
  function Decode(shapes: seq<Shape>, b: seq<Byte>): Option<(seq<seq<Byte>>, seq<Byte>)> {
    if shapes == [] then Some(([], b)) else
      var first := DecodeField(shapes[0], b);
      if first.None? then None else
        var rest := Decode(shapes[1..], first.value.1);
        if rest.None? then None else Some(([first.value.0] + rest.value.0, rest.value.1))
  }

  lemma FieldDecodes(shape: Shape, b: seq<Byte>, rest: seq<Byte>)
    requires FieldFits(shape, b)
    ensures DecodeField(shape, EncodeField(shape, b) + rest) == Some((b, rest))
  {
    var all := EncodeField(shape, b) + rest;
    match shape
    case Fixed(w) =>
      assert all[..w] == b && all[w..] == rest;
    case Delimited(w) =>
      ValueOfBigEndian(|b|, w);
      assert all[..w] == BigEndian(|b|, w);
      assert all[w..w + |b|] == b && all[w + |b|..] == rest;
  }

  /** Decoding inverts encoding, whatever follows. */
  lemma {:induction false} DecodeInverts(shapes: seq<Shape>, fields: seq<seq<Byte>>, rest: seq<Byte>)
    requires Fit(shapes, fields)
    ensures Decode(shapes, Encode(shapes, fields) + rest) == Some((fields, rest))
  {
    if shapes == [] {
      assert Encode(shapes, fields) + rest == rest;
    } else {
      var tail := Encode(shapes[1..], fields[1..]);
      assert Encode(shapes, fields) + rest == EncodeField(shapes[0], fields[0]) + (tail + rest);
      FieldDecodes(shapes[0], fields[0], tail + rest);
      DecodeInverts(shapes[1..], fields[1..], rest);
      assert fields == [fields[0]] + fields[1..];
    }
  }

  lemma BigEndianInjective(m: nat, n: nat, width: nat)
    requires m < Pow256(width) && n < Pow256(width) && BigEndian(m, width) == BigEndian(n, width)
    ensures m == n
  {
    ValueOfBigEndian(m, width);
    ValueOfBigEndian(n, width);
  }

  // ----- typed fields -----

  /** A field as the source appends it: a number, lower-case hex, or a string with its length before it. */
  datatype Field =
    | Num(n: nat, width: nat)
    | Hex(text: string, lengthWidth: nat)
    | Str(text: string, lengthWidth: nat)

  function ShapeOf(f: Field): Shape {
    match f
    case Num(n, w) => Fixed(w)
    case Hex(t, w) => Delimited(w)
    case Str(t, w) => Delimited(w)
  }

  predicate ValidField(f: Field) {
    match f
    case Num(n, w) => n < Pow256(w)
    case Hex(t, w) => |t| < Pow256(w) && IsHexOf(t, |t| / 2)
    case Str(t, w) => 4 * |t| < Pow256(w)
  }

  function BytesOf(f: Field): seq<Byte>
    requires ValidField(f)
  {
    match f
    case Num(n, w) => BigEndian(n, w)
    case Hex(t, w) => HexBytes(t)
    case Str(t, w) => Utf8(t)
  }

  predicate ValidFields(fs: seq<Field>) {
    forall f :: f in fs ==> ValidField(f)
  }

  function Shapes(fs: seq<Field>): (s: seq<Shape>)
    ensures |s| == |fs| && forall i :: 0 <= i < |fs| ==> s[i] == ShapeOf(fs[i])
  {
    if fs == [] then [] else Shapes(fs[..|fs| - 1]) + [ShapeOf(fs[|fs| - 1])]
  }

  function AllBytes(fs: seq<Field>): (b: seq<seq<Byte>>)
    requires ValidFields(fs)
    ensures |b| == |fs| && forall i :: 0 <= i < |fs| ==> b[i] == BytesOf(fs[i])
  {
    if fs == [] then [] else AllBytes(fs[..|fs| - 1]) + [BytesOf(fs[|fs| - 1])]
  }

  /** The bytes of a record. */
  function Written(fs: seq<Field>): seq<Byte>
    requires ValidFields(fs)
  {
    if fs == [] then [] else Written(fs[..|fs| - 1]) + EncodeField(ShapeOf(fs[|fs| - 1]), BytesOf(fs[|fs| - 1]))
  }

  lemma {:induction false} Utf8Length(s: string)
    ensures |s| <= |Utf8(s)| <= 4 * |s|
  {
    if s != "" {
      Utf8Length(s[1..]);
    }
  }

  lemma FieldHasShape(f: Field)
    requires ValidField(f)
    ensures FieldFits(ShapeOf(f), BytesOf(f))
  {
    match f
    case Num(n, w) =>
    case Hex(t, w) =>
    case Str(t, w) => Utf8Length(t);
  }

  lemma FieldInjective(f: Field, g: Field)
    requires ValidField(f) && ValidField(g) && BytesOf(f) == BytesOf(g)
    requires f.Num? <==> g.Num?
    requires f.Hex? <==> g.Hex?
    requires ShapeOf(f) == ShapeOf(g)
    ensures f == g
  {
    match f
    case Num(n, w) => BigEndianInjective(n, g.n, w);
    case Hex(t, w) => HexInjective(t, g.text);
    case Str(t, w) => Utf8Injective(t, g.text);
  }

  lemma {:induction false} WrittenIsEncoded(fs: seq<Field>)
    requires ValidFields(fs)
    ensures Written(fs) == Encode(Shapes(fs), AllBytes(fs))
  {
    if fs != [] {
      var n := |fs| - 1;
      WrittenIsEncoded(fs[..n]);
      EncodeAppend(Shapes(fs[..n]), AllBytes(fs[..n]), ShapeOf(fs[n]), BytesOf(fs[n]));
    }
  }

  lemma {:induction false} EncodeAppend(shapes: seq<Shape>, fields: seq<seq<Byte>>, shape: Shape, b: seq<Byte>)
    requires |shapes| == |fields|
    ensures Encode(shapes + [shape], fields + [b]) == Encode(shapes, fields) + EncodeField(shape, b)
  {
    if shapes == [] {
      assert shapes + [shape] == [shape] && fields + [b] == [b];
      assert [shape][1..] == [] && [b][1..] == [];
    } else {
      EncodeAppend(shapes[1..], fields[1..], shape, b);
      assert (shapes + [shape])[1..] == shapes[1..] + [shape] && (fields + [b])[1..] == fields[1..] + [b];
    }
  }

  /** The same kinds of fields in the same order. */
  ghost predicate SameLayout(a: seq<Field>, b: seq<Field>) {
    && |a| == |b|
    && forall i :: 0 <= i < |a| ==>
         ShapeOf(a[i]) == ShapeOf(b[i]) && (a[i].Num? <==> b[i].Num?) && (a[i].Hex? <==> b[i].Hex?)
  }

  lemma LayoutFits(fs: seq<Field>)
    requires ValidFields(fs)
    ensures Fit(Shapes(fs), AllBytes(fs))
  {
    forall i | 0 <= i < |fs| ensures FieldFits(ShapeOf(fs[i]), BytesOf(fs[i])) {
      FieldHasShape(fs[i]);
    }
  }

  /** A decoder that knows the layout reads every field back, whatever follows the record. */
  lemma WrittenDecodes(fs: seq<Field>, rest: seq<Byte>)
    requires ValidFields(fs)
    ensures Decode(Shapes(fs), Written(fs) + rest) == Some((AllBytes(fs), rest))
  {
    LayoutFits(fs);
    WrittenIsEncoded(fs);
    DecodeInverts(Shapes(fs), AllBytes(fs), rest);
  }

  /** Records of one layout are equal if their bytes, each followed by anything, are. */
  lemma WrittenInjective(a: seq<Field>, b: seq<Field>, ra: seq<Byte>, rb: seq<Byte>)
    requires ValidFields(a) && ValidFields(b) && SameLayout(a, b) && Written(a) + ra == Written(b) + rb
    ensures a == b && ra == rb
  {
    assert Shapes(a) == Shapes(b);
    WrittenDecodes(a, ra);
    WrittenDecodes(b, rb);
    forall i | 0 <= i < |a| ensures a[i] == b[i] {
      assert AllBytes(a)[i] == AllBytes(b)[i];
      FieldInjective(a[i], b[i]);
    }
  }

  /** Records that start with different texts of one length width never have the same bytes. */
  lemma DomainsSeparate(a: seq<Field>, b: seq<Field>)
    requires ValidFields(a) && ValidFields(b) && a != [] && b != []
    requires a[0].Str? && b[0].Str? && a[0].lengthWidth == b[0].lengthWidth && a[0] != b[0]
    ensures Written(a) != Written(b)
  {
    WrittenIsEncoded(a);
    WrittenIsEncoded(b);
    FieldHasShape(a[0]);
    FieldHasShape(b[0]);
    FieldDecodes(ShapeOf(a[0]), BytesOf(a[0]), Encode(Shapes(a)[1..], AllBytes(a)[1..]));
    FieldDecodes(ShapeOf(b[0]), BytesOf(b[0]), Encode(Shapes(b)[1..], AllBytes(b)[1..]));
    if Written(a) == Written(b) {
      FieldInjective(a[0], b[0]);
    }
  }

  lemma WrittenOneMore(fs: seq<Field>, f: Field)
    requires ValidFields(fs) && ValidField(f)
    ensures ValidFields(fs + [f]) && Written(fs + [f]) == Written(fs) + EncodeField(ShapeOf(f), BytesOf(f))
  {
    var more := fs + [f];
    assert more[..|more| - 1] == fs && more[|more| - 1] == f;
  }

  lemma OneMoreField(before: seq<Field>, fs: seq<Field>, i: nat)
    requires i < |fs|
    ensures fs[i] in fs && before + fs[..i + 1] == before + fs[..i] + [fs[i]]
  {
  }

  /** The growing buffer of the `canonical_bytes` functions. */
  class Output {
    var bytes: seq<Byte>
    ghost var fields: seq<Field>

    ghost predicate Valid()
      reads this
    {
      ValidFields(fields) && bytes == Written(fields)
    }

    constructor ()
      ensures Valid() && fields == []
    {
      bytes, fields := [], [];
    }

    method Append(f: Field)
      requires Valid() && ValidField(f)
      modifies this
      ensures Valid() && fields == old(fields) + [f]
    {
      WrittenOneMore(fields, f);
      if f.Num? {
        bytes := bytes + BigEndian(f.n, f.width);
      } else {
        var value := if f.Hex? then HexBytes(f.text) else Utf8(f.text);
        bytes := bytes + BigEndian(|value|, f.lengthWidth) + value;
      }
      fields := fields + [f];
    }

    method AppendAll(fs: seq<Field>)
      requires Valid() && ValidFields(fs)
      modifies this
      ensures Valid() && fields == old(fields) + fs
    {
      for i := 0 to |fs|
        invariant Valid() && fields == old(fields) + fs[..i]
      {
        OneMoreField(old(fields), fs, i);
        Append(fs[i]);
      }
      assert fs[..|fs|] == fs;
    }
  }
}
