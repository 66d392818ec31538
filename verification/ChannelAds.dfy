/** The order-independent commitment to a hub's channel advertisements (src/crypto.rs:230-289). */
module ChannelAds {
  import opened Prelude
  import opened LineFiles
  import opened Encoding
  import opened Sorting
  import opened Text

  datatype Ad = Ad(
    channelId: string, left: string, right: string, viaProvider: string,
    capacityMei: U64, leftMei: U64, rightMei: U64, capacityZhu: U64, leftZhu: U64, rightZhu: U64, feePpm: U64)

  const DOMAIN := "HACASH_L2_CHANNEL_ADS_V2\0"

  // ----- the comparator: all eleven fields in turn -----

  datatype Part = Txt(text: string) | Int(n: nat)

  function Key(a: Ad): seq<Part> {
    [Txt(a.channelId), Txt(a.left), Txt(a.right), Txt(a.viaProvider), Int(a.capacityMei), Int(a.leftMei),
     Int(a.rightMei), Int(a.capacityZhu), Int(a.leftZhu), Int(a.rightZhu), Int(a.feePpm)]
  }

  predicate PartBefore(p: Part, q: Part) {
    match (p, q)
    case (Txt(s), Txt(t)) => TextBefore(s, t)
    case (Int(m), Int(n)) => m < n
    case (Txt(_), Int(_)) => true
    case (Int(_), Txt(_)) => false
  }

  /** Tuple comparison: the first difference decides. */
  predicate KeyBefore(a: seq<Part>, b: seq<Part>) {
    b != [] && (a == [] || PartBefore(a[0], b[0]) || (a[0] == b[0] && KeyBefore(a[1..], b[1..])))
  }

  predicate AtMost(a: Ad, b: Ad) {
    !KeyBefore(Key(b), Key(a))
  }

  lemma PartOrder(p: Part, q: Part, r: Part)
    ensures !PartBefore(p, p)
    ensures PartBefore(p, q) || p == q || PartBefore(q, p)
    ensures PartBefore(p, q) && PartBefore(q, r) ==> PartBefore(p, r)
  {
    TextOrder(if p.Txt? then p.text else "", if q.Txt? then q.text else "", if r.Txt? then r.text else "");
    TextOrder(if p.Txt? then p.text else "", "", "");
  }

  lemma {:induction false} KeyOrder(a: seq<Part>, b: seq<Part>, c: seq<Part>)
    ensures !KeyBefore(a, a)
    ensures KeyBefore(a, b) || a == b || KeyBefore(b, a)
    ensures KeyBefore(a, b) && KeyBefore(b, c) ==> KeyBefore(a, c)
    decreases a, b, c
  {
    if a != [] {
      KeyOrder(a[1..], if b == [] then [] else b[1..], if c == [] then [] else c[1..]);
      assert a == [a[0]] + a[1..];
      assert b != [] ==> b == [b[0]] + b[1..];
      if b != [] {
        PartOrder(a[0], b[0], if c == [] then a[0] else c[0]);
      } else {
        PartOrder(a[0], a[0], a[0]);
      }
    }
  }

  lemma KeyTells(a: Ad, b: Ad)
    requires Key(a) == Key(b)
    ensures a == b
  {
    var f, g := Key(a), Key(b);
    assert f[0] == g[0] && f[1] == g[1] && f[2] == g[2] && f[3] == g[3] && f[4] == g[4] && f[5] == g[5];
    assert f[6] == g[6] && f[7] == g[7] && f[8] == g[8] && f[9] == g[9] && f[10] == g[10];
  }

  /** The comparator is a total order in which only identical advertisements compare equal. */
  lemma ComparatorIsTotal(a: Ad, b: Ad, c: Ad)
    ensures AtMost(a, b) || AtMost(b, a)
    ensures AtMost(a, b) && AtMost(b, a) ==> a == b
    ensures AtMost(a, b) && AtMost(b, c) ==> AtMost(a, c)
  {
    KeyOrder(Key(a), Key(b), Key(a));
    KeyOrder(Key(c), Key(b), Key(a));
    KeyOrder(Key(c), Key(a), Key(b));
    KeyOrder(Key(b), Key(c), Key(a));
    if AtMost(a, b) && AtMost(b, a) {
      KeyTells(a, b);
    }
  }

  lemma ComparatorTotal()
    ensures Total(AtMost)
  {
    forall a, b, c: Ad ensures (AtMost(a, b) || AtMost(b, a)) && (AtMost(a, b) && AtMost(b, a) ==> a == b)
      && (AtMost(a, b) && AtMost(b, c) ==> AtMost(a, c)) {
      ComparatorIsTotal(a, b, c);
    }
  }

  /** `sort_by` with the comparator. */
  function SortedAds(ads: seq<Ad>): seq<Ad> {
    Sorted(ads, AtMost)
  }

  // ----- the hashed bytes -----

  function AdTexts(a: Ad): seq<Field> {
    [Str(a.channelId, 8), Str(a.left, 8), Str(a.right, 8), Str(a.viaProvider, 8)]
  }

  function AdNumbers(a: Ad): seq<Field> {
    [Num(a.capacityMei, 8), Num(a.leftMei, 8), Num(a.rightMei, 8), Num(a.capacityZhu, 8), Num(a.leftZhu, 8),
     Num(a.rightZhu, 8), Num(a.feePpm, 8)]
  }

  function AdFields(a: Ad): seq<Field> {
    AdTexts(a) + AdNumbers(a)
  }

  /** Strings whose byte length is a u64, as every string in memory is. */
  predicate InMemory(a: Ad) {
    4 * |a.channelId| <= U64_MAX && 4 * |a.left| <= U64_MAX && 4 * |a.right| <= U64_MAX
        && 4 * |a.viaProvider| <= U64_MAX
  }

  predicate AllInMemory(ads: seq<Ad>) {
    |ads| <= U64_MAX && forall a :: a in ads ==> InMemory(a)
  }

  lemma AdFits(a: Ad)
    requires InMemory(a)
    ensures ValidFields(AdFields(a))
  {
    assert ValidFields(AdTexts(a)) by { Widths(); }
    assert ValidFields(AdNumbers(a)) by { Widths(); }
  }

  function AdBytes(a: Ad): seq<Byte>
    requires InMemory(a)
  {
    AdFits(a);
    Written(AdFields(a))
  }

  function ListBytes(ads: seq<Ad>): seq<Byte>
    requires forall a :: a in ads ==> InMemory(a)
  {
    if ads == [] then [] else AdBytes(ads[0]) + ListBytes(ads[1..])
  }

  lemma SortedInMemory(ads: seq<Ad>)
    requires AllInMemory(ads)
    ensures AllInMemory(SortedAds(ads)) && |SortedAds(ads)| == |ads|
  {
    ComparatorTotal();
    SortedIsOrdered(ads, AtMost);
    assert |multiset(SortedAds(ads))| == |multiset(ads)|;
    forall a | a in SortedAds(ads) ensures InMemory(a) {
      assert a in multiset(ads);
    }
  }

  /** What `channel_ads_hash_hex` hashes. */
  function HashedBytes(ads: seq<Ad>): seq<Byte>
    requires AllInMemory(ads)
  {
    SortedInMemory(ads);
    Utf8(DOMAIN) + BigEndian(|ads|, 8) + ListBytes(SortedAds(ads))
  }

  lemma Regroup(a: seq<Byte>, b: seq<Byte>, c: seq<Byte>)
    ensures a + (b + c) == a + b + c
  {
  }

  lemma {:induction false} ListAppend(ads: seq<Ad>, a: Ad)
    requires InMemory(a) && forall b :: b in ads ==> InMemory(b)
    ensures ListBytes(ads + [a]) == ListBytes(ads) + AdBytes(a)
  {
    var more := ads + [a];
    if ads == [] {
      assert more == [a] && more[1..] == [];
      assert ListBytes(more) == AdBytes(a) + [];
    } else {
      ListAppend(ads[1..], a);
      assert more[0] == ads[0] && more[1..] == ads[1..] + [a];
      Regroup(AdBytes(ads[0]), ListBytes(ads[1..]), AdBytes(a));
    }
  }

  /** The hashed fields of an advertisement, in the order the comparator looks at them. */
  lemma AdOrder(a: Ad)
    ensures AdFields(a) ==
            [Str(a.channelId, 8), Str(a.left, 8), Str(a.right, 8), Str(a.viaProvider, 8), Num(a.capacityMei, 8),
             Num(a.leftMei, 8), Num(a.rightMei, 8), Num(a.capacityZhu, 8), Num(a.leftZhu, 8), Num(a.rightZhu, 8),
             Num(a.feePpm, 8)]
    ensures forall i :: 0 <= i < 11 ==>
              Key(a)[i] == if AdFields(a)[i].Num? then Int(AdFields(a)[i].n) else Txt(AdFields(a)[i].text)
  {
  }

  method WriteAd(a: Ad) returns (bytes: seq<Byte>)
    requires InMemory(a)
    ensures bytes == AdBytes(a)
  {
    AdFits(a);
    var out := new Output();
    out.AppendAll(AdFields(a));
    assert [] + AdFields(a) == AdFields(a);
    bytes := out.bytes;
  }

  lemma OneMoreAd(header: seq<Byte>, ads: seq<Ad>, i: nat)
    requires i < |ads| && forall a :: a in ads ==> InMemory(a)
    ensures header + ListBytes(ads[..i + 1]) == header + ListBytes(ads[..i]) + AdBytes(ads[i])
  {
    ListAppend(ads[..i], ads[i]);
    assert ads[..i + 1] == ads[..i] + [ads[i]];
    Regroup(header, ListBytes(ads[..i]), AdBytes(ads[i]));
  }

  method WriteAds(header: seq<Byte>, ads: seq<Ad>) returns (bytes: seq<Byte>)
    requires forall a :: a in ads ==> InMemory(a)
    ensures bytes == header + ListBytes(ads)
  {
    bytes := header;
    for i := 0 to |ads|
      invariant bytes == header + ListBytes(ads[..i])
    {
      OneMoreAd(header, ads, i);
      var ad := WriteAd(ads[i]);
      bytes := bytes + ad;
    }
    assert ads[..|ads|] == ads;
  }

  /** `channel_ads_hash_hex` up to the hash: sort, then append one advertisement after another. */
  method ChannelAdsBytes(channels: seq<Ad>) returns (bytes: seq<Byte>)
    requires AllInMemory(channels)
    ensures bytes == HashedBytes(channels)
  {
    var ordered := Sort(channels, AtMost);
    SortedInMemory(channels);
    bytes := WriteAds(Utf8(DOMAIN) + BigEndian(|ordered|, 8), ordered);
  }

  // ----- order independence and injectivity -----

  lemma AdFieldsTell(a: Ad, b: Ad)
    requires AdFields(a) == AdFields(b)
    ensures a == b
  {
    var f, g := AdFields(a), AdFields(b);
    assert AdTexts(a) == f[..4] && AdTexts(b) == g[..4] && AdNumbers(a) == f[4..] && AdNumbers(b) == g[4..];
    assert AdTexts(a)[0] == AdTexts(b)[0] && AdTexts(a)[1] == AdTexts(b)[1] && AdTexts(a)[2] == AdTexts(b)[2]
        && AdTexts(a)[3] == AdTexts(b)[3];
    var m, n := AdNumbers(a), AdNumbers(b);
    assert m[0] == n[0] && m[1] == n[1] && m[2] == n[2] && m[3] == n[3] && m[4] == n[4] && m[5] == n[5] && m[6] == n[6];
  }

  lemma AdLayout(a: Ad, b: Ad)
    ensures SameLayout(AdFields(a), AdFields(b))
  {
    assert SameLayout(AdTexts(a), AdTexts(b));
    assert SameLayout(AdNumbers(a), AdNumbers(b));
  }

  lemma {:induction false} ListInjective(a: seq<Ad>, b: seq<Ad>)
    requires |a| == |b| && (forall x :: x in a ==> InMemory(x)) && (forall x :: x in b ==> InMemory(x))
    requires ListBytes(a) == ListBytes(b)
    ensures a == b
  {
    if a != [] {
      AdFits(a[0]);
      AdFits(b[0]);
      AdLayout(a[0], b[0]);
      WrittenInjective(AdFields(a[0]), AdFields(b[0]), ListBytes(a[1..]), ListBytes(b[1..]));
      AdFieldsTell(a[0], b[0]);
      ListInjective(a[1..], b[1..]);
      assert a == [a[0]] + a[1..] && b == [b[0]] + b[1..];
    }
  }

  /** Two advertisement lists hash the same bytes exactly if they hold the same advertisements, each as often. */
  lemma SameHashIffSameAds(a: seq<Ad>, b: seq<Ad>)
    requires AllInMemory(a) && AllInMemory(b)
    ensures HashedBytes(a) == HashedBytes(b) <==> multiset(a) == multiset(b)
  {
    ComparatorTotal();
    SortedIsOrdered(a, AtMost);
    SortedIsOrdered(b, AtMost);
    SortedInMemory(a);
    SortedInMemory(b);
    if multiset(a) == multiset(b) {
      OrderedIsUnique(SortedAds(a), SortedAds(b), AtMost);
    }
    if HashedBytes(a) == HashedBytes(b) {
      SameHeader(|a|, |b|, ListBytes(SortedAds(a)), ListBytes(SortedAds(b)));
      ListInjective(SortedAds(a), SortedAds(b));
    }
  }

  lemma SameHeader(m: nat, n: nat, x: seq<Byte>, y: seq<Byte>)
    requires m <= U64_MAX && n <= U64_MAX
    requires Utf8(DOMAIN) + BigEndian(m, 8) + x == Utf8(DOMAIN) + BigEndian(n, 8) + y
    ensures m == n && x == y
  {
    var d := Utf8(DOMAIN);
    var s, t := d + BigEndian(m, 8) + x, d + BigEndian(n, 8) + y;
    assert BigEndian(m, 8) == s[|d|..|d| + 8] && BigEndian(n, 8) == t[|d|..|d| + 8];
    assert x == s[|d| + 8..] && y == t[|d| + 8..];
    Widths();
    BigEndianInjective(m, n, 8);
  }
}
