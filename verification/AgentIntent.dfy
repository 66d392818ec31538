/** The text an agent signs to authorise a payment (src/agent_pay.rs:200-261). */
module AgentIntent {
  import opened Prelude
  import opened Text
  import Encoding

  const DOMAIN := "HACASH_AGENT_PAY_INTENT_V1\n"

  datatype Intent = Intent(
    providerId: string, agentId: string, from: string, to: string, amountHac: string, amountSatoshi: nat,
    feeHac: string,
    route: seq<string>, invoiceId: string, idempotencyKey: string, nonce: string, expiresUnix: nat)

  datatype IntentError = ControlCharacters(name: string) | NonceLength

  /** Rust's `char::is_control`. */
  predicate IsControl(c: char) {
    c as int < 0x20 || 0x7F <= c as int < 0xA0
  }

  predicate HasControl(s: string) {
    exists i :: 0 <= i < |s| && IsControl(s[i])
  }

  /** `value.len()`: bytes, not characters. */
  function ByteLength(s: string): nat { |Encoding.Utf8(s)| }

  /** A labelled text with its length, or a labelled number. */
  datatype Item = Labelled(name: string, value: string) | Number(name: string, n: nat)

  function ItemText(item: Item): string {
    match item
    case Labelled(name, value) =>
      name + "_len=" + Decimal(ByteLength(value)) + "\n" + name + "=" + value + "\n"
    case Number(name, n) => name + "=" + Decimal(n) + "\n"
  }

  function TextOf(items: seq<Item>): string {
    if items == [] then "" else ItemText(items[0]) + TextOf(items[1..])
  }

  function Before(i: Intent): seq<Item> {
    [Labelled("provider_id", i.providerId), Labelled("agent_id", i.agentId), Labelled("from", i.from),
     Labelled("to", i.to), Labelled("amount_hac", i.amountHac), Number("amount_satoshi", i.amountSatoshi),
     Labelled("fee_hac", i.feeHac), Number("route_count", |i.route|)]
  }

  function RouteItems(route: seq<string>, from: nat): seq<Item>
    requires from <= |route|
    decreases |route| - from
  {
    if from == |route| then [] else [Labelled("route_" + Decimal(from), route[from])] + RouteItems(route, from + 1)
  }

  function After(i: Intent): seq<Item> {
    [Labelled("invoice_id", i.invoiceId), Labelled("idempotency_key", i.idempotencyKey), Labelled("nonce", i.nonce),
     Number("expires_unix", i.expiresUnix)]
  }

  /** The fields checked for control characters, in order. Route entries are not among them. */
  function Checked(i: Intent): seq<(string, string)> {
    [("provider_id", i.providerId), ("agent_id", i.agentId), ("from", i.from), ("to", i.to),
     ("amount_hac", i.amountHac), ("fee_hac", i.feeHac), ("invoice_id", i.invoiceId),
     ("idempotency_key", i.idempotencyKey), ("nonce", i.nonce)]
  }

  function FirstControl(fields: seq<(string, string)>): Option<IntentError> {
    if fields == [] then None
    else if HasControl(fields[0].1) then Some(ControlCharacters(fields[0].0))
    else FirstControl(fields[1..])
  }

  function Body(i: Intent): string {
    DOMAIN + TextOf(Before(i)) + TextOf(RouteItems(i.route, 0)) + TextOf(After(i))
  }

  /** `agent_intent_message`. */
  function Message(i: Intent): Result<string, IntentError> {
    var control := FirstControl(Checked(i));
    if control.Some? then Err(control.value)
    else if ByteLength(i.nonce) < 16 || ByteLength(i.nonce) > 128 then Err(NonceLength)
    else Ok(Body(i))
  }

  // ----- the loops of the source -----

  lemma {:induction false} TextAppend(items: seq<Item>, item: Item)
    ensures TextOf(items + [item]) == TextOf(items) + ItemText(item)
  {
    var more := items + [item];
    if items == [] {
      assert more == [item] && more[1..] == [];
      assert TextOf(more) == ItemText(item) + "";
    } else {
      TextAppend(items[1..], item);
      assert more[0] == items[0] && more[1..] == items[1..] + [item];
      Regroup3(ItemText(items[0]), TextOf(items[1..]), ItemText(item));
    }
  }

  lemma Regroup3(a: string, b: string, c: string)
    ensures a + (b + c) == a + b + c
  {
  }

  /** `intent_field` for one field after another. */
  method WriteItems(out: string, items: seq<Item>) returns (r: string)
    ensures r == out + TextOf(items)
  {
    r := out;
    for k := 0 to |items|
      invariant r == out + TextOf(items[..k])
    {
      OneMoreItem(out, items, k);
      r := r + ItemText(items[k]);
    }
    assert items[..|items|] == items;
  }

  lemma OneMoreItem(out: string, items: seq<Item>, k: nat)
    requires k < |items|
    ensures out + TextOf(items[..k + 1]) == out + TextOf(items[..k]) + ItemText(items[k])
  {
    TextAppend(items[..k], items[k]);
    assert items[..k + 1] == items[..k] + [items[k]];
    assert out + (TextOf(items[..k]) + ItemText(items[k])) == out + TextOf(items[..k]) + ItemText(items[k]);
  }

  method WriteRoute(out: string, route: seq<string>) returns (r: string)
    ensures r == out + TextOf(RouteItems(route, 0))
  {
    r := out;
    var index := 0;
    while index < |route|
      invariant index <= |route|
      invariant r + TextOf(RouteItems(route, index)) == out + TextOf(RouteItems(route, 0))
    {
      RouteStep(r, route, index);
      r := r + ItemText(Labelled("route_" + Decimal(index), route[index]));
      index := index + 1;
    }
    assert r + "" == r;
  }

  lemma RouteStep(r: string, route: seq<string>, index: nat)
    requires index < |route|
    ensures r + TextOf(RouteItems(route, index))
            == r + ItemText(Labelled("route_" + Decimal(index), route[index])) + TextOf(RouteItems(route, index + 1))
  {
    assert RouteItems(route, index)[1..] == RouteItems(route, index + 1);
  }

  /** Nine fields are looked at, and route entries are not among them. */
  lemma NoControlIff(i: Intent)
    ensures FirstControl(Checked(i)).None? <==>
            && !HasControl(i.providerId) && !HasControl(i.agentId) && !HasControl(i.from) && !HasControl(i.to)
            && !HasControl(i.amountHac) && !HasControl(i.feeHac) && !HasControl(i.invoiceId)
            && !HasControl(i.idempotencyKey) && !HasControl(i.nonce)
  {
    ControlIff(Checked(i));
    var f := Checked(i);
    assert f[0].1 == i.providerId && f[1].1 == i.agentId && f[2].1 == i.from && f[3].1 == i.to
           && f[4].1 == i.amountHac && f[5].1 == i.feeHac && f[6].1 == i.invoiceId && f[7].1 == i.idempotencyKey
           && f[8].1 == i.nonce;
  }

  lemma {:induction false} ControlIff(fields: seq<(string, string)>)
    ensures FirstControl(fields).None? <==> forall k :: 0 <= k < |fields| ==> !HasControl(fields[k].1)
  {
    if fields != [] {
      ControlIff(fields[1..]);
      assert forall k :: 0 < k < |fields| ==> fields[k] == fields[1..][k - 1];
      if FirstControl(fields[1..]).Some? {
        var k :| 0 <= k < |fields[1..]| && HasControl(fields[1..][k].1);
        assert fields[k + 1] == fields[1..][k];
      }
    }
  }

  method AgentIntentMessage(i: Intent) returns (r: Result<string, IntentError>)
    ensures r == Message(i)
    ensures r.Ok? <==>
            && !HasControl(i.providerId) && !HasControl(i.agentId) && !HasControl(i.from) && !HasControl(i.to)
            && !HasControl(i.amountHac) && !HasControl(i.feeHac) && !HasControl(i.invoiceId)
            && !HasControl(i.idempotencyKey) && !HasControl(i.nonce) && 16 <= ByteLength(i.nonce) <= 128
  {
    NoControlIff(i);
    var fields := Checked(i);
    var k := 0;
    while k < |fields|
      invariant k <= |fields| && FirstControl(fields) == FirstControl(fields[k..])
    {
      assert fields[k..][1..] == fields[k + 1..];
      if HasControl(fields[k].1) {
        return Err(ControlCharacters(fields[k].0));
      }
      k := k + 1;
    }
    if ByteLength(i.nonce) < 16 || ByteLength(i.nonce) > 128 {
      return Err(NonceLength);
    }
    var out := WriteItems(DOMAIN, Before(i));
    out := WriteRoute(out, i.route);
    out := WriteItems(out, After(i));
    return Ok(out);
  }

  // ----- injectivity -----

  lemma CutPrefix(p: string, a: string, b: string)
    requires p + a == p + b
    ensures a == b
  {
    assert a == (p + a)[|p|..] && b == (p + b)[|p|..];
  }

  /** A decimal numeral ends at the newline after it. */
  lemma NumeralEnds(m: nat, n: nat, a: string, b: string)
    requires Decimal(m) + "\n" + a == Decimal(n) + "\n" + b
    ensures m == n && a == b
  {
    var s, t, all := Decimal(m), Decimal(n), Decimal(m) + "\n" + a;
    assert all[|s|] == '\n' && all[|t|] == '\n';
    assert forall j :: 0 <= j < |s| ==> all[j] == s[j];
    assert forall j :: 0 <= j < |t| ==> all[j] == t[j];
    assert |s| == |t|;
    assert s == all[..|s|] && t == all[..|t|];
    DecimalInjective(m, n);
    CutPrefix(s + "\n", a, b);
  }

  lemma {:induction false} Utf8Joined(s: string, t: string)
    ensures Encoding.Utf8(s + t) == Encoding.Utf8(s) + Encoding.Utf8(t)
  {
    if s == "" {
      assert s + t == t;
    } else {
      var st := s + t;
      assert st[0] == s[0] && st[1..] == s[1..] + t;
      Utf8Joined(s[1..], t);
      assert Encoding.Utf8(st) == Encoding.Utf8Char(s[0]) + Encoding.Utf8(s[1..] + t);
    }
  }

  /** A value is as long as its byte length says, whatever it contains. */
  lemma ValueEnds(v: string, w: string, a: string, b: string)
    requires v + a == w + b && ByteLength(v) == ByteLength(w)
    ensures v == w && a == b
  {
    if |v| <= |w| {
      PrefixOfSameLength(v, w, a, b);
    } else {
      PrefixOfSameLength(w, v, b, a);
    }
    CutPrefix(v, a, b);
  }

  lemma PrefixOfSameLength(v: string, w: string, a: string, b: string)
    requires v + a == w + b && ByteLength(v) == ByteLength(w) && |v| <= |w|
    ensures v == w
  {
    var rest := w[|v|..];
    assert v == (v + a)[..|v|] == (w + b)[..|v|] == w[..|v|];
    assert w == v + rest;
    Utf8Joined(v, rest);
    Encoding.Utf8Length(rest);
  }

  lemma Regroup(p: string, d: string, n: string, q: string, v: string, a: string)
    ensures p + d + n + q + v + n + a == p + (d + n + (q + (v + (n + a))))
  {
  }

  lemma LabelledText(name: string, v: string, a: string)
    ensures ItemText(Labelled(name, v)) + a
            == (name + "_len=") + (Decimal(ByteLength(v)) + "\n" + ((name + "=") + (v + ("\n" + a))))
  {
    var p, d, n, q := name + "_len=", Decimal(ByteLength(v)), "\n", name + "=";
    assert p + d + n + name + "=" == p + d + n + q;
    Regroup(p, d, n, q, v, a);
  }

  lemma LabelledEnds(name: string, v: string, w: string, a: string, b: string)
    requires ItemText(Labelled(name, v)) + a == ItemText(Labelled(name, w)) + b
    ensures v == w && a == b
  {
    var x, y, p, q := "\n" + a, "\n" + b, name + "_len=", name + "=";
    LabelledText(name, v, a);
    LabelledText(name, w, b);
    CutPrefix(p, Decimal(ByteLength(v)) + "\n" + (q + (v + x)), Decimal(ByteLength(w)) + "\n" + (q + (w + y)));
    NumeralEnds(ByteLength(v), ByteLength(w), q + (v + x), q + (w + y));
    CutPrefix(q, v + x, w + y);
    ValueEnds(v, w, x, y);
    CutPrefix("\n", a, b);
  }

  lemma NumberEnds(name: string, m: nat, n: nat, a: string, b: string)
    requires ItemText(Number(name, m)) + a == ItemText(Number(name, n)) + b
    ensures m == n && a == b
  {
    var p := name + "=";
    assert ItemText(Number(name, m)) + a == p + (Decimal(m) + "\n" + a);
    assert ItemText(Number(name, n)) + b == p + (Decimal(n) + "\n" + b);
    CutPrefix(p, Decimal(m) + "\n" + a, Decimal(n) + "\n" + b);
    NumeralEnds(m, n, a, b);
  }

  ghost predicate SameLabels(a: seq<Item>, b: seq<Item>) {
    |a| == |b| && forall k :: 0 <= k < |a| ==> a[k].name == b[k].name && (a[k].Number? <==> b[k].Number?)
  }

  lemma FirstItem(xs: seq<Item>, a: string)
    requires xs != []
    ensures TextOf(xs) + a == ItemText(xs[0]) + (TextOf(xs[1..]) + a)
  {
  }

  lemma OneItemEnds(x: Item, y: Item, a: string, b: string)
    requires x.name == y.name && (x.Number? <==> y.Number?) && ItemText(x) + a == ItemText(y) + b
    ensures x == y && a == b
  {
    if x.Number? {
      NumberEnds(x.name, x.n, y.n, a, b);
    } else {
      LabelledEnds(x.name, x.value, y.value, a, b);
    }
  }

  lemma {:induction false} ItemsEnd(xs: seq<Item>, ys: seq<Item>, a: string, b: string)
    requires SameLabels(xs, ys) && TextOf(xs) + a == TextOf(ys) + b
    ensures xs == ys && a == b
  {
    if xs == [] {
      assert TextOf(xs) + a == a && TextOf(ys) + b == b;
    } else {
      FirstItem(xs, a);
      FirstItem(ys, b);
      OneItemEnds(xs[0], ys[0], TextOf(xs[1..]) + a, TextOf(ys[1..]) + b);
      ItemsEnd(xs[1..], ys[1..], a, b);
      assert xs == [xs[0]] + xs[1..] && ys == [ys[0]] + ys[1..];
    }
  }

  lemma {:induction false} RouteLabels(route: seq<string>, other: seq<string>, from: nat)
    requires |route| == |other| && from <= |route|
    ensures SameLabels(RouteItems(route, from), RouteItems(other, from))
    ensures RouteItems(route, from) == RouteItems(other, from) ==> route[from..] == other[from..]
    decreases |route| - from
  {
    if from < |route| {
      RouteLabels(route, other, from + 1);
      var r, o := RouteItems(route, from), RouteItems(other, from);
      assert r[1..] == RouteItems(route, from + 1) && o[1..] == RouteItems(other, from + 1);
      if r == o {
        assert r[0].value == o[0].value;
        assert route[from..] == [route[from]] + route[from + 1..] && other[from..] == [other[from]] + other[from + 1..];
      }
    }
  }

  lemma BeforeTells(i: Intent, j: Intent)
    requires Before(i) == Before(j)
    ensures i.providerId == j.providerId && i.agentId == j.agentId && i.from == j.from && i.to == j.to
    ensures i.amountHac == j.amountHac && i.amountSatoshi == j.amountSatoshi && i.feeHac == j.feeHac
    ensures |i.route| == |j.route|
  {
    var x, y := Before(i), Before(j);
    assert x[0] == y[0] && x[1] == y[1] && x[2] == y[2] && x[3] == y[3];
    assert x[4] == y[4] && x[5] == y[5] && x[6] == y[6] && x[7] == y[7];
  }

  lemma AfterTells(i: Intent, j: Intent)
    requires After(i) == After(j)
    ensures i.invoiceId == j.invoiceId && i.idempotencyKey == j.idempotencyKey && i.nonce == j.nonce
    ensures i.expiresUnix == j.expiresUnix
  {
    var x, y := After(i), After(j);
    assert x[0] == y[0] && x[1] == y[1] && x[2] == y[2] && x[3] == y[3];
  }

  function AfterRoute(i: Intent): string { TextOf(After(i)) }

  function FromRoute(i: Intent): string { TextOf(RouteItems(i.route, 0)) + AfterRoute(i) }

  lemma Regroup4(a: string, b: string, c: string, d: string)
    ensures a + b + c + d == a + (b + (c + d))
  {
  }

  lemma BodyParts(i: Intent)
    ensures Body(i) == DOMAIN + (TextOf(Before(i)) + FromRoute(i))
  {
    Regroup4(DOMAIN, TextOf(Before(i)), TextOf(RouteItems(i.route, 0)), TextOf(After(i)));
  }

  lemma SameBefore(i: Intent, j: Intent)
    requires TextOf(Before(i)) + FromRoute(i) == TextOf(Before(j)) + FromRoute(j)
    ensures Before(i) == Before(j) && FromRoute(i) == FromRoute(j)
  {
    BeforeLabels(i, j);
    ItemsEnd(Before(i), Before(j), FromRoute(i), FromRoute(j));
  }

  lemma BeforeLabels(i: Intent, j: Intent)
    ensures SameLabels(Before(i), Before(j))
  {
  }

  lemma SameRoute(i: Intent, j: Intent)
    requires FromRoute(i) == FromRoute(j) && |i.route| == |j.route|
    ensures i.route == j.route && AfterRoute(i) == AfterRoute(j)
  {
    RouteLabels(i.route, j.route, 0);
    ItemsEnd(RouteItems(i.route, 0), RouteItems(j.route, 0), AfterRoute(i), AfterRoute(j));
    assert i.route[0..] == i.route && j.route[0..] == j.route;
  }

  lemma SameAfter(i: Intent, j: Intent)
    requires AfterRoute(i) == AfterRoute(j)
    ensures After(i) == After(j)
  {
    assert AfterRoute(i) + "" == AfterRoute(j) + "";
    assert SameLabels(After(i), After(j));
    ItemsEnd(After(i), After(j), "", "");
  }

  /**
   The signed text names one intent only: no two different intents produce the same message, not even
   when route entries hold newlines or look like other fields.
   */
  lemma MessageInjective(i: Intent, j: Intent)
    requires Message(i).Ok? && Message(i) == Message(j)
    ensures i == j
  {
    BodyParts(i);
    BodyParts(j);
    CutPrefix(DOMAIN, TextOf(Before(i)) + FromRoute(i), TextOf(Before(j)) + FromRoute(j));
    SameBefore(i, j);
    BeforeTells(i, j);
    SameRoute(i, j);
    SameAfter(i, j);
    AfterTells(i, j);
  }
}
