/**
 One hub's own run, seen from inside: what it does and which messages reach it. Whatever such a run
 does is a run of the whole cluster, however the other hubs' steps fall in between.
 */
module NodeRuns {
  import opened Prelude
  import opened Transactions
  import opened Log
  import opened Hub
  import opened TwoPhaseCommit
  import opened Cluster

  datatype Event =
    | Act(step: ClusterStep)
    | Arrive(request: Request)
    | Answer(response: Response)

  ghost predicate CanDo(c: Cluster, sites: Sites, e: Event) {
    e.Act? ==> Possible(c, sites, e.step)
  }

  ghost function Do(c: Cluster, sites: Sites, e: Event): Cluster
    requires CanDo(c, sites, e)
  {
    match e
    case Act(s) => Stepped(c, sites, s)
    case Arrive(r) => c.(requests := c.requests + {r})
    case Answer(s) => c.(responses := c.responses + {s})
  }

  ghost function Play(c: Cluster, sites: Sites, events: seq<Event>): Option<Cluster>
    decreases events
  {
    if events == [] then Some(c)
    else if CanDo(c, sites, events[0]) then Play(Do(c, sites, events[0]), sites, events[1..])
    else None
  }

  lemma {:induction false} PlayOneMore(c: Cluster, sites: Sites, events: seq<Event>, e: Event)
    requires Play(c, sites, events).Some? && CanDo(Play(c, sites, events).value, sites, e)
    ensures Play(c, sites, events + [e]) == Some(Do(Play(c, sites, events).value, sites, e))
    decreases events
  {
    if events == [] {
      assert [e][1..] == [];
      assert [] + [e] == [e];
      var d := Do(c, sites, e);
      assert Play(d, sites, []) == Some(d);
    } else {
      assert (events + [e])[1..] == events[1..] + [e];
      PlayOneMore(Do(c, sites, events[0]), sites, events[1..], e);
    }
  }

  // ----- one hub within the cluster -----

  /** `l` is what hub `p` of cluster `c` knows: its own state and some of the messages sent so far. */
  ghost predicate Within(p: Provider, l: Cluster, c: Cluster) {
    && l.hubs.Keys == {p} && p in c.hubs && l.hubs[p] == c.hubs[p]
    && l.requests <= c.requests && l.responses <= c.responses
  }

  ghost predicate WithinWire(p: Provider, n: Wire, m: Wire) {
    && n.logs.Keys == {p} && p in m.logs && n.logs[p] == m.logs[p]
    && n.requests <= m.requests && n.responses <= m.responses
  }

  lemma MayWithMore(responses: set<Response>, more: set<Response>, a: Transaction, b: Transaction)
    requires responses <= more && CoordinatorMay(responses, a, b)
    ensures CoordinatorMay(more, a, b)
  {
  }

  lemma AllowedWithMore(p: Provider, n: Wire, n2: Wire, lands: Territory, lands2: Territory, m: NetStep)
    requires WithinWire(p, n, n2) && lands.Keys == {p} && p in lands2 && lands[p] == lands2[p] && Allowed(n, lands, m)
    ensures Allowed(n2, lands2, m) && ActorOf(Protocol(m)) == p && Appending(n2, m) == Appending(n, m)
    ensures forall t :: RecordAt(n2, p, t) == RecordAt(n, p, t)
  {
    if m.Advance? {
      MayWithMore(n.responses, n2.responses, RecordAt(n, m.p, m.tx.txId).value, m.tx);
    }
  }

  lemma WiresWithin(p: Provider, l: Cluster, c: Cluster)
    requires Within(p, l, c)
    ensures WithinWire(p, WireOf(l), WireOf(c))
  {
  }

  /** A step the hub can take on its own is one the cluster can take. */
  lemma ActLifts(p: Provider, site: Site, sites: Sites, l: Cluster, c: Cluster, s: ClusterStep)
    requires Within(p, l, c) && p in sites && sites[p] == site && Possible(l, map[p := site], s)
    ensures Possible(c, sites, s) && ActorOf(s) == p
  {
    if s.Protocol? {
      WiresWithin(p, l, c);
      AllowedWithMore(p, WireOf(l), WireOf(c), Lands(map[p := site]), Lands(sites), s.move);
    }
  }

  lemma ActStaysWithin(p: Provider, site: Site, sites: Sites, l: Cluster, c: Cluster, s: ClusterStep)
    requires Within(p, l, c) && p in sites && sites[p] == site && Possible(l, map[p := site], s)
    requires Possible(c, sites, s)
    ensures Within(p, Stepped(l, map[p := site], s), Stepped(c, sites, s))
  {
    if s.Protocol? {
      WiresWithin(p, l, c);
      AllowedWithMore(p, WireOf(l), WireOf(c), Lands(map[p := site]), Lands(sites), s.move);
    }
  }

  /** Another hub's step leaves this one alone and takes no message away. */
  lemma OthersStayAway(p: Provider, sites: Sites, l: Cluster, c: Cluster, s: ClusterStep)
    requires Within(p, l, c) && Possible(c, sites, s) && ActorOf(s) != p
    ensures Within(p, l, Stepped(c, sites, s))
  {
  }

  // ----- any interleaving -----

  datatype Turn = Mine(event: Event) | Theirs(step: ClusterStep)

  function Events(turns: seq<Turn>): seq<Event> {
    if turns == [] then [] else (if turns[0].Mine? then [turns[0].event] else []) + Events(turns[1..])
  }

  /** The steps of an interleaving: the other hubs' and this hub's. */
  function Acts(turns: seq<Turn>): seq<ClusterStep> {
    if turns == [] then [] else
      (match turns[0]
       case Theirs(s) => [s]
       case Mine(e) => if e.Act? then [e.step] else []) + Acts(turns[1..])
  }

  /** The rest of the world plays by its rules: its steps are possible, and no message arrives that was not sent. */
  ghost predicate Genuine(p: Provider, c: Cluster, sites: Sites, turns: seq<Turn>)
    decreases turns
  {
    turns == [] ||
    match turns[0]
    case Theirs(s) => ActorOf(s) != p && Possible(c, sites, s) && Genuine(p, Stepped(c, sites, s), sites, turns[1..])
    case Mine(e) =>
      match e
      case Arrive(r) => r in c.requests && Genuine(p, c, sites, turns[1..])
      case Answer(s) => s in c.responses && Genuine(p, c, sites, turns[1..])
      case Act(s) => Possible(c, sites, s) ==> Genuine(p, Stepped(c, sites, s), sites, turns[1..])
  }

  lemma RunGoesOn(c: Cluster, sites: Sites, s: ClusterStep, rest: seq<ClusterStep>)
    requires Possible(c, sites, s)
    ensures Run(c, sites, [s] + rest) == Run(Stepped(c, sites, s), sites, rest)
  {
    assert ([s] + rest)[1..] == rest;
  }

  lemma PlayGoesOn(c: Cluster, sites: Sites, e: Event, rest: seq<Event>)
    ensures CanDo(c, sites, e) ==> Play(c, sites, [e] + rest) == Play(Do(c, sites, e), sites, rest)
    ensures !CanDo(c, sites, e) ==> Play(c, sites, [e] + rest).None?
  {
    assert ([e] + rest)[1..] == rest;
  }

  /**
   Refinement: whatever a hub does on its own is, in every interleaving with a world that plays by its
   rules, a run of the cluster that ends in the hub's own state.
   */
  lemma {:induction false} NodeRunIsClusterRun(
      p: Provider, site: Site, sites: Sites, l: Cluster, c: Cluster, turns: seq<Turn>)
    requires Within(p, l, c) && p in sites && sites[p] == site && Genuine(p, c, sites, turns)
    requires Play(l, map[p := site], Events(turns)).Some?
    ensures Run(c, sites, Acts(turns)).Some?
    ensures Within(p, Play(l, map[p := site], Events(turns)).value, Run(c, sites, Acts(turns)).value)
    decreases turns
  {
    if turns != [] {
      var rest, home := turns[1..], map[p := site];
      match turns[0]
      case Theirs(s) =>
        OthersStayAway(p, sites, l, c, s);
        assert Events(turns) == Events(rest);
        NodeRunIsClusterRun(p, site, sites, l, Stepped(c, sites, s), rest);
        RunGoesOn(c, sites, s, Acts(rest));
      case Mine(e) =>
        PlayGoesOn(l, home, e, Events(rest));
        if e.Act? {
          ActLifts(p, site, sites, l, c, e.step);
          ActStaysWithin(p, site, sites, l, c, e.step);
          NodeRunIsClusterRun(p, site, sites, Stepped(l, home, e.step), Stepped(c, sites, e.step), rest);
          RunGoesOn(c, sites, e.step, Acts(rest));
        } else {
          assert Acts(turns) == Acts(rest);
          NodeRunIsClusterRun(p, site, sites, Do(l, home, e), c, rest);
        }
    }
  }
}
