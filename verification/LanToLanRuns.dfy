/** Event handlers across interfaces: an obliging hardware never reports a fault, because no slot
    search can fail, and slots, headers and routes always match the graph. */
module LanToLanRuns {
  import opened Driver
  import opened LanRules
  import opened LanToLan
  import opened LanToLanPeers
  import opened LanToLanLinks
  import opened LanToLanGraph
  import opened LanToLanSlots

  ghost predicate GoodS(s: State) {
    Good(LinksOf(s.clients), s.pairs, IfacesOf(s.clients), s.rules)
  }

  lemma SameIfaces(cs: map<Key, Client>, cs': map<Key, Client>)
    requires Shapes(cs') == Shapes(cs)
    ensures IfacesOf(cs') == IfacesOf(cs)
  {
    SameInfo(cs, cs');
    forall k | k in cs ensures cs[k].iface == cs'[k].iface {
      assert cs[k].(links := []).iface == cs'[k].(links := []).iface;
    }
  }

  ghost predicate FitS(s: State) {
    Fit(LinksOf(s.clients), s.pairs, IfacesOf(s.clients), s.rules)
  }

  // ---- The source's loops --------------------------------------------------------------

  lemma TurnOffOneFit(s: State, a: Key, todo: seq<Link>)
    requires a in s.clients && todo != [] && Accepts(s.rules, 6)
    requires Fit(LinksOf(s.clients)[a := todo], s.pairs, IfacesOf(s.clients), s.rules)
    ensures var (s', ok) := TurnOffOne(s, a, todo[0]);
            && ok && s'.rules.pos == s.rules.pos + 6 && s'.rules.script == s.rules.script
            && Fit(LinksOf(s'.clients)[a := todo[1..]], s'.pairs, IfacesOf(s'.clients), s'.rules)
  {
    var L, F := LinksOf(s.clients), IfacesOf(s.clients);
    hide Fit, Remove, Accepts;
    FitSym(L[a := todo], s.pairs, F, s.rules);
    TurnOffRoundAgain(L, s.pairs, a, todo);
    var b := todo[0].ptr;
    var j := FindLink(L[b], a);
    FitDrop(L[a := todo], s.pairs, F, s.rules, a, b, 0, j);
    var s1 := TurnOffOne(s, a, todo[0]).0;
    assert RemoveAt(todo, 0) == todo[1..];
    assert LinksOf(s1.clients)[a := todo[1..]] == L[a := todo][a := todo[1..]][b := RemoveAt(L[b], j)];
    SameIfaces(s.clients, s1.clients);
  }

  /** With tables that match the links, six calls per link that are carried out turn them off. */
  lemma {:induction false} TurnOffFit(s: State, a: Key, todo: seq<Link>)
    requires a in s.clients && Fit(LinksOf(s.clients)[a := todo], s.pairs, IfacesOf(s.clients), s.rules)
    requires Accepts(s.rules, 6 * |todo|)
    ensures var (s', ok) := TurnOff(s, a, todo);
            && ok && s'.rules.faults == s.rules.faults && s'.rules.script == s.rules.script
            && FitS(s') && s'.clients[a].links == []
    decreases |todo|
  {
    if todo == [] { NoneLeftFit(s, a); return; }
    hide Fit, TurnOffOne, LinksOf, IfacesOf, Shapes;
    TurnOffOneFit(s, a, todo);
    TurnOffOneNoFault(s, a, todo[0]);
    TurnOffFit(TurnOffOne(s, a, todo[0]).0, a, todo[1..]);
  }

  lemma NoneLeftFit(s: State, a: Key)
    requires a in s.clients && Fit(LinksOf(s.clients)[a := []], s.pairs, IfacesOf(s.clients), s.rules)
    ensures FitS(TurnOff(s, a, []).0)
  {
    hide Fit;
    assert LinksOf(SetLinks(s.clients, a, [])) == LinksOf(s.clients)[a := []];
    assert IfacesOf(SetLinks(s.clients, a, [])) == IfacesOf(s.clients);
  }

  lemma TurnOffOneNoFault(s: State, a: Key, l: Link)
    requires a in s.clients && TurnOffOne(s, a, l).1
    ensures TurnOffOne(s, a, l).0.rules.faults == s.rules.faults
  {
    hide Remove;
  }

  lemma TurnOffGood(s: State, a: Key, todo: seq<Link>)
    requires a in s.clients && Good(LinksOf(s.clients)[a := todo], s.pairs, IfacesOf(s.clients), s.rules)
    ensures TurnOff(s, a, todo).0.rules.faults == s.rules.faults
    ensures GoodS(TurnOff(s, a, todo).0) && TurnOff(s, a, todo).0.clients[a].links == []
  {
    hide Fit, TurnOff;
    TurnOffFit(s, a, todo);
  }

  lemma FitSym(L: LinkTable, pairs: nat, F: IfaceMap, r: Rules)
    requires Fit(L, pairs, F, r)
    ensures Sym(L, pairs) && SimpleT(L) && L.Keys == F.Keys && pairs <= MAX_OFFLOAD_PAIR
  {
  }

  lemma TurnOffRoundAgain(L: LinkTable, pairs: nat, a: Key, todo: seq<Link>)
    requires a in L && todo != [] && Sym(L[a := todo], pairs)
    ensures var b := todo[0].ptr; b in L && b != a && FindLink(L[b], a) < |L[b]| && pairs > 0
  {
    TurnOffRound(L, pairs, a, todo);
  }

  /** When both removals succeed, the two halves are the removal of the pair. */
  lemma EraseLinksRules(s: State, a: Key, b: Key, i: nat, j: nat)
    requires a in s.clients && b in s.clients && a != b
    requires i == FindLink(s.clients[a].links, b) < |s.clients[a].links| && j == FindLink(s.clients[b].links, a) < |s.clients[b].links|
    requires RemoveBoth(s.rules, s.clients[a].iface, s.clients[b].iface, s.clients[a].links[i].hs, s.clients[b].links[j].hs).1
    ensures var s', L := EraseLinks(s, a, b), LinksOf(s.clients);
            && s'.rules == RemoveBoth(s.rules, s.clients[a].iface, s.clients[b].iface, L[a][i].hs, L[b][j].hs).0
            && s'.rules.faults == s.rules.faults && s'.pairs == Dec8(s.pairs)
            && LinksOf(s'.clients) == L[a := RemoveAt(L[a], i)][b := RemoveAt(L[b], j)]
  {
    hide Remove, RemoveAt, FindLink;
  }

  lemma EraseLinksGood(s: State, a: Key, b: Key)
    requires a in s.clients && b in s.clients && a != b && GoodS(s)
    ensures EraseLinks(s, a, b).rules.faults == s.rules.faults
    ensures GoodS(EraseLinks(s, a, b))
  {
    var L, F := LinksOf(s.clients), IfacesOf(s.clients);
    hide Fit, RemoveBoth, EraseLinks, M, RemoveAt;
    FitSym(L, s.pairs, F, s.rules);
    SymFind(L, s.pairs, a, b);
    var i, j := FindLink(L[a], b), FindLink(L[b], a);
    if i == |L[a]| {
      EraseLinksNothing(s, a, b);
    } else {
      FitDrop(L, s.pairs, F, s.rules, a, b, i, j);
      EraseLinksRules(s, a, b, i, j);
      SameIfaces(s.clients, EraseLinks(s, a, b).clients);
    }
  }

  lemma SymFind(L: LinkTable, pairs: nat, a: Key, b: Key)
    requires Sym(L, pairs) && a in L && b in L
    ensures FindLink(L[a], b) < |L[a]| <==> FindLink(L[b], a) < |L[b]|
    ensures M(L, a, b) > 0 <==> FindLink(L[a], b) < |L[a]|
  {
    MultFind(L[a], b);
    MultFind(L[b], a);
    assert M(L, a, b) == M(L, b, a);
  }

  /** When both installs succeed, a pair is linked by both handlers alike. */
  lemma LinkBothRules(s: State, a: Key, b: Key)
    requires a in s.clients && b in s.clients && a != b && s.pairs < MAX_OFFLOAD_PAIR
    requires var (r, h1, h2) := InstallBoth(s.rules, s.clients[a].iface, s.clients[b].iface); h1.Some? && h2.Some?
    ensures var (r, h1, h2) := InstallBoth(s.rules, s.clients[a].iface, s.clients[b].iface);
            var s' := LinkBoth(s, a, b);
            && LinkNew(s, a, b) == s' && s'.rules == r && r.faults == s.rules.faults && s'.pairs == s.pairs + 1
            && LinksOf(s'.clients) == LinksOf(s.clients)[a := s.clients[a].links + [Link(b, h1.value)]]
                                                        [b := s.clients[b].links + [Link(a, h2.value)]]
  {
    hide Install, AddLink, LinksOf, Shapes;
    AddLinkDone(s, a, b);
    AddLinkDone(AddLink(s, a, b).0, b, a);
  }

  /** What one install leaves: the rules, the list entry, and nothing else. */
  lemma AddLinkDone(s: State, a: Key, b: Key)
    requires a in s.clients && b in s.clients && a != b && s.pairs < MAX_OFFLOAD_PAIR
    requires Install(s.rules, s.clients[a].iface, s.clients[b].iface).1.Some?
    ensures var (r, h) := Install(s.rules, s.clients[a].iface, s.clients[b].iface);
            var (s1, ok) := AddLink(s, a, b);
            && ok && s1.rules == r && r.faults == s.rules.faults && s1.pairs == s.pairs
            && s1.clients.Keys == s.clients.Keys && s1.clients[b] == s.clients[b] && s1.clients[a].iface == s.clients[a].iface
            && LinksOf(s1.clients) == LinksOf(s.clients)[a := s.clients[a].links + [Link(b, h.value)]]
  {
    hide Install;
  }

  lemma LinkBothGood(s: State, a: Key, b: Key)
    requires a in s.clients && b in s.clients && GoodS(s)
    requires s.clients[a].iface != s.clients[b].iface && M(LinksOf(s.clients), a, b) == 0
    ensures LinkBoth(s, a, b).rules.faults == s.rules.faults
    ensures LinkNew(s, a, b) == LinkBoth(s, a, b)
    ensures GoodS(LinkBoth(s, a, b))
  {
    var L, F := LinksOf(s.clients), IfacesOf(s.clients);
    hide Good, LinkBoth, LinkNew, InstallBoth, M, Shapes;
    GoodSym(L, s.pairs, F, s.rules);
    if s.pairs == MAX_OFFLOAD_PAIR {
      LinkBothAtCap(s, a, b);
      LinkNewAtCap(s, a, b);
    } else {
      GoodAdd(L, s.pairs, F, s.rules, a, b);
      LinkBothRules(s, a, b);
      SameIfaces(s.clients, LinkBoth(s, a, b).clients);
    }
  }

  lemma LinkNewAtCap(s: State, a: Key, b: Key)
    requires a in s.clients && b in s.clients && s.pairs >= MAX_OFFLOAD_PAIR
    ensures LinkNew(s, a, b) == s
  {
    AddLinkAtCap(s, a, b);
  }

  lemma GoodSym(L: LinkTable, pairs: nat, F: IfaceMap, r: Rules)
    requires Good(L, pairs, F, r)
    ensures Sym(L, pairs) && L.Keys == F.Keys && pairs <= MAX_OFFLOAD_PAIR
  {
  }

  /** Fit to be linked to a: known, on another interface, not linked yet. */
  ghost predicate Candidate(s: State, a: Key, b: Key) {
    && a in s.clients && b in s.clients && b != a
    && s.clients[a].iface != s.clients[b].iface
    && M(LinksOf(s.clients), a, b) == 0
  }

  lemma {:induction false} CheckPotentialGood(s: State, a: Key, todo: seq<Peer>)
    requires a in s.clients && GoodS(s) && PeersOk(todo)
    requires forall b :: Num(todo, b) > 0 ==> Candidate(s, a, b)
    ensures CheckPotential(s, a, todo).rules.faults == s.rules.faults
    ensures GoodS(CheckPotential(s, a, todo))
    decreases |todo|
  {
    if todo == [] { return; }
    var b := todo[0].ptr;
    assert Num(todo, b) > 0;
    assert Candidate(s, a, b);
    forall x | Num(todo[1..], x) > 0 ensures x != b && Num(todo, x) > 0 {
    }
    FitSym(LinksOf(s.clients), s.pairs, IfacesOf(s.clients), s.rules);
    hide GoodS, LinkBoth, M, AddLink, Sym, Candidate;
    if !s.clients[b].active {
      CheckPotentialGood(s, a, todo[1..]);
    } else {
      var s1 := LinkBoth(s, a, b);
      CandidateFacts(s, a, b);
      LinkBothGood(s, a, b);
      LinkBothKeeps(s, a, b);
      CandidatesLeft(s, s1, a, b, todo[1..]);
      CheckPotentialGood(s1, a, todo[1..]);
    }
  }

  lemma CandidateFacts(s: State, a: Key, b: Key)
    requires Candidate(s, a, b)
    ensures b in s.clients && b != a && M(LinksOf(s.clients), a, b) == 0
    ensures a in s.clients && s.clients[a].iface != s.clients[b].iface
  {
  }

  lemma CandidatesLeft(s: State, s1: State, a: Key, b: Key, rest: seq<Peer>)
    requires Shapes(s1.clients) == Shapes(s.clients)
    requires forall x, y ::
               M(LinksOf(s1.clients), x, y) == M(LinksOf(s.clients), x, y)
               || (x, y) == (a, b) || (x, y) == (b, a)
    requires forall x :: Num(rest, x) > 0 ==> x != b && Candidate(s, a, x)
    ensures forall x :: Num(rest, x) > 0 ==> Candidate(s1, a, x)
  {
    hide M, Num;
    SameInfo(s.clients, s1.clients);
    forall x | Num(rest, x) > 0 ensures Candidate(s1, a, x) {
      assert Candidate(s, a, x);
      assert s.clients[x].(links := []).iface == s1.clients[x].(links := []).iface;
      assert s.clients[a].(links := []).iface == s1.clients[a].(links := []).iface;
    }
  }

  // ---- Rewriting a client without links ------------------------------------------------

  lemma ReinfoSlots(E: set<Arc>, F: IfaceMap, F': IfaceMap, r: Rules)
    requires SlotInv(E, F, r)
    requires forall e :: e in E ==> At(F', e.0) == At(F, e.0) && At(F', e.1.ptr) == At(F, e.1.ptr)
    ensures SlotInv(E, F', r)
  {
    forall i ensures Out(E, F', i) == Out(E, F, i) && In(E, F', i) == In(E, F, i) {
    }
  }

  lemma Unlinked(L: LinkTable, L': LinkTable, pairs: nat, k: Key)
    requires Sym(L, pairs) && (k in L ==> L[k] == [])
    requires L' == L[k := []] || L' == L - {k}
    ensures Arcs(L') == Arcs(L)
    ensures forall e :: e in Arcs(L) ==> e.0 != k && e.1.ptr != k
    ensures forall x :: M(L, x, k) == M(L, k, x) == 0
  {
    assert forall x :: M(L, x, k) == M(L, k, x) == 0;
    forall e | e in Arcs(L) ensures e.0 != k && e.1.ptr != k {
      MultIn(L[e.0], e.1);
      assert M(L, e.0, e.1.ptr) > 0;
    }
  }

  /** An unlinked client's entry may appear, move to another known interface, or vanish. */
  lemma Reinfo(L: LinkTable, L': LinkTable, F: IfaceMap, F': IfaceMap, pairs: nat, r: Rules, k: Key, i: IfaceId)
    requires Good(L, pairs, F, r) && i in r.ifaces
    requires k in L ==> L[k] == []
    requires (L' == L[k := []] && F' == F[k := i]) || (L' == L - {k} && F' == F - {k})
    ensures Good(L', pairs, F', r)
  {
    hide SlotInv, Sym, Arcs, M;
    Unlinked(L, L', pairs, k);
    ReinfoSlots(Arcs(L), F, F', r);
    IdleLinks(L, L', pairs, k);
    forall x, y ensures M(L', x, y) <= 1 && (M(L', x, y) > 0 ==> At(F', x) != At(F', y)) {
      assert M(L, x, y) <= 1 && (M(L, x, y) > 0 ==> x != k && y != k);
    }
  }

  // ---- Peers across interfaces ---------------------------------------------------------

  /** Connected clients sit on different interfaces. */
  ghost predicate CrossP(cs: map<Key, Client>) {
    forall a, b :: Cnt(PeersOf(cs), a, b) > 0 ==> At(IfacesOf(cs), a) != At(IfacesOf(cs), b)
  }

  /** What the event's sender sees to: connections join clients on different interfaces, and a
      client that comes back does so on an interface none of its peers is on. */
  ghost predicate CrossEvent(s: State, e: Event) {
    match e
    case NewConn(a, b) => a in s.clients && b in s.clients ==> s.clients[a].iface != s.clients[b].iface
    case Active(k, mac, i) =>
      k in s.clients && !s.clients[k].active ==>
        forall b :: Cnt(PeersOf(s.clients), k, b) > 0 ==> i != At(IfacesOf(s.clients), b)
    case _ => true
  }

  ghost predicate RunInvariant(s: State) {
    Inv(s, false) && GoodS(s) && CrossP(s.clients)
  }

  /** No client moved to another interface, none appeared. */
  ghost predicate Settled(s: State, s': State) {
    forall x :: x in s'.clients ==> x in s.clients && s'.clients[x].iface == s.clients[x].iface
  }

  lemma SettledShapes(s: State, s': State)
    requires Shapes(s'.clients) == Shapes(s.clients)
    ensures Settled(s, s')
  {
    SameInfo(s.clients, s'.clients);
    forall x | x in s'.clients ensures s'.clients[x].iface == s.clients[x].iface {
      assert s.clients[x].(links := []).iface == s'.clients[x].(links := []).iface;
    }
  }

  /** Rewriting only peer lists. */
  lemma GoodBare(s: State, s': State)
    requires GoodS(s) && Bare(s'.clients) == Bare(s.clients)
    requires s'.pairs == s.pairs && s'.rules == s.rules
    ensures GoodS(s') && Settled(s, s') && LinksOf(s'.clients) == LinksOf(s.clients)
  {
    SameLinks(s.clients, s'.clients);
    forall x | x in s'.clients ensures s'.clients[x].iface == s.clients[x].iface {
      assert s.clients[x].(peers := []).iface == s'.clients[x].(peers := []).iface;
    }
    assert IfacesOf(s'.clients) == IfacesOf(s.clients);
  }

  /** A client without links is rewritten or erased. */
  lemma GoodRewrite(s: State, s': State, k: Key, c: Client)
    requires GoodS(s) && (k in s.clients ==> s.clients[k].links == []) && c.links == [] && c.iface in s.rules.ifaces
    requires s'.clients == s.clients[k := c] || s'.clients == s.clients - {k}
    requires s'.pairs == s.pairs && s'.rules == s.rules
    ensures GoodS(s')
  {
    var L, F := LinksOf(s.clients), IfacesOf(s.clients);
    hide Good;
    if s'.clients == s.clients - {k} {
      assert LinksOf(s'.clients) == L - {k};
      assert IfacesOf(s'.clients) == F - {k};
    } else {
      assert LinksOf(s'.clients) == L[k := []];
      assert IfacesOf(s'.clients) == F[k := c.iface];
    }
    Reinfo(L, LinksOf(s'.clients), F, IfacesOf(s'.clients), s.pairs, s.rules, k, c.iface);
  }

  lemma KnownIface(s: State, k: Key)
    requires GoodS(s) && k in s.clients
    ensures s.clients[k].iface in s.rules.ifaces
    ensures LinksOf(s.clients)[k := s.clients[k].links] == LinksOf(s.clients)
  {
    assert IfacesOf(s.clients)[k] in s.rules.ifaces;
  }

  // ---- Handlers ------------------------------------------------------------------------

  lemma DisconnectGood(s: State, k: Key)
    requires GoodS(s) && k in s.clients
    ensures HandleDisconnect(s, k).rules.faults == s.rules.faults
    ensures GoodS(HandleDisconnect(s, k)) && Settled(s, HandleDisconnect(s, k))
  {
    hide GoodS, TurnOff, ClearPeers, Shapes, Bare;
    var s1, s2 := ResetGood(s, k);
    KnownIface(s2, k);
    GoodRewrite(s2, HandleDisconnect(s, k), k, s2.clients[k]);
  }

  /** turnoff_offload_links, then clear_peer_list. */
  lemma ResetGood(s: State, k: Key) returns (s1: State, s2: State)
    requires GoodS(s) && k in s.clients
    ensures s1 == TurnOff(s, k, s.clients[k].links).0
    ensures s2 == ClearPeers(s1, k, s1.clients[k].peers).0 && k in s2.clients
    ensures s2.rules.faults == s.rules.faults && GoodS(s2) && Settled(s, s2) && s2.clients[k].links == []
    ensures Later(s.rules, s2.rules)
  {
    hide TurnOff, ClearPeers;
    s1 := TurnOff(s, k, s.clients[k].links).0;
    s2 := ClearPeers(s1, k, s1.clients[k].peers).0;
    KnownIface(s, k);
    TurnOffGood(s, k, s.clients[k].links);
    SettledShapes(s, s1);
    GoodBare(s1, s2);
    assert LinksOf(s2.clients)[k] == LinksOf(s1.clients)[k];
  }

  /** The end of handle_client_inactive, after the links are gone. */
  function Deactivate(s: State, k: Key): State
    requires k in s.clients
  {
    var s2 := SetFlags(s, k, false, s.clients[k].powersave);
    if s2.clients[k].peers == [] then Erase(s2, k) else s2
  }

  lemma DeactivateGood(s: State, k: Key)
    requires GoodS(s) && k in s.clients && s.clients[k].links == []
    ensures GoodS(Deactivate(s, k)) && Settled(s, Deactivate(s, k))
    ensures Deactivate(s, k).rules == s.rules
  {
    hide GoodS;
    KnownIface(s, k);
    var s2 := SetFlags(s, k, false, s.clients[k].powersave);
    assert s2.clients - {k} == s.clients - {k};
    GoodRewrite(s, Deactivate(s, k), k, s2.clients[k]);
  }

  lemma InactiveGood(s: State, k: Key)
    requires GoodS(s) && k in s.clients
    ensures HandleInactive(s, k).rules.faults == s.rules.faults
    ensures GoodS(HandleInactive(s, k)) && Settled(s, HandleInactive(s, k))
  {
    var s1 := TurnOff(s, k, s.clients[k].links).0;
    assert HandleInactive(s, k) == Deactivate(s1, k);
    hide TurnOff, GoodS, HandleInactive, Deactivate, Shapes;
    KnownIfaceS(s, k);
    TurnOffGood(s, k, s.clients[k].links);
    SettledShapes(s, s1);
    DeactivateGood(s1, k);
  }

  lemma KnownIfaceS(s: State, k: Key)
    requires GoodS(s) && k in s.clients
    ensures s.clients[k].iface in s.rules.ifaces
    ensures Good(LinksOf(s.clients)[k := s.clients[k].links], s.pairs, IfacesOf(s.clients), s.rules)
  {
    KnownIface(s, k);
  }

  lemma ResetActiveGood(s: State, e: Event)
    requires GoodS(s) && e.Active? && e.iface in s.rules.ifaces
    requires e.k in s.clients && s.clients[e.k].active && s.clients[e.k].mac != e.mac
    ensures Step(s, e).rules.faults == s.rules.faults && GoodS(Step(s, e))
    ensures Step(s, e).clients.Keys == s.clients.Keys
    ensures forall x :: x in s.clients && x != e.k ==> Step(s, e).clients[x].iface == s.clients[x].iface
  {
    hide GoodS, TurnOff, ClearPeers, Shapes, Bare;
    var s1, s2 := ResetGood(s, e.k);
    GoodRewrite(s2, Step(s, e), e.k, Step(s, e).clients[e.k]);
  }

  lemma WakeGood(s: State, e: Event)
    requires RunInvariant(s) && e.Active? && e.iface in s.rules.ifaces && CrossEvent(s, e)
    requires e.k in s.clients && !s.clients[e.k].active
    ensures Step(s, e).rules.faults == s.rules.faults && GoodS(Step(s, e))
    ensures Step(s, e).clients.Keys == s.clients.Keys
    ensures forall x :: x in s.clients && x != e.k ==> Step(s, e).clients[x].iface == s.clients[x].iface
    ensures Step(s, e).clients[e.k].iface == e.iface
  {
    var s1 := SetInfo(s, e.k, e.mac, e.iface);
    hide RunInvariant, CrossEvent, GoodS, CheckPotential, Step, Shapes;
    WakeStep(s, e, s1);
    WakeChecks(s, e, s1);
    SettledShapes(s1, Step(s, e));
  }

  lemma WakeChecks(s: State, e: Event, s1: State)
    requires RunInvariant(s) && e.Active? && e.iface in s.rules.ifaces && CrossEvent(s, e)
    requires e.k in s.clients && !s.clients[e.k].active && s1 == SetInfo(s, e.k, e.mac, e.iface)
    ensures var s' := CheckPotential(s1, e.k, s1.clients[e.k].peers);
            s'.rules.faults == s.rules.faults && GoodS(s')
  {
    hide GoodS, PeerInv, Sym, LinksOk, CrossP, CheckPotential, Candidate, PeersOk, CrossEvent, Shapes;
    InactiveUnlinked(s, e.k);
    PeerCandidates(s, s1, e);
    PeerListOk(s.clients, e.k);
    GoodRewrite(s, s1, e.k, s1.clients[e.k]);
    CheckPotentialGood(s1, e.k, s1.clients[e.k].peers);
  }

  lemma WakeStep(s: State, e: Event, s1: State)
    requires e.Active? && e.iface in s.rules.ifaces && e.k in s.clients && !s.clients[e.k].active
    requires s1 == SetInfo(s, e.k, e.mac, e.iface)
    ensures Step(s, e) == CheckPotential(s1, e.k, s1.clients[e.k].peers)
  {
    hide CheckPotential;
  }

  lemma PeerListOk(cs: map<Key, Client>, k: Key)
    requires PeerInv(PeersOf(cs)) && k in cs
    ensures PeersOk(cs[k].peers)
  {
    assert PeersOk(PeersOf(cs)[k]);
  }

  lemma InactiveUnlinked(s: State, k: Key)
    requires Inv(s, false) && k in s.clients && !s.clients[k].active
    ensures s.clients[k].links == []
    ensures forall x :: M(LinksOf(s.clients), k, x) == 0
  {
    var L := LinksOf(s.clients);
    hide Sym, PeerInv, M;
    forall x ensures M(L, k, x) == 0 {
      assert M(L, k, x) > 0 ==> LinkOk(s.clients, false, k, x);
    }
    NoLinks(L, k);
  }

  lemma PeerCandidates(s: State, s1: State, e: Event)
    requires RunInvariant(s) && e.Active? && CrossEvent(s, e)
    requires e.k in s.clients && !s.clients[e.k].active
    requires s1 == SetInfo(s, e.k, e.mac, e.iface)
    ensures forall b :: Num(s.clients[e.k].peers, b) > 0 ==> Candidate(s1, e.k, b)
  {
    InactiveUnlinked(s, e.k);
    var P := PeersOf(s.clients);
    assert LinksOf(s1.clients) == LinksOf(s.clients);
    hide GoodS, M, Sym;
    forall b | Num(s.clients[e.k].peers, b) > 0 ensures Candidate(s1, e.k, b) {
      assert Cnt(P, e.k, b) == Cnt(P, b, e.k);
      assert Cnt(P, e.k, e.k) == 0;
    }
  }

  lemma NewClientGood(s: State, e: Event)
    requires GoodS(s) && e.Active? && e.iface in s.rules.ifaces && e.k !in s.clients
    ensures GoodS(Step(s, e)) && Step(s, e).rules == s.rules
  {
    hide GoodS;
    GoodRewrite(s, Step(s, e), e.k, Step(s, e).clients[e.k]);
  }

  lemma NewGood(s: State, a: Key, b: Key)
    requires RunInvariant(s) && a in s.clients && b in s.clients && s.clients[a].iface != s.clients[b].iface
    ensures HandleNewConn(s, a, b).rules.faults == s.rules.faults
    ensures GoodS(HandleNewConn(s, a, b)) && Settled(s, HandleNewConn(s, a, b))
  {
    hide GoodS, AddConnection, LinkNew, PeerInv, Sym, LinksOk, M, Cnt, Shapes, Bare, CrossP;
    var (cs, first) := AddConnection(s.clients, a, b);
    var s1 := s.(clients := cs);
    GoodBare(s, s1);
    if first && cs[a].active && cs[b].active {
      FirstIsNew(s, a, b);
      FirstUnlinked(s, a, b);
      LinkBothGood(s1, a, b);
      SettledShapes(s1, LinkNew(s1, a, b));
    }
  }

  lemma FirstIsNew(s: State, a: Key, b: Key)
    requires Inv(s, false) && a in s.clients && b in s.clients && a != b && AddConnection(s.clients, a, b).1
    ensures Cnt(PeersOf(s.clients), a, b) == 0
  {
    hide Sym, LinksOk, PeersOk;
    AddKeeps(s.clients, a, b);
  }

  lemma DelGood(s: State, a: Key, b: Key)
    requires RunInvariant(s)
    ensures HandleDelConn(s, a, b).rules.faults == s.rules.faults
    ensures GoodS(HandleDelConn(s, a, b)) && Settled(s, HandleDelConn(s, a, b))
  {
    if a !in s.clients || b !in s.clients { return; }
    if a == b { DelSelfNothing(s, a); return; }
    var (cs, last) := RemoveConnection(s.clients, a, b);
    var s1 := s.(clients := cs);
    hide GoodS, RemoveConnection, EraseByMode, DropIdle, Inv, LinkInv, PeerInv;
    GoodBare(s, s1);
    if last {
      var s2 := EraseByMode(s1, a, b);
      EraseByModeGood(s1, a, b);
      SettledShapes(s1, s2);
      DelGraph(s, a, b, false);
      DropBothGood(s2, a, b);
    }
  }

  lemma DropBothGood(s: State, a: Key, b: Key)
    requires GoodS(s) && LinkInv(s, false) && PeerInv(PeersOf(s.clients)) && a in s.clients && b in s.clients && a != b
    ensures var s' := DropIdle(DropIdle(s, a), b);
            GoodS(s') && Settled(s, s')
  {
    hide GoodS, LinkInv, PeerInv, DropIdle;
    DropIdleGood(s, a);
    DropIdleElse(s, a, b);
    DropIdleGood(DropIdle(s, a), b);
  }

  lemma DropIdleGood(s: State, k: Key)
    requires GoodS(s) && LinkInv(s, false) && PeerInv(PeersOf(s.clients)) && k in s.clients
    ensures var s' := DropIdle(s, k);
            GoodS(s') && LinkInv(s', false) && PeerInv(PeersOf(s'.clients)) && Settled(s, s')
  {
    hide GoodS, Sym, M;
    DropIdleInv(s, k, false);
    DropIdleKeeps(s, k);
    if DropIdle(s, k) != s {
      forall x ensures M(LinksOf(s.clients), k, x) == 0 {
        assert M(LinksOf(s.clients), k, x) > 0 ==> LinkOk(s.clients, false, k, x);
      }
      NoLinks(LinksOf(s.clients), k);
      KnownIface(s, k);
      GoodRewrite(s, DropIdle(s, k), k, s.clients[k]);
    }
  }

  lemma EraseByModeGood(s: State, a: Key, b: Key)
    requires a in s.clients && b in s.clients && a != b && GoodS(s)
    ensures EraseByMode(s, a, b).rules.faults == s.rules.faults && GoodS(EraseByMode(s, a, b))
  {
    hide GoodS, EraseLinks;
    var ca, cb := s.clients[a], s.clients[b];
    if ca.active && cb.active {
      EraseLinksGood(s, a, b);
    } else {
      var t := if ca.powersave && Reachable(cb) then EraseLinks(s, a, b) else s;
      if ca.powersave && Reachable(cb) { EraseLinksGood(s, a, b); }
      if cb.powersave && Reachable(ca) { EraseLinksGood(t, b, a); }
    }
  }

  // ---- Runs ----------------------------------------------------------------------------

  lemma ActiveGood(s: State, e: Event)
    requires RunInvariant(s) && CrossEvent(s, e) && e.Active?
    ensures Step(s, e).rules.faults == s.rules.faults && GoodS(Step(s, e))
    ensures forall x :: x in Step(s, e).clients && x != e.k ==>
              x in s.clients && Step(s, e).clients[x].iface == s.clients[x].iface
    ensures Step(s, e) == s || (e.k in Step(s, e).clients && Step(s, e).clients[e.k].iface == e.iface)
  {
    hide GoodS, Inv, CrossP, CrossEvent, TurnOff, ClearPeers, CheckPotential;
    if e.iface !in s.rules.ifaces {
    } else if e.k !in s.clients {
      NewClientGood(s, e);
    } else if !s.clients[e.k].active {
      WakeGood(s, e);
    } else if s.clients[e.k].mac != e.mac {
      ResetActiveGood(s, e);
    }
  }

  lemma StepGood(s: State, e: Event)
    requires RunInvariant(s) && CrossEvent(s, e) && !e.IsPower()
    ensures Step(s, e).rules.faults == s.rules.faults && GoodS(Step(s, e))
    ensures !e.Active? ==> Settled(s, Step(s, e))
  {
    match e
    case Active(_, _, _) =>
      hide GoodS, Inv, CrossP, Step;
      ActiveGood(s, e);
    case Inactive(k) => if k in s.clients { InactiveGood(s, k); }
    case Disconnect(k) => if k in s.clients { DisconnectGood(s, k); }
    case NewConn(a, b) => if a in s.clients && b in s.clients { NewGood(s, a, b); }
    case DelConn(a, b) => DelGood(s, a, b);
  }

  /** The pairs an event leaves connected are still on different interfaces. */
  lemma CrossStep(s: State, e: Event, cs: map<Key, Client>)
    requires CrossP(s.clients) && CrossEvent(s, e) && PeerInv(PeersOf(s.clients))
    requires FollowsTo(s, e, PeersOf(cs))
    requires !e.Active? ==> forall x :: x in cs ==> x in s.clients && cs[x].iface == s.clients[x].iface
    requires e.Active? ==> forall x :: x in cs && x != e.k ==> x in s.clients && cs[x].iface == s.clients[x].iface
    requires e.Active? ==> cs == s.clients || (e.k in cs && cs[e.k].iface == e.iface && e.iface in s.rules.ifaces)
    requires e.Active? && e.k in s.clients && s.clients[e.k].active && s.clients[e.k].mac == e.mac ==> cs == s.clients
    ensures CrossP(cs)
  {
    hide PeersOk, Num;
    var P, Q := PeersOf(s.clients), PeersOf(cs);
    forall x, y | Cnt(Q, x, y) > 0 ensures At(IfacesOf(cs), x) != At(IfacesOf(cs), y) {
      assert Cnt(Q, y, x) > 0 && Cnt(Q, x, y) == CntAfter(s, e, x, y);
      assert Cnt(P, x, y) == Cnt(P, y, x);
      assert Cnt(P, x, y) > 0 ==> At(IfacesOf(s.clients), x) != At(IfacesOf(s.clients), y);
    }
  }

  /** One event: no rule call fails and everything is kept. */
  lemma StepRun(s: State, e: Event)
    requires RunInvariant(s) && CrossEvent(s, e) && !e.IsPower()
    ensures Step(s, e).rules.faults == s.rules.faults
    ensures RunInvariant(Step(s, e))
  {
    assert !SelfConn(s, e);
    hide GoodS, Sym, LinksOk, PeerInv, CrossP, Step;
    StepGood(s, e);
    StepInv(s, e, false);
    StepFollows(s, e);
    if e.Active? {
      ActiveGood(s, e);
      ActiveNothing(s, e);
    }
    CrossStep(s, e, Step(s, e).clients);
  }

  lemma ActiveNothing(s: State, e: Event)
    requires e.Active?
    ensures e.iface !in s.rules.ifaces ==> Step(s, e) == s
    ensures e.k in s.clients && s.clients[e.k].active && s.clients[e.k].mac == e.mac ==> Step(s, e) == s
  {
  }

  /** Every event of the run respects CrossEvent in the state it meets; no power save. */
  ghost predicate CrossRun(s: State, es: seq<Event>) {
    es == [] ||
    var init, e := es[..|es| - 1], es[|es| - 1];
    CrossRun(s, init) && CrossEvent(Run(s, init), e) && !e.IsPower()
  }

  lemma {:induction false} RunStays(s: State, es: seq<Event>)
    requires RunInvariant(s) && CrossRun(s, es)
    ensures Run(s, es).rules.faults == s.rules.faults
    ensures RunInvariant(Run(s, es))
  {
    if es == [] { return; }
    hide RunInvariant, Step, CrossEvent;
    RunStays(s, es[..|es| - 1]);
    StepRun(Run(s, es[..|es| - 1]), es[|es| - 1]);
  }

  /** Freshly created interfaces: three dummy filter rules under distinct handles, nothing used. */
  ghost predicate FreshTables(t: Slots) {
    && |t.flt| == MAX_OFFLOAD_PAIR && |t.hdr| == MAX_OFFLOAD_PAIR && t.numFlt == 0
    && (forall p :: 0 <= p < MAX_OFFLOAD_PAIR ==> !t.flt[p].valid && !t.hdr[p].valid)
    && (forall p, q :: 0 <= p < q < MAX_OFFLOAD_PAIR ==> t.flt[p].hdl != t.flt[q].hdl)
  }

  function Init(ifaces: map<IfaceId, Slots>, script: nat -> Reply): State {
    State(map[], 0, Rules(ifaces, script, 0, {}, {}, 0), false)
  }

  lemma InitInvariant(ifaces: map<IfaceId, Slots>, script: nat -> Reply)
    requires forall i :: i in ifaces ==> FreshTables(ifaces[i])
    requires forall n :: script(n).Done?
    ensures RunInvariant(Init(ifaces, script))
  {
    var s := Init(ifaces, script);
    forall i | i in ifaces ensures CountValid(ifaces[i].flt) == 0 {
      NoneValid(ifaces[i].flt);
    }
    assert Total(LinksOf(s.clients)) == 0;
  }

  lemma {:induction false} NoneValid(t: seq<Slot>)
    requires forall p :: 0 <= p < |t| ==> !t[p].valid
    ensures CountValid(t) == 0
  {
    if t != [] { NoneValid(t[1..]); }
  }

  /** Some client on interface i stores a link with filter handle h. */
  ghost predicate OwnsFlt(cs: map<Key, Client>, i: IfaceId, h: Handle) {
    exists a, l :: a in cs && l in cs[a].links && cs[a].iface == i && l.hs.flt == h
  }

  /** Some stored link points at a client on interface i and holds header handle h. */
  ghost predicate PointedHdr(cs: map<Key, Client>, i: IfaceId, h: Handle) {
    exists a, l :: a in cs && l in cs[a].links && l.ptr in cs && cs[l.ptr].iface == i && l.hs.hdr == h
  }

  lemma FltReads(cs: map<Key, Client>, i: IfaceId, h: Handle)
    ensures h in Flts(Out(Arcs(LinksOf(cs)), IfacesOf(cs), i)) <==> OwnsFlt(cs, i, h)
  {
    var L, F := LinksOf(cs), IfacesOf(cs);
    if OwnsFlt(cs, i, h) {
      var a, l :| a in cs && l in cs[a].links && cs[a].iface == i && l.hs.flt == h;
      assert l in L[a];
      assert (a, l) in Out(Arcs(L), F, i);
    }
    if h in Flts(Out(Arcs(L), F, i)) {
      var e :| e in Out(Arcs(L), F, i) && e.1.hs.flt == h;
      assert e.0 in cs && e.1 in cs[e.0].links;
    }
  }

  lemma HdrReads(s: State, i: IfaceId, h: Handle)
    requires Inv(s, false)
    ensures h in Hdrs(In(Arcs(LinksOf(s.clients)), IfacesOf(s.clients), i)) <==> PointedHdr(s.clients, i, h)
  {
    var cs := s.clients;
    var L, F := LinksOf(cs), IfacesOf(cs);
    if PointedHdr(cs, i, h) {
      var a, l :| a in cs && l in cs[a].links && l.ptr in cs && cs[l.ptr].iface == i && l.hs.hdr == h;
      assert l in L[a];
      assert (a, l) in In(Arcs(L), F, i);
    }
    if h in Hdrs(In(Arcs(L), F, i)) {
      var e :| e in In(Arcs(L), F, i) && e.1.hs.hdr == h;
      assert e.0 in cs && e.1 in cs[e.0].links;
      LinkPointersLive(s, false, e.0, e.1);
    }
  }

  /** In every such run each interface's valid filter slots are exactly the filter handles of its
      own clients' links, its valid header slots exactly the header handles of the links that
      point at its clients, the slot counter counts the valid slots, and at most
      num_offload_pair slots of either kind are in use. */
  lemma SlotsAreLinks(s: State, i: IfaceId)
    requires RunInvariant(s) && i in s.rules.ifaces
    ensures s.rules.ifaces[i].numFlt == CountValid(s.rules.ifaces[i].flt)
    ensures forall h :: h in ValidHandles(s.rules.ifaces[i].flt) <==> OwnsFlt(s.clients, i, h)
    ensures forall h :: h in ValidHandles(s.rules.ifaces[i].hdr) <==> PointedHdr(s.clients, i, h)
    ensures |ValidHandles(s.rules.ifaces[i].flt)| <= s.pairs && |ValidHandles(s.rules.ifaces[i].hdr)| <= s.pairs
  {
    var L, F := LinksOf(s.clients), IfacesOf(s.clients);
    var E := Arcs(L);
    hide Arcs, Out, In, LinksOf, IfacesOf, PeerInv, Sym, LinksOk, SimpleT, CrossT, CrossP, OwnsFlt, PointedHdr,
      ValidHandles, CountValid, Flts, Hdrs;
    Roomy(L, F, s.pairs, i);
    HandleCards(Out(E, F, i));
    HandleCards(In(E, F, i));
    forall h ensures h in Flts(Out(E, F, i)) <==> OwnsFlt(s.clients, i, h) { FltReads(s.clients, i, h); }
    forall h ensures h in Hdrs(In(E, F, i)) <==> PointedHdr(s.clients, i, h) { HdrReads(s, i, h); }
  }
}
