/** What one event does to every pair of clients' links and to every client's own fields, said of
    the tables before and after alone. */
module LanToLanEffects {
  import opened LanRules
  import opened LanToLan
  import opened LanToLanPeers
  import opened LanToLanLinks
  import opened LanToLanGraph
  import opened LanToLanRuns
  import opened LanToLanLimits

  // ---- A first connection ------------------------------------------------------------------

  /** Both ends are known and active, nothing connects them yet, and a pair is left. */
  ghost predicate GetsLink(s: State, a: Key, b: Key) {
    && a in s.clients && b in s.clients && s.clients[a].active && s.clients[b].active
    && Cnt(PeersOf(s.clients), a, b) == 0 && s.pairs < MAX_OFFLOAD_PAIR
  }

  /** Without a failed call, the first connection between two active clients links them on both
      sides and takes one pair, below the cap; any other connection changes no link. */
  lemma NewConnLinks(s: State, a: Key, b: Key)
    requires Inv(s, true) && a != b && Step(s, NewConn(a, b)).rules.faults == s.rules.faults
    ensures var s' := Step(s, NewConn(a, b));
            if GetsLink(s, a, b) then LinksAdded(LinksOf(s.clients), LinksOf(s'.clients), a, {b}) && s'.pairs == s.pairs + 1
            else LinksAdded(LinksOf(s.clients), LinksOf(s'.clients), a, {}) && s'.pairs == s.pairs
  {
    NoneAdded(LinksOf(s.clients), a);
    if a !in s.clients || b !in s.clients { return; }
    hide Inv, AddConnection, LinkNew, LinksAdded, LinksOf, PeersOf, Cnt, Shapes, Bare;
    CountedUp(s, a, b);
    var (cs, first) := AddConnection(s.clients, a, b);
    if first && cs[a].active && cs[b].active { LinkNewLinks(s.(clients := cs), a, b); }
  }

  lemma NoneAdded(L: LinkTable, a: Key)
    ensures LinksAdded(L, L, a, {})
  {
    hide M;
  }

  /** Counting the connection up changes no link and no flag. */
  lemma CountedUp(s: State, a: Key, b: Key)
    requires Inv(s, true) && a in s.clients && b in s.clients && a != b
    ensures var (cs, first) := AddConnection(s.clients, a, b);
            && LinksOf(cs) == LinksOf(s.clients) && cs.Keys == s.clients.Keys
            && (first <==> Cnt(PeersOf(s.clients), a, b) == 0)
            && cs[a].active == s.clients[a].active && cs[b].active == s.clients[b].active
            && Sym(LinksOf(cs), s.pairs)
  {
    hide AddConnection, Sym, PeerInv, LinksOk, LinksOf, PeersOf, Cnt, Shapes, Bare;
    AddKeeps(s.clients, a, b);
    SameLinks(s.clients, AddConnection(s.clients, a, b).0);
    SameFlags(s.clients, AddConnection(s.clients, a, b).0);
  }

  lemma LinkNewLinks(s: State, a: Key, b: Key)
    requires a in s.clients && b in s.clients && a != b && Sym(LinksOf(s.clients), s.pairs)
    requires LinkNew(s, a, b).rules.faults == s.rules.faults
    ensures var s' := LinkNew(s, a, b);
            if s.pairs < MAX_OFFLOAD_PAIR then LinksAdded(LinksOf(s.clients), LinksOf(s'.clients), a, {b}) && s'.pairs == s.pairs + 1
            else s' == s
  {
    hide LinkNew, LinkBoth, LinksAdded, Sym, LinksOf, Shapes;
    PairsCapped(s);
    LinkNewIsBoth(s, a, b);
    LinkRound(s, a, b);
  }

  lemma SameFlags(cs: map<Key, Client>, cs': map<Key, Client>)
    requires Bare(cs) == Bare(cs')
    ensures cs'.Keys == cs.Keys && forall x :: x in cs ==> cs'[x].active == cs[x].active && cs'[x].powersave == cs[x].powersave
  {
    SameLinks(cs, cs');
    forall x | x in cs ensures cs'[x].active == cs[x].active && cs'[x].powersave == cs[x].powersave {
      assert cs'[x].(peers := []).active == cs[x].(peers := []).active;
      assert cs'[x].(peers := []).powersave == cs[x].(peers := []).powersave;
    }
  }

  // ---- A last connection -------------------------------------------------------------------

  /** How many links the end of two clients' last connection takes: one when both are active,
      otherwise one per end asleep, and none when an end is out of reach. */
  function Taken(a: Client, b: Client): nat {
    if !Reachable(a) || !Reachable(b) then 0
    else if a.active && b.active then 1
    else (if a.powersave then 1 else 0) + (if b.powersave then 1 else 0)
  }

  function Minus(m: nat, d: nat): nat { if m < d then 0 else m - d }

  /** The pair {a, b} loses d links, or all it has. */
  ghost predicate LinksTaken(L: LinkTable, Q: LinkTable, a: Key, b: Key, d: nat) {
    forall x, y :: M(Q, x, y) == if (x, y) == (a, b) || (x, y) == (b, a) then Minus(M(L, x, y), d) else M(L, x, y)
  }

  lemma EraseTakes(s: State, a: Key, b: Key)
    requires a in s.clients && b in s.clients && a != b && Sym(LinksOf(s.clients), s.pairs)
    requires EraseLinks(s, a, b).rules.faults == s.rules.faults
    ensures var s' := EraseLinks(s, a, b);
            Sym(LinksOf(s'.clients), s'.pairs) && LinksTaken(LinksOf(s.clients), LinksOf(s'.clients), a, b, 1)
  {
    SymPair(LinksOf(s.clients), s.pairs, a, b);
    hide Sym, M, EraseLinks, LinksOf, Shapes;
    EraseLinksKeeps(s, a, b);
  }

  lemma TakenTwice(L: LinkTable, L1: LinkTable, Q: LinkTable, a: Key, b: Key)
    requires LinksTaken(L, L1, a, b, 1) && LinksTaken(L1, Q, b, a, 1)
    ensures LinksTaken(L, Q, a, b, 2)
  {
    hide M;
  }

  lemma TakenSwap(L: LinkTable, Q: LinkTable, a: Key, b: Key)
    requires LinksTaken(L, Q, b, a, 1)
    ensures LinksTaken(L, Q, a, b, 1)
  {
    hide M;
  }

  lemma TakenNone(L: LinkTable, a: Key, b: Key)
    ensures LinksTaken(L, L, a, b, 0)
  {
    hide M;
  }

  lemma EraseByModeTakes(s: State, a: Key, b: Key)
    requires a in s.clients && b in s.clients && a != b && Sym(LinksOf(s.clients), s.pairs)
    requires EraseByMode(s, a, b).rules.faults == s.rules.faults
    ensures LinksTaken(LinksOf(s.clients), LinksOf(EraseByMode(s, a, b).clients), a, b, Taken(s.clients[a], s.clients[b]))
  {
    hide Sym, M, EraseLinks, LinksOf, LinksTaken, Shapes;
    var ca, cb := s.clients[a], s.clients[b];
    TakenNone(LinksOf(s.clients), a, b);
    if ca.active && cb.active {
      EraseTakes(s, a, b);
    } else {
      var t := if ca.powersave && Reachable(cb) then EraseLinks(s, a, b) else s;
      if ca.powersave && Reachable(cb) { EraseTakes(s, a, b); }
      if cb.powersave && Reachable(ca) {
        EraseTakes(t, b, a);
        var L, L1, Q := LinksOf(s.clients), LinksOf(t.clients), LinksOf(EraseByMode(s, a, b).clients);
        if ca.powersave && Reachable(cb) { TakenTwice(L, L1, Q, a, b); } else { TakenSwap(L, Q, a, b); }
      }
    }
  }

  lemma DropIdleLinks(s: State, k: Key)
    requires LinkInv(s, true)
    ensures forall x, y :: M(LinksOf(DropIdle(s, k).clients), x, y) == M(LinksOf(s.clients), x, y)
  {
    if k !in s.clients || DropIdle(s, k) == s { return; }
    var L := LinksOf(s.clients);
    forall x ensures M(L, k, x) == 0 {
      assert M(L, k, x) > 0 ==> LinkOk(s.clients, true, k, x);
    }
    NoLinks(L, k);
    RewrittenLinks(s.clients, k, s.clients[k].(links := []));
    hide Sym, M, LinksOf;
    IdleLinks(L, L - {k}, s.pairs, k);
  }

  lemma DelConnLinks(s: State, a: Key, b: Key)
    requires Inv(s, true) && a in s.clients && b in s.clients && a != b
    requires Step(s, DelConn(a, b)).rules.faults == s.rules.faults
    ensures LinksTaken(LinksOf(s.clients), LinksOf(Step(s, DelConn(a, b)).clients), a, b,
                       if Cnt(PeersOf(s.clients), a, b) == 1 then Taken(s.clients[a], s.clients[b]) else 0)
  {
    hide Inv, RemoveConnection, EraseByMode, DropIdle, LinksTaken, LinksOf, PeersOf, Cnt, Shapes, Bare, LinkInv, PeerInv;
    CountedDown(s, a, b);
    TakenNone(LinksOf(s.clients), a, b);
    var (cs, last) := RemoveConnection(s.clients, a, b);
    if last {
      var s1 := s.(clients := cs);
      EraseByModeTakes(s1, a, b);
      DropTwo(s, s1, a, b);
    }
  }

  /** Erasing by mode leaves what DropIdle then keeps. */
  lemma DropTwo(s: State, s1: State, a: Key, b: Key)
    requires Inv(s, true) && a in s.clients && b in s.clients && a != b
    requires s1 == s.(clients := RemoveConnection(s.clients, a, b).0)
    requires EraseByMode(s1, a, b).rules.faults == s1.rules.faults
    requires LinksTaken(LinksOf(s.clients), LinksOf(EraseByMode(s1, a, b).clients), a, b, Taken(s.clients[a], s.clients[b]))
    ensures LinksTaken(LinksOf(s.clients), LinksOf(DropIdle(DropIdle(EraseByMode(s1, a, b), a), b).clients), a, b,
                       Taken(s.clients[a], s.clients[b]))
  {
    hide Inv, RemoveConnection, EraseByMode, DropIdle, LinksOf, M, Shapes, Bare, LinkInv, PeerInv;
    DelGraph(s, a, b, true);
    var s2 := EraseByMode(s1, a, b);
    DropIdleInv(s2, a, true);
    DropIdleLinks(s2, a);
    DropIdleLinks(DropIdle(s2, a), b);
  }

  /** Counting the connection down changes no link and no flag. */
  lemma CountedDown(s: State, a: Key, b: Key)
    requires Inv(s, true) && a in s.clients && b in s.clients && a != b
    ensures var (cs, last) := RemoveConnection(s.clients, a, b);
            && LinksOf(cs) == LinksOf(s.clients) && cs.Keys == s.clients.Keys
            && (last <==> Cnt(PeersOf(s.clients), a, b) == 1)
            && Taken(cs[a], cs[b]) == Taken(s.clients[a], s.clients[b])
            && Sym(LinksOf(cs), s.pairs)
  {
    hide RemoveConnection, Sym, PeerInv, LinksOk, LinksOf, PeersOf, Cnt, Shapes, Bare;
    RemoveKeeps(s.clients, a, b);
    SameLinks(s.clients, RemoveConnection(s.clients, a, b).0);
    SameFlags(s.clients, RemoveConnection(s.clients, a, b).0);
  }

  // ---- Leaving and coming back -------------------------------------------------------------

  /** Nobody is linked to k any more, all other pairs are as they were. */
  ghost predicate LinksDropped(L: LinkTable, Q: LinkTable, k: Key) {
    forall x, y :: M(Q, x, y) == if x == k || y == k then 0 else M(L, x, y)
  }

  lemma TurnedOff(s: State, k: Key, cs: map<Key, Client>, c: Client)
    requires Inv(s, true) && k in s.clients && c.links == []
    requires TurnOff(s, k, s.clients[k].links).0.rules.faults == s.rules.faults
    requires var s1 := TurnOff(s, k, s.clients[k].links).0;
             LinksOf(cs) == LinksOf(s1.clients) - {k} || LinksOf(cs) == LinksOf(s1.clients)[k := []]
    ensures LinksDropped(LinksOf(s.clients), LinksOf(cs), k)
  {
    hide Sym, M, PeerInv, LinksOk, TurnOff, LinksOf, PeersOf;
    var s1 := TurnOff(s, k, s.clients[k].links).0;
    TurnOffDetaches(s, k, s1);
    IdleLinks(LinksOf(s1.clients), LinksOf(cs), s1.pairs, k);
  }

  lemma DisconnectDrops(s: State, k: Key)
    requires Inv(s, true) && k in s.clients && Step(s, Disconnect(k)).rules.faults == s.rules.faults
    ensures LinksDropped(LinksOf(s.clients), LinksOf(Step(s, Disconnect(k)).clients), k)
  {
    hide Inv, TurnOff, HandleDisconnect, LinksOf, LinksDropped;
    DisconnectLinks(s, k);
    TurnedOff(s, k, Step(s, Disconnect(k)).clients, s.clients[k].(links := []));
  }

  lemma InactiveDrops(s: State, k: Key)
    requires Inv(s, true) && k in s.clients && Step(s, Inactive(k)).rules.faults == s.rules.faults
    ensures LinksDropped(LinksOf(s.clients), LinksOf(Step(s, Inactive(k)).clients), k)
  {
    hide Inv, TurnOff, HandleInactive, LinksOf, LinksDropped, Shapes;
    InactiveResult(s, k);
    var s1 := TurnOff(s, k, s.clients[k].links).0;
    NoneLeft(s, k);
    var c := s1.clients[k].(active := false);
    RewrittenLinks(s1.clients, k, c);
    TurnedOff(s, k, Step(s, Inactive(k)).clients, c);
  }

  lemma NoneLeft(s: State, k: Key)
    requires Inv(s, true) && k in s.clients && TurnOff(s, k, s.clients[k].links).0.rules.faults == s.rules.faults
    ensures TurnOff(s, k, s.clients[k].links).0.clients[k].links == []
  {
    hide Sym, M, PeerInv, LinksOk, TurnOff, PeersOf;
    TurnOffDetaches(s, k, TurnOff(s, k, s.clients[k].links).0);
  }

  lemma ResetDrops(s: State, e: Event)
    requires Inv(s, true) && e.Active? && e.iface in s.rules.ifaces && e.k in s.clients
    requires s.clients[e.k].active && s.clients[e.k].mac != e.mac && Step(s, e).rules.faults == s.rules.faults
    ensures LinksDropped(LinksOf(s.clients), LinksOf(Step(s, e).clients), e.k)
  {
    var k := e.k;
    var s1 := TurnOff(s, k, s.clients[k].links).0;
    var s2 := ClearPeers(s1, k, s1.clients[k].peers).0;
    var c := s2.clients[k].(mac := e.mac, active := true, powersave := false, iface := e.iface);
    assert Step(s, e) == s2.(clients := s2.clients[k := c]);
    hide Inv, TurnOff, ClearPeers, Step, LinksOf, LinksDropped, Shapes, Bare;
    NoneLeft(s, k);
    SameLinks(s1.clients, s2.clients);
    assert s2.clients[k].(peers := []).links == s1.clients[k].(peers := []).links;
    RewrittenLinks(s2.clients, k, c);
    TurnedOff(s, k, Step(s, e).clients, c);
  }

  /** A client that was inactive is linked to the first active peers of its list. */
  lemma WakeAdds(s: State, e: Event)
    requires Inv(s, true) && e.Active? && e.iface in s.rules.ifaces && e.k in s.clients
    requires !s.clients[e.k].active && Step(s, e).rules.faults == s.rules.faults
    ensures LinksAdded(LinksOf(s.clients), LinksOf(Step(s, e).clients), e.k,
                       Linked(s.clients, s.clients[e.k].peers, MAX_OFFLOAD_PAIR - s.pairs))
  {
    var k, ps := e.k, s.clients[e.k].peers;
    var c := s.clients[k].(mac := e.mac, active := true, powersave := false, iface := e.iface);
    var s1 := s.(clients := s.clients[k := c]);
    assert Step(s, e) == CheckPotential(s1, k, ps);
    hide Step, CheckPotential, Sym, M, LinksOk, PeerInv, LinksOf, Linked, PeersOf, LinksAdded, Offers, PeersOk, Num;
    WakePeers(s, s1, k, c, true);
    PairsCapped(s);
    PeersOffered(s.clients, k);
    SameOffers(s.clients, s1.clients, k, ps);
    CheckPotentialExact(s1, k, ps);
    LinkedStable(s.clients, s1.clients, ps, MAX_OFFLOAD_PAIR - s.pairs);
  }

  // ---- Every event --------------------------------------------------------------------------

  /** The first active peers of k's list, as many as there are pairs left. */
  function Offered(s: State, k: Key): set<Key>
    requires k in s.clients
  {
    Linked(s.clients, s.clients[k].peers, Minus(MAX_OFFLOAD_PAIR, s.pairs))
  }

  ghost predicate Unchanged(L: LinkTable, Q: LinkTable) { forall x, y :: M(Q, x, y) == M(L, x, y) }

  /** What an event makes of the links. */
  ghost predicate LinksFollow(s: State, e: Event, Q: LinkTable) {
    var L := LinksOf(s.clients);
    match e
    case Active(k, mac, iface) =>
      if iface !in s.rules.ifaces || k !in s.clients then Unchanged(L, Q)
      else if !s.clients[k].active then LinksAdded(L, Q, k, Offered(s, k))
      else if s.clients[k].mac == mac then Unchanged(L, Q)
      else LinksDropped(L, Q, k)
    case Inactive(k) => LinksDropped(L, Q, k)
    case Disconnect(k) => LinksDropped(L, Q, k)
    case PowerSave(k) => Unchanged(L, Q)
    case PowerRecover(k) =>
      if k !in s.clients || s.clients[k].active || !s.clients[k].powersave then Unchanged(L, Q)
      else LinksAdded(L, Q, k, Offered(s, k))
    case NewConn(a, b) => LinksAdded(L, Q, a, if GetsLink(s, a, b) then {b} else {})
    case DelConn(a, b) =>
      LinksTaken(L, Q, a, b,
        if a in s.clients && b in s.clients && Cnt(PeersOf(s.clients), a, b) == 1 then Taken(s.clients[a], s.clients[b]) else 0)
  }

  lemma NobodyDropped(L: LinkTable, pairs: nat, k: Key)
    requires Sym(L, pairs) && k !in L
    ensures LinksDropped(L, L, k)
  {
    forall x, y | x == k || y == k ensures M(L, x, y) == 0 { assert M(L, x, y) == M(L, y, x); }
  }

  lemma ActiveLinks(s: State, e: Event)
    requires Inv(s, true) && e.Active? && Step(s, e).rules.faults == s.rules.faults
    ensures LinksFollow(s, e, LinksOf(Step(s, e).clients))
  {
    hide Step, LinksOf, LinksAdded, LinksDropped, Linked, Sym, PeerInv, LinksOk;
    ActiveNothing(s, e);
    PairsCapped(s);
    if e.iface in s.rules.ifaces {
      if e.k !in s.clients {
        NewClientLinks(s, e);
      } else if !s.clients[e.k].active {
        WakeAdds(s, e);
      } else if s.clients[e.k].mac != e.mac {
        ResetDrops(s, e);
      }
    }
  }

  lemma NewClientLinks(s: State, e: Event)
    requires Inv(s, true) && e.Active? && e.iface in s.rules.ifaces && e.k !in s.clients
    ensures Unchanged(LinksOf(s.clients), LinksOf(Step(s, e).clients))
  {
    var L := LinksOf(s.clients);
    assert LinksOf(Step(s, e).clients) == L[e.k := []];
    hide Sym, M;
    IdleLinks(L, L[e.k := []], s.pairs, e.k);
  }

  lemma LeaveLinks(s: State, e: Event)
    requires Inv(s, true) && (e.Inactive? || e.Disconnect?) && Step(s, e).rules.faults == s.rules.faults
    ensures LinksFollow(s, e, LinksOf(Step(s, e).clients))
  {
    if e.k !in s.clients {
      NobodyDropped(LinksOf(s.clients), s.pairs, e.k);
    } else {
      hide Inv, HandleInactive, HandleDisconnect, LinksOf, LinksDropped;
      if e.Inactive? { InactiveDrops(s, e.k); } else { DisconnectDrops(s, e.k); }
    }
  }

  lemma SaveLinks(s: State, k: Key)
    ensures LinksFollow(s, PowerSave(k), LinksOf(Step(s, PowerSave(k)).clients))
  {
    hide RemoveFlts, M;
    assert LinksOf(Step(s, PowerSave(k)).clients) == LinksOf(s.clients);
  }

  lemma RecoverFollows(s: State, k: Key)
    requires Inv(s, true) && Step(s, PowerRecover(k)).rules.faults == s.rules.faults
    ensures LinksFollow(s, PowerRecover(k), LinksOf(Step(s, PowerRecover(k)).clients))
  {
    hide HandlePowerRecover, LinksOf, LinksAdded, Linked, Sym, PeerInv, LinksOk, M;
    RecoverNothing(s, k);
    PairsCapped(s);
    if k in s.clients && !s.clients[k].active && s.clients[k].powersave { RecoverLinks(s, k); }
  }

  lemma RecoverNothing(s: State, k: Key)
    ensures k !in s.clients || s.clients[k].active || !s.clients[k].powersave ==> HandlePowerRecover(s, k) == s
  {
    hide AddFlts, CheckPotential;
  }

  lemma NewConnAny(s: State, a: Key, b: Key)
    requires Inv(s, true) && !SelfConn(s, NewConn(a, b)) && Step(s, NewConn(a, b)).rules.faults == s.rules.faults
    ensures LinksFollow(s, NewConn(a, b), LinksOf(Step(s, NewConn(a, b)).clients))
  {
    NoneAdded(LinksOf(s.clients), a);
    if a != b {
      hide Inv, Step, LinksOf, LinksAdded, GetsLink;
      NewConnLinks(s, a, b);
    }
  }

  /** Without a failed call every event does to the links exactly what LinksFollow says. */
  lemma StepLinksFollow(s: State, e: Event)
    requires Inv(s, true) && !SelfConn(s, e) && Step(s, e).rules.faults == s.rules.faults
    ensures LinksFollow(s, e, LinksOf(Step(s, e).clients))
  {
    hide Inv, Step, LinksFollow, LinksOf;
    match e
    case Active(_, _, _) => ActiveLinks(s, e);
    case Inactive(_) => LeaveLinks(s, e);
    case Disconnect(_) => LeaveLinks(s, e);
    case PowerSave(k) => SaveLinks(s, k);
    case PowerRecover(k) => RecoverFollows(s, k);
    case NewConn(a, b) => NewConnAny(s, a, b);
    case DelConn(a, b) => DelConnAny(s, a, b);
  }

  lemma DelConnAny(s: State, a: Key, b: Key)
    requires Inv(s, true) && Step(s, DelConn(a, b)).rules.faults == s.rules.faults
    ensures LinksFollow(s, DelConn(a, b), LinksOf(Step(s, DelConn(a, b)).clients))
  {
    TakenNone(LinksOf(s.clients), a, b);
    if a !in s.clients || b !in s.clients { return; }
    if a == b {
      DelSelfNothing(s, a);
      assert Cnt(PeersOf(s.clients), a, a) == 0;
    } else {
      hide Inv, Step, LinksOf, LinksTaken, Cnt, PeersOf;
      DelConnLinks(s, a, b);
    }
  }

  // ---- A client's own fields -------------------------------------------------------------------

  /** MAC, flags and interface. */
  function Own(c: Client): Client { c.(peers := [], links := []) }

  ghost predicate SameOwn(cs: map<Key, Client>, cs': map<Key, Client>) {
    cs'.Keys == cs.Keys && forall x :: x in cs ==> Own(cs'[x]) == Own(cs[x])
  }

  lemma OwnKept(cs: map<Key, Client>, cs': map<Key, Client>)
    requires Shapes(cs) == Shapes(cs') || Bare(cs) == Bare(cs')
    ensures SameOwn(cs, cs')
  {
    if Shapes(cs) == Shapes(cs') {
      SameInfo(cs, cs');
      forall x | x in cs ensures Own(cs'[x]) == Own(cs[x]) {
        assert Own(cs'[x].(links := [])) == Own(cs[x].(links := []));
      }
    } else {
      SameLinks(cs, cs');
      forall x | x in cs ensures Own(cs'[x]) == Own(cs[x]) {
        assert Own(cs'[x].(peers := [])) == Own(cs[x].(peers := []));
      }
    }
  }

  predicate Enters(s: State, e: Event, x: Key) { e.Active? && e.k == x && e.iface in s.rules.ifaces }

  /** The fields of a client that is in the table after an event. */
  function OwnAfter(s: State, e: Event, x: Key): Client
    requires x in s.clients || Enters(s, e, x)
  {
    if Enters(s, e, x) && !(x in s.clients && s.clients[x].active && s.clients[x].mac == e.mac) then
      Client(e.mac, true, false, e.iface, [], [])
    else
      var c := Own(s.clients[x]);
      match e
      case Inactive(k) => if k == x then c.(active := false) else c
      case PowerSave(k) => if k == x then c.(active := false, powersave := true) else c
      case PowerRecover(k) => if k == x && !c.active && c.powersave then c.(active := true, powersave := false) else c
      case _ => c
  }

  ghost predicate OwnFollows(s: State, e: Event, cs: map<Key, Client>) {
    forall x :: x in cs ==> (x in s.clients || Enters(s, e, x)) && Own(cs[x]) == OwnAfter(s, e, x)
  }

  lemma ActiveOwn(s: State, e: Event)
    requires e.Active?
    ensures OwnFollows(s, e, Step(s, e).clients)
  {
    hide TurnOff, ClearPeers, CheckPotential, Shapes, Bare;
    var k := e.k;
    if e.iface in s.rules.ifaces && k in s.clients {
      if s.clients[k].active {
        var s1 := TurnOff(s, k, s.clients[k].links).0;
        var s2 := ClearPeers(s1, k, s1.clients[k].peers).0;
        OwnKept(s.clients, s1.clients);
        OwnKept(s1.clients, s2.clients);
      } else {
        var s1 := SetInfo(s, k, e.mac, e.iface);
        OwnKept(s1.clients, Step(s, e).clients);
      }
    }
  }

  lemma LeaveOwn(s: State, e: Event)
    requires e.Inactive? || e.Disconnect?
    ensures OwnFollows(s, e, Step(s, e).clients)
  {
    hide TurnOff, ClearPeers, Shapes, Bare;
    if e.k in s.clients {
      var s1 := TurnOff(s, e.k, s.clients[e.k].links).0;
      OwnKept(s.clients, s1.clients);
      OwnKept(s1.clients, ClearPeers(s1, e.k, s1.clients[e.k].peers).0.clients);
    }
  }

  /** remove_flt_rules never misses a reverse link, so the flags follow. */
  lemma {:induction false} RemoveFltsReachEnd(s: State, a: Key, todo: seq<Link>)
    requires a in s.clients && Sym(LinksOf(s.clients), s.pairs)
    requires forall l :: l in todo ==> M(LinksOf(s.clients), a, l.ptr) > 0
    ensures RemoveFlts(s, a, todo).1
    decreases |todo|
  {
    if todo == [] { return; }
    SymPair(LinksOf(s.clients), s.pairs, a, todo[0].ptr);
    BackFound(s, a, todo[0]);
    hide Sym, M, RemoveFltOne;
    RemoveFltsReachEnd(RemoveFltOne(s, a, todo[0]).0, a, todo[1..]);
  }

  lemma BackFound(s: State, a: Key, l: Link)
    requires a in s.clients && M(LinksOf(s.clients), l.ptr, a) > 0
    ensures l.ptr in s.clients && RemoveFltOne(s, a, l).1
  {
    MultFind(s.clients[l.ptr].links, a);
    hide DelFlt;
  }

  lemma OwnLinks(s: State, k: Key)
    requires k in s.clients
    ensures forall l :: l in s.clients[k].links ==> M(LinksOf(s.clients), k, l.ptr) > 0
  {
    forall l | l in s.clients[k].links ensures M(LinksOf(s.clients), k, l.ptr) > 0 { MultIn(s.clients[k].links, l); }
  }

  lemma SaveOwn(s: State, k: Key)
    requires Sym(LinksOf(s.clients), s.pairs)
    ensures OwnFollows(s, PowerSave(k), Step(s, PowerSave(k)).clients)
  {
    if k !in s.clients { return; }
    hide RemoveFlts, Sym, M;
    OwnLinks(s, k);
    RemoveFltsReachEnd(s, k, s.clients[k].links);
  }

  lemma RecoverOwn(s: State, k: Key)
    requires Sym(LinksOf(s.clients), s.pairs) && Step(s, PowerRecover(k)).rules.faults == s.rules.faults
    ensures OwnFollows(s, PowerRecover(k), Step(s, PowerRecover(k)).clients)
  {
    hide AddFlts, CheckPotential, Sym, Shapes;
    if k in s.clients && !s.clients[k].active && s.clients[k].powersave {
      var (s1, ok) := AddFlts(s, k, 0);
      OwnKept(s.clients, s1.clients);
      AddFltsReachEnd(s, k, 0);
      var s2 := SetFlags(s1, k, true, false);
      OwnKept(s2.clients, CheckPotential(s2, k, s2.clients[k].peers).clients);
    }
  }

  lemma NewOwn(s: State, a: Key, b: Key)
    ensures OwnFollows(s, NewConn(a, b), Step(s, NewConn(a, b)).clients)
  {
    if a !in s.clients || b !in s.clients { return; }
    hide HandleNewConn, AddConnection, Shapes, Bare;
    NewShapes(s, a, b);
    var cs := AddConnection(s.clients, a, b).0;
    OwnKept(s.clients, cs);
    OwnKept(cs, HandleNewConn(s, a, b).clients);
  }

  lemma DelOwn(s: State, a: Key, b: Key)
    ensures OwnFollows(s, DelConn(a, b), Step(s, DelConn(a, b)).clients)
  {
    if a !in s.clients || b !in s.clients { return; }
    hide RemoveConnection, EraseByMode, Shapes, Bare;
    var (cs, last) := RemoveConnection(s.clients, a, b);
    OwnKept(s.clients, cs);
    OwnKept(cs, EraseByMode(s.(clients := cs), a, b).clients);
  }

  /** Whatever the hardware answers (for a recovery: without a failed call), every client's MAC,
      flags and interface are what OwnAfter says. */
  lemma StepOwn(s: State, e: Event)
    requires Sym(LinksOf(s.clients), s.pairs)
    requires e.PowerRecover? ==> Step(s, e).rules.faults == s.rules.faults
    ensures OwnFollows(s, e, Step(s, e).clients)
  {
    hide Step, Sym, OwnFollows;
    match e
    case Active(_, _, _) => ActiveOwn(s, e);
    case Inactive(_) => LeaveOwn(s, e);
    case Disconnect(_) => LeaveOwn(s, e);
    case PowerSave(k) => SaveOwn(s, k);
    case PowerRecover(k) => RecoverOwn(s, k);
    case NewConn(a, b) => NewOwn(s, a, b);
    case DelConn(a, b) => DelOwn(s, a, b);
  }
}
