/** The offload graph over runs of events.  `pw` says whether power-save events are allowed:
    without them the graph is simple and links only active peers. */
module LanToLanGraph {
  import opened Driver
  import opened LanRules
  import opened LanToLan
  import opened LanToLanPeers
  import opened LanToLanLinks

  ghost predicate LinkOk(cs: map<Key, Client>, pw: bool, a: Key, b: Key) {
    && a in cs && Reachable(cs[a])
    && (!pw ==> M(LinksOf(cs), a, b) == 1 && cs[a].active && Cnt(PeersOf(cs), a, b) > 0)
  }

  ghost predicate LinksOk(cs: map<Key, Client>, pw: bool) {
    forall a, b :: M(LinksOf(cs), a, b) > 0 ==> LinkOk(cs, pw, a, b)
  }

  ghost predicate Inv(s: State, pw: bool) {
    && PeerInv(PeersOf(s.clients))
    && Sym(LinksOf(s.clients), s.pairs)
    && LinksOk(s.clients, pw)
    && !s.wild
  }

  /** What is left of Inv to prove once the peer lists are settled. */
  ghost predicate LinkInv(s: State, pw: bool) {
    Sym(LinksOf(s.clients), s.pairs) && LinksOk(s.clients, pw) && !s.wild
  }

  // ---- Reading the invariant -----------------------------------------------------------

  lemma {:induction false} EmptyByMult(ls: seq<Link>)
    requires forall k :: Mult(ls, k) == 0
    ensures ls == []
  {
    if ls != [] { assert Mult(ls, ls[0].ptr) > 0; }
  }

  lemma NoLinks(L: LinkTable, k: Key)
    requires k in L && forall x :: M(L, k, x) == 0
    ensures L[k] == []
  {
    forall x ensures Mult(L[k], x) == 0 { assert M(L, k, x) == 0; }
    EmptyByMult(L[k]);
  }

  /** Every stored link pointer names a table entry, which lists the link's owner in turn. */
  lemma LinkPointersLive(s: State, pw: bool, a: Key, l: Link)
    requires Inv(s, pw) && a in s.clients && l in s.clients[a].links
    ensures l.ptr in s.clients && l.ptr != a
    ensures Mult(s.clients[l.ptr].links, a) == Mult(s.clients[a].links, l.ptr) > 0
  {
    var L := LinksOf(s.clients);
    MultIn(s.clients[a].links, l);
    assert M(L, a, l.ptr) == M(L, l.ptr, a);
    assert M(L, a, a) == 0;
  }

  lemma IdleLinks(L: LinkTable, Q: LinkTable, pairs: nat, k: Key)
    requires Sym(L, pairs) && (k in L ==> L[k] == [])
    requires Q == L - {k} || Q == L[k := []]
    ensures Sym(Q, pairs)
    ensures forall x, y :: M(Q, x, y) == M(L, x, y)
  {
    TotalSet(L, k, []);
    if Q == L - {k} {
      TotalSet(Q, k, []);
      assert Q[k := []] == L[k := []];
    }
    hide Total;
    forall x, y ensures M(Q, x, y) == M(L, x, y) {
      assert M(L, x, y) == M(L, y, x);
    }
    forall x, y ensures M(Q, x, y) == M(Q, y, x) {
      assert M(L, x, y) == M(L, y, x);
    }
  }

  // ---- Leaving -------------------------------------------------------------------------

  /** What the table looks like once client k's links are gone: nobody else changed. */
  ghost predicate Detached(s: State, s': State, k: Key) {
    && k in s.clients && s'.clients.Keys == s.clients.Keys
    && Sym(LinksOf(s'.clients), s'.pairs) && !s'.wild
    && LinksOf(s'.clients)[k] == []
    && (forall x, y :: M(LinksOf(s'.clients), x, y) == if x == k || y == k then 0 else M(LinksOf(s.clients), x, y))
    && (forall x :: x in s.clients && x != k ==> s'.clients[x].active == s.clients[x].active)
    && (forall x :: x in s.clients && x != k ==> s'.clients[x].powersave == s.clients[x].powersave)
  }

  lemma GoneCounts(L: LinkTable, Q: LinkTable, pairs: nat, k: Key)
    requires LinksGone(L, Q, k) && Sym(Q, pairs)
    ensures forall x, y :: M(Q, x, y) == if x == k || y == k then 0 else M(L, x, y)
  {
    hide Total;
    forall x, y ensures M(Q, x, y) == if x == k || y == k then 0 else M(L, x, y) {
      assert M(Q, x, y) == M(Q, y, x);
    }
  }

  lemma TurnOffDetaches(s: State, k: Key, s': State)
    requires k in s.clients && Sym(LinksOf(s.clients), s.pairs) && !s.wild
    requires s' == TurnOff(s, k, s.clients[k].links).0 && s'.rules.faults == s.rules.faults
    ensures Detached(s, s', k) && PeersOf(s'.clients) == PeersOf(s.clients)
    ensures s'.clients[k].(links := []) == s.clients[k].(links := [])
  {
    hide Sym, M;
    var L := LinksOf(s.clients);
    assert L[k := s.clients[k].links] == L;
    TurnOffKeeps(s, k, s.clients[k].links);
    SameInfo(s.clients, s'.clients);
    GoneCounts(L, LinksOf(s'.clients), s'.pairs, k);
    forall x | x in s.clients
      ensures s'.clients[x].active == s.clients[x].active && s'.clients[x].powersave == s.clients[x].powersave
    {
      assert s'.clients[x].(links := []) == s.clients[x].(links := []);
    }
  }

  lemma DetachedBare(s: State, s1: State, s2: State, k: Key)
    requires Detached(s, s1, k) && Bare(s2.clients) == Bare(s1.clients)
    requires s2.pairs == s1.pairs && s2.wild == s1.wild
    ensures Detached(s, s2, k)
  {
    SameLinks(s1.clients, s2.clients);
    forall x | x in s.clients
      ensures s2.clients[x].active == s1.clients[x].active && s2.clients[x].powersave == s1.clients[x].powersave
    {
      assert s2.clients[x].(peers := []) == s1.clients[x].(peers := []);
    }
  }

  /** A detached client may be rewritten or erased. */
  lemma FinishLeave(s: State, s2: State, s': State, k: Key, c: Client, pw: bool)
    requires LinkInv(s, pw) && Detached(s, s2, k) && c.links == []
    requires s'.pairs == s2.pairs && s'.wild == s2.wild
    requires s'.clients == s2.clients - {k} || s'.clients == s2.clients[k := c]
    requires forall x, y :: x != k && y != k ==> Cnt(PeersOf(s'.clients), x, y) == Cnt(PeersOf(s.clients), x, y)
    ensures LinkInv(s', pw)
  {
    var L, Q := LinksOf(s2.clients), LinksOf(s'.clients);
    RewrittenLinks(s2.clients, k, c);
    hide Sym, Cnt, M, LinksOf;
    IdleLinks(L, Q, s2.pairs, k);
    forall a, b | M(Q, a, b) > 0 ensures LinkOk(s'.clients, pw, a, b) {
      assert LinkOk(s.clients, pw, a, b);
    }
  }

  lemma RewrittenLinks(cs: map<Key, Client>, k: Key, c: Client)
    requires c.links == []
    ensures LinksOf(cs - {k}) == LinksOf(cs) - {k} && LinksOf(cs[k := c]) == LinksOf(cs)[k := []]
  {
  }

  lemma ResetDetaches(s: State, k: Key, s1: State, s2: State)
    requires k in s.clients && Inv(s, true)
    requires s1 == TurnOff(s, k, s.clients[k].links).0 && s1.rules.faults == s.rules.faults
    requires s2 == ClearPeers(s1, k, s1.clients[k].peers).0
    ensures Detached(s, s2, k)
  {
    hide Sym, M, PeersOk, LinksOk, TurnOff, ClearPeers, Shapes, Bare, LinksOf;
    TurnOffDetaches(s, k, s1);
    var P := PeersOf(s1.clients);
    assert P[k := s1.clients[k].peers] == P;
    ClearKeeps(s1, k, s1.clients[k].peers);
    DetachedBare(s, s1, s2, k);
  }

  lemma Weaken(s: State, pw: bool)
    requires Inv(s, pw)
    ensures Inv(s, true) && LinkInv(s, pw)
  {
    hide Sym, M, PeerInv;
    forall a, b | M(LinksOf(s.clients), a, b) > 0 ensures LinkOk(s.clients, true, a, b) {
      assert LinkOk(s.clients, pw, a, b);
    }
  }

  lemma DisconnectInv(s: State, k: Key, pw: bool)
    requires Inv(s, pw) && k in s.clients
    requires HandleDisconnect(s, k).rules.faults == s.rules.faults
    ensures LinkInv(HandleDisconnect(s, k), pw)
  {
    var s1 := TurnOff(s, k, s.clients[k].links).0;
    var s2 := ClearPeers(s1, k, s1.clients[k].peers).0;
    DisconnectFollows(s, k);
    assert FollowsTo(s, Disconnect(k), PeersOf(HandleDisconnect(s, k).clients));
    hide Sym, M, PeersOk, Cnt, TurnOff, ClearPeers;
    Weaken(s, pw);
    ResetDetaches(s, k, s1, s2);
    FinishLeave(s, s2, HandleDisconnect(s, k), k, s2.clients[k], pw);
  }

  lemma InactiveResult(s: State, k: Key)
    requires k in s.clients
    ensures var s1, s' := TurnOff(s, k, s.clients[k].links).0, HandleInactive(s, k);
            && (s'.clients == s1.clients - {k} || s'.clients == s1.clients[k := s1.clients[k].(active := false)])
            && s'.pairs == s1.pairs && s'.wild == s1.wild && s'.rules == s1.rules
  {
    hide TurnOff;
    var s1 := TurnOff(s, k, s.clients[k].links).0;
    assert SetFlags(s1, k, false, s1.clients[k].powersave).clients - {k} == s1.clients - {k};
  }

  lemma InactiveInv(s: State, k: Key, pw: bool)
    requires Inv(s, pw) && k in s.clients
    requires HandleInactive(s, k).rules.faults == s.rules.faults
    ensures LinkInv(HandleInactive(s, k), pw)
  {
    hide Sym, M, PeersOk, Cnt, TurnOff, LinksOk, HandleInactive, Shapes;
    var s1 := TurnOff(s, k, s.clients[k].links).0;
    InactiveFollows(s, k);
    InactiveResult(s, k);
    TurnOffDetaches(s, k, s1);
    FinishLeave(s, s1, HandleInactive(s, k), k, s1.clients[k].(active := false), pw);
  }

  lemma ResetInv(s: State, e: Event, pw: bool)
    requires Inv(s, pw) && e.Active? && e.iface in s.rules.ifaces
    requires e.k in s.clients && s.clients[e.k].active && s.clients[e.k].mac != e.mac
    requires Step(s, e).rules.faults == s.rules.faults
    ensures LinkInv(Step(s, e), pw)
  {
    var s1 := TurnOff(s, e.k, s.clients[e.k].links).0;
    var s2 := ClearPeers(s1, e.k, s1.clients[e.k].peers).0;
    ResetFollows(s, e);
    assert FollowsTo(s, e, PeersOf(Step(s, e).clients));
    hide Sym, M, PeersOk, Cnt, TurnOff, ClearPeers;
    Weaken(s, pw);
    ResetDetaches(s, e.k, s1, s2);
    FinishLeave(s, s2, Step(s, e), e.k, Step(s, e).clients[e.k], pw);
  }

  // ---- Waking up -----------------------------------------------------------------------

  /** An inactive client k becomes active as `c` and is offered to its active peers. */
  lemma WakeInv(s: State, s1: State, s': State, k: Key, c: Client, pw: bool)
    requires Inv(s, pw) && k in s.clients && !s.clients[k].active
    requires c.active && c.peers == s.clients[k].peers && c.links == s.clients[k].links
    requires s1.clients == s.clients[k := c] && s1.pairs == s.pairs && !s1.wild
    requires s' == CheckPotential(s1, k, c.peers) && s'.rules.faults == s1.rules.faults
    ensures LinkInv(s', pw)
  {
    hide Sym, M, CheckPotential, PeerInv, PeersOk, CheckOne, LinksOf, PeersOf;
    WakePeers(s, s1, k, c, pw);
    CheckPotentialKeeps(s1, k, c.peers);
    SameInfo(s1.clients, s'.clients);
    forall a, b | M(LinksOf(s'.clients), a, b) > 0 ensures LinkOk(s'.clients, pw, a, b) {
      WokenLink(s, s1, s', k, pw, a, b);
    }
  }

  lemma WakePeers(s: State, s1: State, k: Key, c: Client, pw: bool)
    requires Inv(s, pw) && k in s.clients && c.peers == s.clients[k].peers && c.links == s.clients[k].links
    requires s1.clients == s.clients[k := c]
    ensures PeersOf(s1.clients) == PeersOf(s.clients) && LinksOf(s1.clients) == LinksOf(s.clients)
    ensures PeersOk(c.peers)
    ensures forall b :: Num(c.peers, b) > 0 ==> b in s1.clients && b != k
  {
    hide Sym;
    var P := PeersOf(s.clients);
    assert PeersOf(s1.clients) == P;
    forall b | Num(c.peers, b) > 0 ensures b in s1.clients && b != k {
      assert Cnt(P, k, b) == Cnt(P, b, k);
      assert Cnt(P, k, k) == 0;
    }
  }

  lemma WokenLink(s: State, s1: State, s': State, k: Key, pw: bool, a: Key, b: Key)
    requires Inv(s, pw) && k in s.clients && !s.clients[k].active && k in s1.clients
    requires s1.clients[k].active && s1.clients == s.clients[k := s1.clients[k]]
    requires s1.clients[k].peers == s.clients[k].peers && s1.clients[k].links == s.clients[k].links
    requires Grown(s1, s', k, s.clients[k].peers) && s'.clients.Keys == s1.clients.Keys
    requires PeersOf(s'.clients) == PeersOf(s.clients)
    requires forall x :: x in s1.clients ==> s1.clients[x].(links := []) == s'.clients[x].(links := [])
    requires M(LinksOf(s'.clients), a, b) > 0
    ensures LinkOk(s'.clients, pw, a, b)
  {
    var L, P := LinksOf(s.clients), PeersOf(s.clients);
    assert LinksOf(s1.clients) == L;
    assert a in s1.clients ==> s1.clients[a].(links := []).active == s'.clients[a].(links := []).active;
    assert a in s1.clients ==> s1.clients[a].(links := []).powersave == s'.clients[a].(links := []).powersave;
    assert Cnt(P, a, b) == Cnt(P, b, a);
    assert M(L, a, b) == M(L, b, a);
    hide Sym, M, PeerInv, LinksOf, PeersOf;
    if M(L, a, b) > 0 {
      assert LinkOk(s.clients, pw, a, b) && LinkOk(s.clients, pw, b, a);
    }
  }

  lemma ActiveInv(s: State, e: Event, pw: bool)
    requires Inv(s, pw) && e.Active?
    requires Step(s, e).rules.faults == s.rules.faults
    ensures LinkInv(Step(s, e), pw)
  {
    if e.iface !in s.rules.ifaces { return; }
    if e.k !in s.clients {
      NewClientInv(s, e, pw);
    } else if !s.clients[e.k].active {
      var s1 := SetInfo(s, e.k, e.mac, e.iface);
      WakeInv(s, s1, Step(s, e), e.k, s1.clients[e.k], pw);
    } else if s.clients[e.k].mac != e.mac {
      ResetInv(s, e, pw);
    }
  }

  lemma NewClientInv(s: State, e: Event, pw: bool)
    requires Inv(s, pw) && e.Active? && e.iface in s.rules.ifaces && e.k !in s.clients
    ensures LinkInv(Step(s, e), pw)
  {
    ActiveFollows(s, e);
    assert FollowsTo(s, e, PeersOf(Step(s, e).clients));
    var L, s' := LinksOf(s.clients), Step(s, e);
    assert LinksOf(s'.clients) == L[e.k := []];
    hide Sym, Cnt, PeersOf;
    IdleLinks(L, LinksOf(s'.clients), s.pairs, e.k);
    hide M;
    forall a, b | M(LinksOf(s'.clients), a, b) > 0 ensures LinkOk(s'.clients, pw, a, b) {
      assert LinkOk(s.clients, pw, a, b);
    }
  }

  // ---- Connections ---------------------------------------------------------------------

  lemma LinkNewIsBoth(s: State, a: Key, b: Key)
    requires a in s.clients && b in s.clients && a != b && s.pairs <= MAX_OFFLOAD_PAIR
    requires LinkNew(s, a, b).rules.faults == s.rules.faults
    ensures LinkNew(s, a, b) == LinkBoth(s, a, b)
  {
    if s.pairs == MAX_OFFLOAD_PAIR {
      LinkBothAtCap(s, a, b);
      AddLinkAtCap(s, a, b);
    } else {
      hide AddLink;
      var l1 := AddLinkAppends(s, a, b);
    }
  }

  lemma AddLinkAtCap(s: State, a: Key, b: Key)
    requires a in s.clients && b in s.clients && s.pairs >= MAX_OFFLOAD_PAIR
    ensures AddLink(s, a, b) == (s, false)
  {
  }

  /** Two states with the same links and flags, where linked pairs kept a positive count. */
  lemma SameLinkInv(s: State, s1: State, pw: bool)
    requires LinkInv(s, pw) && Bare(s1.clients) == Bare(s.clients)
    requires s1.pairs == s.pairs && s1.wild == s.wild
    requires forall x, y :: !pw && M(LinksOf(s.clients), x, y) > 0 ==> Cnt(PeersOf(s1.clients), x, y) > 0
    ensures LinkInv(s1, pw)
  {
    SameLinks(s.clients, s1.clients);
    hide Sym, M, Cnt;
    forall a, b | M(LinksOf(s1.clients), a, b) > 0 ensures LinkOk(s1.clients, pw, a, b) {
      assert LinkOk(s.clients, pw, a, b);
      assert s.clients[a].(peers := []).active == s1.clients[a].(peers := []).active;
      assert s.clients[a].(peers := []).powersave == s1.clients[a].(peers := []).powersave;
    }
  }

  lemma CarryOk(cs: map<Key, Client>, cs': map<Key, Client>, pw: bool, a: Key, b: Key)
    requires Shapes(cs') == Shapes(cs) && LinkOk(cs, pw, a, b)
    requires 0 < M(LinksOf(cs'), a, b) <= M(LinksOf(cs), a, b)
    ensures LinkOk(cs', pw, a, b)
  {
    hide M;
    SameInfo(cs, cs');
    assert cs[a].(links := []).active == cs'[a].(links := []).active;
    assert cs[a].(links := []).powersave == cs'[a].(links := []).powersave;
  }

  lemma NewLinksInv(s: State, a: Key, b: Key, pw: bool)
    requires LinkInv(s, pw) && a in s.clients && b in s.clients && a != b
    requires s.clients[a].active && s.clients[b].active
    requires !pw ==> M(LinksOf(s.clients), a, b) == 0 && M(LinksOf(s.clients), b, a) == 0
    requires Cnt(PeersOf(s.clients), a, b) > 0 && Cnt(PeersOf(s.clients), b, a) > 0
    requires s.pairs <= MAX_OFFLOAD_PAIR && LinkNew(s, a, b).rules.faults == s.rules.faults
    ensures LinkInv(LinkNew(s, a, b), pw)
  {
    var s' := LinkNew(s, a, b);
    hide Sym, M, Cnt, LinkNew, LinkBoth, AddLink, LinksOf;
    LinkNewIsBoth(s, a, b);
    LinkBothKeeps(s, a, b);
    SameInfo(s.clients, s'.clients);
    assert s.clients[a].(links := []).active == s'.clients[a].(links := []).active;
    assert s.clients[b].(links := []).active == s'.clients[b].(links := []).active;
    forall x, y | M(LinksOf(s'.clients), x, y) > 0 ensures LinkOk(s'.clients, pw, x, y) {
      if (x, y) != (a, b) && (x, y) != (b, a) {
        assert LinkOk(s.clients, pw, x, y);
        CarryOk(s.clients, s'.clients, pw, x, y);
      }
    }
  }

  lemma FirstUnlinked(s: State, a: Key, b: Key)
    requires Inv(s, false) && Cnt(PeersOf(s.clients), a, b) == 0
    ensures M(LinksOf(s.clients), a, b) == 0 && M(LinksOf(s.clients), b, a) == 0
  {
    hide Sym, PeersOk;
    assert Cnt(PeersOf(s.clients), b, a) == 0;
    hide M;
    assert M(LinksOf(s.clients), a, b) > 0 ==> LinkOk(s.clients, false, a, b);
    assert M(LinksOf(s.clients), b, a) > 0 ==> LinkOk(s.clients, false, b, a);
  }

  lemma LinkedCounts(s: State, pw: bool)
    requires Inv(s, pw)
    ensures forall x, y :: !pw && M(LinksOf(s.clients), x, y) > 0 ==> Cnt(PeersOf(s.clients), x, y) > 0
  {
    hide Sym, PeersOk, M, Cnt;
    forall x, y | !pw && M(LinksOf(s.clients), x, y) > 0 ensures Cnt(PeersOf(s.clients), x, y) > 0 {
      assert LinkOk(s.clients, pw, x, y);
    }
  }

  lemma NewInv(s: State, a: Key, b: Key, pw: bool)
    requires Inv(s, pw) && a in s.clients && b in s.clients && a != b
    requires HandleNewConn(s, a, b).rules.faults == s.rules.faults
    ensures LinkInv(HandleNewConn(s, a, b), pw)
  {
    hide AddConnection, LinkInv, LinkNew, PeersOf, Shapes, Bare, LinksOf, M, Cnt, PeerInv;
    var (cs, first) := AddConnection(s.clients, a, b);
    CountedInv(s, a, b, pw);
    if first && cs[a].active && cs[b].active {
      FirstCounts(s, a, b, pw);
      NewLinksInv(s.(clients := cs), a, b, pw);
    }
  }

  /** Counting the connection up leaves the links alone. */
  lemma CountedInv(s: State, a: Key, b: Key, pw: bool)
    requires Inv(s, pw) && a in s.clients && b in s.clients && a != b
    ensures LinkInv(s.(clients := AddConnection(s.clients, a, b).0), pw)
  {
    hide AddConnection, Sym, PeersOk, M, Cnt;
    AddKeeps(s.clients, a, b);
    LinkedCounts(s, pw);
    SameLinkInv(s, s.(clients := AddConnection(s.clients, a, b).0), pw);
  }

  lemma FirstCounts(s: State, a: Key, b: Key, pw: bool)
    requires Inv(s, pw) && a in s.clients && b in s.clients && a != b && AddConnection(s.clients, a, b).1
    ensures var cs := AddConnection(s.clients, a, b).0;
            && (!pw ==> M(LinksOf(cs), a, b) == 0 && M(LinksOf(cs), b, a) == 0)
            && Cnt(PeersOf(cs), a, b) > 0 && Cnt(PeersOf(cs), b, a) > 0
            && s.pairs <= MAX_OFFLOAD_PAIR
  {
    var cs := AddConnection(s.clients, a, b).0;
    hide AddConnection, Sym, M, Cnt, PeersOk, LinksOk;
    AddKeeps(s.clients, a, b);
    SameLinks(s.clients, cs);
    CountSym(cs, a, b);
    PairsCapped(s);
    if !pw { FirstUnlinked(s, a, b); }
  }

  lemma CountSym(cs: map<Key, Client>, a: Key, b: Key)
    requires PeerInv(PeersOf(cs))
    ensures Cnt(PeersOf(cs), a, b) == Cnt(PeersOf(cs), b, a)
  {
  }

  /** What erasing by mode does to the links: nothing outside {a, b}, nothing grows, and one
      link on each side goes when both ends are active. */
  ghost predicate Shrunk(s: State, s': State, a: Key, b: Key) {
    && Sym(LinksOf(s'.clients), s'.pairs)
    && (forall x, y :: M(LinksOf(s'.clients), x, y) <= M(LinksOf(s.clients), x, y))
    && (forall x, y | (x, y) != (a, b) && (x, y) != (b, a) ::
          M(LinksOf(s'.clients), x, y) == M(LinksOf(s.clients), x, y))
  }

  lemma EraseShrinks(s: State, a: Key, b: Key)
    requires a in s.clients && b in s.clients && a != b
    requires Sym(LinksOf(s.clients), s.pairs)
    requires EraseLinks(s, a, b).rules.faults == s.rules.faults
    ensures Shrunk(s, EraseLinks(s, a, b), a, b)
    ensures M(LinksOf(s.clients), a, b) <= 1 ==>
              M(LinksOf(EraseLinks(s, a, b).clients), a, b) == M(LinksOf(EraseLinks(s, a, b).clients), b, a) == 0
  {
    SymPair(LinksOf(s.clients), s.pairs, a, b);
    hide Sym, M, EraseLinks, Shapes, LinksOf;
    EraseLinksKeeps(s, a, b);
    PairLess(LinksOf(s.clients), LinksOf(EraseLinks(s, a, b).clients), a, b);
  }

  lemma SymPair(L: LinkTable, pairs: nat, a: Key, b: Key)
    requires Sym(L, pairs)
    ensures M(L, a, b) == M(L, b, a)
  {
  }

  lemma PairLess(L: LinkTable, Q: LinkTable, a: Key, b: Key)
    requires a != b && M(L, a, b) == M(L, b, a)
    requires forall x, y ::
               M(Q, x, y) == M(L, x, y) - (if M(L, a, b) > 0 && ((x, y) == (a, b) || (x, y) == (b, a)) then 1 else 0)
    ensures forall x, y :: M(Q, x, y) <= M(L, x, y)
    ensures forall x, y | (x, y) != (a, b) && (x, y) != (b, a) :: M(Q, x, y) == M(L, x, y)
    ensures M(L, a, b) <= 1 ==> M(Q, a, b) == M(Q, b, a) == 0
  {
    hide M;
  }

  lemma EraseByModeShrinks(s: State, a: Key, b: Key)
    requires a in s.clients && b in s.clients && a != b
    requires Sym(LinksOf(s.clients), s.pairs)
    requires EraseByMode(s, a, b).rules.faults == s.rules.faults
    ensures Shrunk(s, EraseByMode(s, a, b), a, b)
    ensures s.clients[a].active && s.clients[b].active && M(LinksOf(s.clients), a, b) <= 1 ==>
              M(LinksOf(EraseByMode(s, a, b).clients), a, b) == M(LinksOf(EraseByMode(s, a, b).clients), b, a) == 0
  {
    hide Sym, M, EraseLinks;
    var ca, cb := s.clients[a], s.clients[b];
    if ca.active && cb.active {
      EraseShrinks(s, a, b);
    } else {
      var t := if ca.powersave && Reachable(cb) then EraseLinks(s, a, b) else s;
      if ca.powersave && Reachable(cb) { EraseShrinks(s, a, b); }
      if cb.powersave && Reachable(ca) { EraseShrinks(t, b, a); }
    }
  }

  /** A link that survives a deleted connection is still fit. */
  lemma DelLinkOk(s: State, cs: map<Key, Client>, s2: State, a: Key, b: Key, pw: bool)
    requires Inv(s, pw) && a in s.clients && b in s.clients && a != b
    requires Bare(cs) == Bare(s.clients) && Shapes(s2.clients) == Shapes(cs)
    requires forall x, y | (x, y) != (a, b) && (x, y) != (b, a) ::
               Cnt(PeersOf(cs), x, y) == Cnt(PeersOf(s.clients), x, y)
    requires Shrunk(s.(clients := cs), s2, a, b)
    requires !pw ==> M(LinksOf(s2.clients), a, b) == M(LinksOf(s2.clients), b, a) == 0
    ensures LinksOk(s2.clients, pw)
  {
    hide Sym, M, Cnt, PeerInv;
    SameLinks(s.clients, cs);
    SameInfo(cs, s2.clients);
    forall x, y | M(LinksOf(s2.clients), x, y) > 0 ensures LinkOk(s2.clients, pw, x, y) {
      assert LinkOk(s.clients, pw, x, y);
      assert cs[x].(links := []).active == s2.clients[x].(links := []).active;
      assert cs[x].(links := []).powersave == s2.clients[x].(links := []).powersave;
      assert cs[x].(peers := []).active == s.clients[x].(peers := []).active;
      assert cs[x].(peers := []).powersave == s.clients[x].(peers := []).powersave;
    }
  }

  lemma DropIdleInv(s: State, k: Key, pw: bool)
    requires LinkInv(s, pw) && k in s.clients && PeerInv(PeersOf(s.clients))
    ensures LinkInv(DropIdle(s, k), pw)
  {
    if DropIdle(s, k) == s { return; }
    var L := LinksOf(s.clients);
    forall x ensures M(L, k, x) == 0 {
      assert M(L, k, x) > 0 ==> LinkOk(s.clients, pw, k, x);
    }
    NoLinks(L, k);
    assert LinksOf(s.clients - {k}) == L - {k};
    hide Sym, M;
    IdleLinks(L, L - {k}, s.pairs, k);
    DropIdleKeeps(s, k);
    hide Cnt;
    forall x, y | M(L - {k}, x, y) > 0 ensures LinkOk(s.clients - {k}, pw, x, y) {
      assert LinkOk(s.clients, pw, x, y);
    }
  }

  /** Without power save a link implies two active ends. */
  lemma ActiveEnds(s: State, a: Key, b: Key)
    requires Inv(s, false) && M(LinksOf(s.clients), a, b) > 0
    ensures a in s.clients && b in s.clients && s.clients[a].active && s.clients[b].active
    ensures M(LinksOf(s.clients), a, b) == 1
  {
    assert M(LinksOf(s.clients), b, a) > 0;
    hide Sym, M, PeerInv;
    assert LinkOk(s.clients, false, a, b) && LinkOk(s.clients, false, b, a);
  }

  lemma DelKeepsCount(s: State, a: Key, b: Key, pw: bool)
    requires Inv(s, pw) && a in s.clients && b in s.clients && a != b
    requires !RemoveConnection(s.clients, a, b).1
    ensures LinkInv(s.(clients := RemoveConnection(s.clients, a, b).0), pw)
  {
    hide RemoveConnection, Sym, PeersOk, M, Cnt;
    RemoveKeeps(s.clients, a, b);
    LinkedCounts(s, pw);
    CountSym(s.clients, a, b);
    SameLinkInv(s, s.(clients := RemoveConnection(s.clients, a, b).0), pw);
  }

  lemma DelInv(s: State, a: Key, b: Key, pw: bool)
    requires Inv(s, pw) && a in s.clients && b in s.clients && a != b
    requires HandleDelConn(s, a, b).rules.faults == s.rules.faults
    ensures LinkInv(HandleDelConn(s, a, b), pw)
  {
    var (cs, last) := RemoveConnection(s.clients, a, b);
    var s1 := s.(clients := cs);
    hide RemoveConnection, EraseByMode, Sym, PeersOk, M, Cnt;
    if !last { DelKeepsCount(s, a, b, pw); return; }
    var s2 := EraseByMode(s1, a, b);
    assert s2.rules.faults == s1.rules.faults;
    hide DropIdle;
    DelGraph(s, a, b, pw);
    DropIdleInv(s2, a, pw);
    DropIdleKeeps(s2, a);
    DropIdleElse(s2, a, b);
    DropIdleInv(DropIdle(s2, a), b, pw);
  }

  lemma DropIdleElse(s: State, a: Key, b: Key)
    requires a in s.clients && b in s.clients && a != b
    ensures b in DropIdle(s, a).clients
  {
  }

  lemma DelGraph(s: State, a: Key, b: Key, pw: bool)
    requires Inv(s, pw) && a in s.clients && b in s.clients && a != b
    requires var s1 := s.(clients := RemoveConnection(s.clients, a, b).0);
             EraseByMode(s1, a, b).rules.faults == s1.rules.faults
    ensures var s2 := EraseByMode(s.(clients := RemoveConnection(s.clients, a, b).0), a, b);
            LinkInv(s2, pw) && PeerInv(PeersOf(s2.clients))
  {
    var cs := RemoveConnection(s.clients, a, b).0;
    var s1 := s.(clients := cs);
    var s2 := EraseByMode(s1, a, b);
    hide RemoveConnection, EraseByMode, Sym, PeersOk, M, Cnt;
    RemoveKeeps(s.clients, a, b);
    SameLinks(s.clients, cs);
    SameInfo(cs, s2.clients);
    EraseByModeShrinks(s1, a, b);
    assert s.clients[a].(peers := []).active == cs[a].(peers := []).active;
    assert s.clients[b].(peers := []).active == cs[b].(peers := []).active;
    if !pw {
      if M(LinksOf(s.clients), a, b) > 0 { ActiveEnds(s, a, b); }
      if M(LinksOf(s.clients), b, a) > 0 { ActiveEnds(s, b, a); }
    }
    DelLinkOk(s, cs, s2, a, b, pw);
  }

  // ---- Power save ----------------------------------------------------------------------

  lemma {:induction false} RemoveFltsKeeps(s: State, a: Key, todo: seq<Link>)
    requires a in s.clients && Sym(LinksOf(s.clients), s.pairs)
    requires forall l :: l in todo ==> M(LinksOf(s.clients), a, l.ptr) > 0
    ensures RemoveFlts(s, a, todo).0.wild == s.wild
    decreases |todo|
  {
    if todo == [] { return; }
    assert M(LinksOf(s.clients), todo[0].ptr, a) > 0;
    hide Sym, M, DelFlt;
    var (s1, ok) := RemoveFltOne(s, a, todo[0]);
    if ok { RemoveFltsKeeps(s1, a, todo[1..]); }
  }

  /** Same pointers in the same places; handles may differ. */
  ghost predicate SamePtrs(L: LinkTable, Q: LinkTable) {
    && Q.Keys == L.Keys
    && (forall k :: k in L ==> |Q[k]| == |L[k]|)
    && (forall k, i :: k in L && 0 <= i < |L[k]| ==> Q[k][i].ptr == L[k][i].ptr)
  }

  lemma {:induction false} MultPtrs(s: seq<Link>, t: seq<Link>, k: Key)
    requires |s| == |t| && forall i :: 0 <= i < |s| ==> s[i].ptr == t[i].ptr
    ensures Mult(s, k) == Mult(t, k)
  {
    if s != [] { MultPtrs(s[1..], t[1..], k); }
  }

  lemma {:induction false} TotalPtrs(L: LinkTable, Q: LinkTable)
    requires SamePtrs(L, Q)
    ensures Total(L) == Total(Q)
    decreases |L.Keys|
  {
    if k :| k in L.Keys {
      TotalSplit(L, k);
      TotalSplit(Q, k);
      TotalPtrs(L - {k}, Q - {k});
    }
  }

  lemma PtrsSym(L: LinkTable, Q: LinkTable, pairs: nat)
    requires SamePtrs(L, Q)
    ensures forall x, y :: M(Q, x, y) == M(L, x, y)
    ensures Sym(L, pairs) ==> Sym(Q, pairs)
  {
    TotalPtrs(L, Q);
    forall x, y ensures M(Q, x, y) == M(L, x, y) {
      if x in L { MultPtrs(Q[x], L[x], y); }
    }
  }

  /** Only handles changed. */
  ghost predicate Rehandled(s: State, s': State) {
    SamePtrs(LinksOf(s.clients), LinksOf(s'.clients)) && s'.wild == s.wild
  }

  lemma SamePtrsTrans(L: LinkTable, Q: LinkTable, R: LinkTable)
    requires SamePtrs(L, Q) && SamePtrs(Q, R)
    ensures SamePtrs(L, R)
  {
    assert forall k, i :: k in L && 0 <= i < |L[k]| ==> R[k][i].ptr == Q[k][i].ptr;
  }

  lemma RehandledTrans(s: State, s1: State, s2: State)
    requires Rehandled(s, s1) && Rehandled(s1, s2)
    ensures Rehandled(s, s2)
  {
    hide SamePtrs;
    SamePtrsTrans(LinksOf(s.clients), LinksOf(s1.clients), LinksOf(s2.clients));
  }

  lemma SetFltPtrs(cs: map<Key, Client>, cs': map<Key, Client>, k: Key, i: nat, h: Handle)
    requires k in cs && i < |cs[k].links|
    requires cs' == SetLinks(cs, k, SetFlt(cs[k].links, i, h))
    ensures SamePtrs(LinksOf(cs), LinksOf(cs'))
    ensures cs'.Keys == cs.Keys
  {
  }

  lemma AddFltRoundKeeps(s: State, a: Key, i: nat)
    requires a in s.clients && i < |s.clients[a].links| && s.clients[a].links[i].ptr in s.clients
    ensures Rehandled(s, AddFltRound(s, a, i).0)
  {
    hide AddFlt, SetFlt, SetLinks;
    var b := s.clients[a].links[i].ptr;
    var (r1, h1) := AddFlt(s.rules, s.clients[a].iface);
    if h1.Some? {
      var cs1 := SetLinks(s.clients, a, SetFlt(s.clients[a].links, i, h1.value));
      SetFltPtrs(s.clients, cs1, a, i, h1.value);
      var j := FindLink(cs1[b].links, a);
      if j < |cs1[b].links| {
        var (r2, h2) := AddFlt(r1, cs1[b].iface);
        if h2.Some? {
          SetFltPtrs(cs1, SetLinks(cs1, b, SetFlt(cs1[b].links, j, h2.value)), b, j, h2.value);
        }
      }
    }
  }

  lemma {:induction false} AddFltsKeeps(s: State, a: Key, i: nat)
    requires a in s.clients && i <= |s.clients[a].links| && Sym(LinksOf(s.clients), s.pairs)
    ensures Rehandled(s, AddFlts(s, a, i).0)
    decreases |s.clients[a].links| - i
  {
    if i == |s.clients[a].links| { return; }
    hide Sym, AddFltRound, Rehandled, Shapes;
    LinkedBack(LinksOf(s.clients), s.pairs, a, s.clients[a].links[i]);
    AddFltRoundKeeps(s, a, i);
    var (s1, ok) := AddFltRound(s, a, i);
    RehandledSym(s, s1);
    if ok {
      AddFltsKeeps(s1, a, i + 1);
      RehandledTrans(s, s1, AddFlts(s1, a, i + 1).0);
    }
  }

  lemma RehandledSym(s: State, s1: State)
    requires Rehandled(s, s1) && Sym(LinksOf(s.clients), s.pairs) && s1.pairs == s.pairs
    ensures Sym(LinksOf(s1.clients), s1.pairs)
    ensures forall x, y :: M(LinksOf(s1.clients), x, y) == M(LinksOf(s.clients), x, y)
  {
    hide SamePtrs, M, Sym;
    PtrsSym(LinksOf(s.clients), LinksOf(s1.clients), s.pairs);
  }

  lemma LinkedBack(L: LinkTable, pairs: nat, a: Key, l: Link)
    requires Sym(L, pairs) && a in L && l in L[a]
    ensures l.ptr in L
  {
    MultIn(L[a], l);
    assert M(L, a, l.ptr) == M(L, l.ptr, a);
  }

  lemma PowerSaveInv(s: State, k: Key)
    requires Inv(s, true) && k in s.clients
    ensures LinkInv(HandlePowerSave(s, k), true)
  {
    var L := LinksOf(s.clients);
    forall l | l in s.clients[k].links ensures M(L, k, l.ptr) > 0 {
      MultIn(s.clients[k].links, l);
    }
    hide Sym, M, RemoveFlts;
    RemoveFltsKeeps(s, k, s.clients[k].links);
    Weaken(s, true);
    if RemoveFlts(s, k, s.clients[k].links).1 {
      var s' := HandlePowerSave(s, k);
      assert LinksOf(s'.clients) == L;
      forall x, y | M(L, x, y) > 0 ensures LinkOk(s'.clients, true, x, y) {
        assert LinkOk(s.clients, true, x, y);
      }
    }
  }

  lemma AddFltsInv(s: State, k: Key)
    requires Inv(s, true) && k in s.clients
    ensures Inv(AddFlts(s, k, 0).0, true)
  {
    var s1 := AddFlts(s, k, 0).0;
    var L, Q := LinksOf(s.clients), LinksOf(s1.clients);
    hide Sym, M, AddFlts, SamePtrs;
    AddFltsKeeps(s, k, 0);
    RehandledSym(s, s1);
    SameInfo(s.clients, s1.clients);
    forall x, y | M(Q, x, y) > 0 ensures LinkOk(s1.clients, true, x, y) {
      assert LinkOk(s.clients, true, x, y);
      CarryOk(s.clients, s1.clients, true, x, y);
    }
  }

  lemma PowerRecoverInv(s: State, k: Key)
    requires Inv(s, true) && k in s.clients
    requires HandlePowerRecover(s, k).rules.faults == s.rules.faults
    ensures LinkInv(HandlePowerRecover(s, k), true)
  {
    Weaken(s, true);
    if s.clients[k].active || !s.clients[k].powersave { return; }
    hide Sym, M, AddFlts, CheckPotential, PeerInv;
    var (s1, ok) := AddFlts(s, k, 0);
    AddFltsInv(s, k);
    SameInfo(s.clients, s1.clients);
    assert s1.clients[k].(links := []).active == s.clients[k].(links := []).active;
    Weaken(s1, true);
    if ok {
      var s2 := SetFlags(s1, k, true, false);
      WakeInv(s1, s2, HandlePowerRecover(s, k), k, s2.clients[k], true);
    }
  }

  // ---- All events, all runs ------------------------------------------------------------

  lemma StepLinks(s: State, e: Event, pw: bool)
    requires Inv(s, pw) && (e.IsPower() ==> pw) && !SelfConn(s, e)
    requires Step(s, e).rules.faults == s.rules.faults
    ensures LinkInv(Step(s, e), pw)
  {
    Weaken(s, pw);
    match e
    case Active(_, _, _) => ActiveInv(s, e, pw);
    case Inactive(k) => if k in s.clients { InactiveInv(s, k, pw); }
    case Disconnect(k) => if k in s.clients { DisconnectInv(s, k, pw); }
    case PowerSave(k) => if k in s.clients { PowerSaveInv(s, k); }
    case PowerRecover(k) => if k in s.clients { PowerRecoverInv(s, k); }
    case NewConn(a, b) => if a in s.clients && b in s.clients { NewInv(s, a, b, pw); }
    case DelConn(a, b) => if a in s.clients && b in s.clients { DelConnInv(s, a, b, pw); }
  }

  lemma DelSelfNothing(s: State, a: Key)
    requires PeerInv(PeersOf(s.clients)) && a in s.clients
    ensures HandleDelConn(s, a, a) == s
  {
    assert Cnt(PeersOf(s.clients), a, a) == 0;
    NumPositive(s.clients[a].peers, a);
    DropAbsent(s.clients[a].peers, a);
  }

  lemma DelConnInv(s: State, a: Key, b: Key, pw: bool)
    requires Inv(s, pw) && a in s.clients && b in s.clients
    requires HandleDelConn(s, a, b).rules.faults == s.rules.faults
    ensures LinkInv(HandleDelConn(s, a, b), pw)
  {
    hide HandleDelConn, Sym, LinksOk, PeersOk, Cnt;
    if a != b {
      DelInv(s, a, b, pw);
    } else {
      Weaken(s, pw);
      DelSelfNothing(s, a);
    }
  }

  /** One event without a failed rule call keeps the offload graph. */
  lemma StepInv(s: State, e: Event, pw: bool)
    requires Inv(s, pw) && (e.IsPower() ==> pw) && !SelfConn(s, e)
    requires Step(s, e).rules.faults == s.rules.faults
    ensures Inv(Step(s, e), pw)
  {
    hide Sym, LinksOk, Step;
    StepFollows(s, e);
    StepLinks(s, e, pw);
  }

  predicate NoPower(es: seq<Event>) {
    forall i :: 0 <= i < |es| ==> !es[i].IsPower()
  }

  /** Over every run in which no rule call fails: pointers stay live, both ends agree and the
      counter is the number of pairs, at most the cap; without power-save events the graph is
      moreover simple and joins only active peers. */
  lemma {:induction false} RunInv(s: State, es: seq<Event>, pw: bool)
    requires Inv(s, pw) && NoSelf(es) && (pw || NoPower(es))
    requires Run(s, es).rules.faults == s.rules.faults
    ensures Inv(Run(s, es), pw)
  {
    if es == [] { return; }
    hide Step, Inv;
    var init, e := es[..|es| - 1], es[|es| - 1];
    var s1 := Run(s, init);
    RunInv(s, init, pw);
    StepInv(s1, e, pw);
  }
}
