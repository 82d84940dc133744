/** Peer lists: for every hardware behaviour and every event kind, the doubly stored peer lists
    are one map from unordered client pairs to positive connection counts. */
module LanToLanPeers {
  import opened LanToLan

  type PeerTable = map<Key, seq<Peer>>

  /** Positive counts, no client listed twice. */
  predicate PeersOk(ps: seq<Peer>) {
    ps == [] || (ps[0].num > 0 && Num(ps[1..], ps[0].ptr) == 0 && PeersOk(ps[1..]))
  }

  function Cnt(P: PeerTable, a: Key, b: Key): int {
    if a in P then Num(P[a], b) else 0
  }

  /** Both ends of every pair agree, nobody is its own peer; so every peer pointer names a
      table entry (PeerPointersLive). */
  ghost predicate PeerInv(P: PeerTable) {
    && (forall a :: a in P ==> PeersOk(P[a]))
    && (forall a, b :: Cnt(P, a, b) == Cnt(P, b, a))
    && (forall a :: Cnt(P, a, a) == 0)
  }

  // ---- One list ------------------------------------------------------------------------

  lemma {:induction false} NumPositive(ps: seq<Peer>, k: Key)
    requires PeersOk(ps)
    ensures Num(ps, k) >= 0
    ensures HasPeer(ps, k) <==> Num(ps, k) > 0
  {
    if ps != [] {
      NumPositive(ps[1..], k);
      assert forall p :: p in ps <==> p == ps[0] || p in ps[1..];
      if ps[0].ptr == k {
        assert ps[0] in ps;
      }
    }
  }

  lemma {:induction false} AddNum(ps: seq<Peer>, k: Key, x: Key)
    ensures Num(AddPeer(ps, k), x) == Num(ps, x) + (if x == k then 1 else 0)
  {
    if ps != [] && ps[0].ptr != k {
      AddNum(ps[1..], k, x);
    }
  }

  lemma {:induction false} AddOk(ps: seq<Peer>, k: Key)
    requires PeersOk(ps)
    ensures PeersOk(AddPeer(ps, k))
  {
    if ps != [] && ps[0].ptr != k {
      AddOk(ps[1..], k);
      AddNum(ps[1..], k, ps[0].ptr);
    }
  }

  lemma {:induction false} DropNum(ps: seq<Peer>, k: Key, x: Key)
    requires PeersOk(ps)
    ensures Num(DropPeer(ps, k), x) == if x == k && Num(ps, k) > 0 then Num(ps, k) - 1 else Num(ps, x)
  {
    if ps != [] && ps[0].ptr != k {
      DropNum(ps[1..], k, x);
    }
  }

  lemma {:induction false} DropOk(ps: seq<Peer>, k: Key)
    requires PeersOk(ps)
    ensures PeersOk(DropPeer(ps, k))
  {
    if ps != [] && ps[0].ptr != k {
      DropOk(ps[1..], k);
      DropNum(ps[1..], k, ps[0].ptr);
    }
  }

  lemma {:induction false} EraseNum(ps: seq<Peer>, k: Key, x: Key)
    requires PeersOk(ps)
    ensures Num(ErasePeer(ps, k), x) == if x == k then 0 else Num(ps, x)
  {
    if ps != [] && ps[0].ptr != k {
      EraseNum(ps[1..], k, x);
    }
  }

  lemma {:induction false} EraseOk(ps: seq<Peer>, k: Key)
    requires PeersOk(ps)
    ensures PeersOk(ErasePeer(ps, k))
  {
    if ps != [] && ps[0].ptr != k {
      EraseOk(ps[1..], k);
      EraseNum(ps[1..], k, ps[0].ptr);
    }
  }

  // ---- One table -----------------------------------------------------------------------

  lemma PeerPointersLive(P: PeerTable, a: Key, p: Peer)
    requires PeerInv(P) && a in P && p in P[a]
    ensures p.ptr in P && p.ptr != a && p.num == Cnt(P, a, p.ptr) > 0
  {
    InList(P[a], p);
    assert Cnt(P, p.ptr, a) == Cnt(P, a, p.ptr);
  }

  lemma {:induction false} InList(ps: seq<Peer>, p: Peer)
    requires PeersOk(ps) && p in ps
    ensures Num(ps, p.ptr) == p.num > 0
  {
    if ps[0] != p {
      InList(ps[1..], p);
    }
  }

  /** Setting the counts of the pair {a, b} on both sides. */
  lemma SetPair(P: PeerTable, a: Key, b: Key, pa: seq<Peer>, pb: seq<Peer>, n: int)
    requires PeerInv(P) && a in P && b in P && a != b
    requires PeersOk(pa) && PeersOk(pb)
    requires forall x :: Num(pa, x) == if x == b then n else Cnt(P, a, x)
    requires forall x :: Num(pb, x) == if x == a then n else Cnt(P, b, x)
    ensures PeerInv(P[a := pa][b := pb])
    ensures forall x, y :: Cnt(P[a := pa][b := pb], x, y) == if (x, y) == (a, b) || (x, y) == (b, a) then n else Cnt(P, x, y)
  {
    var Q := P[a := pa][b := pb];
    forall x, y
      ensures Cnt(Q, x, y) == if (x, y) == (a, b) || (x, y) == (b, a) then n else Cnt(P, x, y)
    {
    }
    forall x, y ensures Cnt(Q, x, y) == Cnt(Q, y, x) {
      assert Cnt(P, x, y) == Cnt(P, y, x);
    }
  }

  lemma AddKeeps(cs: map<Key, Client>, a: Key, b: Key)
    requires a in cs && b in cs && a != b && PeerInv(PeersOf(cs))
    ensures var P, Q := PeersOf(cs), PeersOf(AddConnection(cs, a, b).0);
            && PeerInv(Q)
            && AddConnection(cs, a, b).1 == (Cnt(P, a, b) == 0)
            && forall x, y :: Cnt(Q, x, y) == Cnt(P, x, y) + (if (x, y) == (a, b) || (x, y) == (b, a) then 1 else 0)
  {
    var P := PeersOf(cs);
    AddOk(P[a], b);
    AddOk(P[b], a);
    forall x
      ensures Num(AddPeer(P[a], b), x) == Num(P[a], x) + (if x == b then 1 else 0)
      ensures Num(AddPeer(P[b], a), x) == Num(P[b], x) + (if x == a then 1 else 0)
    {
      AddNum(P[a], b, x);
      AddNum(P[b], a, x);
    }
    assert Cnt(P, a, b) == Cnt(P, b, a);
    NumPositive(P[a], b);
    NumPositive(P[b], a);
    SetPair(P, a, b, AddPeer(P[a], b), AddPeer(P[b], a), Cnt(P, a, b) + 1);
  }

  function Less1(n: int): int { if n > 0 then n - 1 else n }

  lemma RemoveKeeps(cs: map<Key, Client>, a: Key, b: Key)
    requires a in cs && b in cs && a != b && PeerInv(PeersOf(cs))
    ensures var P, Q := PeersOf(cs), PeersOf(RemoveConnection(cs, a, b).0);
            && PeerInv(Q)
            && RemoveConnection(cs, a, b).1 == (Cnt(P, a, b) == 1)
            && forall x, y :: Cnt(Q, x, y) == if (x, y) == (a, b) || (x, y) == (b, a) then Less1(Cnt(P, x, y)) else Cnt(P, x, y)
  {
    var P := PeersOf(cs);
    DropOk(P[a], b);
    DropOk(P[b], a);
    assert Cnt(P, a, b) == Cnt(P, b, a);
    NumPositive(P[a], b);
    NumPositive(P[b], a);
    forall x
      ensures Num(DropPeer(P[a], b), x) == if x == b then Less1(Num(P[a], b)) else Num(P[a], x)
      ensures Num(DropPeer(P[b], a), x) == if x == a then Less1(Num(P[b], a)) else Num(P[b], x)
    {
      DropNum(P[a], b, x);
      DropNum(P[b], a, x);
    }
    SetPair(P, a, b, DropPeer(P[a], b), DropPeer(P[b], a), Less1(Cnt(P, a, b)));
  }

  /** One round of clear_peer_list: `todo` is the part of a's list still to be walked. */
  lemma ClearRound(P: PeerTable, a: Key, todo: seq<Peer>)
    requires a in P && todo != [] && PeerInv(P[a := todo])
    ensures var b := todo[0].ptr;
            && b in P && b != a && HasPeer(P[b], a)
            && PeerInv(P[b := ErasePeer(P[b], a)][a := todo[1..]])
            && forall x, y | x != a :: Cnt(P[b := ErasePeer(P[b], a)], x, y) == if (x, y) == (b, a) then 0 else Cnt(P, x, y)
  {
    var b := todo[0].ptr;
    var V := P[a := todo];
    assert Cnt(V, a, b) == todo[0].num == Cnt(V, b, a);
    assert Cnt(V, a, a) == 0;
    NumPositive(P[b], a);
    var pb := ErasePeer(P[b], a);
    EraseOk(P[b], a);
    forall x ensures Num(pb, x) == if x == a then 0 else Num(P[b], x) {
      EraseNum(P[b], a, x);
    }
    SetPair(V, a, b, todo[1..], pb, 0);
    assert P[b := pb][a := todo[1..]] == V[a := todo[1..]][b := pb];
  }

  ghost predicate Cleared(P: PeerTable, Q: PeerTable, a: Key) {
    && PeerInv(Q) && a in Q && Q[a] == []
    && forall x, y | x != a && y != a :: Cnt(Q, x, y) == Cnt(P, x, y)
  }

  /** clear_peer_list never takes its error path, and drops exactly the client's pairs. */
  lemma {:induction false} ClearKeeps(s: State, a: Key, todo: seq<Peer>)
    requires a in s.clients && PeerInv(PeersOf(s.clients)[a := todo])
    ensures var (s', ok) := ClearPeers(s, a, todo);
            ok && s'.wild == s.wild && Cleared(PeersOf(s.clients), PeersOf(s'.clients), a)
    decreases |todo|
  {
    var P := PeersOf(s.clients);
    if todo != [] {
      ClearRound(P, a, todo);
      var b := todo[0].ptr;
      ClearKeeps(s.(clients := SetPeers(s.clients, b, ErasePeer(s.clients[b].peers, a))), a, todo[1..]);
    }
  }

  // ---- The abstract pair map -----------------------------------------------------------

  type PairMap = map<(Key, Key), int>

  function Edge(a: Key, b: Key): (Key, Key) { if a < b then (a, b) else (b, a) }

  function Get(m: PairMap, e: (Key, Key)): int { if e in m then m[e] else 0 }

  /** What the peer lists mean: each unordered pair's count, absent when there is none. */
  ghost function Pairs(P: PeerTable): PairMap {
    map a, b | a in P && b in P && a < b && Cnt(P, a, b) > 0 :: (a, b) := Cnt(P, a, b)
  }

  function CountUp(m: PairMap, e: (Key, Key)): PairMap { m[e := Get(m, e) + 1] }

  function CountDown(m: PairMap, e: (Key, Key)): PairMap {
    if Get(m, e) > 1 then m[e := m[e] - 1] else m - {e}
  }

  function DropClient(m: PairMap, k: Key): PairMap {
    map e | e in m && e.0 != k && e.1 != k :: m[e]
  }

  /** The pair map's own machine: nothing in it mentions lists, links or hardware. */
  function PairStep(s: State, m: PairMap, e: Event): PairMap {
    match e
    case NewConn(a, b) => if a in s.clients && b in s.clients then CountUp(m, Edge(a, b)) else m
    case DelConn(a, b) => CountDown(m, Edge(a, b))
    case Disconnect(k) => DropClient(m, k)
    case Active(k, mac, iface) =>
      if iface in s.rules.ifaces && k in s.clients && s.clients[k].active && s.clients[k].mac != mac
      then DropClient(m, k) else m
    case _ => m
  }

  lemma PairsGet(P: PeerTable, a: Key, b: Key)
    requires PeerInv(P) && a != b
    ensures Get(Pairs(P), Edge(a, b)) == Cnt(P, a, b)
    ensures Edge(a, b) in Pairs(P) <==> Cnt(P, a, b) > 0
  {
    assert Cnt(P, a, b) == Cnt(P, b, a);
    if a in P {
      NumPositive(P[a], b);
    }
  }

  lemma PairsShape(P: PeerTable)
    ensures forall e :: e in Pairs(P) ==> e.0 < e.1 && Pairs(P)[e] > 0
  {
  }

  /** A pair map is determined by its counts. */
  lemma PairsExt(P: PeerTable, m: PairMap)
    requires PeerInv(P)
    requires forall e :: e in m ==> e.0 < e.1 && m[e] > 0
    requires forall a, b :: a < b ==> Cnt(P, a, b) == Get(m, (a, b))
    ensures Pairs(P) == m
  {
    forall e | e in m ensures e in Pairs(P) {
      assert e == (e.0, e.1);
      PairsGet(P, e.0, e.1);
    }
    forall e | e in Pairs(P) ensures e in m && Pairs(P)[e] == m[e] {
      assert Get(m, (e.0, e.1)) == Cnt(P, e.0, e.1);
    }
  }

  // ---- Events --------------------------------------------------------------------------

  /** The one event that breaks the peer lists: a connection from a known client to itself. */
  predicate SelfConn(s: State, e: Event) {
    e.NewConn? && e.src == e.dst && e.src in s.clients
  }

  /** What an event does to the counts. */
  function CntAfter(s: State, e: Event, x: Key, y: Key): int {
    var c := Cnt(PeersOf(s.clients), x, y);
    match e
    case NewConn(a, b) =>
      if a in s.clients && b in s.clients && Edge(x, y) == Edge(a, b) then c + 1 else c
    case DelConn(a, b) => if Edge(x, y) == Edge(a, b) then Less1(c) else c
    case Disconnect(k) => if x == k || y == k then 0 else c
    case Active(k, mac, iface) =>
      if iface in s.rules.ifaces && k in s.clients && s.clients[k].active && s.clients[k].mac != mac && (x == k || y == k)
      then 0 else c
    case _ => c
  }

  ghost predicate FollowsTo(s: State, e: Event, Q: PeerTable) {
    PeerInv(Q) && forall x, y :: Cnt(Q, x, y) == CntAfter(s, e, x, y)
  }

  ghost predicate Follows(s: State, e: Event) {
    FollowsTo(s, e, PeersOf(Step(s, e).clients))
  }

  lemma SameShapes(cs: map<Key, Client>, cs': map<Key, Client>)
    requires Shapes(cs) == Shapes(cs')
    ensures PeersOf(cs) == PeersOf(cs') && cs.Keys == cs'.Keys
  {
    assert Shapes(cs).Keys == cs.Keys && Shapes(cs').Keys == cs'.Keys;
    forall k | k in cs ensures cs[k].peers == cs'[k].peers {
      assert Shapes(cs)[k].peers == Shapes(cs')[k].peers;
    }
  }

  /** Erasing or inserting a client without peers changes no count. */
  lemma IdleEntry(P: PeerTable, Q: PeerTable, k: Key)
    requires PeerInv(P) && (k in P ==> P[k] == [])
    requires Q == P - {k} || Q == P[k := []]
    ensures PeerInv(Q)
    ensures forall x, y :: Cnt(Q, x, y) == Cnt(P, x, y)
  {
    forall x, y ensures Cnt(Q, x, y) == Cnt(P, x, y) {
      assert Cnt(P, x, y) == Cnt(P, y, x);
    }
    forall x, y ensures Cnt(Q, x, y) == Cnt(Q, y, x) {
      assert Cnt(P, x, y) == Cnt(P, y, x);
    }
  }

  /** clear_peer_list on the client's whole list takes the client out of every pair. */
  lemma ResetCounts(cs: map<Key, Client>, s1: State, k: Key)
    requires Shapes(s1.clients) == Shapes(cs) && k in s1.clients && PeerInv(PeersOf(cs))
    ensures Cleared(PeersOf(cs), PeersOf(ClearPeers(s1, k, s1.clients[k].peers).0.clients), k)
  {
    SameShapes(cs, s1.clients);
    var P := PeersOf(s1.clients);
    assert P[k := s1.clients[k].peers] == P;
    ClearKeeps(s1, k, s1.clients[k].peers);
  }

  lemma ResetFollows(s: State, e: Event)
    requires PeerInv(PeersOf(s.clients)) && e.Active? && e.iface in s.rules.ifaces
    requires e.k in s.clients && s.clients[e.k].active && s.clients[e.k].mac != e.mac
    ensures Follows(s, e)
  {
    hide TurnOff, ClearPeers, Cnt, PeersOk;
    var s1 := TurnOff(s, e.k, s.clients[e.k].links).0;
    var s2 := ClearPeers(s1, e.k, s1.clients[e.k].peers).0;
    ResetCounts(s.clients, s1, e.k);
    ClearedCounts(PeersOf(s.clients), PeersOf(s2.clients), e.k);
    assert PeersOf(SetInfo(s2, e.k, e.mac, e.iface).clients) == PeersOf(s2.clients);
  }

  lemma ActiveFollows(s: State, e: Event)
    requires PeerInv(PeersOf(s.clients)) && e.Active?
    ensures Follows(s, e)
  {
    var P := PeersOf(s.clients);
    if e.iface !in s.rules.ifaces {
    } else if e.k !in s.clients {
      IdleEntry(P, P[e.k := []], e.k);
      assert PeersOf(Step(s, e).clients) == P[e.k := []];
    } else if !s.clients[e.k].active {
      var s1 := SetInfo(s, e.k, e.mac, e.iface);
      assert PeersOf(s1.clients) == P;
      SameShapes(s1.clients, CheckPotential(s1, e.k, s1.clients[e.k].peers).clients);
    } else if s.clients[e.k].mac != e.mac {
      ResetFollows(s, e);
    }
  }

  lemma ClearedCounts(P: PeerTable, Q: PeerTable, a: Key)
    requires Cleared(P, Q, a)
    ensures forall x, y :: Cnt(Q, x, y) == if x == a || y == a then 0 else Cnt(P, x, y)
  {
    forall x, y ensures Cnt(Q, x, y) == if x == a || y == a then 0 else Cnt(P, x, y) {
      assert Cnt(Q, x, y) == Cnt(Q, y, x);
    }
  }

  lemma DisconnectFollows(s: State, k: Key)
    requires PeerInv(PeersOf(s.clients))
    ensures Follows(s, Disconnect(k))
  {
    hide TurnOff, ClearPeers, PeersOk;
    var P := PeersOf(s.clients);
    if k !in s.clients {
      assert forall x :: Cnt(P, x, k) == Cnt(P, k, x) == 0;
    } else {
      var s1 := TurnOff(s, k, s.clients[k].links).0;
      var s2 := ClearPeers(s1, k, s1.clients[k].peers).0;
      ResetCounts(s.clients, s1, k);
      var R := PeersOf(s2.clients);
      ClearedCounts(P, R, k);
      IdleEntry(R, R - {k}, k);
      assert PeersOf(Erase(s2, k).clients) == R - {k};
    }
  }

  lemma InactiveFollows(s: State, k: Key)
    requires PeerInv(PeersOf(s.clients))
    ensures Follows(s, Inactive(k))
  {
    hide TurnOff, PeersOk;
    if k in s.clients {
      var P := PeersOf(s.clients);
      var s1 := TurnOff(s, k, s.clients[k].links).0;
      SameShapes(s.clients, s1.clients);
      var s2 := SetFlags(s1, k, false, s1.clients[k].powersave);
      assert PeersOf(s2.clients) == P;
      if P[k] == [] {
        IdleEntry(P, P - {k}, k);
        assert PeersOf(Erase(s2, k).clients) == P - {k};
      }
    }
  }

  lemma PowerFollows(s: State, e: Event)
    requires PeerInv(PeersOf(s.clients)) && e.IsPower()
    ensures Follows(s, e)
  {
    hide Step, PeersOk, Cnt;
    if e.PowerSave? { SaveKeepsPeers(s, e.k); } else { RecoverKeepsPeers(s, e.k); }
  }

  lemma SaveKeepsPeers(s: State, k: Key)
    ensures PeersOf(Step(s, PowerSave(k)).clients) == PeersOf(s.clients)
  {
    hide RemoveFlts;
  }

  lemma RecoverKeepsPeers(s: State, k: Key)
    ensures PeersOf(Step(s, PowerRecover(k)).clients) == PeersOf(s.clients)
  {
    hide AddFlts, CheckPotential, Shapes;
    if k in s.clients && !s.clients[k].active && s.clients[k].powersave {
      var (s1, ok) := AddFlts(s, k, 0);
      SameShapes(s.clients, s1.clients);
      if ok {
        var s2 := SetFlags(s1, k, true, false);
        assert PeersOf(s2.clients) == PeersOf(s1.clients);
        SameShapes(s2.clients, Step(s, PowerRecover(k)).clients);
      }
    }
  }

  lemma NewFollows(s: State, a: Key, b: Key)
    requires PeerInv(PeersOf(s.clients)) && !SelfConn(s, NewConn(a, b))
    ensures Follows(s, NewConn(a, b))
  {
    if a !in s.clients || b !in s.clients { return; }
    hide HandleNewConn, AddConnection, PeersOk, Cnt, PeersOf, Shapes, Bare;
    AddKeeps(s.clients, a, b);
    NewShapes(s, a, b);
    SameShapes(AddConnection(s.clients, a, b).0, HandleNewConn(s, a, b).clients);
  }

  lemma NewShapes(s: State, a: Key, b: Key)
    requires a in s.clients && b in s.clients
    ensures Shapes(HandleNewConn(s, a, b).clients) == Shapes(AddConnection(s.clients, a, b).0)
  {
    hide AddConnection, AddLink;
  }

  lemma DropIdleKeeps(s: State, k: Key)
    requires PeerInv(PeersOf(s.clients))
    ensures PeerInv(PeersOf(DropIdle(s, k).clients))
    ensures forall x, y :: Cnt(PeersOf(DropIdle(s, k).clients), x, y) == Cnt(PeersOf(s.clients), x, y)
  {
    var P := PeersOf(s.clients);
    if k in P && P[k] == [] {
      assert PeersOf((s.clients - {k})) == P - {k};
      IdleEntry(P, P - {k}, k);
    }
  }

  lemma SelfDelFollows(s: State, a: Key)
    requires PeerInv(PeersOf(s.clients))
    ensures Follows(s, DelConn(a, a))
  {
    var P := PeersOf(s.clients);
    assert Cnt(P, a, a) == 0;
    if a in s.clients {
      NumPositive(P[a], a);
      DropAbsent(P[a], a);
      assert PeersOf(RemoveConnection(s.clients, a, a).0) == P;
    }
  }

  lemma DelFollows(s: State, a: Key, b: Key)
    requires PeerInv(PeersOf(s.clients))
    ensures Follows(s, DelConn(a, b))
  {
    var P := PeersOf(s.clients);
    assert Cnt(P, a, b) == Cnt(P, b, a);
    if a !in s.clients || b !in s.clients { return; }
    if a == b { SelfDelFollows(s, a); } else { PairDelFollows(s, a, b); }
  }

  lemma PairDelFollows(s: State, a: Key, b: Key)
    requires PeerInv(PeersOf(s.clients)) && a in s.clients && b in s.clients && a != b
    ensures Follows(s, DelConn(a, b))
  {
    hide EraseByMode, RemoveConnection, DropIdle, PeerInv, Cnt, PeersOf, Shapes, Bare;
    RemoveKeeps(s.clients, a, b);
    var (cs, last) := RemoveConnection(s.clients, a, b);
    if last {
      var s2 := EraseByMode(s.(clients := cs), a, b);
      SameShapes(cs, s2.clients);
      DropBothKeeps(s2, a, b);
    }
  }

  lemma DropBothKeeps(s: State, a: Key, b: Key)
    requires PeerInv(PeersOf(s.clients))
    ensures var Q := PeersOf(DropIdle(DropIdle(s, a), b).clients);
            PeerInv(Q) && forall x, y :: Cnt(Q, x, y) == Cnt(PeersOf(s.clients), x, y)
  {
    hide DropIdle, PeerInv, Cnt, PeersOf;
    DropIdleKeeps(s, a);
    DropIdleKeeps(DropIdle(s, a), b);
  }

  lemma {:induction false} DropAbsent(ps: seq<Peer>, k: Key)
    requires PeersOk(ps) && Num(ps, k) == 0
    ensures DropPeer(ps, k) == ps
  {
    if ps != [] {
      DropAbsent(ps[1..], k);
    }
  }

  /** Every event but a self connection does to the counts exactly what CntAfter says. */
  lemma StepFollows(s: State, e: Event)
    requires PeerInv(PeersOf(s.clients)) && !SelfConn(s, e)
    ensures Follows(s, e)
  {
    match e
    case Active(_, _, _) => ActiveFollows(s, e);
    case Inactive(k) => InactiveFollows(s, k);
    case Disconnect(k) => DisconnectFollows(s, k);
    case PowerSave(_) => PowerFollows(s, e);
    case PowerRecover(_) => PowerFollows(s, e);
    case NewConn(a, b) => NewFollows(s, a, b);
    case DelConn(a, b) => DelFollows(s, a, b);
  }

  lemma SelfBreaks(s: State, e: Event)
    requires PeerInv(PeersOf(s.clients)) && SelfConn(s, e)
    ensures !PeerInv(PeersOf(Step(s, e).clients))
  {
    hide HandleNewConn, PeersOk;
    var a := e.src;
    var P := PeersOf(s.clients);
    var cs := AddConnection(s.clients, a, a).0;
    NewShapes(s, a, a);
    SameShapes(cs, Step(s, e).clients);
    assert Cnt(P, a, a) == 0;
    AddNum(P[a], a, a);
    AddNum(AddPeer(P[a], a), a, a);
    assert Cnt(PeersOf(cs), a, a) == 2;
  }

  /** The peer invariant survives an event exactly when that event is not a self connection. */
  lemma PeerInvKeptIff(s: State, e: Event)
    requires PeerInv(PeersOf(s.clients))
    ensures PeerInv(PeersOf(Step(s, e).clients)) <==> !SelfConn(s, e)
  {
    if SelfConn(s, e) { SelfBreaks(s, e); } else { StepFollows(s, e); }
  }

  /** One handler call, seen on the counts, is one step of the pair map. */
  lemma CountsToMap(s: State, e: Event, Q: PeerTable)
    requires PeerInv(PeersOf(s.clients)) && FollowsTo(s, e, Q) && !SelfConn(s, e)
    ensures Pairs(Q) == PairStep(s, Pairs(PeersOf(s.clients)), e)
  {
    var P := PeersOf(s.clients);
    var m := PairStep(s, Pairs(P), e);
    PairsShape(P);
    hide Pairs, PeersOf, PeersOk, Cnt;
    forall x, y | x < y ensures Cnt(Q, x, y) == Get(m, (x, y)) {
      PairsGet(P, x, y);
    }
    forall f | f in m ensures f.0 < f.1 && m[f] > 0 {
      if f.0 != f.1 { PairsGet(P, f.0, f.1); }
    }
    PairsExt(Q, m);
  }

  predicate NoSelf(es: seq<Event>) {
    forall i :: 0 <= i < |es| && es[i].NewConn? ==> es[i].src != es[i].dst
  }

  /** The pair map's own run beside the handlers'. */
  function PairRun(s: State, m: PairMap, es: seq<Event>): PairMap {
    if es == [] then m
    else PairStep(Run(s, es[..|es| - 1]), PairRun(s, m, es[..|es| - 1]), es[|es| - 1])
  }

  /** Over every run, power save included and whatever the hardware answers, the peer lists
      refine the pair map. */
  lemma {:induction false} RunRefines(s: State, es: seq<Event>)
    requires PeerInv(PeersOf(s.clients)) && NoSelf(es)
    ensures PeerInv(PeersOf(Run(s, es).clients))
    ensures Pairs(PeersOf(Run(s, es).clients)) == PairRun(s, Pairs(PeersOf(s.clients)), es)
  {
    hide Step, PairStep, PeerInv, Pairs;
    if es != [] {
      var init, e := es[..|es| - 1], es[|es| - 1];
      RunRefines(s, init);
      StepFollows(Run(s, init), e);
      CountsToMap(Run(s, init), e, PeersOf(Run(s, es).clients));
    }
  }
}
