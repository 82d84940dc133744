/** Link lists: while no rule call fails, the doubly stored links are a symmetric multigraph
    whose edge count is num_offload_pair and never exceeds the cap, and no pointer dangles.
    Without power-save events the graph is simple, and links only active peers. */
module LanToLanLinks {
  import opened LanRules
  import opened LanToLan
  import opened LanToLanPeers

  type LinkTable = map<Key, seq<Link>>

  function LinksOf(cs: map<Key, Client>): LinkTable {
    map k | k in cs :: cs[k].links
  }

  /** How often k is listed. */
  function Mult(ls: seq<Link>, k: Key): nat {
    if ls == [] then 0 else (if ls[0].ptr == k then 1 else 0) + Mult(ls[1..], k)
  }

  function M(L: LinkTable, a: Key, b: Key): nat {
    if a in L then Mult(L[a], b) else 0
  }

  /** The number of stored links, both directions counted. */
  ghost function Total(L: LinkTable): nat
    decreases |L.Keys|
  {
    if exists k :: k in L.Keys then (var k :| k in L.Keys; |L[k]| + Total(L - {k})) else 0
  }

  /** Both ends list each other equally often, and the pair counter counts exactly the pairs. */
  ghost predicate Sym(L: LinkTable, pairs: nat) {
    && (forall a, b :: M(L, a, b) == M(L, b, a))
    && (forall a :: M(L, a, a) == 0)
    && Total(L) == 2 * pairs
    && pairs <= MAX_OFFLOAD_PAIR
  }

  // ---- Counting ------------------------------------------------------------------------

  lemma {:induction false} MultConcat(s: seq<Link>, t: seq<Link>, k: Key)
    ensures Mult(s + t, k) == Mult(s, k) + Mult(t, k)
  {
    if s == [] {
      assert s + t == t;
    } else {
      assert (s + t)[1..] == s[1..] + t;
      MultConcat(s[1..], t, k);
    }
  }

  lemma MultAppend(ls: seq<Link>, l: Link, k: Key)
    ensures Mult(ls + [l], k) == Mult(ls, k) + (if l.ptr == k then 1 else 0)
  {
    MultConcat(ls, [l], k);
  }

  lemma MultRemove(ls: seq<Link>, i: nat, k: Key)
    requires i < |ls|
    ensures Mult(RemoveAt(ls, i), k) == Mult(ls, k) - (if ls[i].ptr == k then 1 else 0)
  {
    assert ls == ls[..i] + ([ls[i]] + ls[i + 1..]);
    MultConcat(ls[..i], [ls[i]] + ls[i + 1..], k);
    MultConcat(ls[..i], ls[i + 1..], k);
  }

  lemma {:induction false} MultFind(ls: seq<Link>, k: Key)
    ensures Mult(ls, k) > 0 <==> FindLink(ls, k) < |ls|
  {
    if ls != [] { MultFind(ls[1..], k); }
  }

  lemma {:induction false} MultIn(ls: seq<Link>, l: Link)
    requires l in ls
    ensures Mult(ls, l.ptr) > 0
  {
    if ls[0] != l { MultIn(ls[1..], l); }
  }

  lemma {:induction false} TotalSplit(L: LinkTable, k: Key)
    requires k in L
    ensures Total(L) == |L[k]| + Total(L - {k})
    decreases |L.Keys|
  {
    var c :| c in L.Keys && Total(L) == |L[c]| + Total(L - {c});
    if c != k {
      TotalSplit(L - {c}, k);
      TotalSplit(L - {k}, c);
      assert L - {c} - {k} == L - {k} - {c};
    }
  }

  lemma TotalSet(L: LinkTable, k: Key, ls: seq<Link>)
    ensures Total(L[k := ls]) == |ls| + Total(L) - (if k in L then |L[k]| else 0)
  {
    TotalSplit(L[k := ls], k);
    assert L[k := ls] - {k} == L - {k};
    if k in L { TotalSplit(L, k); } else { assert L - {k} == L; }
  }

  // ---- The two moves -------------------------------------------------------------------

  /** Changing the pair {a, b} by d on both sides. */
  lemma MovePair(L: LinkTable, pairs: nat, a: Key, b: Key, la: seq<Link>, lb: seq<Link>, d: int)
    requires Sym(L, pairs) && a in L && b in L && a != b
    requires forall x :: Mult(la, x) == M(L, a, x) + (if x == b then d else 0)
    requires forall x :: Mult(lb, x) == M(L, b, x) + (if x == a then d else 0)
    requires |la| == |L[a]| + d && |lb| == |L[b]| + d && pairs + d <= MAX_OFFLOAD_PAIR
    ensures pairs + d >= 0 && Sym(L[a := la][b := lb], pairs + d)
    ensures forall x, y ::
              M(L[a := la][b := lb], x, y) == M(L, x, y) + (if (x, y) == (a, b) || (x, y) == (b, a) then d else 0)
  {
    hide Mult, Total;
    var Q := L[a := la][b := lb];
    TotalSet(L, a, la);
    TotalSet(L[a := la], b, lb);
    forall x, y
      ensures M(Q, x, y) == M(L, x, y) + (if (x, y) == (a, b) || (x, y) == (b, a) then d else 0)
    {
    }
    forall x, y ensures M(Q, x, y) == M(Q, y, x) {
      assert M(L, x, y) == M(L, y, x);
    }
  }

  lemma AddPair(L: LinkTable, pairs: nat, a: Key, b: Key, l1: Link, l2: Link)
    requires Sym(L, pairs) && a in L && b in L && a != b && pairs < MAX_OFFLOAD_PAIR
    requires l1.ptr == b && l2.ptr == a
    ensures Sym(L[a := L[a] + [l1]][b := L[b] + [l2]], pairs + 1)
    ensures forall x, y ::
              M(L[a := L[a] + [l1]][b := L[b] + [l2]], x, y)
              == M(L, x, y) + (if (x, y) == (a, b) || (x, y) == (b, a) then 1 else 0)
  {
    forall x
      ensures Mult(L[a] + [l1], x) == M(L, a, x) + (if x == b then 1 else 0)
      ensures Mult(L[b] + [l2], x) == M(L, b, x) + (if x == a then 1 else 0)
    {
      MultAppend(L[a], l1, x);
      MultAppend(L[b], l2, x);
    }
    MovePair(L, pairs, a, b, L[a] + [l1], L[b] + [l2], 1);
  }

  lemma DropPair(L: LinkTable, pairs: nat, a: Key, b: Key, i: nat, j: nat)
    requires Sym(L, pairs) && a in L && b in L && a != b
    requires i < |L[a]| && L[a][i].ptr == b && j < |L[b]| && L[b][j].ptr == a
    ensures pairs > 0 && Sym(L[a := RemoveAt(L[a], i)][b := RemoveAt(L[b], j)], pairs - 1)
    ensures forall x, y ::
              M(L[a := RemoveAt(L[a], i)][b := RemoveAt(L[b], j)], x, y)
              == M(L, x, y) - (if (x, y) == (a, b) || (x, y) == (b, a) then 1 else 0)
  {
    forall x
      ensures Mult(RemoveAt(L[a], i), x) == M(L, a, x) + (if x == b then -1 else 0)
      ensures Mult(RemoveAt(L[b], j), x) == M(L, b, x) + (if x == a then -1 else 0)
    {
      MultRemove(L[a], i, x);
      MultRemove(L[b], j, x);
    }
    MovePair(L, pairs, a, b, RemoveAt(L[a], i), RemoveAt(L[b], j), -1);
  }

  // ---- The source's loops --------------------------------------------------------------

  /** One round of turnoff_offload_links: `todo` is the part of a's list still to be walked. */
  lemma TurnOffRound(L: LinkTable, pairs: nat, a: Key, todo: seq<Link>)
    requires a in L && todo != [] && Sym(L[a := todo], pairs)
    ensures var b := todo[0].ptr;
            && b in L && b != a && FindLink(L[b], a) < |L[b]| && pairs > 0
            && var lb := RemoveAt(L[b], FindLink(L[b], a));
            && Sym(L[b := lb][a := todo[1..]], pairs - 1)
            && forall x, y | x != a && y != a :: M(L[b := lb], x, y) == M(L, x, y)
  {
    var b := todo[0].ptr;
    var V := L[a := todo];
    assert M(V, a, b) == M(V, b, a) > 0;
    assert M(V, a, a) == 0;
    MultFind(L[b], a);
    var j := FindLink(L[b], a);
    assert RemoveAt(todo, 0) == todo[1..];
    var lb := RemoveAt(L[b], j);
    DropPair(V, pairs, a, b, 0, j);
    assert L[b := lb][a := todo[1..]] == V[a := todo[1..]][b := lb];
    forall x, y | x != a && y != a ensures M(L[b := lb], x, y) == M(L, x, y) {
      MultRemove(L[b], j, y);
    }
  }

  ghost predicate LinksGone(L: LinkTable, Q: LinkTable, a: Key) {
    && a in Q && Q[a] == []
    && forall x, y | x != a && y != a :: M(Q, x, y) == M(L, x, y)
  }

  lemma TurnOffOneKeeps(s: State, a: Key, todo: seq<Link>)
    requires a in s.clients && todo != [] && Sym(LinksOf(s.clients)[a := todo], s.pairs)
    requires TurnOffOne(s, a, todo[0]).0.rules.faults == s.rules.faults
    ensures var (s', ok) := TurnOffOne(s, a, todo[0]);
            && ok && s'.wild == s.wild
            && Sym(LinksOf(s'.clients)[a := todo[1..]], s'.pairs)
            && forall x, y | x != a && y != a :: M(LinksOf(s'.clients), x, y) == M(LinksOf(s.clients), x, y)
  {
    hide Sym, Remove;
    var L := LinksOf(s.clients);
    TurnOffRound(L, s.pairs, a, todo);
    var b := todo[0].ptr;
    assert LinksOf(TurnOffOne(s, a, todo[0]).0.clients) == L[b := RemoveAt(L[b], FindLink(L[b], a))];
  }

  /** turnoff_offload_links takes exactly the client's links off both ends, and the counter
      follows. */
  lemma {:induction false} TurnOffKeeps(s: State, a: Key, todo: seq<Link>)
    requires a in s.clients && Sym(LinksOf(s.clients)[a := todo], s.pairs)
    requires TurnOff(s, a, todo).0.rules.faults == s.rules.faults
    ensures var (s', ok) := TurnOff(s, a, todo);
            && ok && s'.wild == s.wild
            && Sym(LinksOf(s'.clients), s'.pairs)
            && LinksGone(LinksOf(s.clients), LinksOf(s'.clients), a)
    decreases |todo|
  {
    var L := LinksOf(s.clients);
    if todo == [] {
      assert LinksOf(SetLinks(s.clients, a, [])) == L[a := []];
      return;
    }
    hide Sym, TurnOffOne;
    TurnOffOneKeeps(s, a, todo);
    TurnOffKeeps(TurnOffOne(s, a, todo[0]).0, a, todo[1..]);
  }

  lemma LinkBothAtCap(s: State, a: Key, b: Key)
    requires a in s.clients && b in s.clients && s.pairs >= MAX_OFFLOAD_PAIR
    ensures LinkBoth(s, a, b) == s
  {
  }

  lemma AddLinkAppends(s: State, a: Key, b: Key) returns (l: Link)
    requires a in s.clients && b in s.clients && s.pairs < MAX_OFFLOAD_PAIR
    requires AddLink(s, a, b).0.rules.faults == s.rules.faults
    ensures AddLink(s, a, b).1 && l.ptr == b
    ensures LinksOf(AddLink(s, a, b).0.clients) == LinksOf(s.clients)[a := s.clients[a].links + [l]]
  {
    hide Install;
    l := Link(b, Install(s.rules, s.clients[a].iface, s.clients[b].iface).1.value);
  }

  lemma PairsCapped(s: State)
    requires Sym(LinksOf(s.clients), s.pairs)
    ensures s.pairs <= MAX_OFFLOAD_PAIR
  {
  }

  /** Without faults a pair is linked on both sides, or (cap reached) on neither. */
  lemma LinkBothKeeps(s: State, a: Key, b: Key)
    requires a in s.clients && b in s.clients && a != b
    requires Sym(LinksOf(s.clients), s.pairs)
    requires s.pairs <= MAX_OFFLOAD_PAIR
    requires LinkBoth(s, a, b).rules.faults == s.rules.faults
    ensures var s' := LinkBoth(s, a, b);
            && Sym(LinksOf(s'.clients), s'.pairs)
            && (s.pairs == MAX_OFFLOAD_PAIR ==> s' == s)
            && s'.pairs == (if s.pairs < MAX_OFFLOAD_PAIR then s.pairs + 1 else s.pairs)
            && (s.pairs < MAX_OFFLOAD_PAIR ==> AddLink(s, a, b).1 && AddLink(AddLink(s, a, b).0, b, a).1)
            && forall x, y ::
                 M(LinksOf(s'.clients), x, y) == M(LinksOf(s.clients), x, y)
                   + (if s.pairs < MAX_OFFLOAD_PAIR && ((x, y) == (a, b) || (x, y) == (b, a)) then 1 else 0)
  {
    hide AddLink, Sym, M;
    if s.pairs == MAX_OFFLOAD_PAIR { LinkBothAtCap(s, a, b); return; }
    var L := LinksOf(s.clients);
    var s1 := AddLink(s, a, b).0;
    var l1 := AddLinkAppends(s, a, b);
    var l2 := AddLinkAppends(s1, b, a);
    AddPair(L, s.pairs, a, b, l1, l2);
  }

  /** erase_offload_link drops one link on each side when there is one, and nothing otherwise. */
  lemma EraseLinksKeeps(s: State, a: Key, b: Key)
    requires a in s.clients && b in s.clients && a != b
    requires Sym(LinksOf(s.clients), s.pairs)
    requires EraseLinks(s, a, b).rules.faults == s.rules.faults
    ensures var s' := EraseLinks(s, a, b); var L := LinksOf(s.clients);
            && Sym(LinksOf(s'.clients), s'.pairs)
            && forall x, y ::
                 M(LinksOf(s'.clients), x, y) == M(L, x, y)
                   - (if M(L, a, b) > 0 && ((x, y) == (a, b) || (x, y) == (b, a)) then 1 else 0)
  {
    var L := LinksOf(s.clients);
    MultFind(L[a], b);
    MultFind(L[b], a);
    assert M(L, a, b) == M(L, b, a);
    if M(L, a, b) == 0 {
      EraseLinksNothing(s, a, b);
    } else {
      EraseLinksDrop(s, a, b);
      DropPair(L, s.pairs, a, b, FindLink(L[a], b), FindLink(L[b], a));
      hide EraseLinks, Sym, M, FindLink, LinksOf, RemoveAt;
    }
  }

  lemma EraseLinksNothing(s: State, a: Key, b: Key)
    requires a in s.clients && b in s.clients
    requires FindLink(s.clients[a].links, b) == |s.clients[a].links| && FindLink(s.clients[b].links, a) == |s.clients[b].links|
    ensures EraseLinks(s, a, b) == s
  {
  }

  lemma EraseLinksDrop(s: State, a: Key, b: Key)
    requires a in s.clients && b in s.clients && a != b
    requires FindLink(s.clients[a].links, b) < |s.clients[a].links| && FindLink(s.clients[b].links, a) < |s.clients[b].links|
    requires EraseLinks(s, a, b).rules.faults == s.rules.faults
    ensures var s', L := EraseLinks(s, a, b), LinksOf(s.clients);
            && LinksOf(s'.clients) == L[a := RemoveAt(L[a], FindLink(L[a], b))][b := RemoveAt(L[b], FindLink(L[b], a))]
            && s'.pairs == Dec8(s.pairs)
  {
    hide EraseHalf, FindLink, RemoveAt;
    EraseHalfRemoves(s, a, b);
    EraseHalfRemoves(EraseHalf(s, a, b).0, b, a);
  }

  /** A half that finds its link drops it; it reports success when no delete failed. */
  lemma EraseHalfRemoves(s: State, a: Key, b: Key)
    requires a in s.clients && b in s.clients && a in LinksOf(s.clients)
    requires FindLink(LinksOf(s.clients)[a], b) < |LinksOf(s.clients)[a]|
    ensures var L := LinksOf(s.clients);
            LinksOf(EraseHalf(s, a, b).0.clients) == L[a := RemoveAt(L[a], FindLink(L[a], b))]
    ensures EraseHalf(s, a, b).1 <==> EraseHalf(s, a, b).0.rules.faults == s.rules.faults
    ensures EraseHalf(s, a, b).0.pairs == s.pairs
  {
    hide Remove;
  }

  /** The pairs check_potential_link may add a link to. */
  predicate Room(cs: map<Key, Client>, a: Key, todo: seq<Peer>, x: Key, y: Key) {
    || (x == a && Num(todo, y) > 0 && y in cs && cs[y].active)
    || (y == a && Num(todo, x) > 0 && x in cs && cs[x].active)
  }

  ghost predicate Grown(s: State, s': State, a: Key, todo: seq<Peer>) {
    && s'.wild == s.wild
    && Sym(LinksOf(s'.clients), s'.pairs)
    && forall x, y ::
         M(LinksOf(s.clients), x, y) <= M(LinksOf(s'.clients), x, y)
         <= M(LinksOf(s.clients), x, y) + (if Room(s.clients, a, todo, x, y) then 1 else 0)
  }

  lemma SameInfo(cs: map<Key, Client>, cs': map<Key, Client>)
    requires Shapes(cs) == Shapes(cs')
    ensures PeersOf(cs) == PeersOf(cs') && cs.Keys == cs'.Keys
    ensures forall k :: k in cs ==> cs[k].(links := []) == cs'[k].(links := [])
  {
    SameShapes(cs, cs');
    forall k | k in cs ensures cs[k].(links := []) == cs'[k].(links := []) {
      assert Shapes(cs)[k] == Shapes(cs')[k];
    }
  }

  lemma SameLinks(cs: map<Key, Client>, cs': map<Key, Client>)
    requires Bare(cs) == Bare(cs')
    ensures LinksOf(cs) == LinksOf(cs') && cs.Keys == cs'.Keys
    ensures forall k :: k in cs ==> cs[k].(peers := []) == cs'[k].(peers := [])
  {
    assert Bare(cs).Keys == cs.Keys && Bare(cs').Keys == cs'.Keys;
    forall k | k in cs ensures cs[k].(peers := []) == cs'[k].(peers := []) {
      assert Bare(cs)[k] == Bare(cs')[k];
    }
    forall k | k in cs ensures cs[k].links == cs'[k].links {
      assert cs[k].(peers := []).links == cs'[k].(peers := []).links;
    }
  }

  /** The first `room` active clients of a peer list. */
  function Linked(cs: map<Key, Client>, todo: seq<Peer>, room: nat): set<Key> {
    if todo == [] || room == 0 then {}
    else if todo[0].ptr in cs && cs[todo[0].ptr].active then {todo[0].ptr} + Linked(cs, todo[1..], room - 1)
    else Linked(cs, todo[1..], room)
  }

  lemma {:induction false} LinkedStable(cs: map<Key, Client>, cs': map<Key, Client>, todo: seq<Peer>, room: nat)
    requires cs.Keys == cs'.Keys && forall p :: p in todo && p.ptr in cs ==> cs'[p.ptr].active == cs[p.ptr].active
    ensures Linked(cs', todo, room) == Linked(cs, todo, room)
  {
    if todo != [] && room > 0 {
      assert todo[0] in todo;
      LinkedStable(cs, cs', todo[1..], room);
      LinkedStable(cs, cs', todo[1..], room - 1);
    }
  }

  lemma {:induction false} LinkedIn(cs: map<Key, Client>, todo: seq<Peer>, room: nat)
    requires PeersOk(todo)
    ensures forall x :: x in Linked(cs, todo, room) ==> Num(todo, x) > 0 && x in cs && cs[x].active
  {
    if todo != [] && room > 0 {
      LinkedIn(cs, todo[1..], room);
      LinkedIn(cs, todo[1..], room - 1);
    }
  }

  lemma SameActive(cs: map<Key, Client>, cs': map<Key, Client>)
    requires Shapes(cs') == Shapes(cs)
    ensures cs'.Keys == cs.Keys && forall x :: x in cs ==> cs'[x].active == cs[x].active
  {
    SameInfo(cs, cs');
    forall x | x in cs ensures cs'[x].active == cs[x].active {
      assert cs[x].(links := []).active == cs'[x].(links := []).active;
    }
  }

  /** Every pair of a with a client in X has one more link on both sides, no other pair changes. */
  ghost predicate LinksAdded(L: LinkTable, Q: LinkTable, a: Key, X: set<Key>) {
    forall x, y :: M(Q, x, y) == M(L, x, y) + (if (x == a && y in X) || (y == a && x in X) then 1 else 0)
  }

  lemma AddedTwice(L: LinkTable, L1: LinkTable, Q: LinkTable, a: Key, b: Key, X: set<Key>)
    requires LinksAdded(L, L1, a, {b}) && LinksAdded(L1, Q, a, X) && b !in X && a !in X && a != b
    ensures LinksAdded(L, Q, a, {b} + X)
  {
    hide M;
  }

  /** A peer list whose entries name other clients of the table. */
  ghost predicate Offers(cs: map<Key, Client>, a: Key, todo: seq<Peer>) {
    PeersOk(todo) && forall b :: Num(todo, b) > 0 ==> b in cs && b != a
  }

  lemma OffersNext(cs: map<Key, Client>, a: Key, todo: seq<Peer>)
    requires Offers(cs, a, todo) && todo != []
    ensures todo[0].ptr in cs && todo[0].ptr != a && todo[0].num > 0
    ensures Num(todo, a) <= 0 && PeersOk(todo) && Offers(cs, a, todo[1..])
  {
    assert Num(todo, todo[0].ptr) > 0;
    forall x | Num(todo[1..], x) > 0 ensures x in cs && x != a {
      assert Num(todo, x) > 0;
    }
  }

  /** check_potential_link offers the peers in order: exactly the first active ones, as many as
      there are pairs left, get one link. */
  lemma {:induction false} CheckPotentialExact(s: State, a: Key, todo: seq<Peer>)
    requires a in s.clients && Sym(LinksOf(s.clients), s.pairs) && s.pairs <= MAX_OFFLOAD_PAIR
    requires Offers(s.clients, a, todo)
    requires CheckPotential(s, a, todo).rules.faults == s.rules.faults
    ensures var s' := CheckPotential(s, a, todo);
            && s'.wild == s.wild && Sym(LinksOf(s'.clients), s'.pairs)
            && LinksAdded(LinksOf(s.clients), LinksOf(s'.clients), a, Linked(s.clients, todo, MAX_OFFLOAD_PAIR - s.pairs))
    decreases |todo|
  {
    if todo == [] { return; }
    hide Sym, AddLink, M, LinksOf, LinkBoth, Shapes, LinksAdded, Linked, Offers, Num, PeersOk;
    var b := todo[0].ptr;
    OffersNext(s.clients, a, todo);
    LinkedRound(s.clients, todo, MAX_OFFLOAD_PAIR - s.pairs);
    if !s.clients[b].active {
      CheckPotentialExact(s, a, todo[1..]);
    } else {
      LinkRound(s, a, b);
      var s1 := LinkBoth(s, a, b);
      SameOffers(s.clients, s1.clients, a, todo[1..]);
      CheckPotentialExact(s1, a, todo[1..]);
      LinkedStable(s.clients, s1.clients, todo[1..], MAX_OFFLOAD_PAIR - s1.pairs);
      if s.pairs < MAX_OFFLOAD_PAIR {
        AddedNext(s.clients, LinksOf(s.clients), LinksOf(s1.clients), LinksOf(CheckPotential(s, a, todo).clients), a, todo,
                  MAX_OFFLOAD_PAIR - s.pairs);
      }
    }
  }

  lemma SameOffers(cs: map<Key, Client>, cs': map<Key, Client>, a: Key, todo: seq<Peer>)
    requires Offers(cs, a, todo) && cs'.Keys == cs.Keys
    ensures Offers(cs', a, todo)
  {
    assert forall b :: b in cs <==> b in cs';
  }

  lemma AddedNext(cs: map<Key, Client>, L: LinkTable, L1: LinkTable, Q: LinkTable, a: Key, todo: seq<Peer>, room: nat)
    requires todo != [] && room > 0 && PeersOk(todo) && todo[0].ptr in cs && cs[todo[0].ptr].active
    requires Num(todo, a) <= 0
    requires LinksAdded(L, L1, a, {todo[0].ptr}) && LinksAdded(L1, Q, a, Linked(cs, todo[1..], room - 1))
    ensures LinksAdded(L, Q, a, Linked(cs, todo, room))
  {
    hide LinksAdded;
    LinkedIn(cs, todo[1..], room - 1);
    AddedTwice(L, L1, Q, a, todo[0].ptr, Linked(cs, todo[1..], room - 1));
  }

  lemma LinkedRound(cs: map<Key, Client>, todo: seq<Peer>, room: nat)
    requires todo != [] && todo[0].ptr in cs
    ensures room == 0 ==> Linked(cs, todo, room) == Linked(cs, todo[1..], room) == {}
    ensures !cs[todo[0].ptr].active ==> Linked(cs, todo, room) == Linked(cs, todo[1..], room)
    ensures cs[todo[0].ptr].active && room > 0 ==> Linked(cs, todo, room) == {todo[0].ptr} + Linked(cs, todo[1..], room - 1)
  {
  }

  lemma LinkRound(s: State, a: Key, b: Key)
    requires a in s.clients && b in s.clients && a != b
    requires Sym(LinksOf(s.clients), s.pairs) && s.pairs <= MAX_OFFLOAD_PAIR
    requires LinkBoth(s, a, b).rules.faults == s.rules.faults
    ensures var s1 := LinkBoth(s, a, b);
            && Sym(LinksOf(s1.clients), s1.pairs) && s1.wild == s.wild
            && s1.clients.Keys == s.clients.Keys && (forall x :: x in s.clients ==> s1.clients[x].active == s.clients[x].active)
            && if s.pairs < MAX_OFFLOAD_PAIR then s1.pairs == s.pairs + 1 && LinksAdded(LinksOf(s.clients), LinksOf(s1.clients), a, {b})
               else s1 == s
  {
    hide LinkBoth, AddLink, M, LinksOf, Shapes, Sym;
    LinkBothKeeps(s, a, b);
    SameActive(s.clients, LinkBoth(s, a, b).clients);
  }

  /** check_potential_link: no pair outside the list gains a link, none gains two. */
  lemma CheckPotentialKeeps(s: State, a: Key, todo: seq<Peer>)
    requires a in s.clients && Sym(LinksOf(s.clients), s.pairs)
    requires PeersOk(todo) && forall b :: Num(todo, b) > 0 ==> b in s.clients && b != a
    requires CheckPotential(s, a, todo).rules.faults == s.rules.faults
    ensures Grown(s, CheckPotential(s, a, todo), a, todo)
  {
    hide CheckPotential, Sym, M, Linked, LinksOf, Shapes, LinksAdded, Room, PeersOk, Num;
    PairsCapped(s);
    CheckPotentialExact(s, a, todo);
    AddedRoom(s.clients, LinksOf(s.clients), LinksOf(CheckPotential(s, a, todo).clients), a, todo, MAX_OFFLOAD_PAIR - s.pairs);
  }

  lemma AddedRoom(cs: map<Key, Client>, L: LinkTable, Q: LinkTable, a: Key, todo: seq<Peer>, room: nat)
    requires PeersOk(todo) && LinksAdded(L, Q, a, Linked(cs, todo, room))
    ensures forall x, y :: M(L, x, y) <= M(Q, x, y) <= M(L, x, y) + (if Room(cs, a, todo, x, y) then 1 else 0)
  {
    LinkedIn(cs, todo, room);
    hide M, Linked;
  }
}
