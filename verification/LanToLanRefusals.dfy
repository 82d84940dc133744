/** What the handlers do when the hardware refuses calls: which of them stop, which go on, and
    what is left in the lists and the counter. */
module LanToLanRefusals {
  import opened Driver
  import opened LanRules
  import opened LanToLan
  import opened LanToLanPeers
  import opened LanToLanLinks
  import opened LanToLanGraph
  import opened LanToLanRuns
  import opened LanToLanLimits
  import opened LanToLanEffects
  import opened LanToLanPower

  // ---- A first connection --------------------------------------------------------------------

  /** a gets a link to b, and b one to a, when the flags say so; no other pair changes. */
  ghost predicate NearFar(L: LinkTable, Q: LinkTable, a: Key, b: Key, near: bool, far: bool) {
    forall x, y ::
      M(Q, x, y) == M(L, x, y) + (if near && (x, y) == (a, b) then 1 else 0) + (if far && (x, y) == (b, a) then 1 else 0)
  }

  /** handle_new_lan2lan_connection stops at its first refused install: with a first connection
      between two active clients, the far end is linked only when the near end is, and the counter
      goes up when both are. */
  lemma NewConnAnyway(s: State, a: Key, b: Key)
    requires Inv(s, true) && a != b && GetsLink(s, a, b)
    ensures var s' := Step(s, NewConn(a, b));
            var near := CanLink(s, a, b); var far := near && CanLink(AddLink(s, a, b).0, b, a);
            NearFar(LinksOf(s.clients), LinksOf(s'.clients), a, b, near, far) && s'.pairs == (if far then s.pairs + 1 else s.pairs)
  {
    var t := s.(clients := AddConnection(s.clients, a, b).0);
    hide Inv, Step, AddConnection, LinkNew, AddLink, CanLink, NearFar, LinksOf, PeersOf, Cnt, Shapes, Bare, SameOwn;
    CountedUp(s, a, b);
    FirstStep(s, a, b);
    CountedIfaces(s, a, b);
    SameInstall(s, t, a, b);
    LinkNewAnyway(t, a, b);
    SameInstall(AddLink(s, a, b).0, AddLink(t, a, b).0, b, a);
  }

  lemma FirstStep(s: State, a: Key, b: Key)
    requires a in s.clients && b in s.clients
    ensures var (cs, first) := AddConnection(s.clients, a, b);
            first && cs[a].active && cs[b].active ==> Step(s, NewConn(a, b)) == LinkNew(s.(clients := cs), a, b)
  {
    hide AddConnection, LinkNew;
  }

  lemma LinkNewAnyway(s: State, a: Key, b: Key)
    requires a in s.clients && b in s.clients && a != b && s.pairs < MAX_OFFLOAD_PAIR
    ensures var s' := LinkNew(s, a, b);
            var near := CanLink(s, a, b); var far := near && CanLink(AddLink(s, a, b).0, b, a);
            NearFar(LinksOf(s.clients), LinksOf(s'.clients), a, b, near, far) && s'.pairs == (if far then s.pairs + 1 else s.pairs)
  {
    hide LinkNew, AddLink, CanLink, M, LinksOf, Shapes;
    AddLinkEffect(s, a, b);
    AddLinkEffect(AddLink(s, a, b).0, b, a);
    LinkNewParts(s, a, b);
  }

  lemma CountedIfaces(s: State, a: Key, b: Key)
    requires a in s.clients && b in s.clients
    ensures SameOwn(s.clients, AddConnection(s.clients, a, b).0)
  {
    hide AddConnection, Shapes, Bare;
    OwnKept(s.clients, AddConnection(s.clients, a, b).0);
  }

  /** Whether an install can be carried out depends on rules, counter and interfaces alone. */
  lemma SameInstall(s: State, t: State, a: Key, b: Key)
    requires a in s.clients && b in s.clients && SameOwn(s.clients, t.clients) && t.rules == s.rules && t.pairs == s.pairs
    ensures CanLink(t, a, b) == CanLink(s, a, b)
    ensures AddLink(t, a, b).0.rules == AddLink(s, a, b).0.rules && AddLink(t, a, b).0.pairs == AddLink(s, a, b).0.pairs
    ensures SameOwn(AddLink(s, a, b).0.clients, AddLink(t, a, b).0.clients)
  {
    assert Own(s.clients[a]).iface == Own(t.clients[a]).iface && Own(s.clients[b]).iface == Own(t.clients[b]).iface;
    hide Install, Installable, Shapes;
    OwnKept(s.clients, AddLink(s, a, b).0.clients);
    OwnKept(t.clients, AddLink(t, a, b).0.clients);
  }

  lemma LinkNewParts(s: State, a: Key, b: Key)
    requires a in s.clients && b in s.clients && s.pairs < MAX_OFFLOAD_PAIR
    ensures var (s1, ok1) := AddLink(s, a, b); var (s2, ok2) := AddLink(s1, b, a);
            LinkNew(s, a, b) == if !ok1 then s1 else if ok2 then s2.(pairs := s.pairs + 1) else s2
  {
    hide AddLink;
  }

  // ---- Offering a returning client -------------------------------------------------------------

  /** check_potential_link goes on after a peer it could link in neither direction: the later ones
      are linked as if that peer had not been there. */
  lemma OfferGoesOn(s: State, a: Key, todo: seq<Peer>)
    requires a in s.clients && Sym(LinksOf(s.clients), s.pairs) && todo != [] && Offers(s.clients, a, todo)
    requires s.clients[todo[0].ptr].active && !CanLink(s, a, todo[0].ptr)
    requires !CanLink(AddLink(s, a, todo[0].ptr).0, todo[0].ptr, a)
    requires CheckPotential(s, a, todo).rules.faults == LinkBoth(s, a, todo[0].ptr).rules.faults
    ensures LinksAdded(LinksOf(s.clients), LinksOf(CheckPotential(s, a, todo).clients), a,
                       Linked(s.clients, todo[1..], Minus(MAX_OFFLOAD_PAIR, s.pairs)))
  {
    var b := todo[0].ptr;
    OffersNext(s.clients, a, todo);
    PairsCapped(s);
    NeitherLinked(s, a, b);
    var s1 := LinkBoth(s, a, b);
    assert CheckPotential(s, a, todo) == CheckPotential(s1, a, todo[1..]);
    hide LinkBoth, CheckPotential, CanLink, AddLink, Offers, Sym, LinksOf, LinksAdded, Linked, M;
    CheckPotentialExact(s1, a, todo[1..]);
  }

  lemma NeitherLinked(s: State, a: Key, b: Key)
    requires a in s.clients && b in s.clients && a != b && !CanLink(s, a, b) && !CanLink(AddLink(s, a, b).0, b, a)
    ensures LinkBoth(s, a, b).clients == s.clients && LinkBoth(s, a, b).pairs == s.pairs
  {
    AddLinkEffect(s, a, b);
    AddLinkEffect(AddLink(s, a, b).0, b, a);
    NotAdded(s, a, b);
    NotAdded(AddLink(s, a, b).0, b, a);
    hide AddLink, CanLink;
  }

  lemma NotAdded(s: State, a: Key, b: Key)
    requires a in s.clients && b in s.clients
    ensures !AddLink(s, a, b).1 ==> AddLink(s, a, b).0.clients == s.clients
  {
    hide Install;
  }

  // ---- A last connection -------------------------------------------------------------------------

  /** erase_offload_link drops both list entries even when a delete is refused; then the counter
      stays. */
  lemma EraseAnyway(s: State, a: Key, b: Key)
    requires a in s.clients && b in s.clients && a != b && M(LinksOf(s.clients), a, b) == M(LinksOf(s.clients), b, a)
    ensures var s' := EraseLinks(s, a, b);
            && LinksTaken(LinksOf(s.clients), LinksOf(s'.clients), a, b, 1)
            && s'.pairs == if M(LinksOf(s.clients), a, b) > 0 && s'.rules.faults == s.rules.faults then Dec8(s.pairs) else s.pairs
  {
    MultFind(s.clients[a].links, b);
    MultFind(s.clients[b].links, a);
    if M(LinksOf(s.clients), a, b) == 0 {
      EraseLinksNothing(s, a, b);
    } else {
      hide EraseLinks, EraseHalf, M, RemoveAt, FindLink, Shapes;
      BothHalves(s, a, b);
      CutCounts(LinksOf(s.clients), a, b);
    }
  }

  lemma BothHalves(s: State, a: Key, b: Key)
    requires a in s.clients && b in s.clients && a != b
    requires FindLink(s.clients[a].links, b) < |s.clients[a].links| && FindLink(s.clients[b].links, a) < |s.clients[b].links|
    ensures var s', L := EraseLinks(s, a, b), LinksOf(s.clients);
            && LinksOf(s'.clients) == L[a := RemoveAt(L[a], FindLink(L[a], b))][b := RemoveAt(L[b], FindLink(L[b], a))]
            && s'.pairs == if s'.rules.faults == s.rules.faults then Dec8(s.pairs) else s.pairs
  {
    hide EraseHalf, FindLink, RemoveAt;
    EraseHalfRemoves(s, a, b);
    EraseHalfRemoves(EraseHalf(s, a, b).0, b, a);
  }

  lemma CutCounts(L: LinkTable, a: Key, b: Key)
    requires a in L && b in L && a != b && FindLink(L[a], b) < |L[a]| && FindLink(L[b], a) < |L[b]|
    ensures LinksTaken(L, L[a := RemoveAt(L[a], FindLink(L[a], b))][b := RemoveAt(L[b], FindLink(L[b], a))], a, b, 1)
  {
    var i, j := FindLink(L[a], b), FindLink(L[b], a);
    forall y
      ensures Mult(RemoveAt(L[a], i), y) == Mult(L[a], y) - (if y == b then 1 else 0)
      ensures Mult(RemoveAt(L[b], j), y) == Mult(L[b], y) - (if y == a then 1 else 0)
    {
      MultRemove(L[a], i, y);
      MultRemove(L[b], j, y);
    }
    hide Mult, RemoveAt, FindLink;
  }

  // ---- Turning links off ---------------------------------------------------------------------------

  /** a's first n links, in order, are gone from their other ends; nothing else changed. */
  ghost predicate TurnedOffUpTo(L: LinkTable, Q: LinkTable, a: Key, todo: seq<Link>, n: nat)
    requires n <= |todo|
  {
    && a in L && a in Q && Q[a] == L[a]
    && forall x, y :: x != a ==> M(Q, x, y) == M(L, x, y) - (if y == a then Mult(todo[..n], x) else 0)
  }

  /** turnoff_offload_links stops at the first link it cannot turn off: the links before it are gone
      from their other ends and uncounted, the others stay, and so does the client's own list. */
  lemma {:induction false} TurnOffStops(s: State, a: Key, todo: seq<Link>)
    requires a in s.clients && Sym(LinksOf(s.clients)[a := todo], s.pairs) && !TurnOff(s, a, todo).1
    ensures var s' := TurnOff(s, a, todo).0;
            exists n: nat | n < |todo| && n <= s.pairs ::
              TurnedOffUpTo(LinksOf(s.clients), LinksOf(s'.clients), a, todo, n) && s'.pairs == s.pairs - n
    decreases |todo|
  {
    hide TurnOff, TurnOffOne, Sym, M, LinksOf, TurnedOffUpTo, Shapes, Later;
    TurnOffUnfolds(s, a, todo);
    TurnOffOneSame(s, a, todo[0]);
    var (s1, ok) := TurnOffOne(s, a, todo[0]);
    var s' := TurnOff(s, a, todo).0;
    if !ok {
      FailedOne(s, a, todo[0]);
      UpToNone(LinksOf(s.clients), a, todo);
    } else {
      TurnOffOneKeeps(s, a, todo);
      OneOff(s, a, todo);
      TurnOffStops(s1, a, todo[1..]);
      var n: nat :| n < |todo[1..]| && n <= s1.pairs && TurnedOffUpTo(LinksOf(s1.clients), LinksOf(s'.clients), a, todo[1..], n) && s'.pairs == s1.pairs - n;
      UpToNext(LinksOf(s.clients), LinksOf(s1.clients), LinksOf(s'.clients), a, todo, n);
    }
  }

  lemma TurnOffUnfolds(s: State, a: Key, todo: seq<Link>)
    requires a in s.clients
    ensures a in LinksOf(s.clients) && (todo == [] ==> TurnOff(s, a, todo).1)
    ensures todo != [] ==>
              var (s1, ok) := TurnOffOne(s, a, todo[0]);
              a in s1.clients && TurnOff(s, a, todo) == if ok then TurnOff(s1, a, todo[1..]) else (s1, false)
  {
    hide TurnOffOne;
  }

  lemma FailedOne(s: State, a: Key, l: Link)
    requires a in s.clients && !TurnOffOne(s, a, l).1
    ensures TurnOffOne(s, a, l).0.clients == s.clients && TurnOffOne(s, a, l).0.pairs == s.pairs
  {
    hide Remove;
  }

  /** One round takes the reverse link off the other end. */
  lemma OneOff(s: State, a: Key, todo: seq<Link>)
    requires a in s.clients && todo != [] && Sym(LinksOf(s.clients)[a := todo], s.pairs) && TurnOffOne(s, a, todo[0]).1
    ensures var s1 := TurnOffOne(s, a, todo[0]).0;
            && TurnedOffUpTo(LinksOf(s.clients), LinksOf(s1.clients), a, todo, 1) && s.pairs > 0 && s1.pairs == s.pairs - 1
  {
    var L, b := LinksOf(s.clients), todo[0].ptr;
    TurnOffRound(L, s.pairs, a, todo);
    OneOffLinks(s, a, todo[0]);
    hide TurnOffOne, Sym, LinksOf, TurnedOffUpTo, FindLink, M;
    OneOffCounts(L, a, todo, FindLink(L[b], a));
  }

  lemma OneOffLinks(s: State, a: Key, l: Link)
    requires a in s.clients && TurnOffOne(s, a, l).1
    ensures var s1, L := TurnOffOne(s, a, l).0, LinksOf(s.clients);
            && l.ptr in L && FindLink(L[l.ptr], a) < |L[l.ptr]| && s1.pairs == Dec8(s.pairs)
            && LinksOf(s1.clients) == L[l.ptr := RemoveAt(L[l.ptr], FindLink(L[l.ptr], a))]
  {
    hide Remove, FindLink, RemoveAt;
  }

  lemma OneOffCounts(L: LinkTable, a: Key, todo: seq<Link>, j: nat)
    requires todo != [] && a in L && todo[0].ptr in L && todo[0].ptr != a && j == FindLink(L[todo[0].ptr], a) < |L[todo[0].ptr]|
    ensures TurnedOffUpTo(L, L[todo[0].ptr := RemoveAt(L[todo[0].ptr], j)], a, todo, 1)
  {
    var b := todo[0].ptr;
    forall y ensures Mult(RemoveAt(L[b], j), y) == Mult(L[b], y) - (if y == a then 1 else 0) { MultRemove(L[b], j, y); }
    assert todo[..1] == [] + [todo[0]];
    forall x ensures Mult([] + [todo[0]], x) == if x == b then 1 else 0 { MultAppend([], todo[0], x); }
    hide Mult, RemoveAt, FindLink;
  }

  lemma UpToNone(L: LinkTable, a: Key, todo: seq<Link>)
    requires a in L
    ensures TurnedOffUpTo(L, L, a, todo, 0)
  {
    assert todo[..0] == [];
    assert forall x :: Mult(todo[..0], x) == 0;
    hide M;
  }

  lemma UpToNext(L: LinkTable, L1: LinkTable, Q: LinkTable, a: Key, todo: seq<Link>, n: nat)
    requires todo != [] && n < |todo[1..]|
    requires TurnedOffUpTo(L, L1, a, todo, 1) && TurnedOffUpTo(L1, Q, a, todo[1..], n)
    ensures TurnedOffUpTo(L, Q, a, todo, n + 1)
  {
    assert todo[..n + 1] == todo[..1] + todo[1..][..n];
    forall x ensures Mult(todo[..n + 1], x) == Mult(todo[..1], x) + Mult(todo[1..][..n], x) {
      MultConcat(todo[..1], todo[1..][..n], x);
    }
    hide M, Mult;
  }

  // ---- Falling asleep and waking --------------------------------------------------------------------

  /** remove_flt_rules passes over refused deletes: it makes two calls per link, whatever the
      hardware answers. */
  lemma {:induction false} RemoveFltsCalls(s: State, a: Key, todo: seq<Link>)
    requires a in s.clients && Sym(LinksOf(s.clients), s.pairs)
    requires forall l :: l in todo ==> M(LinksOf(s.clients), a, l.ptr) > 0
    ensures RemoveFlts(s, a, todo).1 && RemoveFlts(s, a, todo).0.rules.pos == s.rules.pos + 2 * |todo|
    decreases |todo|
  {
    if todo == [] { return; }
    SymPair(LinksOf(s.clients), s.pairs, a, todo[0].ptr);
    BackFound(s, a, todo[0]);
    TwoCalls(s, a, todo[0]);
    hide Sym, M, RemoveFltOne;
    RemoveFltsCalls(RemoveFltOne(s, a, todo[0]).0, a, todo[1..]);
  }

  lemma TwoCalls(s: State, a: Key, l: Link)
    requires a in s.clients && RemoveFltOne(s, a, l).1
    ensures RemoveFltOne(s, a, l).0.rules.pos == s.rules.pos + 2
  {
    var r := s.rules;
    DelCalls(r, s.clients[a].iface, l.hs.flt);
    DelCalls(DelFlt(r, s.clients[a].iface, l.hs.flt).0, s.clients[l.ptr].iface, s.clients[l.ptr].links[FindLink(s.clients[l.ptr].links, a)].hs.flt);
    hide DelFlt, FindLink;
  }

  lemma SaveCalls(s: State, k: Key)
    requires Sym(LinksOf(s.clients), s.pairs) && k in s.clients
    ensures Step(s, PowerSave(k)).rules.pos == s.rules.pos + 2 * |s.clients[k].links|
  {
    hide RemoveFlts, Sym, M;
    OwnLinks(s, k);
    RemoveFltsCalls(s, k, s.clients[k].links);
  }

  /** A sleeping client whose filter rules are out wakes if and only if the next two calls per link
      are carried out: the first refused add ends the recovery, and the client stays asleep. */
  lemma WakesIff(s: State, k: Key)
    requires Refilling(s, k, 0) && !s.clients[k].active && s.clients[k].powersave
    ensures var s' := Step(s, PowerRecover(k));
            && k in s'.clients
            && (s'.clients[k].active <==> Accepts(s.rules, 2 * |s.clients[k].links|))
            && (s'.clients[k].active || s'.clients[k].powersave)
  {
    hide AddFlts, CheckPotential, Refilling, Shapes, Accepts;
    WaitsFor(s, k, 0);
    if Accepts(s.rules, 2 * |s.clients[k].links|) { RefillAll(s, k, 0); }
    if AddFlts(s, k, 0).1 { AddFltsCalls(s, k, 0, |s.clients[k].links|); }
    var (s1, ok) := AddFlts(s, k, 0);
    FlagsKept(s.clients, s1.clients, k);
    if ok {
      var s2 := SetFlags(s1, k, true, false);
      FlagsKept(s2.clients, CheckPotential(s2, k, s2.clients[k].peers).clients, k);
    }
  }

  lemma FlagsKept(cs: map<Key, Client>, cs': map<Key, Client>, k: Key)
    requires Shapes(cs') == Shapes(cs) && k in cs
    ensures k in cs' && cs'[k].active == cs[k].active && cs'[k].powersave == cs[k].powersave
  {
    OwnKept(cs, cs');
    assert Own(cs'[k]).active == Own(cs[k]).active && Own(cs'[k]).powersave == Own(cs[k]).powersave;
  }

  lemma {:induction false} AddFltsCalls(s: State, a: Key, i: nat, n: nat)
    requires a in s.clients && i + n == |s.clients[a].links| && AddFlts(s, a, i).1
    ensures Accepts(s.rules, 2 * n)
    decreases n
  {
    hide AddFlts, AddFltRound, Shapes, Accepts, Later;
    AcceptsNone(s.rules);
    if n == 0 { return; }
    AddFltsNext(s, a, i);
    AddRoundCalls(s, a, i);
    var s1 := AddFltRound(s, a, i).0;
    AddFltsCalls(s1, a, i + 1, n - 1);
    AcceptsJoin(s.rules, 2 * (n - 1), s1.rules);
  }

  lemma AddFltsNext(s: State, a: Key, i: nat)
    requires a in s.clients && i < |s.clients[a].links| && AddFlts(s, a, i).1
    ensures var (s1, ok) := AddFltRound(s, a, i);
            ok && a in s1.clients && |s1.clients[a].links| == |s.clients[a].links| && AddFlts(s1, a, i + 1).1
  {
    hide AddFltRound, Shapes;
  }

  lemma AcceptsNone(r: Rules)
    ensures Accepts(r, 0)
  {
  }

  lemma AcceptsJoin(r: Rules, n: nat, r1: Rules)
    requires r.script(r.pos).Done? && r.script(r.pos + 1).Done?
    requires r1.pos == r.pos + 2 && r1.script == r.script && Accepts(r1, n)
    ensures Accepts(r, n + 2)
  {
  }

  lemma AddRoundCalls(s: State, a: Key, i: nat)
    requires a in s.clients && i < |s.clients[a].links| && AddFltRound(s, a, i).1
    ensures var s1 := AddFltRound(s, a, i).0;
            && s.rules.script(s.rules.pos).Done? && s.rules.script(s.rules.pos + 1).Done?
            && s1.rules.pos == s.rules.pos + 2 && s1.rules.script == s.rules.script
  {
    AddCalls(s.rules, s.clients[a].iface);
    var (r1, h1) := AddFlt(s.rules, s.clients[a].iface);
    var b := s.clients[a].links[i].ptr;
    AddCalls(r1, if h1.Some? then SetLinks(s.clients, a, SetFlt(s.clients[a].links, i, h1.value))[b].iface else 0);
    hide AddFlt, FindLink;
  }

  lemma AddCalls(r: Rules, i: IfaceId)
    ensures var (r', h) := AddFlt(r, i); r'.pos == r.pos + 1 && r'.script == r.script && (h.Some? ==> r.script(r.pos).Done?)
  {
    hide FirstFree;
  }
}
