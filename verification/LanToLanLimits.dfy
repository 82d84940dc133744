/** What the invariant says in plain terms, and exactly when the handlers lose it. */
module LanToLanLimits {
  import opened Driver
  import opened LanRules
  import opened LanToLan
  import opened LanToLanPeers
  import opened LanToLanLinks
  import opened LanToLanGraph
  import opened LanToLanSlots
  import opened LanToLanRuns

  /** Without power save the links are a simple symmetric graph over active peers, and
      num_offload_pair is its number of edges, at most three. */
  lemma OffloadGraph(s: State)
    requires Inv(s, false)
    ensures forall a, b :: M(LinksOf(s.clients), a, b) == M(LinksOf(s.clients), b, a) <= 1
    ensures forall a, b :: M(LinksOf(s.clients), a, b) == 1 ==>
              && a in s.clients && b in s.clients && a != b
              && s.clients[a].active && s.clients[b].active
              && Num(s.clients[a].peers, b) > 0
    ensures |Arcs(LinksOf(s.clients))| == 2 * s.pairs && s.pairs <= MAX_OFFLOAD_PAIR
  {
    var L := LinksOf(s.clients);
    forall a, b ensures M(L, a, b) == M(L, b, a) <= 1 {
      if M(L, a, b) > 0 { ActiveEnds(s, a, b); }
    }
    ArcsCard(L);
    forall a, b | M(L, a, b) == 1
      ensures a in s.clients && b in s.clients && a != b && s.clients[a].active && s.clients[b].active
      ensures Num(s.clients[a].peers, b) > 0
    {
      ActiveEnds(s, a, b);
      LinkedCounts(s, false);
      assert M(L, a, a) == 0;
      assert Cnt(PeersOf(s.clients), a, b) > 0;
    }
  }

  // ---- Failed installs -----------------------------------------------------------------

  /** Both slot tables have room for one more link from own to peer. */
  predicate HasRoom(r: Rules, own: IfaceId, peer: IfaceId) {
    var t, u := SlotsOf(r, own), SlotsOf(r, peer);
    t.numFlt < MAX_OFFLOAD_PAIR && FirstFree(t.flt) < |t.flt| && FirstFree(u.hdr) < |u.hdr|
  }

  predicate Installable(r: Rules, own: IfaceId, peer: IfaceId) { HasRoom(r, own, peer) && Accepts(r, 3) }

  lemma InstallIff(r: Rules, own: IfaceId, peer: IfaceId)
    ensures Install(r, own, peer).1.Some? <==> Installable(r, own, peer)
  {
    AcceptsThree(r);
    InstallParts(r, own, peer);
    hide Accepts;
    var (r1, hdr) := AddHdr(r, peer);
    if hdr.Some? { HdrLeavesFlt(r, own, peer); }
  }

  lemma AcceptsThree(r: Rules)
    ensures Accepts(r, 3) <==> r.script(r.pos).Done? && r.script(r.pos + 1).Done? && r.script(r.pos + 2).Done?
  {
  }

  lemma InstallParts(r: Rules, own: IfaceId, peer: IfaceId)
    ensures var (r1, hdr) := AddHdr(r, peer); var (r2, rt) := AddRt(r1);
            Install(r, own, peer).1.Some? <==> hdr.Some? && rt.Some? && AddFlt(r2, own).1.Some?
  {
    hide AddHdr, AddRt, AddFlt;
  }

  lemma HdrLeavesFlt(r: Rules, own: IfaceId, peer: IfaceId)
    ensures var r1 := AddHdr(r, peer).0;
            && SlotsOf(r1, own).flt == SlotsOf(r, own).flt && SlotsOf(r1, own).numFlt == SlotsOf(r, own).numFlt
            && r1.pos == r.pos + 1 && r1.script == r.script
  {
  }

  /** How many rule calls an install makes, its undo included. */
  function CallsTaken(r: Rules, own: IfaceId, peer: IfaceId): nat {
    var t, u := SlotsOf(r, own), SlotsOf(r, peer);
    if FirstFree(u.hdr) == |u.hdr| || !r.script(r.pos).Done? then 1
    else if !r.script(r.pos + 1).Done? then 3
    else if Installable(r, own, peer) then 3
    else 5
  }

  /** One call later, own's headers and peer's filters are the same. */
  ghost predicate Elsewhere(r: Rules, r': Rules, own: IfaceId, peer: IfaceId) {
    && r'.script == r.script && r'.pos == r.pos + 1
    && SlotsOf(r', own).hdr == SlotsOf(r, own).hdr
    && SlotsOf(r', peer).flt == SlotsOf(r, peer).flt && SlotsOf(r', peer).numFlt == SlotsOf(r, peer).numFlt
  }

  lemma CallsElsewhere(r: Rules, own: IfaceId, peer: IfaceId)
    requires own != peer
    ensures Elsewhere(r, AddHdr(r, peer).0, own, peer)
    ensures Elsewhere(r, AddRt(r).0, own, peer)
    ensures Elsewhere(r, AddFlt(r, own).0, own, peer)
    ensures forall h :: Elsewhere(r, DelRt(r, h).0, own, peer) && Elsewhere(r, DelHdr(r, peer, h).0, own, peer)
  {
    hide FirstFree, FirstWith;
  }

  lemma RtCalls(r: Rules)
    ensures AddRt(r).1.Some? <==> r.script(r.pos).Done?
  {
  }

  /** An install between two interfaces touches the headers of one and the filters of the other. */
  lemma InstallElsewhere(r: Rules, own: IfaceId, peer: IfaceId)
    requires own != peer
    ensures var r' := Install(r, own, peer).0;
            && r'.script == r.script && r'.pos == r.pos + CallsTaken(r, own, peer)
            && SlotsOf(r', own).hdr == SlotsOf(r, own).hdr
            && SlotsOf(r', peer).flt == SlotsOf(r, peer).flt && SlotsOf(r', peer).numFlt == SlotsOf(r, peer).numFlt
  {
    hide Accepts, FirstFree, SlotsOf, AddHdr, AddRt, AddFlt, DelRt, DelHdr, Installable;
    InstallIff(r, own, peer);
    HdrCalls(r, peer);
    CallsElsewhere(r, own, peer);
    var (r1, hdr) := AddHdr(r, peer);
    RtCalls(r1);
    CallsElsewhere(r1, own, peer);
    var (r2, rt) := AddRt(r1);
    CallsElsewhere(r2, own, peer);
    var r3 := AddFlt(r2, own).0;
    CallsElsewhere(r3, own, peer);
    if rt.Some? { CallsElsewhere(DelRt(r3, rt.value).0, own, peer); }
  }

  lemma HdrCalls(r: Rules, peer: IfaceId)
    ensures AddHdr(r, peer).1.Some? <==> FirstFree(SlotsOf(r, peer).hdr) < |SlotsOf(r, peer).hdr| && r.script(r.pos).Done?
  {
  }

  lemma AppendCounts(L: LinkTable, a: Key, l: Link)
    requires a in L
    ensures forall x, y :: M(L[a := L[a] + [l]], x, y) == M(L, x, y) + (if x == a && y == l.ptr then 1 else 0)
  {
    forall x ensures Mult(L[a] + [l], x) == Mult(L[a], x) + (if x == l.ptr then 1 else 0) {
      MultAppend(L[a], l, x);
    }
    hide Mult;
  }

  predicate CanLink(s: State, a: Key, b: Key)
    requires a in s.clients && b in s.clients
  {
    s.pairs < MAX_OFFLOAD_PAIR && Installable(s.rules, s.clients[a].iface, s.clients[b].iface)
  }

  lemma AddLinkEffect(s: State, a: Key, b: Key)
    requires a in s.clients && b in s.clients && a != b
    ensures AddLink(s, a, b).1 <==> CanLink(s, a, b)
    ensures forall x, y ::
              M(LinksOf(AddLink(s, a, b).0.clients), x, y)
              == M(LinksOf(s.clients), x, y) + (if CanLink(s, a, b) && (x, y) == (a, b) then 1 else 0)
  {
    var L := LinksOf(s.clients);
    var (s1, ok) := AddLink(s, a, b);
    InstallIff(s.rules, s.clients[a].iface, s.clients[b].iface);
    hide Install, Installable, M;
    if ok {
      var l := s1.clients[a].links[|L[a]|];
      AppendCounts(L, a, l);
      assert LinksOf(s1.clients) == L[a := L[a] + [l]];
    }
  }

  ghost predicate Symmetric(L: LinkTable) { forall x, y :: M(L, x, y) == M(L, y, x) }

  /** Whatever the hardware does, a pair linked by check_potential_link stays symmetric exactly
      when the second install can be carried out where the first one can; only the second one's
      result is looked at. */
  lemma LinkBothSymmetricIff(s: State, a: Key, b: Key)
    requires a in s.clients && b in s.clients && a != b && Symmetric(LinksOf(s.clients))
    ensures Symmetric(LinksOf(LinkBoth(s, a, b).clients)) <==> CanLink(s, a, b) == CanLink(AddLink(s, a, b).0, b, a)
  {
    hide M, AddLink, LinksOf, Shapes, CanLink;
    var s1 := AddLink(s, a, b).0;
    var s2 := AddLink(s1, b, a).0;
    AddLinkEffect(s, a, b);
    AddLinkEffect(s1, b, a);
    var L, Q := LinksOf(s.clients), LinksOf(LinkBoth(s, a, b).clients);
    assert Q == LinksOf(s2.clients);
    assert M(L, a, b) == M(L, b, a);
    assert M(Q, a, b) == M(L, a, b) + (if CanLink(s, a, b) then 1 else 0);
    assert M(Q, b, a) == M(L, b, a) + (if CanLink(s1, b, a) then 1 else 0);
  }

  /** Between interfaces that is decided by the tables and replies before the call: either the cap
      is reached, or both directions have room and replies to succeed, or neither has. */
  lemma CrossSymmetricIff(s: State, a: Key, b: Key)
    requires a in s.clients && b in s.clients && s.clients[a].iface != s.clients[b].iface && Symmetric(LinksOf(s.clients))
    ensures var r, i, j := s.rules, s.clients[a].iface, s.clients[b].iface;
            Symmetric(LinksOf(LinkBoth(s, a, b).clients)) <==>
              s.pairs >= MAX_OFFLOAD_PAIR
              || Installable(r, i, j) == Installable(r.(pos := r.pos + CallsTaken(r, i, j)), j, i)
  {
    hide Symmetric, LinkBoth, Installable, CallsTaken, AddLink;
    LinkBothSymmetricIff(s, a, b);
    if s.pairs < MAX_OFFLOAD_PAIR { SecondInstallable(s, a, b); } else { AddLinkAtCap(s, a, b); }
  }

  lemma SecondInstallable(s: State, a: Key, b: Key)
    requires a in s.clients && b in s.clients && s.clients[a].iface != s.clients[b].iface && s.pairs < MAX_OFFLOAD_PAIR
    ensures var r, i, j := s.rules, s.clients[a].iface, s.clients[b].iface; var s1 := AddLink(s, a, b).0;
            CanLink(s1, b, a) <==> Installable(r.(pos := r.pos + CallsTaken(r, i, j)), j, i)
  {
    hide Install, CallsTaken, FirstFree, Shapes;
    InstallElsewhere(s.rules, s.clients[a].iface, s.clients[b].iface);
  }

  // ---- Failed deletes ------------------------------------------------------------------

  lemma TurnOffOneSame(s: State, a: Key, l: Link)
    requires a in s.clients
    ensures TurnOffOne(s, a, l).1 ==> TurnOffOne(s, a, l).0.rules.faults == s.rules.faults
    ensures !TurnOffOne(s, a, l).1 ==> TurnOffOne(s, a, l).0.clients == s.clients
  {
    hide Remove;
  }

  /** A failed turnoff_offload_links leaves some peer pointing at the client. */
  lemma {:induction false} FailedTurnOffPoints(s: State, a: Key, todo: seq<Link>)
    requires a in s.clients && Sym(LinksOf(s.clients)[a := todo], s.pairs)
    ensures var (s', ok) := TurnOff(s, a, todo);
            !ok ==> exists b :: b != a && M(LinksOf(s'.clients), b, a) > 0
    ensures TurnOff(s, a, todo).1 ==> TurnOff(s, a, todo).0.rules.faults == s.rules.faults
    decreases |todo|
  {
    if todo == [] { return; }
    TurnOffOneSame(s, a, todo[0]);
    FirstPeerPoints(LinksOf(s.clients), s.pairs, a, todo);
    hide TurnOffOne, Sym, M;
    var (s1, ok) := TurnOffOne(s, a, todo[0]);
    if ok {
      TurnOffOneKeeps(s, a, todo);
      FailedTurnOffPoints(s1, a, todo[1..]);
    } else {
      assert M(LinksOf(s1.clients), todo[0].ptr, a) > 0;
    }
  }

  lemma FirstPeerPoints(L: LinkTable, pairs: nat, a: Key, todo: seq<Link>)
    requires a in L && todo != [] && Sym(L[a := todo], pairs)
    ensures todo[0].ptr != a && M(L, todo[0].ptr, a) > 0
  {
    var V := L[a := todo];
    assert M(V, a, todo[0].ptr) > 0;
    assert M(V, todo[0].ptr, a) > 0;
    assert M(V, a, a) == 0;
  }

  lemma TurnOffClearsIff(s: State, k: Key)
    requires Sym(LinksOf(s.clients), s.pairs) && k in s.clients
    ensures var (s1, ok) := TurnOff(s, k, s.clients[k].links);
            (forall x :: x != k ==> M(LinksOf(s1.clients), x, k) == 0) <==> ok
  {
    var L := LinksOf(s.clients);
    var s1 := TurnOff(s, k, s.clients[k].links).0;
    assert L[k := s.clients[k].links] == L;
    hide TurnOff, Sym, M;
    FailedTurnOffPoints(s, k, s.clients[k].links);
    if TurnOff(s, k, s.clients[k].links).1 {
      TurnOffKeeps(s, k, s.clients[k].links);
      GoneCounts(L, LinksOf(s1.clients), s1.pairs, k);
    }
  }

  lemma DisconnectLinks(s: State, k: Key)
    requires k in s.clients
    ensures var s1 := TurnOff(s, k, s.clients[k].links).0;
            && LinksOf(HandleDisconnect(s, k).clients) == LinksOf(s1.clients) - {k}
            && HandleDisconnect(s, k).rules == s1.rules
  {
    hide TurnOff, ClearPeers, Shapes, Bare;
    var s1 := TurnOff(s, k, s.clients[k].links).0;
    var s2 := ClearPeers(s1, k, s1.clients[k].peers).0;
    SameLinks(s1.clients, s2.clients);
    EraseLinksOf(s2.clients, k);
  }

  lemma EraseLinksOf(cs: map<Key, Client>, k: Key)
    ensures LinksOf(cs - {k}) == LinksOf(cs) - {k}
  {
  }

  /** After a disconnect no stored link points at the erased client exactly when the links could be
      turned off: a failure leaves a pointer to the erased entry behind. */
  lemma DisconnectClears(s: State, k: Key)
    requires Sym(LinksOf(s.clients), s.pairs) && k in s.clients
    ensures (forall x :: M(LinksOf(HandleDisconnect(s, k).clients), x, k) == 0)
       <==> TurnOff(s, k, s.clients[k].links).1
  {
    hide TurnOff, HandleDisconnect, Sym, M, LinksOf;
    var s1 := TurnOff(s, k, s.clients[k].links).0;
    var Q := LinksOf(HandleDisconnect(s, k).clients);
    TurnOffClearsIff(s, k);
    DisconnectLinks(s, k);
    forall x | x != k ensures M(Q, x, k) == M(LinksOf(s1.clients), x, k) {
      EraseOther(LinksOf(s1.clients), k, x);
    }
    EraseSelf(LinksOf(s1.clients), k);
  }

  lemma RemoveCalls(r: Rules, own: IfaceId, peer: IfaceId, hs: Handles)
    ensures var (r', ok) := Remove(r, own, peer, hs);
            r'.pos == r.pos + 3 && r'.script == r.script && (ok ==> Accepts(r, 3))
  {
    AcceptsThree(r);
    DelCalls(r, own, hs.flt);
    var r1 := DelFlt(r, own, hs.flt).0;
    DelCalls(DelRt(r1, hs.rt).0, peer, hs.hdr);
    hide Accepts, FirstWith, SlotsOf, DelFlt, DelHdr;
  }

  lemma DelCalls(r: Rules, i: IfaceId, h: Handle)
    ensures var (r', ok) := DelFlt(r, i, h); r'.pos == r.pos + 1 && r'.script == r.script && (ok ==> r.script(r.pos).Done?)
    ensures var (r', ok) := DelHdr(r, i, h); r'.pos == r.pos + 1 && r'.script == r.script && (ok ==> r.script(r.pos).Done?)
  {
    hide FirstWith;
  }

  lemma TurnOffOneCalls(s: State, a: Key, l: Link)
    requires a in s.clients && TurnOffOne(s, a, l).1
    ensures var s1 := TurnOffOne(s, a, l).0;
            s1.rules.pos == s.rules.pos + 6 && s1.rules.script == s.rules.script && Accepts(s.rules, 6)
  {
    var own, peer := s.clients[a].iface, s.clients[l.ptr].iface;
    RemoveCalls(s.rules, own, peer, l.hs);
    var ls := s.clients[l.ptr].links;
    RemoveCalls(Remove(s.rules, own, peer, l.hs).0, peer, own, ls[FindLink(ls, a)].hs);
    hide Remove, FindLink;
  }

  /** A turn-off that succeeds has had six calls per link carried out. */
  lemma {:induction false} TurnOffCalls(s: State, a: Key, todo: seq<Link>)
    requires a in s.clients && TurnOff(s, a, todo).1
    ensures Accepts(s.rules, 6 * |todo|)
    decreases |todo|
  {
    if todo == [] { return; }
    hide TurnOffOne;
    TurnOffOneCalls(s, a, todo[0]);
    TurnOffCalls(TurnOffOne(s, a, todo[0]).0, a, todo[1..]);
  }

  /** When slots and links agree, a disconnect leaves no link pointing at the erased client if and
      only if the next six calls per link of the client are carried out. */
  lemma DisconnectClearsIff(s: State, k: Key)
    requires FitS(s) && k in s.clients
    ensures (forall x :: M(LinksOf(HandleDisconnect(s, k).clients), x, k) == 0)
       <==> Accepts(s.rules, 6 * |s.clients[k].links|)
  {
    var L, ls := LinksOf(s.clients), s.clients[k].links;
    assert L[k := ls] == L;
    FitSym(L, s.pairs, IfacesOf(s.clients), s.rules);
    hide FitS, TurnOff, HandleDisconnect, M, Sym, Accepts, LinksOf;
    DisconnectClears(s, k);
    FitStart(s, k);
    if Accepts(s.rules, 6 * |ls|) { TurnOffFit(s, k, ls); }
    if TurnOff(s, k, ls).1 { TurnOffCalls(s, k, ls); }
  }

  lemma FitStart(s: State, k: Key)
    requires FitS(s) && k in s.clients
    ensures Fit(LinksOf(s.clients)[k := s.clients[k].links], s.pairs, IfacesOf(s.clients), s.rules)
  {
    assert LinksOf(s.clients)[k := s.clients[k].links] == LinksOf(s.clients);
    hide Fit;
  }

  lemma EraseOther(L: LinkTable, k: Key, x: Key)
    requires x != k
    ensures M(L - {k}, x, k) == M(L, x, k)
  {
  }

  lemma EraseSelf(L: LinkTable, k: Key)
    ensures M(L - {k}, k, k) == 0
  {
  }

  // ---- Power save ----------------------------------------------------------------------

  /** Without a fault every link's reverse is found, so add_flt_rules reaches its end. */
  lemma {:induction false} AddFltsReachEnd(s: State, a: Key, i: nat)
    requires a in s.clients && i <= |s.clients[a].links| && Sym(LinksOf(s.clients), s.pairs)
    requires AddFlts(s, a, i).0.rules.faults == s.rules.faults
    ensures AddFlts(s, a, i).1
    decreases |s.clients[a].links| - i
  {
    if i == |s.clients[a].links| { return; }
    var L := LinksOf(s.clients);
    var l := s.clients[a].links[i];
    LinkedBack(L, s.pairs, a, l);
    hide Sym, AddFltRound, Rehandled, SamePtrs;
    AddFltRoundKeeps(s, a, i);
    RehandledSym(s, AddFltRound(s, a, i).0);
    AddFltRoundOk(s, a, i);
    AddFltsReachEnd(AddFltRound(s, a, i).0, a, i + 1);
  }

  lemma AddFltRoundOk(s: State, a: Key, i: nat)
    requires a in s.clients && i < |s.clients[a].links| && Sym(LinksOf(s.clients), s.pairs)
    requires AddFltRound(s, a, i).0.rules.faults == s.rules.faults
    ensures AddFltRound(s, a, i).1
  {
    var L := LinksOf(s.clients);
    var l := s.clients[a].links[i];
    LinkedBack(L, s.pairs, a, l);
    MultIn(s.clients[a].links, l);
    assert M(L, a, l.ptr) == M(L, l.ptr, a);
    assert M(L, a, a) == 0;
    MultFind(s.clients[l.ptr].links, a);
    hide AddFlt;
    var h1 := AddFlt(s.rules, s.clients[a].iface).1;
    if h1.Some? {
      var cs1 := SetLinks(s.clients, a, SetFlt(s.clients[a].links, i, h1.value));
      assert cs1[l.ptr].links == s.clients[l.ptr].links;
    }
  }

  lemma AddFltsAgain(s: State, k: Key)
    requires k in s.clients && Sym(LinksOf(s.clients), s.pairs)
    requires AddFlts(s, k, 0).0.rules.faults == s.rules.faults
    ensures var (s1, ok) := AddFlts(s, k, 0);
            && ok && Sym(LinksOf(s1.clients), s1.pairs)
            && (forall x, y :: M(LinksOf(s1.clients), x, y) == M(LinksOf(s.clients), x, y))
            && (forall x :: x in s.clients ==> s1.clients[x].active == s.clients[x].active)
            && s1.clients[k].peers == s.clients[k].peers
  {
    hide Sym, M, AddFlts, Rehandled;
    var s1 := AddFlts(s, k, 0).0;
    AddFltsReachEnd(s, k, 0);
    AddFltsKeeps(s, k, 0);
    RehandledSym(s, s1);
    SameInfo(s.clients, s1.clients);
    forall x | x in s.clients
      ensures s1.clients[x].active == s.clients[x].active && s1.clients[x].peers == s.clients[x].peers
    {
      assert s1.clients[x].(links := []).active == s.clients[x].(links := []).active;
      assert s1.clients[x].(links := []).peers == s.clients[x].(links := []).peers;
    }
  }

  lemma RecoverSteps(s: State, k: Key)
    requires k in s.clients && !s.clients[k].active && s.clients[k].powersave
    ensures var (s1, ok) := AddFlts(s, k, 0);
            var s2 := SetFlags(s1, k, true, false);
            && HandlePowerRecover(s, k) == (if ok then CheckPotential(s2, k, s1.clients[k].peers) else s1)
            && s2.clients.Keys == s.clients.Keys && s2.pairs == s.pairs && s2.rules == s1.rules
            && LinksOf(s2.clients) == LinksOf(s1.clients)
            && forall x :: x in s.clients && x != k ==> s2.clients[x] == s1.clients[x]
  {
    hide AddFlts, CheckPotential;
  }

  /** Power recovery puts the filter rules back and then offers the client to its peers as if it
      had no links: without a failed call exactly the first active peers, as many as there are
      pairs left, get one more link. */
  lemma RecoverLinks(s: State, k: Key)
    requires Inv(s, true) && k in s.clients && !s.clients[k].active && s.clients[k].powersave
    requires HandlePowerRecover(s, k).rules.faults == s.rules.faults
    ensures LinksAdded(LinksOf(s.clients), LinksOf(HandlePowerRecover(s, k).clients), k,
                       Linked(s.clients, s.clients[k].peers, MAX_OFFLOAD_PAIR - s.pairs))
  {
    hide HandlePowerRecover, Sym, M, PeersOk, CheckPotential, LinksOk, PeerInv, AddFlts, Shapes, SetFlags, LinksOf, Linked,
      PeersOf;
    RecoverSteps(s, k);
    PairsCapped(s);
    AddFltsAgain(s, k);
    var ps := s.clients[k].peers;
    var s2 := SetFlags(AddFlts(s, k, 0).0, k, true, false);
    PeersOffered(s.clients, k);
    SameOffers(s.clients, s2.clients, k, ps);
    hide Offers;
    CheckPotentialExact(s2, k, ps);
    LinkedStable(s.clients, s2.clients, ps, MAX_OFFLOAD_PAIR - s.pairs);
    AddedFrom(LinksOf(s.clients), LinksOf(s2.clients), LinksOf(HandlePowerRecover(s, k).clients), k,
              Linked(s.clients, ps, MAX_OFFLOAD_PAIR - s.pairs));
  }

  lemma AddedFrom(L: LinkTable, L1: LinkTable, Q: LinkTable, k: Key, X: set<Key>)
    requires LinksAdded(L1, Q, k, X) && forall x, y :: M(L1, x, y) == M(L, x, y)
    ensures LinksAdded(L, Q, k, X)
  {
    hide M;
  }

  /** So a peer the client is already linked to gets a second link exactly when it is among
      them. */
  lemma RecoverDoubles(s: State, k: Key, b: Key)
    requires Inv(s, true) && k in s.clients && !s.clients[k].active && s.clients[k].powersave
    requires M(LinksOf(s.clients), k, b) == 1
    requires HandlePowerRecover(s, k).rules.faults == s.rules.faults
    ensures M(LinksOf(HandlePowerRecover(s, k).clients), k, b) >= 2
       <==> b in Linked(s.clients, s.clients[k].peers, MAX_OFFLOAD_PAIR - s.pairs)
  {
    hide HandlePowerRecover, Inv, M, LinksOf;
    RecoverLinks(s, k);
  }

  lemma PeersOffered(cs: map<Key, Client>, k: Key)
    requires PeerInv(PeersOf(cs)) && k in cs
    ensures Offers(cs, k, cs[k].peers) && forall p :: p in cs[k].peers ==> p.ptr != k
  {
    var P := PeersOf(cs);
    assert PeersOk(P[k]);
    forall b | Num(cs[k].peers, b) > 0 ensures b in cs && b != k {
      assert Cnt(P, k, b) == Cnt(P, b, k) > 0;
      assert Cnt(P, k, k) == 0;
    }
    forall p | p in cs[k].peers ensures p.ptr != k { PeerPointersLive(P, k, p); }
  }

  // ---- Who is in the table ----------------------------------------------------------------

  predicate Dormant(c: Client) { !c.active && !c.powersave }

  /** A client that is neither reachable nor connected. */
  predicate Idle(c: Client) { Dormant(c) && c.peers == [] }

  /** The keys of the table after an event. */
  function KeysAfter(s: State, e: Event): set<Key> {
    var keys := s.clients.Keys;
    match e
    case Active(k, mac, iface) => if iface in s.rules.ifaces then keys + {k} else keys
    case Inactive(k) => if k in keys && s.clients[k].peers == [] then keys - {k} else keys
    case Disconnect(k) => keys - {k}
    case DelConn(a, b) =>
      if a in keys && b in keys then
        var (cs, last) := RemoveConnection(s.clients, a, b);
        if last then keys - (set x | x in {a, b} && Idle(cs[x])) else keys
      else keys
    case _ => keys
  }

  /** Handler by handler: who is in the table afterwards, whatever the hardware answers. */
  lemma StepKeys(s: State, e: Event)
    ensures Step(s, e).clients.Keys == KeysAfter(s, e)
  {
    match e
    case DelConn(a, b) => DelKeys(s, a, b);
    case NewConn(a, b) => NewKeys(s, a, b);
    case Inactive(k) => InactiveKeys(s, k);
    case Disconnect(k) => hide TurnOff, ClearPeers;
    case Active(_, _, _) => hide TurnOff, ClearPeers, CheckPotential;
    case PowerSave(_) => hide RemoveFlts;
    case PowerRecover(_) => hide AddFlts, CheckPotential;
  }

  lemma InactiveKeys(s: State, k: Key)
    ensures HandleInactive(s, k).clients.Keys == KeysAfter(s, Inactive(k))
  {
    hide TurnOff;
    if k in s.clients {
      var s1 := TurnOff(s, k, s.clients[k].links).0;
      SameInfo(s.clients, s1.clients);
      assert s.clients[k].(links := []).peers == s1.clients[k].(links := []).peers;
    }
  }

  lemma NewKeys(s: State, a: Key, b: Key)
    ensures HandleNewConn(s, a, b).clients.Keys == s.clients.Keys
  {
    hide LinkNew, AddConnection, Shapes, Bare;
    if a in s.clients && b in s.clients {
      var s1 := s.(clients := AddConnection(s.clients, a, b).0);
      LinkNewKeys(s1, a, b);
    }
  }

  lemma LinkNewKeys(s: State, a: Key, b: Key)
    requires a in s.clients && b in s.clients
    ensures LinkNew(s, a, b).clients.Keys == s.clients.Keys
  {
    hide AddLink;
  }

  lemma DelKeys(s: State, a: Key, b: Key)
    ensures HandleDelConn(s, a, b).clients.Keys == KeysAfter(s, DelConn(a, b))
  {
    hide RemoveConnection, EraseByMode, Bare, Shapes;
    if a !in s.clients || b !in s.clients { return; }
    var (cs, last) := RemoveConnection(s.clients, a, b);
    if !last { return; }
    var s1 := s.(clients := cs);
    var s2 := EraseByMode(s1, a, b);
    SameInfo(cs, s2.clients);
    assert Idle(cs[a]) == Idle(s2.clients[a]) by { assert Idle(cs[a].(links := [])) == Idle(s2.clients[a].(links := [])); }
    assert Idle(cs[b]) == Idle(s2.clients[b]) by { assert Idle(cs[b].(links := [])) == Idle(s2.clients[b].(links := [])); }
  }

  /** The events that take x out of the table: its disconnect, its going inactive without a peer,
      asleep or not, and the end of its only connection when it is inactive and awake. */
  predicate Leaves(s: State, e: Event, x: Key)
    requires x in s.clients
  {
    var c := s.clients[x];
    match e
    case Disconnect(k) => x == k
    case Inactive(k) => x == k && c.peers == []
    case DelConn(a, b) =>
      && a in s.clients && b in s.clients && a != b && Dormant(c)
      && ((x == a && c.peers == [Peer(b, 1)]) || (x == b && c.peers == [Peer(a, 1)]))
    case _ => false
  }

  lemma LastPeer(ps: seq<Peer>, k: Key)
    requires PeersOk(ps)
    ensures Num(ps, k) == 1 && DropPeer(ps, k) == [] <==> ps == [Peer(k, 1)]
  {
    if ps != [] { assert ps == [ps[0]] + ps[1..]; }
    if ps == [Peer(k, 1)] { assert ps[1..] == []; }
  }

  lemma DelLeaves(s: State, a: Key, b: Key, x: Key)
    requires PeerInv(PeersOf(s.clients)) && a in s.clients && b in s.clients && a != b && (x == a || x == b)
    ensures var (cs, last) := RemoveConnection(s.clients, a, b);
            last && Idle(cs[x]) <==> Leaves(s, DelConn(a, b), x)
  {
    var P := PeersOf(s.clients);
    RemoveKeeps(s.clients, a, b);
    assert Cnt(P, a, b) == Cnt(P, b, a) && PeersOk(P[x]);
    LastPeer(P[x], if x == a then b else a);
    hide PeersOk, Num, DropPeer;
  }

  /** Whatever the hardware answers, exactly these take a client out of the table. */
  lemma LeavesIff(s: State, e: Event, x: Key)
    requires PeerInv(PeersOf(s.clients)) && x in s.clients
    ensures x !in Step(s, e).clients <==> Leaves(s, e, x)
  {
    StepKeys(s, e);
    assert Step(s, e).clients.Keys == KeysAfter(s, e);
    hide Step, RemoveConnection, PeerInv, Idle;
    if e.DelConn? && e.src in s.clients && e.dst in s.clients {
      if e.src == e.dst { NoSelfLast(s.clients, e.src); }
      else if x == e.src || x == e.dst { DelLeaves(s, e.src, e.dst, x); }
    }
  }

  lemma NoSelfLast(cs: map<Key, Client>, a: Key)
    requires PeerInv(PeersOf(cs)) && a in cs
    ensures !RemoveConnection(cs, a, a).1
  {
    assert Cnt(PeersOf(cs), a, a) == 0;
    NumPositive(cs[a].peers, a);
    DropAbsent(cs[a].peers, a);
  }

  // ---- Nobody idle stays ------------------------------------------------------------------

  predicate NoIdle(cs: map<Key, Client>) { forall x :: x in cs ==> !Idle(cs[x]) }

  /** The handlers that clear the peer list of client k: a disconnect, and a changed MAC. */
  predicate Forgets(s: State, e: Event, k: Key) {
    k in s.clients && match e
    case Disconnect(x) => x == k
    case Active(x, mac, iface) => x == k && iface in s.rules.ifaces && s.clients[k].active && s.clients[k].mac != mac
    case _ => false
  }

  /** x is inactive, awake and connected to one client alone, whose peers the event clears. */
  predicate Strands(s: State, e: Event, x: Key) {
    && x in s.clients && Dormant(s.clients[x])
    && |s.clients[x].peers| == 1 && Forgets(s, e, s.clients[x].peers[0].ptr)
  }

  lemma EmptyIff(P: PeerTable, x: Key)
    requires PeerInv(P) && x in P
    ensures P[x] == [] <==> forall y :: Cnt(P, x, y) == 0
  {
    assert PeersOk(P[x]);
    if P[x] != [] { assert Cnt(P, x, P[x][0].ptr) > 0; }
  }

  lemma OnlyIff(P: PeerTable, x: Key, k: Key)
    requires PeerInv(P) && x in P && P[x] != []
    ensures |P[x]| == 1 && P[x][0].ptr == k <==> forall y :: y != k ==> Cnt(P, x, y) == 0
  {
    var ps := P[x];
    assert PeersOk(ps) && Cnt(P, x, ps[0].ptr) > 0;
    if |ps| > 1 {
      assert PeersOk(ps[1..]) && Num(ps[1..], ps[1].ptr) > 0;
      assert ps[1].ptr != ps[0].ptr && Cnt(P, x, ps[1].ptr) > 0;
    }
    forall y | |ps| == 1 ensures Cnt(P, x, y) == if y == ps[0].ptr then ps[0].num else 0 {
      assert Num(ps[1..], y) == 0;
    }
  }

  /** Who is dormant after an event: those who were, and the one that an inactive event names,
      which has peers or is gone. */
  ghost predicate DormantKept(s: State, e: Event, cs: map<Key, Client>) {
    forall x :: x in cs && Dormant(cs[x]) ==>
      (x in s.clients && Dormant(s.clients[x])) || (e == Inactive(x) && cs[x].peers != [])
  }

  lemma SameDormant(cs: map<Key, Client>, cs': map<Key, Client>)
    requires Shapes(cs) == Shapes(cs') || Bare(cs) == Bare(cs')
    ensures cs.Keys == cs'.Keys && forall x :: x in cs ==> Dormant(cs[x]) == Dormant(cs'[x])
  {
    if Shapes(cs) == Shapes(cs') {
      SameInfo(cs, cs');
      forall x | x in cs ensures Dormant(cs[x]) == Dormant(cs'[x]) {
        assert Dormant(cs[x].(links := [])) == Dormant(cs'[x].(links := []));
      }
    } else {
      SameLinks(cs, cs');
      forall x | x in cs ensures Dormant(cs[x]) == Dormant(cs'[x]) {
        assert Dormant(cs[x].(peers := [])) == Dormant(cs'[x].(peers := []));
      }
    }
  }

  lemma ActiveDormant(s: State, e: Event)
    requires e.Active?
    ensures DormantKept(s, e, Step(s, e).clients)
    ensures forall x :: x != e.k && x in s.clients ==> x in Step(s, e).clients && Dormant(Step(s, e).clients[x]) == Dormant(s.clients[x])
    ensures LooksAwake(s, e)
  {
    hide TurnOff, ClearPeers, CheckPotential, Shapes, Bare;
    var k := e.k;
    if e.iface in s.rules.ifaces && k in s.clients {
      if s.clients[k].active {
        var s1 := TurnOff(s, k, s.clients[k].links).0;
        var s2 := ClearPeers(s1, k, s1.clients[k].peers).0;
        SameDormant(s.clients, s1.clients);
        SameDormant(s1.clients, s2.clients);
      } else {
        var s1 := SetInfo(s, k, e.mac, e.iface);
        SameDormant(s1.clients, Step(s, e).clients);
      }
    }
  }

  /** The client an accepted active event names is active afterwards. */
  predicate LooksAwake(s: State, e: Event)
    requires e.Active?
  {
    e.iface in s.rules.ifaces ==> e.k in Step(s, e).clients && !Dormant(Step(s, e).clients[e.k])
  }

  lemma DisconnectDormant(s: State, k: Key)
    ensures var cs := Step(s, Disconnect(k)).clients;
            && DormantKept(s, Disconnect(k), cs) && k !in cs
            && forall x :: x != k && x in s.clients ==> x in cs && Dormant(cs[x]) == Dormant(s.clients[x])
  {
    hide TurnOff, ClearPeers, Shapes, Bare;
    if k in s.clients {
      var s1 := TurnOff(s, k, s.clients[k].links).0;
      SameDormant(s.clients, s1.clients);
      SameDormant(s1.clients, ClearPeers(s1, k, s1.clients[k].peers).0.clients);
    }
  }

  lemma InactiveDormant(s: State, k: Key)
    ensures DormantKept(s, Inactive(k), Step(s, Inactive(k)).clients)
  {
    hide TurnOff, Shapes;
    if k in s.clients {
      SameDormant(s.clients, TurnOff(s, k, s.clients[k].links).0.clients);
    }
  }

  lemma PowerDormant(s: State, e: Event)
    requires e.IsPower()
    ensures DormantKept(s, e, Step(s, e).clients)
  {
    hide RemoveFlts, AddFlts, CheckPotential, Shapes;
    var k := e.k;
    if e.PowerRecover? && k in s.clients && !s.clients[k].active && s.clients[k].powersave {
      var (s1, ok) := AddFlts(s, k, 0);
      SameDormant(s.clients, s1.clients);
      if ok {
        var s2 := SetFlags(s1, k, true, false);
        SameDormant(s2.clients, CheckPotential(s2, k, s2.clients[k].peers).clients);
      }
    }
  }

  lemma NewDormant(s: State, a: Key, b: Key)
    ensures DormantKept(s, NewConn(a, b), Step(s, NewConn(a, b)).clients)
    ensures NoIdle(s.clients) ==> NoIdle(Step(s, NewConn(a, b)).clients)
  {
    if a !in s.clients || b !in s.clients { return; }
    hide HandleNewConn, AddConnection, Shapes, Bare;
    var cs, cs' := AddConnection(s.clients, a, b).0, HandleNewConn(s, a, b).clients;
    NewShapes(s, a, b);
    SameDormant(s.clients, cs);
    SameDormant(cs, cs');
    SameInfo(cs, cs');
    NewPeersStay(s.clients, a, b);
    forall x | x in cs' ensures cs'[x].peers == cs[x].peers {
      assert cs'[x].(links := []).peers == cs[x].(links := []).peers;
    }
  }

  lemma NewPeersStay(cs: map<Key, Client>, a: Key, b: Key)
    requires a in cs && b in cs
    ensures forall x :: x in cs && cs[x].peers != [] ==> AddConnection(cs, a, b).0[x].peers != []
  {
  }

  lemma DelDormant(s: State, a: Key, b: Key)
    ensures DormantKept(s, DelConn(a, b), Step(s, DelConn(a, b)).clients)
  {
    if a !in s.clients || b !in s.clients { return; }
    hide RemoveConnection, EraseByMode, Shapes, Bare;
    var (cs, last) := RemoveConnection(s.clients, a, b);
    SameDormant(s.clients, cs);
    SameDormant(cs, EraseByMode(s.(clients := cs), a, b).clients);
  }

  lemma StepDormant(s: State, e: Event)
    ensures DormantKept(s, e, Step(s, e).clients)
  {
    hide Step, DormantKept;
    match e
    case Active(_, _, _) => ActiveDormant(s, e);
    case Inactive(k) => InactiveDormant(s, k);
    case Disconnect(k) => DisconnectDormant(s, k);
    case PowerSave(_) => PowerDormant(s, e);
    case PowerRecover(_) => PowerDormant(s, e);
    case NewConn(a, b) => NewDormant(s, a, b);
    case DelConn(a, b) => DelDormant(s, a, b);
  }

  /** The ends of a connection that was the last between them are dropped when idle. */
  lemma DelDropsIdle(s: State, a: Key, b: Key, x: Key)
    requires PeerInv(PeersOf(s.clients)) && a in s.clients && b in s.clients && a != b
    requires Cnt(PeersOf(s.clients), a, b) == 1 && (x == a || x == b) && x in Step(s, DelConn(a, b)).clients
    ensures !Idle(Step(s, DelConn(a, b)).clients[x])
  {
    hide RemoveConnection, EraseByMode, PeersOk, Cnt, PeersOf, Shapes, Bare;
    RemoveKeeps(s.clients, a, b);
  }

  lemma DelLastIdle(s: State, a: Key, b: Key, x: Key, y: Key)
    requires PeerInv(PeersOf(s.clients)) && x in Step(s, DelConn(a, b)).clients
    requires Cnt(PeersOf(s.clients), x, y) > 0 && CntAfter(s, DelConn(a, b), x, y) == 0
    ensures !Idle(Step(s, DelConn(a, b)).clients[x])
  {
    hide Step, Idle, PeersOk;
    var P := PeersOf(s.clients);
    assert Cnt(P, x, y) == Cnt(P, y, x) && Cnt(P, x, x) == 0;
    DelDropsIdle(s, a, b, x);
  }

  /** Clearing k's peers takes k, and nobody else, out of the other clients' lists. */
  lemma ForgetCounts(s: State, e: Event, k: Key, x: Key)
    requires PeerInv(PeersOf(s.clients)) && Forgets(s, e, k) && x in s.clients && x != k
    ensures PeerInv(PeersOf(Step(s, e).clients)) && x in Step(s, e).clients
    ensures Dormant(Step(s, e).clients[x]) == Dormant(s.clients[x])
    ensures forall y :: Cnt(PeersOf(Step(s, e).clients), x, y) == if y == k then 0 else Cnt(PeersOf(s.clients), x, y)
  {
    StepFollows(s, e);
    if e.Disconnect? { DisconnectDormant(s, k); } else { ActiveDormant(s, e); }
    hide Step, PeersOk;
  }

  lemma StrandedIsIdle(s: State, e: Event, x: Key)
    requires PeerInv(PeersOf(s.clients)) && Strands(s, e, x)
    ensures x in Step(s, e).clients && Idle(Step(s, e).clients[x])
  {
    var k := s.clients[x].peers[0].ptr;
    PeerPointersLive(PeersOf(s.clients), x, s.clients[x].peers[0]);
    ForgetCounts(s, e, k, x);
    OnlyIff(PeersOf(s.clients), x, k);
    hide Step, PeerInv, Cnt;
    EmptyIff(PeersOf(Step(s, e).clients), x);
  }

  /** An idle client after an event of a table without one has lost a peer to it. */
  lemma IdleLost(s: State, e: Event, x: Key) returns (y: Key)
    requires PeerInv(PeersOf(s.clients)) && NoIdle(s.clients) && !e.NewConn?
    requires x in Step(s, e).clients && Idle(Step(s, e).clients[x])
    ensures x in s.clients && Dormant(s.clients[x])
    ensures y in s.clients && Cnt(PeersOf(s.clients), x, y) > 0 && CntAfter(s, e, x, y) == 0
  {
    StepDormant(s, e);
    StepFollows(s, e);
    var P, Q := PeersOf(s.clients), PeersOf(Step(s, e).clients);
    hide Step, PeersOk;
    assert P[x] == s.clients[x].peers != [] && Q[x] == [];
    y := P[x][0].ptr;
    PeerPointersLive(P, x, P[x][0]);
    assert Cnt(Q, x, y) == 0;
  }

  lemma IdleWasStranded(s: State, e: Event, x: Key)
    requires PeerInv(PeersOf(s.clients)) && NoIdle(s.clients)
    requires x in Step(s, e).clients && Idle(Step(s, e).clients[x])
    ensures Strands(s, e, x)
  {
    hide Step, PeersOf, Cnt, PeersOk;
    if e.NewConn? {
      NewDormant(s, e.src, e.dst);
    } else {
      var y := IdleLost(s, e, x);
      var P := PeersOf(s.clients);
      if e.DelConn? {
        DelLastIdle(s, e.src, e.dst, x, y);
      } else if e.Disconnect? {
        DisconnectDormant(s, e.k);
        StrandedBy(s, e, e.k, x);
      } else {
        ActiveDormant(s, e);
        StrandedBy(s, e, e.k, x);
      }
    }
  }

  lemma StrandedBy(s: State, e: Event, k: Key, x: Key)
    requires PeerInv(PeersOf(s.clients)) && NoIdle(s.clients) && Forgets(s, e, k) && x in s.clients && x != k
    requires Dormant(s.clients[x]) && Idle(Step(s, e).clients[x])
    ensures Strands(s, e, x)
  {
    ForgetCounts(s, e, k, x);
    hide Step, PeerInv, Cnt;
    var P, Q := PeersOf(s.clients), PeersOf(Step(s, e).clients);
    assert P[x] == s.clients[x].peers != [] && Q[x] == [];
    EmptyIff(Q, x);
    forall y | y != k ensures Cnt(P, x, y) == 0 {
      assert Cnt(Q, x, y) == 0;
    }
    OnlyIff(P, x, k);
  }

  /** No idle client stays in the table, unless a disconnect or a changed MAC takes an inactive
      client's last peer: whatever the hardware answers, an event keeps the table free of idle
      clients if and only if it does not do that to someone. */
  lemma NoIdleKeptIff(s: State, e: Event)
    requires PeerInv(PeersOf(s.clients)) && NoIdle(s.clients)
    ensures NoIdle(Step(s, e).clients) <==> forall x :: x in s.clients ==> !Strands(s, e, x)
  {
    hide Step, PeerInv, Strands, Idle;
    forall x | x in s.clients && Strands(s, e, x) ensures !NoIdle(Step(s, e).clients) {
      StrandedIsIdle(s, e, x);
    }
    forall x | x in Step(s, e).clients && Idle(Step(s, e).clients[x]) ensures x in s.clients && Strands(s, e, x) {
      IdleWasStranded(s, e, x);
      StrandedKnown(s, e, x);
    }
  }

  lemma StrandedKnown(s: State, e: Event, x: Key)
    requires Strands(s, e, x)
    ensures x in s.clients
  {
  }

  // ---- Failed installs are undone ----------------------------------------------------------

  predicate SameValid(t: Slots, t': Slots) {
    && t'.flt == t.flt && t'.numFlt == t.numFlt && |t'.hdr| == |t.hdr|
    && forall j :: 0 <= j < |t.hdr| ==> t'.hdr[j].valid == t.hdr[j].valid
  }

  /** Every valid header slot's handle is installed. */
  predicate ValidInstalled(r: Rules, i: IfaceId) {
    i in r.ifaces && forall j :: 0 <= j < |r.ifaces[i].hdr| && r.ifaces[i].hdr[j].valid ==> r.ifaces[i].hdr[j].hdl in r.hdrs
  }

  /** An install that fails at one call, and whose undo is not refused, leaves the hardware's
      headers and routes and every other interface as they were, and the peer's slots as valid
      as before if and only if the header add was not refused after its slot had been marked. */
  lemma InstallUndone(r: Rules, own: IfaceId, peer: IfaceId)
    requires own in r.ifaces && ValidInstalled(r, peer)
    requires Install(r, own, peer).1.None? && Install(r, own, peer).0.faults == r.faults + 1
    ensures var r' := Install(r, own, peer).0;
            && r'.hdrs == r.hdrs && r'.rts == r.rts && peer in r'.ifaces
            && (forall i :: i in r.ifaces && i != peer ==> i in r'.ifaces && r'.ifaces[i] == r.ifaces[i])
            && (SameValid(r.ifaces[peer], r'.ifaces[peer]) <==>
                  !(Reply0(r).RefusedLate? && FirstFree(r.ifaces[peer].hdr) < |r.ifaces[peer].hdr|))
  {
    var (r1, hdr) := AddHdr(r, peer);
    if hdr.None? {
      HdrRefused(r, peer);
    } else {
      HdrAdded(r, peer);
      hide AddHdr, DelHdr, AddFlt, SameValid, ValidInstalled;
      var (r2, rt) := AddRt(r1);
      if rt.None? {
        HdrUndone(r, peer, r2);
      } else {
        FltRefused(r2, own);
        HdrUndone(r, peer, DelRt(AddFlt(r2, own).0, rt.value).0);
      }
    }
  }

  lemma HdrRefused(r: Rules, i: IfaceId)
    requires i in r.ifaces && AddHdr(r, i).1.None?
    ensures var r' := AddHdr(r, i).0;
            && r'.hdrs == r.hdrs && r'.rts == r.rts && i in r'.ifaces
            && (forall k :: k in r.ifaces && k != i ==> k in r'.ifaces && r'.ifaces[k] == r.ifaces[k])
            && (SameValid(r.ifaces[i], r'.ifaces[i]) <==>
                  !(Reply0(r).RefusedLate? && FirstFree(r.ifaces[i].hdr) < |r.ifaces[i].hdr|))
  {
  }

  lemma HdrAdded(r: Rules, i: IfaceId)
    requires AddHdr(r, i).1.Some?
    ensures Reply0(r).Done? && AddHdr(r, i).0.faults == r.faults
  {
  }

  /** Deleting the header just added restores the hardware and the slot's validity. */
  lemma HdrUndone(r: Rules, i: IfaceId, r2: Rules)
    requires ValidInstalled(r, i) && AddHdr(r, i).1.Some?
    requires r2.ifaces == AddHdr(r, i).0.ifaces && r2.hdrs == AddHdr(r, i).0.hdrs
    requires DelHdr(r2, i, AddHdr(r, i).1.value).1
    ensures var r' := DelHdr(r2, i, AddHdr(r, i).1.value).0;
            && r'.hdrs == r.hdrs && r'.rts == r2.rts && i in r'.ifaces && SameValid(r.ifaces[i], r'.ifaces[i])
            && forall k :: k in r.ifaces && k != i ==> k in r'.ifaces && r'.ifaces[k] == r.ifaces[k]
  {
    var j := FirstFree(r.ifaces[i].hdr);
    var t := r2.ifaces[i].hdr;
    assert t[j].hdl == AddHdr(r, i).1.value;
    assert forall k :: 0 <= k < j ==> t[k].hdl != t[j].hdl;
  }

  lemma FltRefused(r: Rules, own: IfaceId)
    ensures AddFlt(r, own).1.None? ==> AddFlt(r, own).0 == Failed(r)
  {
  }
}
