/** Which filter slots a power save frees, and that a recovery fills them again. */
module LanToLanPower {
  import opened Driver
  import opened LanRules
  import opened LanToLan
  import opened LanToLanLinks
  import opened LanToLanGraph
  import opened LanToLanSlots
  import opened LanToLanRuns
  import opened LanToLanLimits
  import opened LanToLanEffects

  // ---- The arcs of one client ----------------------------------------------------------------

  /** The arcs between a and a client of B, in both directions. */
  function Between(E: set<Arc>, a: Key, B: set<Key>): set<Arc> {
    set e | e in E && ((e.0 == a && e.1.ptr in B) || (e.1.ptr == a && e.0 in B))
  }

  function Ptrs(ls: seq<Link>): set<Key> { set l | l in ls :: l.ptr }

  /** In a simple graph a pair has one arc each way. */
  lemma PairArcs(L: LinkTable, pairs: nat, a: Key, l: Link)
    requires Sym(L, pairs) && SimpleT(L) && a in L && l in L[a]
    ensures Between(Arcs(L), a, {l.ptr}) == {(a, l), Rev(L, (a, l))}
    ensures Rev(L, (a, l)).0 == l.ptr != a && Rev(L, (a, l)).1.ptr == a
  {
    var E, b := Arcs(L), l.ptr;
    assert (a, l) in E;
    RevArc(L, pairs, (a, l));
    assert M(L, a, a) == 0 && M(L, a, b) <= 1 && M(L, b, a) <= 1;
    forall e | e in Between(E, a, {b}) ensures e == (a, l) || e == Rev(L, (a, l)) {
      if e.0 == a {
        OneEach(L[a], e.1, l);
      } else {
        OneEach(L[b], e.1, Rev(L, (a, l)).1);
      }
    }
  }

  lemma BetweenSplit(E: set<Arc>, a: Key, b: Key, B: set<Key>)
    ensures Between(E, a, {b} + B) == Between(E, a, {b}) + Between(E, a, B)
  {
  }

  lemma BetweenApart(E: set<Arc>, a: Key, b: Key, B: set<Key>)
    requires b !in B && b != a && a !in B
    ensures Between(E, a, {b}) !! Between(E, a, B)
  {
  }

  lemma PtrsSplit(ls: seq<Link>)
    requires ls != []
    ensures Ptrs(ls) == {ls[0].ptr} + Ptrs(ls[1..])
  {
    assert forall l :: l in ls <==> l == ls[0] || l in ls[1..];
  }

  // ---- The filter tables alone -----------------------------------------------------------------

  /** Each interface's valid filter slots hold the handles of its own clients' arcs in E. */
  ghost predicate FltTables(E: set<Arc>, F: IfaceMap, r: Rules) {
    forall i :: i in r.ifaces ==> FltTable(r.ifaces[i].flt, r.ifaces[i].numFlt, Flts(Out(E, F, i)))
  }

  /** Only validity and the counter of filter slots may differ. */
  ghost predicate SameRest(r: Rules, r': Rules) {
    && r'.ifaces.Keys == r.ifaces.Keys && r'.script == r.script && r'.hdrs == r.hdrs && r'.rts == r.rts
    && forall i :: i in r.ifaces ==> SameSlots(r.ifaces[i], r'.ifaces[i])
  }

  predicate SameSlots(t: Slots, t': Slots) {
    && t'.hdr == t.hdr && |t'.flt| == |t.flt|
    && forall j :: 0 <= j < |t.flt| ==> t'.flt[j].hdl == t.flt[j].hdl
  }

  lemma SameTwice(r: Rules, r1: Rules, r2: Rules)
    requires SameRest(r, r1) && SameRest(r1, r2)
    ensures SameRest(r, r2)
  {
    forall i | i in r.ifaces ensures SameSlots(r.ifaces[i], r2.ifaces[i]) {
      assert SameSlots(r.ifaces[i], r1.ifaces[i]) && SameSlots(r1.ifaces[i], r2.ifaces[i]);
    }
  }

  lemma OwnLess(E: set<Arc>, E': set<Arc>, F: IfaceMap)
    requires OwnHandles(E, F) && E' <= E
    ensures OwnHandles(E', F)
  {
  }

  /** An arc's filter rule is found and freed. */
  lemma DelFltArc(E: set<Arc>, F: IfaceMap, r: Rules, e: Arc)
    requires FltTables(E, F, r) && OwnHandles(E, F) && e in E && At(F, e.0) in r.ifaces && r.script(r.pos).Done?
    ensures var (r', ok) := DelFlt(r, At(F, e.0), e.1.hs.flt);
            ok && r'.pos == r.pos + 1 && FltTables(E - {e}, F, r') && SameRest(r, r')
  {
    var i, h := At(F, e.0), e.1.hs.flt;
    ArcHandles(E, F, e);
    FltDel(r.ifaces[i].flt, r.ifaces[i].numFlt, Flts(Out(E, F, i)), h);
    hide FltTable, Flts, Out, OwnHandles;
    var r' := DelFlt(r, i, h).0;
    forall k | k in r'.ifaces ensures FltTable(r'.ifaces[k].flt, r'.ifaces[k].numFlt, Flts(Out(E - {e}, F, k))) {
      DropArc(E, F, e, k);
    }
  }

  // ---- Power save --------------------------------------------------------------------------------

  /** One round frees the two filter rules of a pair. */
  lemma RemoveFltOneArcs(s: State, a: Key, l: Link, E: set<Arc>)
    requires FitGraph(s) && a in s.clients && l in s.clients[a].links
    requires var L := LinksOf(s.clients);
             E <= Arcs(L) && Between(Arcs(L), a, {l.ptr}) <= E && OwnHandles(E, IfacesOf(s.clients))
    requires FltTables(E, IfacesOf(s.clients), s.rules) && Accepts(s.rules, 2)
    ensures var (s1, ok) := RemoveFltOne(s, a, l); var L := LinksOf(s.clients);
            && ok && s1 == s.(rules := s1.rules) && s1.rules.pos == s.rules.pos + 2 && SameRest(s.rules, s1.rules)
            && FltTables(E - Between(Arcs(L), a, {l.ptr}), IfacesOf(s.clients), s1.rules)
  {
    var F, e1, e2 := IfacesOf(s.clients), (a, l), Rev(LinksOf(s.clients), (a, l));
    hide FitGraph, RemoveFltOne, FltTables, OwnHandles, DelFlt, SameRest, Arcs, Between, Rev, FindLink, At, LinksOf, IfacesOf;
    RoundArcs(s, a, l);
    AcceptsTwo(s.rules);
    TwoDeletes(s, a, l);
    DelFltArc(E, F, s.rules, e1);
    var r1 := DelFlt(s.rules, s.clients[a].iface, l.hs.flt).0;
    OwnLess(E, E - {e1}, F);
    SameScript(s.rules, r1);
    DelFltArc(E - {e1}, F, r1, e2);
    SameTwice(s.rules, r1, DelFlt(r1, s.clients[l.ptr].iface, e2.1.hs.flt).0);
    assert E - {e1} - {e2} == E - {e1, e2};
  }

  lemma AcceptsTwo(r: Rules)
    ensures Accepts(r, 2) ==> r.script(r.pos).Done? && r.script(r.pos + 1).Done?
  {
  }

  lemma SameScript(r: Rules, r': Rules)
    requires SameRest(r, r')
    ensures r'.script == r.script && r'.ifaces.Keys == r.ifaces.Keys
  {
  }

  /** The two arcs of one of a's pairs. */
  lemma RoundArcs(s: State, a: Key, l: Link)
    requires FitGraph(s) && a in s.clients && l in s.clients[a].links
    ensures var L, F := LinksOf(s.clients), IfacesOf(s.clients);
            var e1, e2 := (a, l), Rev(L, (a, l));
            && Between(Arcs(L), a, {l.ptr}) == {e1, e2} && e1 != e2 && l.ptr in s.clients
            && FindLink(s.clients[l.ptr].links, a) < |s.clients[l.ptr].links|
            && e2 == (l.ptr, s.clients[l.ptr].links[FindLink(s.clients[l.ptr].links, a)])
            && At(F, a) == s.clients[a].iface && At(F, l.ptr) == s.clients[l.ptr].iface
            && At(F, a) in s.rules.ifaces && At(F, l.ptr) in s.rules.ifaces
  {
    var L, F := LinksOf(s.clients), IfacesOf(s.clients);
    PairArcs(L, s.pairs, a, l);
    RevFound(L, s.pairs, a, l);
    assert F[a] in s.rules.ifaces && F[l.ptr] in s.rules.ifaces;
    hide Sym, SimpleT, CrossT, Between, Arcs, Rev, FindLink;
  }

  lemma TwoDeletes(s: State, a: Key, l: Link)
    requires a in s.clients && l.ptr in s.clients && FindLink(s.clients[l.ptr].links, a) < |s.clients[l.ptr].links|
    ensures var r1 := DelFlt(s.rules, s.clients[a].iface, l.hs.flt).0;
            var back := s.clients[l.ptr].links[FindLink(s.clients[l.ptr].links, a)];
            RemoveFltOne(s, a, l) == (s.(rules := DelFlt(r1, s.clients[l.ptr].iface, back.hs.flt).0), true)
  {
    hide DelFlt;
  }

  lemma RevFound(L: LinkTable, pairs: nat, a: Key, l: Link)
    requires Sym(L, pairs) && a in L && l in L[a]
    ensures l.ptr in L && FindLink(L[l.ptr], a) < |L[l.ptr]| && Rev(L, (a, l)) == (l.ptr, L[l.ptr][FindLink(L[l.ptr], a)])
  {
    MultIn(L[a], l);
    assert M(L, a, l.ptr) == M(L, l.ptr, a);
    MultFind(L[l.ptr], a);
  }

  /** The graph half of Fit. */
  ghost predicate FitGraph(s: State) {
    var L, F := LinksOf(s.clients), IfacesOf(s.clients);
    && L.Keys == F.Keys && (forall k :: k in F ==> F[k] in s.rules.ifaces)
    && Sym(L, s.pairs) && SimpleT(L) && CrossT(L, F)
  }

  predicate DistinctPtrs(ls: seq<Link>) { forall i, j :: 0 <= i < j < |ls| ==> ls[i].ptr != ls[j].ptr }

  /** What the loop needs of the links still to come: they are a's, each to another client, and
      their rules are all still there. */
  ghost predicate Pending(s: State, a: Key, todo: seq<Link>, E: set<Arc>) {
    && FitGraph(s) && a in s.clients && (forall l :: l in todo ==> l in s.clients[a].links) && DistinctPtrs(todo)
    && E <= Arcs(LinksOf(s.clients)) && Between(Arcs(LinksOf(s.clients)), a, Ptrs(todo)) <= E
    && OwnHandles(E, IfacesOf(s.clients)) && FltTables(E, IfacesOf(s.clients), s.rules)
  }

  lemma PendingNext(s: State, a: Key, todo: seq<Link>, E: set<Arc>, s1: State)
    requires Pending(s, a, todo, E) && todo != [] && s1 == s.(rules := s1.rules) && SameRest(s.rules, s1.rules)
    requires FltTables(E - Between(Arcs(LinksOf(s.clients)), a, {todo[0].ptr}), IfacesOf(s.clients), s1.rules)
    ensures var E1, A := E - Between(Arcs(LinksOf(s.clients)), a, {todo[0].ptr}), Arcs(LinksOf(s.clients));
            Pending(s1, a, todo[1..], E1) && E1 - Between(A, a, Ptrs(todo[1..])) == E - Between(A, a, Ptrs(todo))
  {
    var A, b, B := Arcs(LinksOf(s.clients)), todo[0].ptr, Ptrs(todo[1..]);
    PtrsSplit(todo);
    BetweenSplit(A, a, b, B);
    FirstApart(s, a, todo);
    BetweenApart(A, a, b, B);
    OwnLess(E, E - Between(A, a, {b}), IfacesOf(s.clients));
    hide Between, Arcs, FltTables, OwnHandles, Sym, SimpleT, CrossT, Ptrs;
  }

  lemma FirstApart(s: State, a: Key, todo: seq<Link>)
    requires FitGraph(s) && a in s.clients && todo != [] && (forall l :: l in todo ==> l in s.clients[a].links) && DistinctPtrs(todo)
    ensures todo[0].ptr !in Ptrs(todo[1..]) && todo[0].ptr != a && a !in Ptrs(todo[1..]) && DistinctPtrs(todo[1..])
  {
    var L := LinksOf(s.clients);
    forall l | l in todo ensures l.ptr != a {
      MultIn(L[a], l);
      assert M(L, a, a) == 0;
    }
    hide Sym, SimpleT, CrossT;
  }

  /** remove_flt_rules' loop frees the two filter rules of every pair of its list. */
  lemma {:induction false} RemoveFltsArcs(s: State, a: Key, todo: seq<Link>, E: set<Arc>)
    requires Pending(s, a, todo, E) && Accepts(s.rules, 2 * |todo|)
    ensures var (s', ok) := RemoveFlts(s, a, todo);
            && ok && s' == s.(rules := s'.rules) && SameRest(s.rules, s'.rules)
            && FltTables(E - Between(Arcs(LinksOf(s.clients)), a, Ptrs(todo)), IfacesOf(s.clients), s'.rules)
    decreases |todo|
  {
    if todo == [] {
      assert E - Between(Arcs(LinksOf(s.clients)), a, Ptrs(todo)) == E;
      return;
    }
    PtrsSplit(todo);
    BetweenSplit(Arcs(LinksOf(s.clients)), a, todo[0].ptr, Ptrs(todo[1..]));
    RemoveFltOneArcs(s, a, todo[0], E);
    hide RemoveFltOne, Between, Arcs, FltTables, OwnHandles, FitGraph, Ptrs, SameRest, Pending, DistinctPtrs;
    var s1 := RemoveFltOne(s, a, todo[0]).0;
    PendingNext(s, a, todo, E, s1);
    RemoveFltsArcs(s1, a, todo[1..], E - Between(Arcs(LinksOf(s.clients)), a, {todo[0].ptr}));
    SameTwice(s.rules, s1.rules, RemoveFlts(s1, a, todo[1..]).0.rules);
  }

  lemma {:induction false} ManyCount(ls: seq<Link>, i: nat, j: nat)
    requires i < j < |ls| && ls[i].ptr == ls[j].ptr
    ensures Mult(ls, ls[j].ptr) >= 2
  {
    if i == 0 { MultIn(ls[1..], ls[1..][j - 1]); } else { ManyCount(ls[1..], i - 1, j - 1); }
  }

  lemma SimpleDistinct(L: LinkTable, a: Key)
    requires SimpleT(L) && a in L
    ensures DistinctPtrs(L[a])
  {
    forall i, j | 0 <= i < j < |L[a]| ensures L[a][i].ptr != L[a][j].ptr {
      if L[a][i].ptr == L[a][j].ptr { ManyCount(L[a], i, j); }
      assert M(L, a, L[a][j].ptr) <= 1;
    }
  }

  lemma StartsPending(s: State, k: Key)
    requires FitS(s) && k in s.clients
    ensures Pending(s, k, s.clients[k].links, Arcs(LinksOf(s.clients)))
  {
    hide Sym, SimpleT, CrossT;
    SimpleDistinct(LinksOf(s.clients), k);
    hide DistinctPtrs, FltTable, HdrTable, OwnHandles;
  }

  /** h is the filter handle, on interface i, of a link that k owns or that points at k. */
  ghost predicate Silences(cs: map<Key, Client>, k: Key, i: IfaceId, h: Handle) {
    exists x, l :: x in cs && l in cs[x].links && (x == k || l.ptr == k) && cs[x].iface == i && l.hs.flt == h
  }

  lemma SilencesArcs(s: State, k: Key, i: IfaceId, h: Handle)
    requires FitGraph(s) && k in s.clients
    ensures var L, F := LinksOf(s.clients), IfacesOf(s.clients);
            Silences(s.clients, k, i, h) <==> h in Flts(Out(Between(Arcs(L), k, Ptrs(s.clients[k].links)), F, i))
  {
    var L, F, cs := LinksOf(s.clients), IfacesOf(s.clients), s.clients;
    var S := Between(Arcs(L), k, Ptrs(cs[k].links));
    if Silences(cs, k, i, h) {
      var x, l :| x in cs && l in cs[x].links && (x == k || l.ptr == k) && cs[x].iface == i && l.hs.flt == h;
      assert l in L[x] && (x, l) in Arcs(L);
      if x != k { RevArc(L, s.pairs, (x, l)); assert x in Ptrs(cs[k].links); }
      assert (x, l) in Out(S, F, i);
    }
    if h in Flts(Out(S, F, i)) {
      var e :| e in Out(S, F, i) && e.1.hs.flt == h;
      assert e.0 in cs && e.1 in cs[e.0].links;
    }
  }

  lemma ValidIff(t: seq<Slot>, n: nat, H: set<Handle>)
    requires FltTable(t, n, H)
    ensures forall j :: 0 <= j < |t| ==> (t[j].valid <==> t[j].hdl in H)
  {
  }

  lemma FltsLess(E: set<Arc>, S: set<Arc>, F: IfaceMap, i: IfaceId, h: Handle)
    requires OwnHandles(E, F) && S <= E
    ensures h in Flts(Out(E - S, F, i)) <==> h in Flts(Out(E, F, i)) && h !in Flts(Out(S, F, i))
  {
    if h in Flts(Out(E, F, i)) && h !in Flts(Out(S, F, i)) {
      var e :| e in Out(E, F, i) && e.1.hs.flt == h;
      assert e in Out(E - S, F, i);
    }
  }

  /** One interface's filter slots lose the rules of k's pairs and nothing else. */
  ghost predicate Freed(cs: map<Key, Client>, k: Key, i: IfaceId, t: Slots, t': Slots) {
    && t'.hdr == t.hdr && |t'.flt| == |t.flt| && t'.numFlt == CountValid(t'.flt)
    && forall j :: 0 <= j < |t.flt| ==>
         t'.flt[j] == Slot(t.flt[j].hdl, t.flt[j].valid && !Silences(cs, k, i, t.flt[j].hdl))
  }

  lemma FreedAt(s: State, k: Key, r': Rules, i: IfaceId)
    requires FitS(s) && k in s.clients && SameRest(s.rules, r') && i in s.rules.ifaces
    requires FltTables(Arcs(LinksOf(s.clients)) - Between(Arcs(LinksOf(s.clients)), k, Ptrs(s.clients[k].links)), IfacesOf(s.clients), r')
    ensures Freed(s.clients, k, i, s.rules.ifaces[i], r'.ifaces[i])
  {
    var E, F := Arcs(LinksOf(s.clients)), IfacesOf(s.clients);
    var S := Between(E, k, Ptrs(s.clients[k].links));
    var t, t' := s.rules.ifaces[i], r'.ifaces[i];
    assert SameSlots(t, t');
    assert FltTable(t.flt, t.numFlt, Flts(Out(E, F, i))) && FltTable(t'.flt, t'.numFlt, Flts(Out(E - S, F, i)));
    ValidIff(t.flt, t.numFlt, Flts(Out(E, F, i)));
    ValidIff(t'.flt, t'.numFlt, Flts(Out(E - S, F, i)));
    hide Arcs, Between, Flts, Out, Sym, SimpleT, CrossT, OwnHandles, HdrTable, Silences, CountValid, ValidHandles, Ptrs;
    BetweenIn(E, k, Ptrs(s.clients[k].links));
    forall j | 0 <= j < |t.flt|
      ensures t'.flt[j].valid == (t.flt[j].valid && !Silences(s.clients, k, i, t.flt[j].hdl))
    {
      FltsLess(E, S, F, i, t.flt[j].hdl);
      SilencesArcs(s, k, i, t.flt[j].hdl);
    }
  }

  lemma BetweenIn(E: set<Arc>, a: Key, B: set<Key>)
    ensures Between(E, a, B) <= E
  {
  }

  /** When slots and links agree and the next two calls per link are carried out, a power save
      frees exactly the filter rules of the links that the client owns or that point at it, on
      both ends; headers, routes and links stay, and the client is asleep. */
  lemma PowerSaveFrees(s: State, k: Key)
    requires FitS(s) && k in s.clients && Accepts(s.rules, 2 * |s.clients[k].links|)
    ensures var s' := Step(s, PowerSave(k));
            && s'.clients == s.clients[k := s.clients[k].(active := false, powersave := true)] && s'.pairs == s.pairs
            && s'.rules.hdrs == s.rules.hdrs && s'.rules.rts == s.rules.rts && s'.rules.ifaces.Keys == s.rules.ifaces.Keys
            && forall i :: i in s.rules.ifaces ==> Freed(s.clients, k, i, s.rules.ifaces[i], s'.rules.ifaces[i])
  {
    hide FitS, RemoveFlts, Between, Arcs, Ptrs, FltTables, Pending, Freed, LinksOf, IfacesOf;
    StartsPending(s, k);
    RemoveFltsArcs(s, k, s.clients[k].links, Arcs(LinksOf(s.clients)));
    var r' := RemoveFlts(s, k, s.clients[k].links).0.rules;
    forall i | i in s.rules.ifaces ensures Freed(s.clients, k, i, s.rules.ifaces[i], r'.ifaces[i]) { FreedAt(s, k, r', i); }
  }

  // ---- Power recovery --------------------------------------------------------------------------

  /** No two arcs of one interface share a filter handle. */
  ghost predicate FltOwn(E: set<Arc>, F: IfaceMap) {
    forall e, f :: e in E && f in E && e != f && At(F, e.0) == At(F, f.0) ==> e.1.hs.flt != f.1.hs.flt
  }

  /** A free slot takes a new arc's filter rule. */
  lemma AddFltArc(E: set<Arc>, F: IfaceMap, r: Rules, e: Arc)
    requires FltTables(E, F, r) && FltOwn(E, F) && At(F, e.0) in r.ifaces && r.script(r.pos).Done?
    requires |Flts(Out(E, F, At(F, e.0)))| < MAX_OFFLOAD_PAIR
    requires AddFlt(r, At(F, e.0)).1.Some? ==> e.1.hs.flt == AddFlt(r, At(F, e.0)).1.value
    ensures var (r', h) := AddFlt(r, At(F, e.0));
            h.Some? && r'.pos == r.pos + 1 && FltTables(E + {e}, F, r') && FltOwn(E + {e}, F) && SameRest(r, r')
  {
    var i := At(F, e.0);
    AddFltOne(r, i, Flts(Out(E, F, i)));
    OwnMore(E, F, e);
    hide AddFlt, FltTable, Flts, Out, FltOwn, SameSlots;
    var r' := AddFlt(r, i).0;
    forall k | k in r'.ifaces ensures FltTable(r'.ifaces[k].flt, r'.ifaces[k].numFlt, Flts(Out(E + {e}, F, k))) {
      AddArc(E, F, e, k);
    }
  }

  lemma AddFltOne(r: Rules, i: IfaceId, H: set<Handle>)
    requires i in r.ifaces && FltTable(r.ifaces[i].flt, r.ifaces[i].numFlt, H) && |H| < MAX_OFFLOAD_PAIR
    requires r.script(r.pos).Done?
    ensures var (r', h) := AddFlt(r, i);
            && h.Some? && h.value !in H && r'.pos == r.pos + 1 && SameRest(r, r')
            && FltTable(r'.ifaces[i].flt, r'.ifaces[i].numFlt, H + {h.value})
            && forall k :: k in r.ifaces && k != i ==> r'.ifaces[k] == r.ifaces[k]
  {
    FltAdd(r.ifaces[i].flt, r.ifaces[i].numFlt, H);
    hide FltTable, FirstFree, SameRest;
    AddFltSame(r, i);
  }

  lemma AddFltSame(r: Rules, i: IfaceId)
    requires i in r.ifaces
    ensures SameRest(r, AddFlt(r, i).0)
  {
    hide FirstFree;
  }

  lemma OwnMore(E: set<Arc>, F: IfaceMap, e: Arc)
    requires FltOwn(E, F)
    ensures e.1.hs.flt !in Flts(Out(E, F, At(F, e.0))) ==> FltOwn(E + {e}, F)
  {
    if e.1.hs.flt !in Flts(Out(E, F, At(F, e.0))) {
      forall f | f in E && At(F, f.0) == At(F, e.0) ensures f.1.hs.flt != e.1.hs.flt {
        assert f in Out(E, F, At(F, e.0));
      }
    }
  }

  /** The arcs whose filter rules are in place while a's links from the i-th on wait for theirs. */
  ghost function InPlace(L: LinkTable, a: Key, i: nat): set<Arc>
    requires a in L && i <= |L[a]|
  {
    Arcs(L) - Between(Arcs(L), a, Ptrs(L[a][i..]))
  }

  ghost predicate Refilling(s: State, a: Key, i: nat) {
    && FitGraph(s) && a in s.clients && i <= |s.clients[a].links|
    && FltTables(InPlace(LinksOf(s.clients), a, i), IfacesOf(s.clients), s.rules)
    && FltOwn(InPlace(LinksOf(s.clients), a, i), IfacesOf(s.clients))
  }

  /** An arc that is not in place leaves room on its interface. */
  lemma RoomFor(L: LinkTable, F: IfaceMap, pairs: nat, E: set<Arc>, e: Arc)
    requires Sym(L, pairs) && SimpleT(L) && CrossT(L, F) && E <= Arcs(L) && e in Arcs(L) && e !in E
    ensures |Flts(Out(E, F, At(F, e.0)))| < MAX_OFFLOAD_PAIR
  {
    var i := At(F, e.0);
    Roomy(L, F, pairs, i);
    HandleCards(Out(E, F, i));
    SubsetCard(Out(E, F, i) + {e}, Out(Arcs(L), F, i));
  }

  function Reflt(l: Link, h: Handle): Link { l.(hs := l.hs.(flt := h)) }

  /** Changing one link's filter handle changes one arc. */
  lemma RefltArcs(L: LinkTable, a: Key, i: nat, h: Handle)
    requires SimpleT(L) && a in L && i < |L[a]|
    ensures Arcs(L[a := SetFlt(L[a], i, h)]) == Arcs(L) - {(a, L[a][i])} + {(a, Reflt(L[a][i], h))}
  {
    var ls, us := L[a], SetFlt(L[a], i, h);
    var Q := L[a := us];
    SimpleDistinct(L, a);
    assert us[i] == Reflt(ls[i], h) && forall p :: 0 <= p < |ls| && p != i ==> us[p] == ls[p];
    forall l | l in ls && l != ls[i] ensures l in us {
      var p :| 0 <= p < |ls| && ls[p] == l;
      assert us[p] == l;
    }
    forall l | l in us && l != us[i] ensures l in ls && l != ls[i] {
      var p :| 0 <= p < |us| && us[p] == l;
      assert ls[p] == l && ls[p].ptr != ls[i].ptr;
    }
    forall e ensures e in Arcs(Q) <==> e in Arcs(L) - {(a, ls[i])} + {(a, us[i])} {
      if e.0 == a { assert (a, e.1) == e; }
    }
  }

  lemma SimplePtrs(L: LinkTable, Q: LinkTable, F: IfaceMap, pairs: nat)
    requires SamePtrs(L, Q) && Sym(L, pairs) && SimpleT(L) && CrossT(L, F)
    ensures Sym(Q, pairs) && SimpleT(Q) && CrossT(Q, F)
  {
    hide SamePtrs, Sym, M;
    PtrsSym(L, Q, pairs);
  }

  /** The tables after a's i-th link and its reverse, the j-th of b, got new filter handles. */
  function Refilled(L: LinkTable, a: Key, i: nat, b: Key, j: nat, h1: Handle, h2: Handle): LinkTable
    requires a in L && i < |L[a]| && b in L && b != a && j < |L[b]|
  {
    L[a := SetFlt(L[a], i, h1)][b := SetFlt(L[b], j, h2)]
  }

  lemma RefilledArcs(L: LinkTable, a: Key, i: nat, b: Key, j: nat, h1: Handle, h2: Handle)
    requires SimpleT(L) && a in L && i < |L[a]| && b in L && b != a && j < |L[b]|
    ensures Arcs(Refilled(L, a, i, b, j, h1, h2))
         == Arcs(L) - {(a, L[a][i]), (b, L[b][j])} + {(a, Reflt(L[a][i], h1)), (b, Reflt(L[b][j], h2))}
    ensures SamePtrs(L, Refilled(L, a, i, b, j, h1, h2))
  {
    RefltArcs(L, a, i, h1);
    var L1 := L[a := SetFlt(L[a], i, h1)];
    forall x, y ensures M(L1, x, y) <= 1 {
      assert M(L, x, y) <= 1;
      if x == a { MultPtrs(L1[a], L[a], y); }
    }
    RefltArcs(L1, b, j, h2);
    hide Arcs, Mult;
    assert (b, L[b][j]) != (a, Reflt(L[a][i], h1));
  }

  /** One round puts the pair's two arcs in place. */
  lemma InPlaceNext(L: LinkTable, pairs: nat, a: Key, i: nat, b: Key, j: nat, h1: Handle, h2: Handle)
    requires Sym(L, pairs) && SimpleT(L) && a in L && i < |L[a]| && b == L[a][i].ptr && b in L && b != a
    requires j == FindLink(L[b], a) < |L[b]|
    ensures var L2 := Refilled(L, a, i, b, j, h1, h2);
            && a in L2 && |L2[a]| == |L[a]|
            && InPlace(L2, a, i + 1) == InPlace(L, a, i) + {(a, Reflt(L[a][i], h1))} + {(b, Reflt(L[b][j], h2))}
            && (a, L[a][i]) in Arcs(L) && (a, L[a][i]) !in InPlace(L, a, i)
            && (b, L[b][j]) in Arcs(L) && (b, L[b][j]) !in InPlace(L, a, i)
  {
    var l, m, B := L[a][i], L[b][j], Ptrs(L[a][i + 1..]);
    var A, A2 := Arcs(L), Arcs(Refilled(L, a, i, b, j, h1, h2));
    hide Arcs, Rev, Sym, SimpleT, Ptrs, SamePtrs, Between, FindLink, InPlace;
    RefilledArcs(L, a, i, b, j, h1, h2);
    PairArcs(L, pairs, a, l);
    RevFound(L, pairs, a, l);
    LaterApart(L, pairs, a, i);
    InPlaceIs(L, a, i);
    LaterIs(L, a, i, b, j, h1, h2);
    BetweenSplit(A, a, b, B);
    BetweenSame(A, A2, a, b, B, l, m, Reflt(l, h1), Reflt(m, h2));
    BetweenApart(A, a, b, B);
    BetweenIn(A, a, {b});
    SetNext(A, A2, Between(A, a, B), (a, l), (b, m), (a, Reflt(l, h1)), (b, Reflt(m, h2)));
  }

  lemma InPlaceIs(L: LinkTable, a: Key, i: nat)
    requires a in L && i < |L[a]|
    ensures InPlace(L, a, i) == Arcs(L) - Between(Arcs(L), a, {L[a][i].ptr} + Ptrs(L[a][i + 1..]))
  {
    assert L[a][i..][1..] == L[a][i + 1..];
    PtrsSplit(L[a][i..]);
  }

  lemma LaterIs(L: LinkTable, a: Key, i: nat, b: Key, j: nat, h1: Handle, h2: Handle)
    requires a in L && i < |L[a]| && b in L && b != a && j < |L[b]|
    ensures var L2 := Refilled(L, a, i, b, j, h1, h2);
            && a in L2 && |L2[a]| == |L[a]|
            && InPlace(L2, a, i + 1) == Arcs(L2) - Between(Arcs(L2), a, Ptrs(L[a][i + 1..]))
  {
    assert Refilled(L, a, i, b, j, h1, h2)[a][i + 1..] == L[a][i + 1..];
  }

  lemma SetNext(A: set<Arc>, A2: set<Arc>, Y: set<Arc>, e1: Arc, e2: Arc, f1: Arc, f2: Arc)
    requires e1 in A && e2 in A && A2 == A - {e1, e2} + {f1, f2} && f1 !in Y && f2 !in Y
    ensures A2 - Y == A - ({e1, e2} + Y) + {f1} + {f2}
    ensures e1 !in A - ({e1, e2} + Y) && e2 !in A - ({e1, e2} + Y)
  {
  }

  lemma LaterApart(L: LinkTable, pairs: nat, a: Key, i: nat)
    requires Sym(L, pairs) && SimpleT(L) && a in L && i < |L[a]|
    ensures L[a][i].ptr !in Ptrs(L[a][i + 1..]) && a !in Ptrs(L[a][i + 1..])
  {
    SimpleDistinct(L, a);
    forall l | l in L[a][i + 1..] ensures l.ptr != L[a][i].ptr && l.ptr != a {
      var p :| 0 <= p < |L[a][i + 1..]| && L[a][i + 1..][p] == l;
      assert L[a][i + 1 + p] == l;
      MultIn(L[a], l);
      assert M(L, a, a) == 0;
    }
  }

  /** Arcs of the pair {a, b} do not matter for pairs of a with others. */
  lemma BetweenSame(A: set<Arc>, A2: set<Arc>, a: Key, b: Key, B: set<Key>, l: Link, m: Link, l': Link, m': Link)
    requires b !in B && a !in B && l.ptr == l'.ptr == b && m.ptr == m'.ptr == a
    requires A2 == A - {(a, l), (b, m)} + {(a, l'), (b, m')}
    ensures Between(A2, a, B) == Between(A, a, B)
    ensures (a, l') !in Between(A, a, B) && (b, m') !in Between(A, a, B)
  {
  }

  lemma TwoAdds(s: State, a: Key, i: nat)
    requires a in s.clients && i < |s.clients[a].links|
    requires var b := s.clients[a].links[i].ptr;
             b in s.clients && b != a && FindLink(s.clients[b].links, a) < |s.clients[b].links|
    requires var (r1, h1) := AddFlt(s.rules, s.clients[a].iface);
             h1.Some? && AddFlt(r1, s.clients[s.clients[a].links[i].ptr].iface).1.Some?
    ensures var b := s.clients[a].links[i].ptr; var j := FindLink(s.clients[b].links, a);
            var (r1, h1) := AddFlt(s.rules, s.clients[a].iface);
            var (r2, h2) := AddFlt(r1, s.clients[b].iface);
            var (s1, ok) := AddFltRound(s, a, i);
            && ok && s1.rules == r2 && s1.pairs == s.pairs
            && LinksOf(s1.clients) == Refilled(LinksOf(s.clients), a, i, b, j, h1.value, h2.value)
  {
    hide AddFlt, FindLink;
    var b := s.clients[a].links[i].ptr;
    var h1 := AddFlt(s.rules, s.clients[a].iface).1;
    var cs1 := SetLinks(s.clients, a, SetFlt(s.clients[a].links, i, h1.value));
    assert cs1[b] == s.clients[b];
  }

  /** Two free slots, on the two interfaces of a pair, take its filter rules. */
  lemma AddTwoArcs(E: set<Arc>, F: IfaceMap, r: Rules, e: Arc, f: Arc)
    requires FltTables(E, F, r) && FltOwn(E, F) && Accepts(r, 2)
    requires At(F, e.0) in r.ifaces && At(F, f.0) in r.ifaces && At(F, e.0) != At(F, f.0)
    requires |Flts(Out(E, F, At(F, e.0)))| < MAX_OFFLOAD_PAIR && |Flts(Out(E, F, At(F, f.0)))| < MAX_OFFLOAD_PAIR
    ensures var (r1, h1) := AddFlt(r, At(F, e.0)); var (r2, h2) := AddFlt(r1, At(F, f.0));
            && h1.Some? && h2.Some? && r2.pos == r.pos + 2 && SameRest(r, r2)
            && (e.1.hs.flt == h1.value && f.1.hs.flt == h2.value ==> FltTables(E + {e} + {f}, F, r2) && FltOwn(E + {e} + {f}, F))
  {
    hide FltTables, FltOwn, AddFlt, Flts, Out, SameRest;
    AcceptsTwo(r);
    var (r1, h1) := AddFlt(r, At(F, e.0));
    var e' := if h1.Some? then (e.0, Reflt(e.1, h1.value)) else e;
    AddFltArc(E, F, r, e');
    SameScript(r, r1);
    AddArc(E, F, e', At(F, f.0));
    var (r2, h2) := AddFlt(r1, At(F, f.0));
    AddFltArc(E + {e'}, F, r1, if h2.Some? then (f.0, Reflt(f.1, h2.value)) else f);
    SameTwice(r, r1, r2);
  }

  lemma RefillRules(s: State, a: Key, i: nat)
    requires Refilling(s, a, i) && i < |s.clients[a].links| && Accepts(s.rules, 2)
    ensures var F, l := IfacesOf(s.clients), s.clients[a].links[i]; var b := l.ptr;
            && b in s.clients && b != a && FindLink(s.clients[b].links, a) < |s.clients[b].links|
            && var m := s.clients[b].links[FindLink(s.clients[b].links, a)];
            && var (r1, h1) := AddFlt(s.rules, s.clients[a].iface);
            && var (r2, h2) := AddFlt(r1, s.clients[b].iface);
            && h1.Some? && h2.Some? && r2.pos == s.rules.pos + 2 && SameRest(s.rules, r2)
            && var E2 := InPlace(LinksOf(s.clients), a, i) + {(a, Reflt(l, h1.value))} + {(b, Reflt(m, h2.value))};
            && FltTables(E2, F, r2) && FltOwn(E2, F)
  {
    var L, F, l := LinksOf(s.clients), IfacesOf(s.clients), s.clients[a].links[i];
    var b, E := l.ptr, InPlace(LinksOf(s.clients), a, i);
    RoundArcs(s, a, l);
    var j := FindLink(L[b], a);
    PairApart(L, F, s.pairs, a, l);
    InPlaceNext(L, s.pairs, a, i, b, j, 0, 0);
    RoomFor(L, F, s.pairs, E, (a, l));
    RoomFor(L, F, s.pairs, E, (b, L[b][j]));
    hide FltTables, FltOwn, AddFlt, Flts, Out, SameRest, Arcs, InPlace, Between, Rev, Sym, SimpleT, CrossT, FindLink, Accepts;
    var (r1, h1) := AddFlt(s.rules, s.clients[a].iface);
    var h2 := AddFlt(r1, s.clients[b].iface).1;
    AddTwoArcs(E, F, s.rules, (a, if h1.Some? then Reflt(l, h1.value) else l), (b, if h2.Some? then Reflt(L[b][j], h2.value) else L[b][j]));
  }

  lemma PairApart(L: LinkTable, F: IfaceMap, pairs: nat, a: Key, l: Link)
    requires Sym(L, pairs) && CrossT(L, F) && a in L && l in L[a]
    ensures At(F, a) != At(F, l.ptr) && l.ptr != a
  {
    MultIn(L[a], l);
    assert M(L, a, l.ptr) > 0;
    assert M(L, a, a) == 0;
  }

  lemma RefillGraph(s: State, s1: State)
    requires FitGraph(s) && SamePtrs(LinksOf(s.clients), LinksOf(s1.clients)) && Shapes(s1.clients) == Shapes(s.clients)
    requires s1.pairs == s.pairs && s1.rules.ifaces.Keys == s.rules.ifaces.Keys
    ensures FitGraph(s1) && IfacesOf(s1.clients) == IfacesOf(s.clients)
  {
    hide Sym, SimpleT, CrossT, SamePtrs;
    SameIfaces(s.clients, s1.clients);
    SimplePtrs(LinksOf(s.clients), LinksOf(s1.clients), IfacesOf(s.clients), s.pairs);
    assert LinksOf(s1.clients).Keys == s1.clients.Keys && IfacesOf(s1.clients).Keys == s1.clients.Keys;
  }

  lemma RefillRound(s: State, a: Key, i: nat)
    requires Refilling(s, a, i) && i < |s.clients[a].links| && Accepts(s.rules, 2)
    ensures var (s1, ok) := AddFltRound(s, a, i);
            ok && Refilling(s1, a, i + 1) && s1.rules.pos == s.rules.pos + 2 && SameRest(s.rules, s1.rules)
  {
    var L, b := LinksOf(s.clients), s.clients[a].links[i].ptr;
    RefillRules(s, a, i);
    TwoAdds(s, a, i);
    var j := FindLink(L[b], a);
    var s1 := AddFltRound(s, a, i).0;
    var h1 := AddFlt(s.rules, s.clients[a].iface).1.value;
    var h2 := AddFlt(AddFlt(s.rules, s.clients[a].iface).0, s.clients[b].iface).1.value;
    hide AddFltRound, FltTables, FltOwn, AddFlt, Arcs, InPlace, Sym, SimpleT, CrossT, FindLink, SamePtrs, Shapes;
    InPlaceNext(L, s.pairs, a, i, b, j, h1, h2);
    RefilledArcs(L, a, i, b, j, h1, h2);
    RefillGraph(s, s1);
  }

  lemma {:induction false} RefillAll(s: State, a: Key, i: nat)
    requires Refilling(s, a, i) && Accepts(s.rules, 2 * (|s.clients[a].links| - i))
    ensures var (s', ok) := AddFlts(s, a, i);
            ok && a in s'.clients && Refilling(s', a, |s'.clients[a].links|) && SameRest(s.rules, s'.rules)
    decreases |s.clients[a].links| - i
  {
    hide AddFltRound, Refilling, SameRest, Shapes, Accepts;
    SameNow(s.rules);
    WaitsFor(s, a, i);
    if i == |s.clients[a].links| { return; }
    var s1 := AddFltRound(s, a, i).0;
    AcceptsMore(s.rules, 2 * (|s.clients[a].links| - i - 1), s1.rules);
    RefillRound(s, a, i);
    SameScript(s.rules, s1.rules);
    AcceptsMore(s.rules, 2 * (|s.clients[a].links| - i - 1), s1.rules);
    RefillAll(s1, a, i + 1);
    SameTwice(s.rules, s1.rules, AddFlts(s1, a, i + 1).0.rules);
  }

  lemma SameNow(r: Rules)
    ensures SameRest(r, r)
  {
  }

  lemma AcceptsMore(r: Rules, n: nat, r1: Rules)
    requires Accepts(r, n + 2)
    ensures Accepts(r, 2)
    ensures r1.pos == r.pos + 2 && r1.script == r.script ==> Accepts(r1, n)
  {
  }

  /** Every interface's valid filter slots are exactly the filter handles of its own clients'
      links, the counter counts them, and no two of these links hold the same one. */
  ghost predicate FilterSlots(s: State) {
    && (forall i :: i in s.rules.ifaces ==> FilterTable(s.clients, i, s.rules.ifaces[i]))
    && FltOwn(Arcs(LinksOf(s.clients)), IfacesOf(s.clients))
  }

  ghost predicate FilterTable(cs: map<Key, Client>, i: IfaceId, t: Slots) {
    t.numFlt == CountValid(t.flt) && forall h :: h in ValidHandles(t.flt) <==> OwnsFlt(cs, i, h)
  }

  lemma FilledSlots(s: State, a: Key)
    requires a in s.clients && Refilling(s, a, |s.clients[a].links|)
    ensures FilterSlots(s)
  {
    var L, F := LinksOf(s.clients), IfacesOf(s.clients);
    assert InPlace(L, a, |L[a]|) == Arcs(L) by { assert Ptrs(L[a][|L[a]|..]) == {}; }
    hide Arcs, InPlace, FltOwn, CountValid, ValidHandles, Flts, Out, OwnsFlt, Sym, SimpleT, CrossT;
    forall i | i in s.rules.ifaces ensures FilterTable(s.clients, i, s.rules.ifaces[i]) {
      forall h ensures h in Flts(Out(Arcs(L), F, i)) <==> OwnsFlt(s.clients, i, h) { FltReads(s.clients, i, h); }
      assert FltTable(s.rules.ifaces[i].flt, s.rules.ifaces[i].numFlt, Flts(Out(Arcs(L), F, i)));
    }
  }

  /** A client that fell asleep with its slots in order waits for all its filter rules. */
  lemma AsleepWaits(s: State, k: Key)
    requires FitS(s) && k in s.clients && Accepts(s.rules, 2 * |s.clients[k].links|)
    ensures var s1 := Step(s, PowerSave(k)); Refilling(s1, k, 0) && SameRest(s.rules, s1.rules)
  {
    var ls := s.clients[k].links;
    StartsPending(s, k);
    RemoveFltsArcs(s, k, ls, Arcs(LinksOf(s.clients)));
    var s1 := Step(s, PowerSave(k));
    OwnFlts(Arcs(LinksOf(s.clients)), Between(Arcs(LinksOf(s.clients)), k, Ptrs(ls)), IfacesOf(s.clients));
    hide RemoveFlts, Between, Arcs, Ptrs, FltTables, FltOwn, Sym, SimpleT, CrossT, FltTable, HdrTable, OwnHandles;
    FlagsGraph(s, s1, k);
    assert ls[0..] == ls;
  }

  lemma OwnFlts(E: set<Arc>, S: set<Arc>, F: IfaceMap)
    requires OwnHandles(E, F)
    ensures FltOwn(E - S, F)
  {
  }

  lemma FlagsGraph(s: State, s1: State, k: Key)
    requires FitGraph(s) && k in s.clients && s1.pairs == s.pairs && s1.rules.ifaces.Keys == s.rules.ifaces.Keys
    requires s1.clients == s.clients[k := s.clients[k].(active := false, powersave := true)]
    ensures FitGraph(s1) && LinksOf(s1.clients) == LinksOf(s.clients) && IfacesOf(s1.clients) == IfacesOf(s.clients)
  {
    hide Sym, SimpleT, CrossT;
    assert LinksOf(s1.clients) == LinksOf(s.clients);
    assert IfacesOf(s1.clients) == IfacesOf(s.clients);
  }

  /** A nap is undone: with slots and links in agreement and every call carried out, the recovery's
      add_flt_rules puts a filter rule back for every link of the client, on both ends, under
      handles no other link holds; headers and routes were never touched. */
  lemma NapRefills(s: State, k: Key)
    requires FitS(s) && k in s.clients && Obliging(s.rules)
    ensures var s1 := Step(s, PowerSave(k)); var (s2, ok) := AddFlts(s1, k, 0);
            && ok && FilterSlots(s2)
            && s2.rules.hdrs == s.rules.hdrs && s2.rules.rts == s.rules.rts && s2.rules.ifaces.Keys == s.rules.ifaces.Keys
            && forall i :: i in s.rules.ifaces ==> SameSlots(s.rules.ifaces[i], s2.rules.ifaces[i])
  {
    hide FitS, Step, AddFlts, Refilling, FilterSlots, SameSlots, Shapes;
    AsleepWaits(s, k);
    var s1 := Step(s, PowerSave(k));
    WaitsFor(s1, k, 0);
    RefillAll(s1, k, 0);
    var s2 := AddFlts(s1, k, 0).0;
    FilledSlots(s2, k);
    SameTwice(s.rules, s1.rules, s2.rules);
  }

  lemma WaitsFor(s: State, a: Key, i: nat)
    requires Refilling(s, a, i)
    ensures a in s.clients && i <= |s.clients[a].links|
  {
  }

  // ---- Two clients asleep ----------------------------------------------------------------------

  /** The counter of interface i lags d behind its valid filter slots, modulo 256. */
  predicate Lags(r: Rules, i: IfaceId, d: nat) {
    && i in r.ifaces && |r.ifaces[i].flt| == MAX_OFFLOAD_PAIR && d <= 255
    && r.ifaces[i].numFlt == (CountValid(r.ifaces[i].flt) + 256 - d) % 256
  }

  /** Some slot of interface k carries the handle. */
  predicate Carried(r: Rules, k: IfaceId, h: Handle) {
    k in r.ifaces && exists j :: 0 <= j < |r.ifaces[k].flt| && r.ifaces[k].flt[j].hdl == h
  }

  predicate FreeAt(r: Rules, k: IfaceId, h: Handle) {
    k in r.ifaces && forall j :: 0 <= j < |r.ifaces[k].flt| && r.ifaces[k].flt[j].hdl == h ==> !r.ifaces[k].flt[j].valid
  }

  lemma LagNext(c: nat, n: nat, d: nat, v: nat)
    requires c <= 3 && d < 255 && n == (c + 256 - d) % 256 && v <= 1 && v <= c
    ensures Dec8(n) == (c - v + 256 - (d + 1 - v)) % 256
  {
  }

  /** A delete that finds its slot free already makes the counter lag one more. */
  lemma DelLags(r: Rules, k: IfaceId, h: Handle, i: IfaceId, d: nat)
    requires Lags(r, i, d) && d < 255 && Carried(r, k, h) && r.script(r.pos).Done?
    ensures var (r', ok) := DelFlt(r, k, h);
            && ok && SameRest(r, r') && r'.pos == r.pos + 1
            && Lags(r', i, if k == i && !r.ifaces[k].flt[FirstWith(r.ifaces[k].flt, h)].valid then d + 1 else d)
            && forall m, g :: FreeAt(r, m, g) ==> FreeAt(r', m, g)
  {
    var t := r.ifaces[k].flt;
    var j := FirstWith(t, h);
    CountSet(t, j, Slot(h, false));
    CountBound(r.ifaces[i].flt);
    if k == i { LagNext(CountValid(t), r.ifaces[i].numFlt, d, if t[j].valid then 1 else 0); }
    hide CountValid, FirstWith;
  }

  lemma CarriedOn(r: Rules, r': Rules)
    requires SameRest(r, r')
    ensures forall k, h :: Carried(r, k, h) ==> Carried(r', k, h)
  {
    forall k, h | Carried(r, k, h) ensures Carried(r', k, h) {
      var j :| 0 <= j < |r.ifaces[k].flt| && r.ifaces[k].flt[j].hdl == h;
      assert SameSlots(r.ifaces[k], r'.ifaces[k]);
      assert r'.ifaces[k].flt[j].hdl == h;
    }
  }

  /** Every link's filter handle is carried by a slot of its owner's interface. */
  ghost predicate AllCarried(s: State) {
    forall x, l :: x in s.clients && l in s.clients[x].links ==> Carried(s.rules, s.clients[x].iface, l.hs.flt)
  }

  lemma OneLags(s: State, b: Key, l: Link, i: IfaceId, d: nat)
    requires FitGraph(s) && AllCarried(s) && b in s.clients && l in s.clients[b].links
    requires Lags(s.rules, i, d) && d < 254 && Accepts(s.rules, 2)
    ensures var (s1, ok) := RemoveFltOne(s, b, l);
            && ok && s1 == s.(rules := s1.rules) && SameRest(s.rules, s1.rules) && s1.rules.pos == s.rules.pos + 2
            && (forall m, g :: FreeAt(s.rules, m, g) ==> FreeAt(s1.rules, m, g))
            && exists d1: nat :: d <= d1 <= d + 2 && Lags(s1.rules, i, d1)
                 && (i == s.clients[b].iface && FreeAt(s.rules, i, l.hs.flt) ==> d1 > d)
  {
    hide FitGraph, DelFlt, Lags, SameRest, FirstWith, Accepts, FindLink, Carried, RemoveFltOne;
    var r := s.rules;
    AcceptsTwo(r);
    RoundArcs(s, b, l);
    TwoDeletes(s, b, l);
    var back := s.clients[l.ptr].links[FindLink(s.clients[l.ptr].links, b)];
    BackIn(s, b, l);
    DelLags(r, s.clients[b].iface, l.hs.flt, i, d);
    FreeFirst(r, s.clients[b].iface, l.hs.flt);
    var r1 := DelFlt(r, s.clients[b].iface, l.hs.flt).0;
    CarriedOn(r, r1);
    SameScript(r, r1);
    var d0 := if s.clients[b].iface == i && !r.ifaces[i].flt[FirstWith(r.ifaces[i].flt, l.hs.flt)].valid then d + 1 else d;
    DelLags(r1, s.clients[l.ptr].iface, back.hs.flt, i, d0);
    SameTwice(r, r1, DelFlt(r1, s.clients[l.ptr].iface, back.hs.flt).0);
  }

  lemma BackIn(s: State, b: Key, l: Link)
    requires l.ptr in s.clients && FindLink(s.clients[l.ptr].links, b) < |s.clients[l.ptr].links|
    ensures s.clients[l.ptr].links[FindLink(s.clients[l.ptr].links, b)] in s.clients[l.ptr].links
  {
  }

  lemma FreeFirst(r: Rules, k: IfaceId, h: Handle)
    requires Carried(r, k, h)
    ensures k in r.ifaces && FirstWith(r.ifaces[k].flt, h) < |r.ifaces[k].flt|
    ensures FreeAt(r, k, h) ==> !r.ifaces[k].flt[FirstWith(r.ifaces[k].flt, h)].valid
  {
  }

  lemma CarriedLater(s: State, s1: State)
    requires FitGraph(s) && AllCarried(s) && s1 == s.(rules := s1.rules) && SameRest(s.rules, s1.rules)
    ensures FitGraph(s1) && AllCarried(s1)
  {
    CarriedOn(s.rules, s1.rules);
    hide Carried, Sym, SimpleT, CrossT;
  }

  /** A link of the list whose slot on the client's own interface is free already. */
  predicate HasFree(s: State, b: Key, todo: seq<Link>, i: IfaceId)
    requires b in s.clients
  {
    i == s.clients[b].iface && exists l :: l in todo && FreeAt(s.rules, i, l.hs.flt)
  }

  lemma {:induction false} LoopLags(s: State, b: Key, todo: seq<Link>, i: IfaceId, d: nat)
    requires FitGraph(s) && AllCarried(s) && b in s.clients && forall l :: l in todo ==> l in s.clients[b].links
    requires Lags(s.rules, i, d) && d + 2 * |todo| <= 255 && Accepts(s.rules, 2 * |todo|)
    ensures exists d': nat :: d <= d' <= d + 2 * |todo| && Lags(RemoveFlts(s, b, todo).0.rules, i, d')
              && (HasFree(s, b, todo, i) ==> d' > d)
    decreases |todo|
  {
    hide FitGraph, AllCarried, Lags, SameRest, Accepts, RemoveFltOne, FreeAt, Later;
    if todo == [] {
      assert Lags(RemoveFlts(s, b, todo).0.rules, i, d) && !HasFree(s, b, todo, i);
      return;
    }
    AcceptsMore(s.rules, 2 * |todo[1..]|, s.rules);
    OneLags(s, b, todo[0], i, d);
    var s1 := RemoveFltOne(s, b, todo[0]).0;
    var d1: nat :| d <= d1 <= d + 2 && Lags(s1.rules, i, d1) && (i == s.clients[b].iface && FreeAt(s.rules, i, todo[0].hs.flt) ==> d1 > d);
    CarriedLater(s, s1);
    SameScript(s.rules, s1.rules);
    AcceptsMore(s.rules, 2 * |todo[1..]|, s1.rules);
    LoopLags(s1, b, todo[1..], i, d1);
    var d': nat :| d1 <= d' <= d1 + 2 * |todo[1..]| && Lags(RemoveFlts(s1, b, todo[1..]).0.rules, i, d')
                   && (HasFree(s1, b, todo[1..], i) ==> d' > d1);
    FreeLater(s, s1, b, todo, i);
    assert RemoveFlts(s, b, todo).0 == RemoveFlts(s1, b, todo[1..]).0;
    assert HasFree(s, b, todo, i) ==> d' > d;
  }

  lemma FreeLater(s: State, s1: State, b: Key, todo: seq<Link>, i: IfaceId)
    requires b in s.clients && todo != [] && s1 == s.(rules := s1.rules)
    requires forall m, g :: FreeAt(s.rules, m, g) ==> FreeAt(s1.rules, m, g)
    ensures HasFree(s, b, todo, i) ==> HasFree(s1, b, todo[1..], i) || (i == s.clients[b].iface && FreeAt(s.rules, i, todo[0].hs.flt))
  {
    hide FreeAt;
    assert forall l :: l in todo <==> l == todo[0] || l in todo[1..];
  }

  lemma StartsCarried(s: State)
    requires FitS(s)
    ensures AllCarried(s)
  {
    var E, F := Arcs(LinksOf(s.clients)), IfacesOf(s.clients);
    forall x, l | x in s.clients && l in s.clients[x].links ensures Carried(s.rules, s.clients[x].iface, l.hs.flt) {
      var i := s.clients[x].iface;
      assert l in LinksOf(s.clients)[x] && F[x] in s.rules.ifaces;
      ArcHandles(E, F, (x, l));
      assert FltTable(s.rules.ifaces[i].flt, s.rules.ifaces[i].numFlt, Flts(Out(E, F, i)));
      assert l.hs.flt in ValidHandles(s.rules.ifaces[i].flt);
    }
  }

  /** Each interface's counter counts its valid filter slots. */
  predicate Counted(r: Rules) { forall i :: i in r.ifaces ==> r.ifaces[i].numFlt == CountValid(r.ifaces[i].flt) }

  lemma LinkedLags(s: State, a: Key, b: Key)
    requires FitS(s) && a in s.clients && b in s.clients && a != b && Obliging(s.rules) && M(LinksOf(s.clients), b, a) > 0
    ensures !Counted(Step(Step(s, PowerSave(a)), PowerSave(b)).rules)
  {
    var s1, i := Step(s, PowerSave(a)), s.clients[b].iface;
    hide Step, FitGraph, AllCarried, RemoveFlts, FreeAt, FitS, M, Later, Lags, Counted, LinksOf, IfacesOf, HasFree, Obliging;
    ObligingNow(s.rules, 2 * |s.clients[a].links|);
    AsleepGraph(s, a);
    SaveResult(s, a);
    var l := SomeLink(s, b, a);
    NowFree(s, a, b, l);
    FewLinks(s1, b);
    ObligingNow(s1.rules, 2 * |s1.clients[b].links|);
    LoopLags(s1, b, s1.clients[b].links, i, 0);
    HasFreeNow(s1, b, s1.clients[b].links, i, l);
    var d: nat :| 0 < d <= 12 && Lags(RemoveFlts(s1, b, s1.clients[b].links).0.rules, i, d);
    SaveResult(s1, b);
    LagsNotCounted(Step(s1, PowerSave(b)).rules, i, d);
  }

  lemma ObligingNow(r: Rules, n: nat)
    ensures Obliging(r) ==> Accepts(r, n)
    ensures forall r': Rules :: r'.script == r.script && Obliging(r) ==> Obliging(r')
  {
  }

  /** Whatever the hardware answers, a power save changes no list and only the filter slots. */
  lemma SaveResult(s: State, k: Key)
    requires k in s.clients
    ensures var s' := Step(s, PowerSave(k));
            && s'.rules == RemoveFlts(s, k, s.clients[k].links).0.rules && s'.clients.Keys == s.clients.Keys
            && forall x :: x in s.clients ==> s'.clients[x].links == s.clients[x].links && s'.clients[x].iface == s.clients[x].iface
  {
    hide RemoveFlts, Later;
    var s1 := RemoveFlts(s, k, s.clients[k].links).0;
    assert s1.clients == s.clients;
  }

  lemma SomeLink(s: State, b: Key, a: Key) returns (l: Link)
    requires b in s.clients && M(LinksOf(s.clients), b, a) > 0
    ensures l in s.clients[b].links && l.ptr == a
  {
    MultFind(s.clients[b].links, a);
    l := s.clients[b].links[FindLink(s.clients[b].links, a)];
  }

  lemma HasFreeNow(s: State, b: Key, todo: seq<Link>, i: IfaceId, l: Link)
    requires b in s.clients && i == s.clients[b].iface && l in todo && FreeAt(s.rules, i, l.hs.flt)
    ensures HasFree(s, b, todo, i)
  {
    hide FreeAt;
  }

  lemma LagsNotCounted(r: Rules, i: IfaceId, d: nat)
    requires Lags(r, i, d) && 0 < d <= 12
    ensures !Counted(r)
  {
    CountBound(r.ifaces[i].flt);
    hide CountValid;
  }

  lemma FewLinks(s: State, b: Key)
    requires FitGraph(s) && b in s.clients
    ensures |s.clients[b].links| <= 6
  {
    TotalSplit(LinksOf(s.clients), b);
  }

  lemma AsleepGraph(s: State, a: Key)
    requires FitS(s) && a in s.clients && Accepts(s.rules, 2 * |s.clients[a].links|)
    ensures var s1 := Step(s, PowerSave(a));
            && FitGraph(s1) && AllCarried(s1) && LinksOf(s1.clients) == LinksOf(s.clients) && IfacesOf(s1.clients) == IfacesOf(s.clients)
            && s1.rules.script == s.rules.script
  {
    AsleepWaits(s, a);
    PowerSaveFrees(s, a);
    StartsCarried(s);
    var s1 := Step(s, PowerSave(a));
    FlagsGraph(s, s1, a);
    CarriedOn(s.rules, s1.rules);
    hide Refilling, Carried, FitGraph, HandlePowerSave;
  }

  lemma NowFree(s: State, a: Key, b: Key, l: Link)
    requires FitS(s) && a in s.clients && b in s.clients && a != b && l in s.clients[b].links && l.ptr == a
    requires Accepts(s.rules, 2 * |s.clients[a].links|)
    ensures var s1, i := Step(s, PowerSave(a)), s.clients[b].iface;
            && i in s1.rules.ifaces && FreeAt(s1.rules, i, l.hs.flt) && Lags(s1.rules, i, 0)
  {
    hide HandlePowerSave;
    PowerSaveFrees(s, a);
    var s1, i := Step(s, PowerSave(a)), s.clients[b].iface;
    assert IfacesOf(s.clients)[b] in s.rules.ifaces;
    assert Silences(s.clients, a, i, l.hs.flt);
    assert Freed(s.clients, a, i, s.rules.ifaces[i], s1.rules.ifaces[i]);
    assert FltTable(s.rules.ifaces[i].flt, s.rules.ifaces[i].numFlt, Flts(Out(Arcs(LinksOf(s.clients)), IfacesOf(s.clients), i)));
    CountBound(s1.rules.ifaces[i].flt);
    hide Silences, FitS;
  }

  lemma ApartCounted(s: State, a: Key, b: Key)
    requires FitS(s) && a in s.clients && b in s.clients && a != b && Obliging(s.rules) && M(LinksOf(s.clients), b, a) == 0
    ensures Counted(Step(Step(s, PowerSave(a)), PowerSave(b)).rules)
  {
    hide Step, FitS, FitGraph, RemoveFlts, Between, Arcs, Ptrs, FltTables, OwnHandles, AllCarried, M, LinksOf, IfacesOf, Pending, Counted,
      Obliging, SameRest, Later;
    var A, s1 := Arcs(LinksOf(s.clients)), Step(s, PowerSave(a));
    ObligingNow(s.rules, 2 * |s.clients[a].links|);
    StartsPending(s, a);
    RemoveFltsArcs(s, a, s.clients[a].links, A);
    SaveResult(s, a);
    AsleepGraph(s, a);
    StartsPending(s, b);
    PendingFor(s, a, b, s1);
    ObligingNow(s1.rules, 2 * |s1.clients[b].links|);
    var E := A - Between(A, a, Ptrs(s.clients[a].links));
    RemoveFltsArcs(s1, b, s1.clients[b].links, E);
    SaveResult(s1, b);
    TablesCounted(Step(s1, PowerSave(b)).rules, E - Between(A, b, Ptrs(s1.clients[b].links)), IfacesOf(s.clients));
  }

  /** b's rules are all in place while a, not linked to it, is asleep. */
  lemma PendingFor(s: State, a: Key, b: Key, s1: State)
    requires FitS(s) && a in s.clients && b in s.clients && a != b && M(LinksOf(s.clients), b, a) == 0
    requires Pending(s, b, s.clients[b].links, Arcs(LinksOf(s.clients)))
    requires FitGraph(s1) && LinksOf(s1.clients) == LinksOf(s.clients) && IfacesOf(s1.clients) == IfacesOf(s.clients)
    requires b in s1.clients && s1.clients[b].links == s.clients[b].links
    requires var A := Arcs(LinksOf(s.clients)); FltTables(A - Between(A, a, Ptrs(s.clients[a].links)), IfacesOf(s.clients), s1.rules)
    ensures var A := Arcs(LinksOf(s.clients)); Pending(s1, b, s1.clients[b].links, A - Between(A, a, Ptrs(s.clients[a].links)))
  {
    var A := Arcs(LinksOf(s.clients));
    StartsPending(s, a);
    NotBetween(s, a, b);
    OwnLess(A, A - Between(A, a, Ptrs(s.clients[a].links)), IfacesOf(s.clients));
    hide Between, Arcs, Ptrs, FltTables, OwnHandles, FitGraph, M, LinksOf, IfacesOf, DistinctPtrs, FitS;
  }

  lemma NotBetween(s: State, a: Key, b: Key)
    requires FitGraph(s) && a in s.clients && b in s.clients && a != b && M(LinksOf(s.clients), b, a) == 0
    ensures var A := Arcs(LinksOf(s.clients));
            Between(A, b, Ptrs(s.clients[b].links)) <= A - Between(A, a, Ptrs(s.clients[a].links))
  {
    var L := LinksOf(s.clients);
    assert M(L, a, b) == M(L, b, a) == 0;
    forall e | e in Arcs(L) ensures !(e.0 == a && e.1.ptr == b) && !(e.0 == b && e.1.ptr == a) {
      MultIn(L[e.0], e.1);
    }
  }

  lemma TablesCounted(r: Rules, E: set<Arc>, F: IfaceMap)
    requires FltTables(E, F, r)
    ensures Counted(r)
  {
    forall i | i in r.ifaces ensures r.ifaces[i].numFlt == CountValid(r.ifaces[i].flt) {
      assert FltTable(r.ifaces[i].flt, r.ifaces[i].numFlt, Flts(Out(E, F, i)));
    }
  }

  /** When two clients fall asleep one after the other, with slots and links in agreement before and
      every call carried out, the counters still count the valid filter slots if and only if the two
      are not linked: a link's rules are deleted once from either end. */
  lemma BothAsleepIff(s: State, a: Key, b: Key)
    requires FitS(s) && a in s.clients && b in s.clients && a != b && Obliging(s.rules)
    ensures Counted(Step(Step(s, PowerSave(a)), PowerSave(b)).rules) <==> M(LinksOf(s.clients), a, b) == 0
  {
    SymPair(LinksOf(s.clients), s.pairs, a, b);
    hide FitS, Step, M, Counted, Obliging, LinksOf;
    if M(LinksOf(s.clients), b, a) > 0 { LinkedLags(s, a, b); } else { ApartCounted(s, a, b); }
  }
}
