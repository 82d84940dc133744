/** Rule slots against the offload graph: when every hardware call succeeds and connected
    clients sit on different interfaces, each interface's slots hold exactly the handles of the
    links that use it, so the global pair cap alone keeps every slot search from failing. */
module LanToLanSlots {
  import opened Driver
  import opened LanRules
  import opened LanToLan
  import opened LanToLanLinks

  /** A stored link together with the client that stores it. */
  type Arc = (Key, Link)

  function Arcs(L: LinkTable): set<Arc> {
    set a, l | a in L && l in L[a] :: (a, l)
  }

  // ---- One slot table ------------------------------------------------------------------

  function ValidHandles(t: seq<Slot>): set<Handle> {
    set p | 0 <= p < |t| && t[p].valid :: t[p].hdl
  }

  function CountValid(t: seq<Slot>): nat {
    if t == [] then 0 else (if t[0].valid then 1 else 0) + CountValid(t[1..])
  }

  /** Filter slots: fixed distinct handles, a counter, and H the handles in use. */
  ghost predicate FltTable(t: seq<Slot>, n: nat, H: set<Handle>) {
    && |t| == MAX_OFFLOAD_PAIR
    && (forall p, q :: 0 <= p < q < |t| ==> t[p].hdl != t[q].hdl)
    && n == CountValid(t)
    && ValidHandles(t) == H
  }

  /** Header slots: no earlier slot, valid or stale, repeats a valid slot's handle. */
  ghost predicate HdrTable(t: seq<Slot>, H: set<Handle>) {
    && |t| == MAX_OFFLOAD_PAIR
    && (forall p, q :: 0 <= p < q < |t| && t[q].valid ==> t[p].hdl != t[q].hdl)
    && ValidHandles(t) == H
  }

  lemma ThreeHandles(H: set<Handle>, x: Handle, y: Handle, z: Handle)
    requires {x, y, z} <= H && x != y && y != z && x != z
    ensures |H| >= 3
  {
    SubsetCard({x, y, z}, H);
  }

  lemma {:induction false} SubsetCard<T>(A: set<T>, B: set<T>)
    requires A <= B
    ensures |A| <= |B|
  {
    if x :| x in A { SubsetCard(A - {x}, B - {x}); }
  }

  lemma {:induction false} CountBound(t: seq<Slot>)
    ensures CountValid(t) <= |t|
  {
    if t != [] { CountBound(t[1..]); }
  }

  lemma {:induction false} CountSet(t: seq<Slot>, j: nat, s: Slot)
    requires j < |t|
    ensures CountValid(t[j := s]) + (if t[j].valid then 1 else 0) == CountValid(t) + (if s.valid then 1 else 0)
  {
    if j == 0 {
      assert t[0 := s][1..] == t[1..];
    } else {
      assert t[j := s][1..] == t[1..][j - 1 := s];
      CountSet(t[1..], j - 1, s);
    }
  }

  /** A table with distinct valid handles, fewer than there are slots, has a free slot. */
  lemma NotFull(t: seq<Slot>)
    requires |t| == MAX_OFFLOAD_PAIR && |ValidHandles(t)| < MAX_OFFLOAD_PAIR
    requires forall p, q :: 0 <= p < q < |t| && t[p].valid && t[q].valid ==> t[p].hdl != t[q].hdl
    ensures FirstFree(t) < |t|
  {
    if FirstFree(t) == |t| {
      var H := ValidHandles(t);
      assert t[0].hdl in H && t[1].hdl in H && t[2].hdl in H;
      ThreeHandles(H, t[0].hdl, t[1].hdl, t[2].hdl);
      assert false;
    }
  }

  lemma ValidUpdate(t: seq<Slot>, j: nat, h: Handle)
    requires j < |t| && !t[j].valid
    ensures ValidHandles(t[j := Slot(h, true)]) == ValidHandles(t) + {h}
  {
    var u := t[j := Slot(h, true)];
    assert u[j].hdl in ValidHandles(u);
    forall g | g in ValidHandles(t) ensures g in ValidHandles(u) {
      var p :| 0 <= p < |t| && t[p].valid && t[p].hdl == g;
      assert u[p].valid;
    }
  }

  lemma FltAdd(t: seq<Slot>, n: nat, H: set<Handle>)
    requires FltTable(t, n, H) && |H| < MAX_OFFLOAD_PAIR
    ensures n < MAX_OFFLOAD_PAIR && FirstFree(t) < |t|
    ensures t[FirstFree(t)].hdl !in H
    ensures var j := FirstFree(t);
            FltTable(t[j := Slot(t[j].hdl, true)], Inc8(n), H + {t[j].hdl})
  {
    hide CountValid, ValidHandles;
    NotFull(t);
    var j := FirstFree(t);
    CountAdd(t, j);
    ValidUpdate(t, j, t[j].hdl);
    FreeNotValid(t, j);
  }

  lemma CountAdd(t: seq<Slot>, j: nat)
    requires |t| == MAX_OFFLOAD_PAIR && j < |t| && !t[j].valid
    ensures CountValid(t) < MAX_OFFLOAD_PAIR
    ensures CountValid(t[j := Slot(t[j].hdl, true)]) == Inc8(CountValid(t))
  {
    CountSet(t, j, Slot(t[j].hdl, true));
    CountBound(t[j := Slot(t[j].hdl, true)]);
  }

  lemma FreeNotValid(t: seq<Slot>, j: nat)
    requires j < |t| && !t[j].valid && forall p, q :: 0 <= p < q < |t| ==> t[p].hdl != t[q].hdl
    ensures t[j].hdl !in ValidHandles(t)
  {
  }

  lemma FltDel(t: seq<Slot>, n: nat, H: set<Handle>, h: Handle)
    requires FltTable(t, n, H) && h in H
    ensures FirstWith(t, h) < |t|
    ensures FltTable(t[FirstWith(t, h) := Slot(h, false)], Dec8(n), H - {h})
  {
    var j := FirstWith(t, h);
    var q :| 0 <= q < |t| && t[q].valid && t[q].hdl == h;
    var u := t[j := Slot(h, false)];
    CountSet(t, j, Slot(h, false));
    forall g | g in H - {h} ensures g in ValidHandles(u) {
      var p :| 0 <= p < |t| && t[p].valid && t[p].hdl == g;
      assert u[p].valid;
    }
    assert ValidHandles(u) == H - {h};
  }

  lemma HdrAdd(t: seq<Slot>, H: set<Handle>, h: Handle)
    requires HdrTable(t, H) && |H| < MAX_OFFLOAD_PAIR && h !in H
    ensures FirstFree(t) < |t|
    ensures HdrTable(t[FirstFree(t) := Slot(h, true)], H + {h})
  {
    NotFull(t);
    assert forall p :: 0 <= p < |t| && t[p].valid ==> t[p].hdl in ValidHandles(t);
    ValidUpdate(t, FirstFree(t), h);
  }

  lemma HdrDel(t: seq<Slot>, H: set<Handle>, h: Handle)
    requires HdrTable(t, H) && h in H
    ensures FirstWith(t, h) < |t|
    ensures HdrTable(t[FirstWith(t, h) := Slot(h, false)], H - {h})
  {
    var j := FirstWith(t, h);
    var q :| 0 <= q < |t| && t[q].valid && t[q].hdl == h;
    assert j == q;
    var u := t[j := Slot(h, false)];
    forall g | g in H - {h} ensures g in ValidHandles(u) {
      var p :| 0 <= p < |t| && t[p].valid && t[p].hdl == g;
      assert u[p].valid;
    }
    assert ValidHandles(u) == H - {h};
  }

  // ---- All tables against a set of arcs ------------------------------------------------

  type IfaceMap = map<Key, IfaceId>

  function IfacesOf(cs: map<Key, Client>): IfaceMap { map k | k in cs :: cs[k].iface }

  function At(F: IfaceMap, k: Key): IfaceId { if k in F then F[k] else 0 }

  /** Arcs whose filter rule sits on interface i, and arcs whose header does. */
  function Out(E: set<Arc>, F: IfaceMap, i: IfaceId): set<Arc> { set e | e in E && At(F, e.0) == i }

  function In(E: set<Arc>, F: IfaceMap, i: IfaceId): set<Arc> { set e | e in E && At(F, e.1.ptr) == i }

  function Flts(E: set<Arc>): set<Handle> { set e | e in E :: e.1.hs.flt }

  function Hdrs(E: set<Arc>): set<Handle> { set e | e in E :: e.1.hs.hdr }

  function Rts(E: set<Arc>): set<Handle> { set e | e in E :: e.1.hs.rt }

  ghost predicate TablesOk(E: set<Arc>, F: IfaceMap, r: Rules) {
    forall i :: i in r.ifaces ==>
      && FltTable(r.ifaces[i].flt, r.ifaces[i].numFlt, Flts(Out(E, F, i)))
      && HdrTable(r.ifaces[i].hdr, Hdrs(In(E, F, i)))
  }

  /** No two arcs share a handle: filter handles per interface, the others globally. */
  ghost predicate OwnHandles(E: set<Arc>, F: IfaceMap) {
    forall e, f :: e in E && f in E && e != f ==>
      && (At(F, e.0) == At(F, f.0) ==> e.1.hs.flt != f.1.hs.flt)
      && e.1.hs.hdr != f.1.hs.hdr
      && e.1.hs.rt != f.1.hs.rt
  }

  /** Slots, installed headers and installed routes are exactly the arcs' handles. */
  ghost predicate SlotInv(E: set<Arc>, F: IfaceMap, r: Rules) {
    && TablesOk(E, F, r)
    && OwnHandles(E, F)
    && r.hdrs == Hdrs(E)
    && r.rts == Rts(E)
  }

  ghost predicate Obliging(r: Rules) { forall n :: r.script(n).Done? }

  // ---- Installing and removing one direction -------------------------------------------

  lemma {:induction false} HandleCards(E: set<Arc>)
    ensures |Flts(E)| <= |E| && |Hdrs(E)| <= |E|
  {
    if e :| e in E {
      HandleCards(E - {e});
      assert Flts(E) == Flts(E - {e}) + {e.1.hs.flt};
      assert Hdrs(E) == Hdrs(E - {e}) + {e.1.hs.hdr};
    }
  }

  lemma AddSets(E: set<Arc>, e: Arc)
    ensures Flts(E + {e}) == Flts(E) + {e.1.hs.flt}
    ensures Hdrs(E + {e}) == Hdrs(E) + {e.1.hs.hdr}
    ensures Rts(E + {e}) == Rts(E) + {e.1.hs.rt}
  {
  }

  lemma AddArc(E: set<Arc>, F: IfaceMap, e: Arc, i: IfaceId)
    ensures Flts(Out(E + {e}, F, i)) == if At(F, e.0) == i then Flts(Out(E, F, i)) + {e.1.hs.flt} else Flts(Out(E, F, i))
    ensures Hdrs(In(E + {e}, F, i)) == if At(F, e.1.ptr) == i then Hdrs(In(E, F, i)) + {e.1.hs.hdr} else Hdrs(In(E, F, i))
  {
    assert Out(E + {e}, F, i) == Out(E, F, i) + (if At(F, e.0) == i then {e} else {});
    assert In(E + {e}, F, i) == In(E, F, i) + (if At(F, e.1.ptr) == i then {e} else {});
    AddSets(Out(E, F, i), e);
    AddSets(In(E, F, i), e);
  }

  lemma DropArc(E: set<Arc>, F: IfaceMap, e: Arc, i: IfaceId)
    requires OwnHandles(E, F) && e in E
    ensures Flts(Out(E - {e}, F, i)) == if At(F, e.0) == i then Flts(Out(E, F, i)) - {e.1.hs.flt} else Flts(Out(E, F, i))
    ensures Hdrs(In(E - {e}, F, i)) == if At(F, e.1.ptr) == i then Hdrs(In(E, F, i)) - {e.1.hs.hdr} else Hdrs(In(E, F, i))
    ensures Hdrs(E - {e}) == Hdrs(E) - {e.1.hs.hdr} && Rts(E - {e}) == Rts(E) - {e.1.hs.rt}
  {
    assert Out(E - {e}, F, i) == Out(E, F, i) - {e};
    assert In(E - {e}, F, i) == In(E, F, i) - {e};
  }

  /** Only interface i's tables may differ. */
  ghost predicate SameElsewhere(r: Rules, r': Rules, i: IfaceId) {
    && r'.ifaces.Keys == r.ifaces.Keys && r'.script == r.script
    && forall k :: k in r.ifaces && k != i ==> r'.ifaces[k] == r.ifaces[k]
  }

  lemma AddHdrResult(r: Rules, j: IfaceId, H: set<Handle>)
    requires Obliging(r) && j in r.ifaces && HdrTable(r.ifaces[j].hdr, H) && |H| < MAX_OFFLOAD_PAIR && H <= r.hdrs
    ensures var (r', h) := AddHdr(r, j);
            && h.Some? && h.value !in r.hdrs && r'.hdrs == r.hdrs + {h.value} && r'.rts == r.rts
            && SameElsewhere(r, r', j)
            && r'.ifaces[j].flt == r.ifaces[j].flt && r'.ifaces[j].numFlt == r.ifaces[j].numFlt
            && HdrTable(r'.ifaces[j].hdr, H + {h.value})
  {
    NotFullHdr(r.ifaces[j].hdr, H);
    hide HdrTable;
    HdrAdd(r.ifaces[j].hdr, H, AddHdr(r, j).1.value);
  }

  lemma AddFltResult(r: Rules, i: IfaceId, H: set<Handle>)
    requires Obliging(r) && i in r.ifaces && FltTable(r.ifaces[i].flt, r.ifaces[i].numFlt, H) && |H| < MAX_OFFLOAD_PAIR
    ensures var (r', h) := AddFlt(r, i);
            && h.Some? && h.value !in H && r'.hdrs == r.hdrs && r'.rts == r.rts
            && SameElsewhere(r, r', i)
            && r'.ifaces[i].hdr == r.ifaces[i].hdr
            && FltTable(r'.ifaces[i].flt, r'.ifaces[i].numFlt, H + {h.value})
  {
    FltAdd(r.ifaces[i].flt, r.ifaces[i].numFlt, H);
    hide FltTable;
  }

  lemma AddRtResult(r: Rules)
    requires Obliging(r)
    ensures var (r', h) := AddRt(r);
            && h.Some? && h.value !in r.rts && r'.rts == r.rts + {h.value} && r'.hdrs == r.hdrs
            && r'.ifaces == r.ifaces
  {
  }

  /** r' is r with one more filter rule on interface i and one more header on interface j. */
  ghost predicate Installed(r: Rules, r': Rules, i: IfaceId, j: IfaceId, hs: Handles, Hf: set<Handle>, Hh: set<Handle>) {
    && i in r.ifaces && j in r.ifaces && r'.ifaces.Keys == r.ifaces.Keys
    && hs.flt !in Hf && hs.hdr !in r.hdrs && hs.rt !in r.rts
    && r'.hdrs == r.hdrs + {hs.hdr} && r'.rts == r.rts + {hs.rt}
    && FltTable(r'.ifaces[i].flt, r'.ifaces[i].numFlt, Hf + {hs.flt})
    && HdrTable(r'.ifaces[j].hdr, Hh + {hs.hdr})
    && (forall k :: k in r.ifaces && k != i ==>
          r'.ifaces[k].flt == r.ifaces[k].flt && r'.ifaces[k].numFlt == r.ifaces[k].numFlt)
    && (forall k :: k in r.ifaces && k != j ==> r'.ifaces[k].hdr == r.ifaces[k].hdr)
  }

  /** With room in both tables an obliging hardware installs. */
  lemma InstallResult(r: Rules, i: IfaceId, j: IfaceId, Hf: set<Handle>, Hh: set<Handle>)
    requires Obliging(r) && i in r.ifaces && j in r.ifaces
    requires FltTable(r.ifaces[i].flt, r.ifaces[i].numFlt, Hf) && |Hf| < MAX_OFFLOAD_PAIR
    requires HdrTable(r.ifaces[j].hdr, Hh) && |Hh| < MAX_OFFLOAD_PAIR && Hh <= r.hdrs
    ensures Install(r, i, j).1.Some?
    ensures Installed(r, Install(r, i, j).0, i, j, Install(r, i, j).1.value, Hf, Hh)
  {
    hide FltTable, HdrTable, AddHdr, AddRt, AddFlt;
    AddHdrResult(r, j, Hh);
    var r1 := AddHdr(r, j).0;
    AddRtResult(r1);
    var r2 := AddRt(r1).0;
    AddFltResult(r2, i, Hf);
  }

  lemma TablesAdd(E: set<Arc>, F: IfaceMap, r: Rules, r': Rules, e: Arc)
    requires TablesOk(E, F, r)
    requires Installed(r, r', At(F, e.0), At(F, e.1.ptr), e.1.hs,
                       Flts(Out(E, F, At(F, e.0))), Hdrs(In(E, F, At(F, e.1.ptr))))
    ensures TablesOk(E + {e}, F, r')
  {
    hide FltTable, HdrTable, Flts, Hdrs, In, Out;
    forall k | k in r'.ifaces
      ensures FltTable(r'.ifaces[k].flt, r'.ifaces[k].numFlt, Flts(Out(E + {e}, F, k)))
      ensures HdrTable(r'.ifaces[k].hdr, Hdrs(In(E + {e}, F, k)))
    {
      AddArc(E, F, e, k);
    }
  }

  lemma InstallKeeps(E: set<Arc>, F: IfaceMap, r: Rules, a: Key, b: Key)
    requires SlotInv(E, F, r) && Obliging(r) && At(F, a) in r.ifaces && At(F, b) in r.ifaces
    requires |Out(E, F, At(F, a))| < MAX_OFFLOAD_PAIR && |In(E, F, At(F, b))| < MAX_OFFLOAD_PAIR
    ensures var (r', hs) := Install(r, At(F, a), At(F, b));
            && hs.Some? && r'.ifaces.Keys == r.ifaces.Keys
            && (a, Link(b, hs.value)) !in E
            && SlotInv(E + {(a, Link(b, hs.value))}, F, r')
  {
    var i, j := At(F, a), At(F, b);
    var X, Y := Out(E, F, i), In(E, F, j);
    assert Hdrs(Y) <= r.hdrs;
    HandleCards(X);
    HandleCards(Y);
    hide Install, Obliging, FltTable, HdrTable, OwnHandles, Flts, Hdrs, Rts, In, Out;
    InstallResult(r, i, j, Flts(X), Hdrs(Y));
    var (r', hs) := Install(r, i, j);
    var e := (a, Link(b, hs.value));
    AddSets(E, e);
    FreshArc(E, F, e);
    TablesAdd(E, F, r, r', e);
  }

  lemma NotFullHdr(t: seq<Slot>, H: set<Handle>)
    requires HdrTable(t, H) && |H| < MAX_OFFLOAD_PAIR
    ensures FirstFree(t) < |t|
  {
    NotFull(t);
  }

  lemma FreshArc(E: set<Arc>, F: IfaceMap, e: Arc)
    requires OwnHandles(E, F)
    requires e.1.hs.hdr !in Hdrs(E) && e.1.hs.rt !in Rts(E) && e.1.hs.flt !in Flts(Out(E, F, At(F, e.0)))
    ensures OwnHandles(E + {e}, F) && e !in E
  {
    forall f | f in E
      ensures f.1.hs.hdr != e.1.hs.hdr && f.1.hs.rt != e.1.hs.rt
      ensures At(F, f.0) == At(F, e.0) ==> f.1.hs.flt != e.1.hs.flt
    {
      assert f.1.hs.hdr in Hdrs(E) && f.1.hs.rt in Rts(E);
      if At(F, f.0) == At(F, e.0) {
        assert f in Out(E, F, At(F, e.0));
      }
    }
  }

  /** r' is r without one filter rule of interface i and one header of interface j. */
  ghost predicate Uninstalled(r: Rules, r': Rules, i: IfaceId, j: IfaceId, hs: Handles, Hf: set<Handle>, Hh: set<Handle>) {
    && i in r.ifaces && j in r.ifaces && r'.ifaces.Keys == r.ifaces.Keys
    && r'.hdrs == r.hdrs - {hs.hdr} && r'.rts == r.rts - {hs.rt}
    && FltTable(r'.ifaces[i].flt, r'.ifaces[i].numFlt, Hf - {hs.flt})
    && HdrTable(r'.ifaces[j].hdr, Hh - {hs.hdr})
    && (forall k :: k in r.ifaces && k != i ==>
          r'.ifaces[k].flt == r.ifaces[k].flt && r'.ifaces[k].numFlt == r.ifaces[k].numFlt)
    && (forall k :: k in r.ifaces && k != j ==> r'.ifaces[k].hdr == r.ifaces[k].hdr)
  }

  /** When the next three calls are carried out, a link's rules are found and go. */
  lemma RemoveResult(r: Rules, i: IfaceId, j: IfaceId, hs: Handles, Hf: set<Handle>, Hh: set<Handle>)
    requires Accepts(r, 3) && i in r.ifaces && j in r.ifaces
    requires FltTable(r.ifaces[i].flt, r.ifaces[i].numFlt, Hf) && HdrTable(r.ifaces[j].hdr, Hh)
    requires hs.flt in Hf && hs.hdr in Hh && Hh <= r.hdrs && hs.rt in r.rts
    ensures Remove(r, i, j, hs).1 && Uninstalled(r, Remove(r, i, j, hs).0, i, j, hs, Hf, Hh)
    ensures Remove(r, i, j, hs).0.pos == r.pos + 3
  {
    FltDel(r.ifaces[i].flt, r.ifaces[i].numFlt, Hf, hs.flt);
    HdrDel(r.ifaces[j].hdr, Hh, hs.hdr);
    hide FltTable, HdrTable;
    assert r.script(r.pos).Done? && r.script(r.pos + 1).Done? && r.script(r.pos + 2).Done?;
  }

  lemma TablesDrop(E: set<Arc>, F: IfaceMap, r: Rules, r': Rules, e: Arc)
    requires TablesOk(E, F, r) && OwnHandles(E, F) && e in E
    requires Uninstalled(r, r', At(F, e.0), At(F, e.1.ptr), e.1.hs,
                         Flts(Out(E, F, At(F, e.0))), Hdrs(In(E, F, At(F, e.1.ptr))))
    ensures TablesOk(E - {e}, F, r')
  {
    hide FltTable, HdrTable, Flts, Hdrs, In, Out, OwnHandles;
    forall k | k in r'.ifaces
      ensures FltTable(r'.ifaces[k].flt, r'.ifaces[k].numFlt, Flts(Out(E - {e}, F, k)))
      ensures HdrTable(r'.ifaces[k].hdr, Hdrs(In(E - {e}, F, k)))
    {
      DropArc(E, F, e, k);
    }
  }

  lemma ArcHandles(E: set<Arc>, F: IfaceMap, e: Arc)
    requires e in E
    ensures e.1.hs.flt in Flts(Out(E, F, At(F, e.0)))
    ensures e.1.hs.hdr in Hdrs(In(E, F, At(F, e.1.ptr))) && Hdrs(In(E, F, At(F, e.1.ptr))) <= Hdrs(E)
    ensures e.1.hs.rt in Rts(E)
  {
    assert e in Out(E, F, At(F, e.0)) && e in In(E, F, At(F, e.1.ptr));
  }

  /** An arc's rules are where the tables say, so three calls that are carried out remove them. */
  lemma RemoveKeepsSlots(E: set<Arc>, F: IfaceMap, r: Rules, e: Arc)
    requires SlotInv(E, F, r) && Accepts(r, 3) && e in E
    requires At(F, e.0) in r.ifaces && At(F, e.1.ptr) in r.ifaces
    ensures var (r', ok) := Remove(r, At(F, e.0), At(F, e.1.ptr), e.1.hs);
            && ok && r'.ifaces.Keys == r.ifaces.Keys && r'.pos == r.pos + 3
            && SlotInv(E - {e}, F, r')
  {
    var i, j := At(F, e.0), At(F, e.1.ptr);
    DropArc(E, F, e, i);
    ArcHandles(E, F, e);
    hide Remove, FltTable, HdrTable, Flts, Hdrs, Rts, In, Out, Accepts;
    RemoveResult(r, i, j, e.1.hs, Flts(Out(E, F, i)), Hdrs(In(E, F, j)));
    TablesDrop(E, F, r, Remove(r, i, j, e.1.hs).0, e);
  }

  // ---- The pair cap leaves room --------------------------------------------------------

  ghost predicate SimpleT(L: LinkTable) { forall a, b :: M(L, a, b) <= 1 }

  ghost predicate CrossT(L: LinkTable, F: IfaceMap) {
    forall a, b :: M(L, a, b) > 0 ==> At(F, a) != At(F, b)
  }

  lemma {:induction false} OneEach(ls: seq<Link>, l: Link, m: Link)
    requires l in ls && m in ls && l.ptr == m.ptr && Mult(ls, l.ptr) <= 1
    ensures l == m
  {
    if ls[0].ptr == l.ptr {
      if ls[0] != l { MultIn(ls[1..], l); }
      if ls[0] != m { MultIn(ls[1..], m); }
    } else {
      OneEach(ls[1..], l, m);
    }
  }

  function Row(a: Key, ls: seq<Link>): set<Arc> { set l | l in ls :: (a, l) }

  lemma {:induction false} RowCard(a: Key, ls: seq<Link>)
    requires forall k :: Mult(ls, k) <= 1
    ensures |Row(a, ls)| == |ls|
  {
    if ls == [] { return; }
    forall k ensures Mult(ls[1..], k) <= 1 { assert Mult(ls, k) <= 1; }
    RowCard(a, ls[1..]);
    assert Row(a, ls) == Row(a, ls[1..]) + {(a, ls[0])};
    assert ls[0] !in ls[1..] by {
      assert Mult(ls, ls[0].ptr) <= 1;
      if ls[0] in ls[1..] { MultIn(ls[1..], ls[0]); }
    }
  }

  /** In a simple graph the stored links are as many as the list entries. */
  lemma {:induction false} ArcsCard(L: LinkTable)
    requires SimpleT(L)
    ensures |Arcs(L)| == Total(L)
    decreases |L.Keys|
  {
    if k :| k in L.Keys {
      var L' := L - {k};
      forall a, b ensures M(L', a, b) <= 1 { assert M(L, a, b) <= 1; }
      forall x ensures Mult(L[k], x) <= 1 { assert M(L, k, x) <= 1; }
      ArcsCard(L');
      RowCard(k, L[k]);
      TotalSplit(L, k);
      assert Arcs(L) == Arcs(L') + Row(k, L[k]);
    } else {
      assert Arcs(L) == {};
    }
  }

  lemma {:induction false} InjectionCard<T>(X: set<T>, Y: set<T>, f: T -> T)
    requires forall x :: x in X ==> f(x) in Y
    requires forall x, y :: x in X && y in X && f(x) == f(y) ==> x == y
    ensures |X| <= |Y|
  {
    if x :| x in X {
      InjectionCard(X - {x}, Y - {f(x)}, f);
    }
  }

  /** The same pair's link stored at the other end. */
  function Rev(L: LinkTable, e: Arc): Arc {
    var b := e.1.ptr;
    if b in L && FindLink(L[b], e.0) < |L[b]| then (b, L[b][FindLink(L[b], e.0)]) else e
  }

  lemma RevArc(L: LinkTable, pairs: nat, e: Arc)
    requires Sym(L, pairs) && e in Arcs(L)
    ensures Rev(L, e) in Arcs(L) && Rev(L, e).0 == e.1.ptr && Rev(L, e).1.ptr == e.0
    ensures M(L, e.0, e.1.ptr) > 0
  {
    MultIn(L[e.0], e.1);
    assert M(L, e.0, e.1.ptr) == M(L, e.1.ptr, e.0);
    MultFind(L[e.1.ptr], e.0);
  }

  lemma RevInjective(L: LinkTable, pairs: nat, e: Arc, f: Arc)
    requires Sym(L, pairs) && SimpleT(L) && e in Arcs(L) && f in Arcs(L) && Rev(L, e) == Rev(L, f)
    ensures e == f
  {
    RevArc(L, pairs, e);
    RevArc(L, pairs, f);
    assert M(L, e.0, e.1.ptr) <= 1;
    OneEach(L[e.0], e.1, f.1);
  }

  /** rev takes arc e to an arc stored by e's peer, on another interface. */
  ghost predicate Tie(E: set<Arc>, F: IfaceMap, rev: Arc -> Arc, e: Arc) {
    rev(e) in E && rev(e).0 == e.1.ptr && rev(e).1.ptr == e.0 && At(F, e.0) != At(F, e.1.ptr)
  }

  lemma HalfOut(E: set<Arc>, F: IfaceMap, i: IfaceId, rev: Arc -> Arc)
    requires forall e {:trigger Tie(E, F, rev, e)} :: e in E ==> Tie(E, F, rev, e)
    requires forall e, f :: e in E && f in E && rev(e) == rev(f) ==> e == f
    ensures |In(E, F, i)| <= |Out(E, F, i)| && 2 * |Out(E, F, i)| <= |E|
  {
    var X, Y := Out(E, F, i), In(E, F, i);
    forall e | e in X ensures rev(e) in E - X { assert Tie(E, F, rev, e); }
    forall e | e in Y ensures rev(e) in X { assert Tie(E, F, rev, e); }
    InjectionCard(X, E - X, rev);
    InjectionCard(Y, X, rev);
    assert |E - X| == |E| - |X|;
  }

  /** Below the cap every interface has a free filter slot and a free header slot. */
  lemma Roomy(L: LinkTable, F: IfaceMap, pairs: nat, i: IfaceId)
    requires Sym(L, pairs) && SimpleT(L) && CrossT(L, F)
    ensures |In(Arcs(L), F, i)| <= |Out(Arcs(L), F, i)| <= pairs
  {
    var E := Arcs(L);
    var rev := (e: Arc) => Rev(L, e);
    forall e | e in E ensures Tie(E, F, rev, e) {
      RevArc(L, pairs, e);
    }
    ArcsCard(L);
    assert |E| == 2 * pairs;
    hide SimpleT, Rev, Arcs, Sym, CrossT, Tie;
    forall e, f | e in E && f in E && rev(e) == rev(f) ensures e == f {
      RevInjective(L, pairs, e, f);
    }
    HalfOut(E, F, i, rev);
  }

  // ---- Adding and dropping a pair ------------------------------------------------------

  /** A simple graph across interfaces, matched by the rule tables. */
  ghost predicate Fit(L: LinkTable, pairs: nat, F: IfaceMap, r: Rules) {
    && L.Keys == F.Keys
    && (forall k :: k in F ==> F[k] in r.ifaces)
    && Sym(L, pairs) && SimpleT(L) && CrossT(L, F)
    && SlotInv(Arcs(L), F, r)
  }

  ghost predicate Good(L: LinkTable, pairs: nat, F: IfaceMap, r: Rules) { Fit(L, pairs, F, r) && Obliging(r) }

  lemma ArcsAppend(L: LinkTable, a: Key, l: Link)
    requires a in L
    ensures Arcs(L[a := L[a] + [l]]) == Arcs(L) + {(a, l)}
  {
    var Q := L[a := L[a] + [l]];
    assert l in Q[a];
    forall e | e in Arcs(L) ensures e in Arcs(Q) {
      assert e.1 in Q[e.0];
    }
  }

  lemma ArcsRemove(L: LinkTable, a: Key, j: nat)
    requires a in L && j < |L[a]| && Mult(L[a], L[a][j].ptr) <= 1
    ensures Arcs(L[a := RemoveAt(L[a], j)]) == Arcs(L) - {(a, L[a][j])}
  {
    var ls, l := L[a], L[a][j];
    var us := RemoveAt(ls, j);
    MultRemove(ls, j, l.ptr);
    assert l !in us by { if l in us { MultIn(us, l); } }
    forall m | m in ls && m != l ensures m in us {
      var p :| 0 <= p < |ls| && ls[p] == m;
      assert p < j ==> us[p] == m;
      assert p > j ==> us[p - 1] == m;
    }
    forall m | m in us ensures m in ls {
      var p :| 0 <= p < |us| && us[p] == m;
      assert us[p] == if p < j then ls[p] else ls[p + 1];
    }
  }

  /** Both directions of one pair, the second in the state the first leaves. */
  function InstallBoth(r: Rules, i: IfaceId, j: IfaceId): (Rules, Option<Handles>, Option<Handles>) {
    var (r1, h1) := Install(r, i, j);
    var (r2, h2) := Install(r1, j, i);
    (r2, h1, h2)
  }

  /** The rule half of adding a pair: the second direction uses tables the first left alone. */
  lemma RulesAdd(E: set<Arc>, F: IfaceMap, r: Rules, a: Key, b: Key)
    requires SlotInv(E, F, r) && Obliging(r) && At(F, a) in r.ifaces && At(F, b) in r.ifaces
    requires At(F, a) != At(F, b)
    requires |Out(E, F, At(F, a))| < MAX_OFFLOAD_PAIR && |In(E, F, At(F, b))| < MAX_OFFLOAD_PAIR
    requires |Out(E, F, At(F, b))| < MAX_OFFLOAD_PAIR && |In(E, F, At(F, a))| < MAX_OFFLOAD_PAIR
    ensures var (r2, h1, h2) := InstallBoth(r, At(F, a), At(F, b));
            && h1.Some? && h2.Some? && r2.ifaces.Keys == r.ifaces.Keys
            && SlotInv(E + {(a, Link(b, h1.value))} + {(b, Link(a, h2.value))}, F, r2)
            && Obliging(r2)
  {
    hide Arcs, Install, SlotInv, Obliging, In, Out;
    InstallKeeps(E, F, r, a, b);
    var (r1, h1) := Install(r, At(F, a), At(F, b));
    var e1 := (a, Link(b, h1.value));
    OtherSide(E, F, e1);
    ScriptKept(r, At(F, a), At(F, b));
    InstallKeeps(E + {e1}, F, r1, b, a);
    ScriptKept(r1, At(F, b), At(F, a));
  }

  lemma SymAt(L: LinkTable, pairs: nat, a: Key, b: Key)
    requires Sym(L, pairs)
    ensures M(L, a, b) == M(L, b, a)
  {
  }

  lemma InArcs(L: LinkTable, a: Key, i: nat)
    requires a in L && i < |L[a]|
    ensures (a, L[a][i]) in Arcs(L)
  {
    assert L[a][i] in L[a];
  }

  lemma GoodAdd(L: LinkTable, pairs: nat, F: IfaceMap, r: Rules, a: Key, b: Key)
    requires Good(L, pairs, F, r) && a in L && b in L && pairs < MAX_OFFLOAD_PAIR
    requires M(L, a, b) == 0 && At(F, a) != At(F, b)
    ensures var (r2, h1, h2) := InstallBoth(r, At(F, a), At(F, b));
            && h1.Some? && h2.Some?
            && Good(L[a := L[a] + [Link(b, h1.value)]][b := L[b] + [Link(a, h2.value)]], pairs + 1, F, r2)
  {
    hide Arcs, InstallBoth, SlotInv, Obliging, Sym, SimpleT, CrossT, M, In, Out;
    Roomy(L, F, pairs, At(F, a));
    Roomy(L, F, pairs, At(F, b));
    SymAt(L, pairs, a, b);
    RulesAdd(Arcs(L), F, r, a, b);
    var (r2, h1, h2) := InstallBoth(r, At(F, a), At(F, b));
    GrowGraph(L, pairs, F, a, b, Link(b, h1.value), Link(a, h2.value));
  }

  lemma ScriptKept(r: Rules, i: IfaceId, j: IfaceId)
    requires Obliging(r)
    ensures Obliging(Install(r, i, j).0)
    ensures forall hs :: Obliging(Remove(r, i, j, hs).0)
  {
  }

  lemma OtherSide(E: set<Arc>, F: IfaceMap, e: Arc)
    requires At(F, e.0) != At(F, e.1.ptr)
    ensures Out(E + {e}, F, At(F, e.1.ptr)) == Out(E, F, At(F, e.1.ptr))
    ensures In(E + {e}, F, At(F, e.0)) == In(E, F, At(F, e.0))
  {
  }

  /** The graph half of adding a pair. */
  lemma GrowGraph(L: LinkTable, pairs: nat, F: IfaceMap, a: Key, b: Key, l1: Link, l2: Link)
    requires Sym(L, pairs) && SimpleT(L) && CrossT(L, F) && a in L && b in L && pairs < MAX_OFFLOAD_PAIR
    requires l1.ptr == b && l2.ptr == a && M(L, a, b) == M(L, b, a) == 0 && At(F, a) != At(F, b)
    ensures var Q := L[a := L[a] + [l1]][b := L[b] + [l2]];
            && Sym(Q, pairs + 1) && SimpleT(Q) && CrossT(Q, F)
            && Arcs(Q) == Arcs(L) + {(a, l1)} + {(b, l2)}
  {
    ArcsAppend(L, a, l1);
    ArcsAppend(L[a := L[a] + [l1]], b, l2);
    hide Sym, M, Arcs;
    AddPair(L, pairs, a, b, l1, l2);
    var Q := L[a := L[a] + [l1]][b := L[b] + [l2]];
    forall x, y ensures M(Q, x, y) <= 1 && (M(Q, x, y) > 0 ==> At(F, x) != At(F, y)) {
      assert M(L, x, y) <= 1;
    }
  }

  lemma ShrinkGraph(L: LinkTable, pairs: nat, F: IfaceMap, a: Key, b: Key, i: nat, j: nat)
    requires Sym(L, pairs) && SimpleT(L) && CrossT(L, F) && a in L && b in L && a != b
    requires i < |L[a]| && L[a][i].ptr == b && j < |L[b]| && L[b][j].ptr == a
    ensures pairs > 0
    ensures var Q := L[a := RemoveAt(L[a], i)][b := RemoveAt(L[b], j)];
            && Sym(Q, pairs - 1) && SimpleT(Q) && CrossT(Q, F)
            && Arcs(Q) == Arcs(L) - {(a, L[a][i])} - {(b, L[b][j])}
  {
    assert M(L, a, b) <= 1 && M(L, b, a) <= 1;
    ArcsRemove(L, a, i);
    ArcsRemove(L[a := RemoveAt(L[a], i)], b, j);
    hide Sym, M, Arcs;
    DropPair(L, pairs, a, b, i, j);
    var Q := L[a := RemoveAt(L[a], i)][b := RemoveAt(L[b], j)];
    forall x, y ensures M(Q, x, y) <= 1 && (M(Q, x, y) > 0 ==> At(F, x) != At(F, y)) {
      assert M(Q, x, y) <= M(L, x, y) <= 1;
    }
  }

  function RemoveBoth(r: Rules, i: IfaceId, j: IfaceId, h1: Handles, h2: Handles): (Rules, bool) {
    var (r1, ok1) := Remove(r, i, j, h1);
    var (r2, ok2) := Remove(r1, j, i, h2);
    (r2, ok1 && ok2)
  }

  lemma RulesDrop(E: set<Arc>, F: IfaceMap, r: Rules, e1: Arc, e2: Arc)
    requires SlotInv(E, F, r) && Accepts(r, 6) && e1 in E && e2 in E && e1 != e2
    requires At(F, e1.0) in r.ifaces && At(F, e2.0) in r.ifaces && e1.1.ptr == e2.0 && e2.1.ptr == e1.0
    ensures var (r2, ok) := RemoveBoth(r, At(F, e1.0), At(F, e2.0), e1.1.hs, e2.1.hs);
            && ok && r2.ifaces.Keys == r.ifaces.Keys && r2.pos == r.pos + 6 && r2.script == r.script
            && SlotInv(E - {e1} - {e2}, F, r2)
  {
    hide Arcs, Remove, SlotInv;
    RemoveKeepsSlots(E, F, r, e1);
    var r1 := Remove(r, At(F, e1.0), At(F, e2.0), e1.1.hs).0;
    RemoveKeepsSlots(E - {e1}, F, r1, e2);
  }

  /** Removing the two arcs' rules leaves tables that match Q. */
  ghost predicate DropsTo(Q: LinkTable, pairs: int, F: IfaceMap, r: Rules, e1: Arc, e2: Arc) {
    var (r2, ok) := RemoveBoth(r, At(F, e1.0), At(F, e2.0), e1.1.hs, e2.1.hs);
    ok && r2.pos == r.pos + 6 && r2.script == r.script && pairs >= 0 && Fit(Q, pairs, F, r2)
  }

  lemma FitDrop(L: LinkTable, pairs: nat, F: IfaceMap, r: Rules, a: Key, b: Key, i: nat, j: nat)
    requires Fit(L, pairs, F, r) && Accepts(r, 6) && a in L && b in L && a != b
    requires i < |L[a]| && L[a][i].ptr == b && j < |L[b]| && L[b][j].ptr == a
    ensures DropsTo(L[a := RemoveAt(L[a], i)][b := RemoveAt(L[b], j)], pairs - 1, F, r, (a, L[a][i]), (b, L[b][j]))
  {
    hide Arcs, RemoveBoth, SlotInv, Accepts, Sym, SimpleT, CrossT, RemoveAt;
    InArcs(L, a, i);
    InArcs(L, b, j);
    ShrinkGraph(L, pairs, F, a, b, i, j);
    RulesDrop(Arcs(L), F, r, (a, L[a][i]), (b, L[b][j]));
  }
}
