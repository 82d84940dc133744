/** IPACM_LanToLan and IPACM_Lan as objects that update their tables in place.  Every method is
    proved against the state function of the same name, so whatever is proved about runs of
    those functions holds of these objects. */
module LanToLanObjects {
  import opened Driver
  import opened LanRules
  import opened LanToLan

  /** The packet hardware: answers each rule call and keeps the installed headers and routes. */
  class Hardware {
    const script: nat -> Reply
    var pos: nat
    var hdrs: set<Handle>
    var rts: set<Handle>
    ghost var faults: nat

    constructor (script: nat -> Reply)
      ensures this.script == script && pos == 0 && hdrs == {} && rts == {} && faults == 0
    {
      this.script := script;
      pos, hdrs, rts, faults := 0, {}, {}, 0;
    }

    method NextReply() returns (reply: Reply)
      modifies this`pos
      ensures reply == script(old(pos)) && pos == old(pos) + 1
    {
      reply := script(pos);
      pos := pos + 1;
    }

    ghost method Fault()
      modifies this`faults
      ensures faults == old(faults) + 1
    {
      faults := faults + 1;
    }
  }

  /** One LAN interface's slot arrays. */
  class LanIface {
    const flt: array<Slot>
    const hdr: array<Slot>
    var numFlt: nat

    constructor (flt: array<Slot>, hdr: array<Slot>)
      ensures this.flt == flt && this.hdr == hdr && numFlt == 0
    {
      this.flt, this.hdr, numFlt := flt, hdr, 0;
    }

    ghost function Table(): Slots
      reads this, flt, hdr
    {
      Slots(flt[..], numFlt, hdr[..])
    }

    /** The rule state seen from this interface alone, under the name 0. */
    ghost function Local(hw: Hardware): Rules
      reads this, flt, hdr, hw
    {
      Rules(map[0 := Table()], hw.script, hw.pos, hw.hdrs, hw.rts, hw.faults)
    }

    static method FirstFreeSlot(a: array<Slot>) returns (i: nat)
      ensures i == FirstFree(a[..])
    {
      i := 0;
      while i < a.Length && a[i].valid
        invariant i <= a.Length
        invariant i + FirstFree(a[i..]) == FirstFree(a[..])
      {
        assert a[i..][1..] == a[i + 1..];
        i := i + 1;
      }
    }

    static method FirstSlotWith(a: array<Slot>, h: Handle) returns (i: nat)
      ensures i == FirstWith(a[..], h)
    {
      i := 0;
      while i < a.Length && a[i].hdl != h
        invariant i <= a.Length
        invariant i + FirstWith(a[i..], h) == FirstWith(a[..], h)
      {
        assert a[i..][1..] == a[i + 1..];
        i := i + 1;
      }
    }

    /** add_lan2lan_flt_rule */
    method AddFltRule(hw: Hardware) returns (res: Option<Handle>)
      requires flt != hdr
      modifies this, flt, hw
      ensures (Local(hw), res) == AddFlt(old(Local(hw)), 0)
    {
      var i := FirstFreeSlot(flt);
      var reply := hw.NextReply();
      if numFlt >= MAX_OFFLOAD_PAIR || i == flt.Length || !reply.Done? {
        hw.Fault();
        return None;
      }
      flt[i] := Slot(flt[i].hdl, true);
      numFlt := Inc8(numFlt);
      res := Some(flt[i].hdl);
      assert flt[..] == old(flt[..])[i := Slot(old(flt[i].hdl), true)];
      assert Local(hw).ifaces == old(Local(hw)).ifaces[0 := Table()];
    }

    /** del_lan2lan_flt_rule */
    method DelFltRule(hw: Hardware, h: Handle) returns (ok: bool)
      requires flt != hdr
      modifies this, flt, hw
      ensures (Local(hw), ok) == DelFlt(old(Local(hw)), 0, h)
    {
      var i := FirstSlotWith(flt, h);
      var reply := hw.NextReply();
      if i == flt.Length || !reply.Done? {
        hw.Fault();
        return false;
      }
      flt[i] := Slot(h, false);
      numFlt := Dec8(numFlt);
      ok := true;
      assert flt[..] == old(flt[..])[i := Slot(h, false)];
      assert Local(hw).ifaces == old(Local(hw)).ifaces[0 := Table()];
    }

    /** add_lan2lan_hdr: the slot is marked valid before the header is added. */
    method AddHeader(hw: Hardware) returns (res: Option<Handle>)
      requires flt != hdr
      modifies this, hdr, hw
      ensures (Local(hw), res) == AddHdr(old(Local(hw)), 0)
    {
      var reply := hw.NextReply();
      if reply.Refused? {
        hw.Fault();
        return None;
      }
      var j := FirstFreeSlot(hdr);
      if j == hdr.Length {
        hw.Fault();
        return None;
      }
      hdr[j] := Slot(hdr[j].hdl, true);
      if reply.RefusedLate? {
        hw.Fault();
        assert hdr[..] == old(hdr[..])[j := Slot(old(hdr[j].hdl), true)];
        assert Local(hw).ifaces == old(Local(hw)).ifaces[0 := Table()];
        return None;
      }
      var h := Pick(hw.hdrs, reply.hint);
      hw.hdrs := hw.hdrs + {h};
      hdr[j] := Slot(h, true);
      res := Some(h);
      assert hdr[..] == old(hdr[..])[j := Slot(h, true)];
      assert Local(hw).ifaces == old(Local(hw)).ifaces[0 := Table()];
    }

    /** del_lan2lan_hdr */
    method DelHeader(hw: Hardware, h: Handle) returns (ok: bool)
      requires flt != hdr
      modifies this, hdr, hw
      ensures (Local(hw), ok) == DelHdr(old(Local(hw)), 0, h)
    {
      var reply := hw.NextReply();
      if !reply.Done? || h !in hw.hdrs {
        hw.Fault();
        return false;
      }
      hw.hdrs := hw.hdrs - {h};
      var i := FirstSlotWith(hdr, h);
      if i == hdr.Length {
        hw.Fault();
        return false;
      }
      hdr[i] := Slot(h, false);
      ok := true;
      assert hdr[..] == old(hdr[..])[i := Slot(h, false)];
      assert Local(hw).ifaces == old(Local(hw)).ifaces[0 := Table()];
    }
  }

  // ---- One interface's view lifted to all of them ---------------------------------------

  ghost function Alone(r: Rules, i: IfaceId): Rules
    requires i in r.ifaces
  {
    r.(ifaces := map[0 := r.ifaces[i]])
  }

  ghost function Back(r: Rules, i: IfaceId, one: Rules): Rules
    requires 0 in one.ifaces
  {
    one.(ifaces := r.ifaces[i := one.ifaces[0]])
  }

  lemma LiftFlt(r: Rules, i: IfaceId, h: Handle)
    requires i in r.ifaces
    ensures 0 in AddFlt(Alone(r, i), 0).0.ifaces && 0 in DelFlt(Alone(r, i), 0, h).0.ifaces
    ensures AddFlt(r, i) == (Back(r, i, AddFlt(Alone(r, i), 0).0), AddFlt(Alone(r, i), 0).1)
    ensures DelFlt(r, i, h) == (Back(r, i, DelFlt(Alone(r, i), 0, h).0), DelFlt(Alone(r, i), 0, h).1)
  {
    assert r.ifaces[i := r.ifaces[i]] == r.ifaces;
  }

  lemma LiftHdr(r: Rules, i: IfaceId, h: Handle)
    requires i in r.ifaces
    ensures 0 in AddHdr(Alone(r, i), 0).0.ifaces && 0 in DelHdr(Alone(r, i), 0, h).0.ifaces
    ensures AddHdr(r, i) == (Back(r, i, AddHdr(Alone(r, i), 0).0), AddHdr(Alone(r, i), 0).1)
    ensures DelHdr(r, i, h) == (Back(r, i, DelHdr(Alone(r, i), 0, h).0), DelHdr(Alone(r, i), 0, h).1)
  {
    assert r.ifaces[i := r.ifaces[i]] == r.ifaces;
  }

  // ---- The client table ----------------------------------------------------------------

  class ClientTable {
    var clients: map<Key, Client>
    var numOffloadPair: nat
    const ifaces: map<IfaceId, LanIface>
    const hw: Hardware
    ghost var wild: bool

    constructor (ifaces: map<IfaceId, LanIface>, hw: Hardware)
      ensures this.ifaces == ifaces && this.hw == hw && clients == map[] && numOffloadPair == 0 && !wild
    {
      this.ifaces, this.hw := ifaces, hw;
      clients, numOffloadPair, wild := map[], 0, false;
    }

    /** The objects behind the rule state. */
    ghost function HwFrame(): (f: set<object>)
      ensures this !in f && hw in f
    {
      {hw} + (set i | i in ifaces :: ifaces[i]) + (set i | i in ifaces :: ifaces[i].flt)
        + (set i | i in ifaces :: ifaces[i].hdr)
    }

    ghost function Frame(): set<object> { {this} + HwFrame() }

    /** Interfaces share no slot array. */
    ghost predicate Wired() {
      && (forall i :: i in ifaces ==> ifaces[i].flt != ifaces[i].hdr)
      && (forall i, j :: i in ifaces && j in ifaces && i != j ==>
            && ifaces[i] != ifaces[j] && ifaces[i].flt != ifaces[j].flt
            && ifaces[i].flt != ifaces[j].hdr && ifaces[i].hdr != ifaces[j].hdr)
    }

    /** Every client's interface pointer is one of the interfaces. */
    ghost predicate Homed()
      reads this
    {
      forall k :: k in clients ==> clients[k].iface in ifaces
    }

    ghost function RulesNow(): Rules
      reads HwFrame()
    {
      Rules(map i | i in ifaces :: ifaces[i].Table(), hw.script, hw.pos, hw.hdrs, hw.rts, hw.faults)
    }

    ghost function View(): State
      reads Frame()
    {
      State(clients, numOffloadPair, RulesNow(), wild)
    }

    /** Only interface i's arrays changed since the rule state was `before`. */
    lemma OneChanged(i: IfaceId, before: Rules)
      requires i in ifaces && before.ifaces.Keys == ifaces.Keys
      requires forall j :: j in ifaces && j != i ==> ifaces[j].Table() == before.ifaces[j]
      ensures RulesNow() == Back(before, i, ifaces[i].Local(hw))
    {
      assert RulesNow().ifaces == before.ifaces[i := ifaces[i].Table()];
    }

    lemma SeenAlone(i: IfaceId)
      requires i in ifaces
      ensures RulesNow().ifaces.Keys == ifaces.Keys
      ensures forall j :: j in ifaces ==> RulesNow().ifaces[j] == ifaces[j].Table()
      ensures ifaces[i].Local(hw) == Alone(RulesNow(), i)
    {
    }

    method AddFltRule(i: IfaceId) returns (res: Option<Handle>)
      requires Wired() && i in ifaces
      modifies HwFrame()
      ensures (RulesNow(), res) == AddFlt(old(RulesNow()), i)
    {
      hide AddFlt, DelFlt, RulesNow;
      SeenAlone(i);
      ghost var before := RulesNow();
      LiftFlt(RulesNow(), i, 0);
      res := ifaces[i].AddFltRule(hw);
      OneChanged(i, before);
    }
  
    method DelFltRule(i: IfaceId, h: Handle) returns (ok: bool)
      requires Wired() && i in ifaces
      modifies HwFrame()
      ensures (RulesNow(), ok) == DelFlt(old(RulesNow()), i, h)
    {
      hide AddFlt, DelFlt, RulesNow;
      SeenAlone(i);
      ghost var before := RulesNow();
      LiftFlt(RulesNow(), i, h);
      ok := ifaces[i].DelFltRule(hw, h);
      OneChanged(i, before);
    }

    method AddHeader(i: IfaceId) returns (res: Option<Handle>)
      requires Wired() && i in ifaces
      modifies HwFrame()
      ensures (RulesNow(), res) == AddHdr(old(RulesNow()), i)
    {
      hide AddHdr, DelHdr, RulesNow;
      SeenAlone(i);
      ghost var before := RulesNow();
      LiftHdr(RulesNow(), i, 0);
      res := ifaces[i].AddHeader(hw);
      OneChanged(i, before);
    }

    method DelHeader(i: IfaceId, h: Handle) returns (ok: bool)
      requires Wired() && i in ifaces
      modifies HwFrame()
      ensures (RulesNow(), ok) == DelHdr(old(RulesNow()), i, h)
    {
      hide AddHdr, DelHdr, RulesNow;
      SeenAlone(i);
      ghost var before := RulesNow();
      LiftHdr(RulesNow(), i, h);
      ok := ifaces[i].DelHeader(hw, h);
      OneChanged(i, before);
    }

    /** add_lan2lan_rt_rule, all or nothing */
    method AddRoute() returns (res: Option<Handle>)
      modifies hw
      ensures (RulesNow(), res) == AddRt(old(RulesNow()))
    {
      var reply := hw.NextReply();
      if !reply.Done? {
        hw.Fault();
        assert RulesNow().ifaces == old(RulesNow().ifaces);
        return None;
      }
      var h := Pick(hw.rts, reply.hint);
      hw.rts := hw.rts + {h};
      res := Some(h);
      assert RulesNow().ifaces == old(RulesNow().ifaces);
    }

    method DelRoute(h: Handle) returns (ok: bool)
      modifies hw
      ensures (RulesNow(), ok) == DelRt(old(RulesNow()), h)
    {
      var reply := hw.NextReply();
      if !reply.Done? || h !in hw.rts {
        hw.Fault();
        assert RulesNow().ifaces == old(RulesNow().ifaces);
        return false;
      }
      hw.rts := hw.rts - {h};
      ok := true;
      assert RulesNow().ifaces == old(RulesNow().ifaces);
    }

    method InstallRules(own: IfaceId, peer: IfaceId) returns (res: Option<Handles>)
      requires Wired() && own in ifaces && peer in ifaces
      modifies HwFrame()
      ensures (RulesNow(), res) == Install(old(RulesNow()), own, peer)
    {
      hide AddHdr, DelHdr, AddRt, DelRt, AddFlt, RulesNow, HwFrame, Wired;
      res := None;
      var hdr := AddHeader(peer);
      if hdr.None? { return; }
      var rt := AddRoute();
      if rt.None? {
        var undone := DelHeader(peer, hdr.value);
        return;
      }
      var flt := AddFltRule(own);
      if flt.None? {
        var undone := DelRoute(rt.value);
        undone := DelHeader(peer, hdr.value);
        return;
      }
      res := Some(Handles(flt.value, rt.value, hdr.value));
    }

    /** del_offload_link */
    method RemoveRules(own: IfaceId, peer: IfaceId, hs: Handles) returns (ok: bool)
      requires Wired() && own in ifaces && peer in ifaces
      modifies HwFrame()
      ensures (RulesNow(), ok) == Remove(old(RulesNow()), own, peer, hs)
    {
      hide DelHdr, DelRt, DelFlt, RulesNow, HwFrame, Wired;
      var ok1 := DelFltRule(own, hs.flt);
      var ok2 := DelRoute(hs.rt);
      var ok3 := DelHeader(peer, hs.hdr);
      ok := ok1 && ok2 && ok3;
    }

    // ---- Link lists --------------------------------------------------------------------

    /** The search loops over link lists. */
    method IndexOfLink(ls: seq<Link>, k: Key) returns (i: nat)
      ensures i == FindLink(ls, k)
      ensures View() == old(View())
    {
      i := 0;
      while i < |ls| && ls[i].ptr != k
        invariant i <= |ls|
        invariant i + FindLink(ls[i..], k) == FindLink(ls, k)
      {
        assert ls[i..][1..] == ls[i + 1..];
        i := i + 1;
      }
    }

    /** add_offload_link */
    method AddOffloadLink(a: Key, b: Key) returns (ok: bool)
      requires Wired() && Homed() && a in clients && b in clients
      modifies Frame()
      ensures Homed() && clients.Keys == old(clients).Keys
      ensures (View(), ok) == AddLink(old(View()), a, b)
    {
      hide Install, RulesNow, HwFrame, Wired;
      if numOffloadPair >= MAX_OFFLOAD_PAIR { return false; }
      var hs := InstallRules(clients[a].iface, clients[b].iface);
      if hs.None? { return false; }
      clients := SetLinks(clients, a, clients[a].links + [Link(b, hs.value)]);
      ok := true;
    }

    /** One round of check_potential_link's loop. */
    method AddBothLinks(a: Key, b: Key)
      requires Wired() && Homed() && a in clients && b in clients
      modifies Frame()
      ensures Homed() && clients.Keys == old(clients).Keys
      ensures View() == LinkBoth(old(View()), a, b)
    {
      hide AddLink, RulesNow, HwFrame, Wired;
      var res := AddOffloadLink(a, b);
      res := AddOffloadLink(b, a);
      if res { numOffloadPair := Inc8(numOffloadPair); }
    }

    method OfferPeer(a: Key, p: Peer) returns (ok: bool)
      requires Wired() && Homed() && a in clients
      modifies Frame()
      ensures Homed() && clients.Keys == old(clients).Keys
      ensures (View(), ok) == CheckOne(old(View()), a, p)
    {
      hide LinkBoth, RulesNow, HwFrame, Wired;
      if p.ptr !in clients {
        wild := true;
        return false;
      }
      if clients[p.ptr].active && p.num > 0 { AddBothLinks(a, p.ptr); }
      ok := true;
    }

    /** check_potential_link */
    method CheckPotentialLink(a: Key)
      requires Wired() && Homed() && a in clients
      modifies Frame()
      ensures Homed() && clients.Keys == old(clients).Keys
      ensures View() == CheckPotential(old(View()), a, old(clients[a].peers))
    {
      hide CheckOne, RulesNow, HwFrame, Wired;
      var todo := clients[a].peers;
      var n := 0;
      while n < |todo|
        invariant n <= |todo| && Homed() && clients.Keys == old(clients).Keys
        invariant CheckPotential(View(), a, todo[n..]) == CheckPotential(old(View()), a, todo)
        decreases |todo| - n
      {
        assert todo[n..][1..] == todo[n + 1..];
        var ok := OfferPeer(a, todo[n]);
        if !ok { return; }
        n := n + 1;
      }
    }

    /** One round of turnoff_offload_links' loop. */
    method TurnOffOneLink(a: Key, l: Link) returns (ok: bool)
      requires Wired() && Homed() && a in clients
      modifies Frame()
      ensures Homed() && clients.Keys == old(clients).Keys
      ensures (View(), ok) == TurnOffOne(old(View()), a, l)
    {
      hide Remove, RulesNow, HwFrame, Wired;
      var b := l.ptr;
      if b !in clients {
        wild := true;
        return false;
      }
      ok := RemoveRules(clients[a].iface, clients[b].iface, l.hs);
      if !ok { return; }
      var j := IndexOfLink(clients[b].links, a);
      if j == |clients[b].links| { return false; }
      ok := RemoveRules(clients[b].iface, clients[a].iface, clients[b].links[j].hs);
      if !ok { return; }
      clients := SetLinks(clients, b, RemoveAt(clients[b].links, j));
      numOffloadPair := Dec8(numOffloadPair);
    }

    /** turnoff_offload_links */
    method TurnOffOffloadLinks(a: Key) returns (ok: bool)
      requires Wired() && Homed() && a in clients
      modifies Frame()
      ensures Homed() && clients.Keys == old(clients).Keys
      ensures (View(), ok) == TurnOff(old(View()), a, old(clients[a].links))
    {
      hide TurnOffOne, RulesNow, HwFrame, Wired;
      var todo := clients[a].links;
      var n := 0;
      while n < |todo|
        invariant n <= |todo| && Homed() && clients.Keys == old(clients).Keys
        invariant TurnOff(View(), a, todo[n..]) == TurnOff(old(View()), a, todo)
        decreases |todo| - n
      {
        assert todo[n..][1..] == todo[n + 1..];
        ok := TurnOffOneLink(a, todo[n]);
        if !ok { return; }
        n := n + 1;
      }
      clients := SetLinks(clients, a, []);
      ok := true;
    }
  
    method EraseHalfLink(a: Key, b: Key) returns (ok: bool)
      requires Wired() && Homed() && a in clients && b in clients
      modifies Frame()
      ensures Homed() && clients.Keys == old(clients).Keys
      ensures (View(), ok) == EraseHalf(old(View()), a, b)
    {
      hide Remove, RulesNow, HwFrame, Wired;
      var j := IndexOfLink(clients[a].links, b);
      if j == |clients[a].links| { return false; }
      ok := RemoveRules(clients[a].iface, clients[b].iface, clients[a].links[j].hs);
      clients := SetLinks(clients, a, RemoveAt(clients[a].links, j));
    }

    /** erase_offload_link */
    method EraseOffloadLink(a: Key, b: Key)
      requires Wired() && Homed() && a in clients && b in clients
      modifies Frame()
      ensures Homed() && clients.Keys == old(clients).Keys
      ensures View() == EraseLinks(old(View()), a, b)
    {
      hide EraseHalf, RulesNow, HwFrame, Wired;
      var srcDone := EraseHalfLink(a, b);
      var dstDone := EraseHalfLink(b, a);
      if srcDone && dstDone { numOffloadPair := Dec8(numOffloadPair); }
    }

    // ---- Power save --------------------------------------------------------------------

    method RemoveFltPair(a: Key, l: Link) returns (ok: bool)
      requires Wired() && Homed() && a in clients
      modifies Frame()
      ensures Homed() && clients == old(clients)
      ensures (View(), ok) == RemoveFltOne(old(View()), a, l)
    {
      hide DelFlt, RulesNow, HwFrame, Wired;
      var done := DelFltRule(clients[a].iface, l.hs.flt);
      var b := l.ptr;
      if b !in clients {
        wild := true;
        return false;
      }
      var j := IndexOfLink(clients[b].links, a);
      if j == |clients[b].links| { return false; }
      done := DelFltRule(clients[b].iface, clients[b].links[j].hs.flt);
      ok := true;
    }

    /** remove_flt_rules */
    method RemoveFltRules(a: Key) returns (ok: bool)
      requires Wired() && Homed() && a in clients
      modifies Frame()
      ensures Homed() && clients == old(clients)
      ensures (View(), ok) == RemoveFlts(old(View()), a, clients[a].links)
    {
      hide RemoveFltOne, RulesNow, HwFrame, Wired;
      var todo := clients[a].links;
      var n := 0;
      while n < |todo|
        invariant n <= |todo| && Homed() && clients == old(clients)
        invariant RemoveFlts(View(), a, todo[n..]) == RemoveFlts(old(View()), a, todo)
        decreases |todo| - n
      {
        assert todo[n..][1..] == todo[n + 1..];
        ok := RemoveFltPair(a, todo[n]);
        if !ok { return; }
        n := n + 1;
      }
      ok := true;
    }

    method AddFltPair(a: Key, i: nat) returns (ok: bool)
      requires Wired() && Homed() && a in clients && i < |clients[a].links|
      modifies Frame()
      ensures Homed() && clients.Keys == old(clients).Keys
      ensures (View(), ok) == AddFltRound(old(View()), a, i)
    {
      hide AddFlt, RulesNow, HwFrame, Wired, FindLink, SetFlt, Shapes;
      var b := clients[a].links[i].ptr;
      if b !in clients {
        wild := true;
        return false;
      }
      var h1 := AddFltRule(clients[a].iface);
      if h1.None? { return false; }
      clients := SetLinks(clients, a, SetFlt(clients[a].links, i, h1.value));
      var j := IndexOfLink(clients[b].links, a);
      if j == |clients[b].links| { return false; }
      var h2 := AddFltRule(clients[b].iface);
      if h2.None? { return false; }
      clients := SetLinks(clients, b, SetFlt(clients[b].links, j, h2.value));
      ok := true;
    }

    /** add_flt_rules */
    method AddFltRules(a: Key) returns (ok: bool)
      requires Wired() && Homed() && a in clients
      modifies Frame()
      ensures Homed() && clients.Keys == old(clients).Keys
      ensures (View(), ok) == AddFlts(old(View()), a, 0)
    {
      hide AddFltRound, RulesNow, HwFrame, Wired;
      var i := 0;
      while i < |clients[a].links|
        invariant a in clients && clients.Keys == old(clients).Keys && Homed()
        invariant i <= |clients[a].links|
        invariant AddFlts(View(), a, i) == AddFlts(old(View()), a, 0)
        decreases |clients[a].links| - i
      {
        ok := AddFltPair(a, i);
        if !ok { return; }
        i := i + 1;
      }
      ok := true;
    }

    // ---- Peer lists --------------------------------------------------------------------

    /** The first entry for k, or the list's length. */
    static function FindPeer(ps: seq<Peer>, k: Key): (i: nat)
      ensures i <= |ps|
      ensures i < |ps| ==> ps[i].ptr == k
    {
      if ps == [] || ps[0].ptr == k then 0 else 1 + FindPeer(ps[1..], k)
    }

    static lemma {:induction false} PeerFound(ps: seq<Peer>, k: Key)
      ensures FindPeer(ps, k) < |ps| <==> HasPeer(ps, k)
      ensures FindPeer(ps, k) < |ps| ==> Num(ps, k) == ps[FindPeer(ps, k)].num
    {
      if ps != [] {
        assert forall p :: p in ps <==> p == ps[0] || p in ps[1..];
        if ps[0].ptr == k { assert ps[0] in ps; } else { PeerFound(ps[1..], k); }
      }
    }

    static lemma CutLater(ps: seq<Peer>, i: nat)
      requires 0 < i < |ps|
      ensures ps[..i] + ps[i + 1..] == [ps[0]] + (ps[1..][..i - 1] + ps[1..][i..])
    {
    }

    static lemma {:induction false} PeerAdded(ps: seq<Peer>, k: Key)
      ensures var i := FindPeer(ps, k);
              AddPeer(ps, k) == if i < |ps| then ps[i := ps[i].(num := ps[i].num + 1)] else ps + [Peer(k, 1)]
    {
      if ps == [] { return; }
      var rest, i := ps[1..], FindPeer(ps, k);
      if i == 0 {
        assert ps[0 := ps[0].(num := ps[0].num + 1)] == [ps[0].(num := ps[0].num + 1)] + rest;
      } else {
        PeerAdded(rest, k);
        if i < |ps| {
          assert rest[i - 1] == ps[i];
          assert ps[i := ps[i].(num := ps[i].num + 1)] == [ps[0]] + rest[i - 1 := ps[i].(num := ps[i].num + 1)];
        } else {
          assert ps + [Peer(k, 1)] == [ps[0]] + (rest + [Peer(k, 1)]);
        }
      }
    }

    static lemma {:induction false} PeerErased(ps: seq<Peer>, k: Key)
      ensures var i := FindPeer(ps, k);
              ErasePeer(ps, k) == if i < |ps| then ps[..i] + ps[i + 1..] else ps
    {
      if ps == [] { return; }
      var rest, i := ps[1..], FindPeer(ps, k);
      if i > 0 {
        PeerErased(rest, k);
        if i < |ps| { CutLater(ps, i); }
      }
    }

    static lemma {:induction false} PeerDropped(ps: seq<Peer>, k: Key)
      ensures var i := FindPeer(ps, k);
              DropPeer(ps, k) ==
              if i == |ps| then ps
              else if ps[i].num == 1 then ps[..i] + ps[i + 1..]
              else ps[i := ps[i].(num := ps[i].num - 1)]
    {
      if ps == [] { return; }
      var rest, i := ps[1..], FindPeer(ps, k);
      if i == 0 {
        assert ps[0 := ps[0].(num := ps[0].num - 1)] == [ps[0].(num := ps[0].num - 1)] + rest;
      } else {
        PeerDropped(rest, k);
        if i < |ps| {
          assert rest[i - 1] == ps[i];
          assert ps[i := ps[i].(num := ps[i].num - 1)] == [ps[0]] + rest[i - 1 := ps[i].(num := ps[i].num - 1)];
          CutLater(ps, i);
        }
      }
    }

    /** The search loops over peer lists. */
    method IndexOfPeer(ps: seq<Peer>, k: Key) returns (i: nat)
      ensures i == FindPeer(ps, k)
      ensures View() == old(View())
    {
      i := 0;
      while i < |ps| && ps[i].ptr != k
        invariant i <= |ps|
        invariant i + FindPeer(ps[i..], k) == FindPeer(ps, k)
      {
        assert ps[i..][1..] == ps[i + 1..];
        i := i + 1;
      }
    }

    /** One side of add_connection: true when the entry is new. */
    method CountUpPeer(a: Key, b: Key) returns (added: bool)
      requires a in clients
      modifies this`clients
      ensures clients == SetPeers(old(clients), a, AddPeer(old(clients[a].peers), b))
      ensures added == !HasPeer(old(clients[a].peers), b)
    {
      var ps := clients[a].peers;
      var i := IndexOfPeer(ps, b);
      PeerFound(ps, b);
      PeerAdded(ps, b);
      hide AddPeer, HasPeer, FindPeer, RulesNow, HwFrame;
      added := i == |ps|;
      clients := SetPeers(clients, a, if added then ps + [Peer(b, 1)] else ps[i := ps[i].(num := ps[i].num + 1)]);
    }

    /** add_connection */
    method AddPeers(a: Key, b: Key) returns (first: bool)
      requires a in clients && b in clients && Homed()
      modifies this`clients
      ensures Homed() && clients.Keys == old(clients).Keys
      ensures (View(), first) == var (cs, isNew) := AddConnection(old(clients), a, b); (old(View()).(clients := cs), isNew)
    {
      hide RulesNow, AddPeer, HasPeer;
      assert this !in HwFrame();
      var srcNew := CountUpPeer(a, b);
      var dstNew := CountUpPeer(b, a);
      first := srcNew || dstNew;
      HomedBare(old(clients));
    }

    static lemma SetSamePeers(cs: map<Key, Client>, k: Key)
      requires k in cs
      ensures SetPeers(cs, k, cs[k].peers) == cs
    {
    }

    /** One side of remove_connection: true when the entry went. */
    method CountDownPeer(a: Key, b: Key) returns (gone: bool)
      requires a in clients
      modifies this`clients
      ensures clients == SetPeers(old(clients), a, DropPeer(old(clients[a].peers), b))
      ensures gone == (HasPeer(old(clients[a].peers), b) && Num(old(clients[a].peers), b) == 1)
    {
      hide DropPeer, HasPeer, FindPeer, Num, RulesNow, HwFrame, SetPeers;
      var ps := clients[a].peers;
      var i := IndexOfPeer(ps, b);
      PeerFound(ps, b);
      PeerDropped(ps, b);
      if i == |ps| {
        SetSamePeers(clients, a);
        return false;
      }
      gone := ps[i].num == 1;
      clients := SetPeers(clients, a, if gone then ps[..i] + ps[i + 1..] else ps[i := ps[i].(num := ps[i].num - 1)]);
    }

    /** remove_connection */
    method RemovePeers(a: Key, b: Key) returns (last: bool)
      requires a in clients && b in clients && Homed()
      modifies this`clients
      ensures Homed() && clients.Keys == old(clients).Keys
      ensures (View(), last) == var (cs, gone) := RemoveConnection(old(clients), a, b); (old(View()).(clients := cs), gone)
    {
      hide RulesNow, DropPeer, HasPeer, Num;
      assert this !in HwFrame();
      last := CountDownPeer(a, b);
      last := CountDownPeer(b, a);
      HomedBare(old(clients));
    }

    method ClearOnePeer(a: Key, p: Peer) returns (ok: bool)
      requires a in clients && Homed()
      modifies this`clients, this`wild
      ensures Homed() && clients.Keys == old(clients).Keys
      ensures (View(), ok) == ClearOne(old(View()), a, p)
    {
      hide RulesNow, HwFrame, ErasePeer, HasPeer, FindPeer;
      assert this !in HwFrame();
      var b := p.ptr;
      if b !in clients {
        wild := true;
        return false;
      }
      var ps := clients[b].peers;
      var j := IndexOfPeer(ps, a);
      PeerFound(ps, a);
      PeerErased(ps, a);
      if j == |ps| { return false; }
      clients := SetPeers(clients, b, ps[..j] + ps[j + 1..]);
      HomedBare(old(clients));
      ok := true;
    }

    /** clear_peer_list */
    method ClearPeerList(a: Key) returns (ok: bool)
      requires a in clients && Homed()
      modifies this`clients, this`wild
      ensures Homed() && clients.Keys == old(clients).Keys
      ensures (View(), ok) == ClearPeers(old(View()), a, old(clients[a].peers))
    {
      hide RulesNow, HwFrame, ClearOne;
      assert this !in HwFrame();
      var todo := clients[a].peers;
      var n := 0;
      while n < |todo|
        invariant n <= |todo| && Homed() && clients.Keys == old(clients).Keys
        invariant ClearPeers(View(), a, todo[n..]) == ClearPeers(old(View()), a, todo)
        decreases |todo| - n
      {
        assert todo[n..][1..] == todo[n + 1..];
        ok := ClearOnePeer(a, todo[n]);
        if !ok { return; }
        n := n + 1;
      }
      ghost var before := clients;
      clients := SetPeers(clients, a, []);
      HomedBare(before);
      ok := true;
    }
  
    // ---- Event handlers ----------------------------------------------------------------

    /** handle_client_active */
    method HandleClientActive(k: Key, mac: nat, iface: IfaceId)
      requires Wired() && Homed()
      modifies Frame()
      ensures Homed() && View() == HandleActive(old(View()), k, mac, iface)
    {
      hide RulesNow, HwFrame, Wired, TurnOff, ClearPeers, CheckPotential;
      KnownIfaces();
      if iface !in ifaces { return; }
      if k !in clients {
        clients := clients[k := Client(mac, true, false, iface, [], [])];
      } else if clients[k].active {
        if clients[k].mac == mac { return; }
        var done := TurnOffOffloadLinks(k);
        done := ClearPeerList(k);
        SetClientInfo(k, mac, iface);
      } else {
        SetClientInfo(k, mac, iface);
        CheckPotentialLink(k);
      }
    }

    lemma KnownIfaces()
      ensures RulesNow().ifaces.Keys == ifaces.Keys
    {
    }

    method SetClientInfo(k: Key, mac: nat, iface: IfaceId)
      requires Homed() && k in clients && iface in ifaces
      modifies this`clients
      ensures Homed() && clients.Keys == old(clients).Keys
      ensures View() == SetInfo(old(View()), k, mac, iface)
    {
      clients := clients[k := clients[k].(mac := mac, active := true, powersave := false, iface := iface)];
    }

    method SetClientFlags(k: Key, active: bool, powersave: bool)
      requires Homed() && k in clients
      modifies this`clients
      ensures Homed() && clients.Keys == old(clients).Keys
      ensures View() == SetFlags(old(View()), k, active, powersave)
    {
      clients := clients[k := clients[k].(active := active, powersave := powersave)];
    }

    method EraseClient(k: Key)
      requires Homed()
      modifies this`clients
      ensures Homed() && View() == Erase(old(View()), k)
    {
      clients := clients - {k};
    }

    /** handle_client_inactive */
    method HandleClientInactive(k: Key)
      requires Wired() && Homed()
      modifies Frame()
      ensures Homed() && View() == HandleInactive(old(View()), k)
    {
      hide RulesNow, HwFrame, Wired, TurnOff;
      if k !in clients { return; }
      var done := TurnOffOffloadLinks(k);
      SetClientFlags(k, false, clients[k].powersave);
      if clients[k].peers == [] { EraseClient(k); }
    }

    /** handle_client_disconnect */
    method HandleClientDisconnect(k: Key)
      requires Wired() && Homed()
      modifies Frame()
      ensures Homed() && View() == HandleDisconnect(old(View()), k)
    {
      hide RulesNow, HwFrame, Wired, TurnOff, ClearPeers;
      if k !in clients { return; }
      var done := TurnOffOffloadLinks(k);
      done := ClearPeerList(k);
      EraseClient(k);
    }

    /** handle_client_power_save */
    method HandleClientPowerSave(k: Key)
      requires Wired() && Homed()
      modifies Frame()
      ensures Homed() && View() == HandlePowerSave(old(View()), k)
    {
      hide RulesNow, HwFrame, Wired, RemoveFlts;
      if k !in clients { return; }
      var ok := RemoveFltRules(k);
      if ok { SetClientFlags(k, false, true); }
    }

    /** handle_client_power_recover */
    method HandleClientPowerRecover(k: Key)
      requires Wired() && Homed()
      modifies Frame()
      ensures Homed() && View() == HandlePowerRecover(old(View()), k)
    {
      hide RulesNow, HwFrame, Wired, AddFlts, CheckPotential;
      if k !in clients || clients[k].active || !clients[k].powersave { return; }
      var ok := AddFltRules(k);
      if !ok { return; }
      SetClientFlags(k, true, false);
      CheckPotentialLink(k);
    }

    method AddNewLinks(a: Key, b: Key)
      requires Wired() && Homed() && a in clients && b in clients
      modifies Frame()
      ensures Homed() && View() == LinkNew(old(View()), a, b)
    {
      hide RulesNow, HwFrame, Wired, AddLink;
      var ok := AddOffloadLink(a, b);
      if !ok { return; }
      ok := AddOffloadLink(b, a);
      if ok { numOffloadPair := Inc8(numOffloadPair); }
    }

    /** handle_new_lan2lan_connection */
    method HandleNewConnection(a: Key, b: Key)
      requires Wired() && Homed()
      modifies Frame()
      ensures Homed() && View() == HandleNewConn(old(View()), a, b)
    {
      hide RulesNow, HwFrame, Wired, LinkNew, AddConnection;
      if a !in clients || b !in clients { return; }
      var first := AddPeers(a, b);
      if first && clients[a].active && clients[b].active { AddNewLinks(a, b); }
    }

    lemma HomedBare(cs: map<Key, Client>)
      requires Bare(clients) == Bare(cs) && forall k :: k in cs ==> cs[k].iface in ifaces
      ensures Homed() && clients.Keys == cs.Keys
    {
      assert Bare(clients).Keys == clients.Keys && Bare(cs).Keys == cs.Keys;
      forall k | k in clients ensures clients[k].iface in ifaces {
        assert Bare(clients)[k].iface == Bare(cs)[k].iface;
      }
    }

    method DropIdleClient(k: Key)
      requires Homed()
      modifies this`clients, this`wild
      ensures Homed() && View() == DropIdle(old(View()), k)
    {
      if k !in clients {
        wild := true;
      } else if !clients[k].active && !clients[k].powersave && clients[k].peers == [] {
        clients := clients - {k};
      }
    }

    method EraseLinksByMode(a: Key, b: Key)
      requires Wired() && Homed() && a in clients && b in clients
      modifies Frame()
      ensures Homed() && clients.Keys == old(clients).Keys
      ensures View() == EraseByMode(old(View()), a, b)
    {
      hide RulesNow, HwFrame, Wired, EraseLinks;
      var ca, cb := clients[a], clients[b];
      if ca.active && cb.active {
        EraseOffloadLink(a, b);
      } else {
        if ca.powersave && Reachable(cb) { EraseOffloadLink(a, b); }
        if cb.powersave && Reachable(ca) { EraseOffloadLink(b, a); }
      }
    }

    /** handle_del_lan2lan_connection */
    method HandleDelConnection(a: Key, b: Key)
      requires Wired() && Homed()
      modifies Frame()
      ensures Homed() && View() == HandleDelConn(old(View()), a, b)
    {
      hide RulesNow, HwFrame, Wired, EraseByMode, RemoveConnection, DropIdle;
      if a !in clients || b !in clients { return; }
      var last := RemovePeers(a, b);
      if !last { return; }
      EraseLinksByMode(a, b);
      DropIdleClient(a);
      DropIdleClient(b);
    }

    /** event_callback: one event is one step of the state machine. */
    method HandleEvent(e: Event)
      requires Wired() && Homed()
      modifies Frame()
      ensures Homed() && View() == Step(old(View()), e)
    {
      hide RulesNow, HwFrame, Wired, HandleActive, HandleInactive, HandleDisconnect, HandlePowerSave,
        HandlePowerRecover, HandleNewConn, HandleDelConn;
      match e
      case Active(k, mac, iface) => HandleClientActive(k, mac, iface);
      case Inactive(k) => HandleClientInactive(k);
      case Disconnect(k) => HandleClientDisconnect(k);
      case PowerSave(k) => HandleClientPowerSave(k);
      case PowerRecover(k) => HandleClientPowerRecover(k);
      case NewConn(a, b) => HandleNewConnection(a, b);
      case DelConn(a, b) => HandleDelConnection(a, b);
    }

    /** The callbacks of a whole run. */
    method HandleEvents(es: seq<Event>)
      requires Wired() && Homed()
      modifies Frame()
      ensures Homed() && View() == Run(old(View()), es)
    {
      hide RulesNow, HwFrame, Wired, Step;
      var n := 0;
      while n < |es|
        invariant n <= |es| && Homed()
        invariant View() == Run(old(View()), es[..n])
      {
        HandleEvent(es[n]);
        n := n + 1;
        assert es[..n][..n - 1] == es[..n - 1];
      }
      assert es[..n] == es;
    }
  }
}
