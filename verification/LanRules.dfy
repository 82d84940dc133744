/** The LAN-to-LAN rule tables of one LAN interface (IPACM_Lan.cpp) and the packet hardware
    behind them.

    Every interface owns MAX_OFFLOAD_PAIR filter slots, whose handles were fixed when dummy
    rules were installed, and as many header slots. */
module LanRules {
  import opened Driver

  const MAX_OFFLOAD_PAIR: nat := 3

  type IfaceId = nat

  datatype Slot = Slot(hdl: Handle, valid: bool)

  datatype Slots = Slots(flt: seq<Slot>, numFlt: nat, hdr: seq<Slot>)

  /** All interfaces' tables, the hardware's installed headers and routes, and the number of
      rule calls that have failed so far. */
  datatype Rules = Rules(
    ifaces: map<IfaceId, Slots>,
    script: nat -> Reply,
    pos: nat,
    hdrs: set<Handle>,
    rts: set<Handle>,
    faults: nat)

  /** Counters are uint8_t in the source. */
  function Inc8(x: nat): nat { (x + 1) % 256 }

  function Dec8(x: nat): nat { if x == 0 then 255 else x - 1 }

  // ---- Slot searches -------------------------------------------------------------------

  function FirstFree(s: seq<Slot>): (i: nat)
    ensures i <= |s|
    ensures i < |s| ==> !s[i].valid
    ensures forall j :: 0 <= j < i ==> s[j].valid
  {
    if s == [] || !s[0].valid then 0 else 1 + FirstFree(s[1..])
  }

  /** The search by handle ignores `valid`, as the source's does. */
  function FirstWith(s: seq<Slot>, h: Handle): (i: nat)
    ensures i <= |s|
    ensures i < |s| ==> s[i].hdl == h
    ensures forall j :: 0 <= j < i ==> s[j].hdl != h
  {
    if s == [] || s[0].hdl == h then 0 else 1 + FirstWith(s[1..], h)
  }

  /** The hardware stays the same one, faults are never forgotten and no interface disappears. */
  ghost predicate Later(r: Rules, r': Rules) {
    && r'.script == r.script
    && r'.faults >= r.faults
    && r'.ifaces.Keys >= r.ifaces.Keys
  }

  // ---- Rule calls ----------------------------------------------------------------------

  function SlotsOf(r: Rules, i: IfaceId): Slots {
    if i in r.ifaces then r.ifaces[i] else Slots([], 0, [])
  }

  function Reply0(r: Rules): Reply { r.script(r.pos) }

  /** The next n calls are carried out. */
  predicate Accepts(r: Rules, n: nat) { forall i :: r.pos <= i < r.pos + n ==> r.script(i).Done? }

  function Failed(r: Rules): Rules { r.(pos := r.pos + 1, faults := r.faults + 1) }

  function AddFlt(r: Rules, i: IfaceId): (res: (Rules, Option<Handle>))
    ensures res.0.faults == r.faults + (if res.1.Some? then 0 else 1)
    ensures Later(r, res.0)
  {
    var t := SlotsOf(r, i);
    var j := FirstFree(t.flt);
    if t.numFlt >= MAX_OFFLOAD_PAIR || j == |t.flt| || !Reply0(r).Done? then (Failed(r), None)
    else
      var flt := t.flt[j := Slot(t.flt[j].hdl, true)];
      (r.(pos := r.pos + 1, ifaces := r.ifaces[i := t.(flt := flt, numFlt := Inc8(t.numFlt))]), Some(t.flt[j].hdl))
  }

  function DelFlt(r: Rules, i: IfaceId, h: Handle): (res: (Rules, bool))
    ensures res.0.faults == r.faults + (if res.1 then 0 else 1)
    ensures Later(r, res.0)
  {
    var t := SlotsOf(r, i);
    var j := FirstWith(t.flt, h);
    if j == |t.flt| || !Reply0(r).Done? then (Failed(r), false)
    else
      var flt := t.flt[j := Slot(h, false)];
      (r.(pos := r.pos + 1, ifaces := r.ifaces[i := t.(flt := flt, numFlt := Dec8(t.numFlt))]), true)
  }

  function AddHdr(r: Rules, i: IfaceId): (res: (Rules, Option<Handle>))
    ensures res.0.faults == r.faults + (if res.1.Some? then 0 else 1)
    ensures Later(r, res.0)
  {
    var t := SlotsOf(r, i);
    var j := FirstFree(t.hdr);
    match Reply0(r)
    case Refused => (Failed(r), None)
    case RefusedLate =>
      if j == |t.hdr| then (Failed(r), None)
      else
        (Failed(r).(ifaces := r.ifaces[i := t.(hdr := t.hdr[j := Slot(t.hdr[j].hdl, true)])]), None)
    case Done(hint) =>
      if j == |t.hdr| then (Failed(r), None)
      else
        var h := Pick(r.hdrs, hint);
        (r.(pos := r.pos + 1, hdrs := r.hdrs + {h}, ifaces := r.ifaces[i := t.(hdr := t.hdr[j := Slot(h, true)])]),
         Some(h))
  }

  function DelHdr(r: Rules, i: IfaceId, h: Handle): (res: (Rules, bool))
    ensures res.0.faults == r.faults + (if res.1 then 0 else 1)
    ensures Later(r, res.0)
  {
    if !Reply0(r).Done? || h !in r.hdrs then (Failed(r), false)
    else
      var t := SlotsOf(r, i);
      var j := FirstWith(t.hdr, h);
      if j == |t.hdr| then (Failed(r).(hdrs := r.hdrs - {h}), false)
      else
        (r.(pos := r.pos + 1, hdrs := r.hdrs - {h}, ifaces := r.ifaces[i := t.(hdr := t.hdr[j := Slot(h, false)])]), true)
  }

  function AddRt(r: Rules): (res: (Rules, Option<Handle>))
    ensures res.0.faults == r.faults + (if res.1.Some? then 0 else 1)
    ensures Later(r, res.0)
  {
    match Reply0(r)
    case Done(hint) =>
      var h := Pick(r.rts, hint);
      (r.(pos := r.pos + 1, rts := r.rts + {h}), Some(h))
    case _ => (Failed(r), None)
  }

  function DelRt(r: Rules, h: Handle): (res: (Rules, bool))
    ensures res.0.faults == r.faults + (if res.1 then 0 else 1)
    ensures Later(r, res.0)
  {
    if !Reply0(r).Done? || h !in r.rts then (Failed(r), false)
    else (r.(pos := r.pos + 1, rts := r.rts - {h}), true)
  }

  // ---- One direction of an offload link ------------------------------------------------

  /** The three handles an offload link holds. */
  datatype Handles = Handles(flt: Handle, rt: Handle, hdr: Handle)

  /** add_offload_link's rule calls: header and route on the peer's interface, filter on the
      client's own, undoing what was installed when a later call fails. */
  function Install(r: Rules, own: IfaceId, peer: IfaceId): (res: (Rules, Option<Handles>))
    ensures Later(r, res.0)
    ensures res.1.Some? <==> res.0.faults == r.faults
  {
    var (r1, hdr) := AddHdr(r, peer);
    if hdr.None? then (r1, None)
    else
      var (r2, rt) := AddRt(r1);
      if rt.None? then (DelHdr(r2, peer, hdr.value).0, None)
      else
        var (r3, flt) := AddFlt(r2, own);
        if flt.None? then
          (DelHdr(DelRt(r3, rt.value).0, peer, hdr.value).0, None)
        else
          (r3, Some(Handles(flt.value, rt.value, hdr.value)))
  }

  /** del_offload_link: all three deletes are tried, whatever the earlier ones return. */
  function Remove(r: Rules, own: IfaceId, peer: IfaceId, hs: Handles): (res: (Rules, bool))
    ensures Later(r, res.0)
    ensures res.1 <==> res.0.faults == r.faults
  {
    var (r1, ok1) := DelFlt(r, own, hs.flt);
    var (r2, ok2) := DelRt(r1, hs.rt);
    var (r3, ok3) := DelHdr(r2, peer, hs.hdr);
    (r3, ok1 && ok2 && ok3)
  }
}
