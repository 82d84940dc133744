/** IPACM_IfaceManager: one instance per interface, and what each instance registers for. */
module Interfaces {
  import opened Listeners
  import MessageQueues

  /** The two build switches that change the registrations. */
  datatype Build = Build(android: bool, ethBridge: bool)

  /** An instance's kind, as create_iface_instance chooses it. */
  datatype Kind = Lan | Eth | OduRouter | OduBridge | Wlan | WanSta | WanQ6 | WanEcm | Embms

  const CFG_CHANGE: nat := 1
  const PRIVATE_SUBNET_CHANGE: nat := 2
  const FIREWALL_CHANGE: nat := 3
  const LINK_DOWN: nat := 5
  const ADDR_ADD: nat := 9
  const ROUTE_ADD: nat := 11
  const ROUTE_DEL: nat := 12
  const UPSTREAM_ADD: nat := 13
  const UPSTREAM_DEL: nat := 14
  const WLAN_LINK_DOWN: nat := 17
  const NEIGH_ADDR_ADD: nat := 25
  const NEIGH_ADDR_DEL: nat := 26
  const SWITCH_TO_SCC: nat := 33
  const SWITCH_TO_MCC: nat := 34
  const CRADLE_SWITCH: nat := 35
  const XLAT_CONNECT: nat := 36
  const TETHERING_STATS: nat := 37
  const NETWORK_STATS: nat := 38
  const LAN_DELETE_SELF: nat := 516

  const SW_ROUTING: seq<nat> := [27, 28]
  const WLAN_CLIENTS: seq<nat> := [18, 19, 20, 21, 22]
  const WAN_UP_DOWN: seq<nat> := [501, 503, 502, 504]
  const WAN_TETHER: seq<nat> := [505, 507, 506, 508]
  const BRIDGE: seq<nat> := [517, 518, 519, 520]

  function Wans(b: Build): seq<nat> { if b.android then WAN_TETHER else WAN_UP_DOWN }

  /** The registrations an instance makes, in order, up to and including the first event it may
      delete itself on. */
  function Early(b: Build, k: Kind): seq<nat> {
    match k
    case Lan => [ADDR_ADD, NEIGH_ADDR_ADD, NEIGH_ADDR_DEL] + SW_ROUTING + Wans(b) + [CFG_CHANGE, PRIVATE_SUBNET_CHANGE]
                + (if b.ethBridge then BRIDGE else []) + (if b.android then [TETHERING_STATS] else [])
                + [CRADLE_SWITCH, LINK_DOWN]
    case Eth => [ADDR_ADD, NEIGH_ADDR_ADD] + SW_ROUTING + WAN_UP_DOWN + [CRADLE_SWITCH, LINK_DOWN]
    case OduRouter => [ADDR_ADD, NEIGH_ADDR_ADD, NEIGH_ADDR_DEL] + SW_ROUTING + WAN_UP_DOWN
                      + (if b.ethBridge then BRIDGE else []) + [CRADLE_SWITCH, LINK_DOWN]
    case OduBridge => [ADDR_ADD, NEIGH_ADDR_ADD] + SW_ROUTING + [LINK_DOWN]
    case Wlan => [ADDR_ADD, ROUTE_DEL] + WLAN_CLIENTS + [NEIGH_ADDR_ADD] + SW_ROUTING + Wans(b) + [PRIVATE_SUBNET_CHANGE]
                 + (if b.ethBridge then BRIDGE + [CFG_CHANGE] else []) + [CRADLE_SWITCH, WLAN_LINK_DOWN]
    case Embms => []
    case _ => [ADDR_ADD]
              + (if b.android then [UPSTREAM_ADD, UPSTREAM_DEL] + (if k == WanQ6 then [NETWORK_STATS] else [])
                 else [ROUTE_ADD, ROUTE_DEL])
              + [FIREWALL_CHANGE, NEIGH_ADDR_ADD] + SW_ROUTING
  }

  function Late(b: Build, k: Kind): seq<nat> {
    match k
    case Wlan => [LAN_DELETE_SELF] + if b.android then [TETHERING_STATS] else [SWITCH_TO_SCC, SWITCH_TO_MCC]
    case WanSta => [CFG_CHANGE, XLAT_CONNECT, WLAN_LINK_DOWN, SWITCH_TO_SCC, SWITCH_TO_MCC]
    case WanQ6 => [CFG_CHANGE, XLAT_CONNECT, LINK_DOWN]
    case WanEcm => [CFG_CHANGE, XLAT_CONNECT, LINK_DOWN]
    case Embms => [LINK_DOWN]
    case _ => [LAN_DELETE_SELF]
  }

  function Block(b: Build, k: Kind): seq<nat> { Early(b, k) + Late(b, k) }

  /** The events an instance may answer by deleting itself. */
  predicate Deletes(k: Kind, e: nat) {
    match k
    case WanSta => e == WLAN_LINK_DOWN
    case WanQ6 => e == LINK_DOWN
    case WanEcm => e == LINK_DOWN || e == CFG_CHANGE
    case Embms => e == LINK_DOWN
    case _ => e == LAN_DELETE_SELF
  }

  /** An event's number as the queues see it. */
  predicate Queued(e: nat) { MessageQueues.External(MessageQueues.Event(e, 0)) }

  /** The handlers' own events, from IPA_HANDLE_WAN_UP on. */
  predicate Internal(e: nat) { 501 <= e <= 520 }

  predicate Sorted(es: seq<nat>) { forall i :: 0 <= i < |es| ==> (1 <= es[i] <= 38 || Internal(es[i])) }

  lemma SortedJoin(x: seq<nat>, y: seq<nat>)
    requires Sorted(x) && Sorted(y)
    ensures Sorted(x + y)
  {
  }

  lemma EarlySorted(b: Build, k: Kind)
    ensures Sorted(Early(b, k))
  {
    hide Early, Sorted;
    match k
    case Lan => LanSorted(b);
    case Eth => EthSorted(b);
    case OduRouter => OduSorted(b);
    case OduBridge => EthSorted(b);
    case Wlan => WlanSorted(b);
    case _ => WanSorted(b, k);
  }

  lemma LanSorted(b: Build)
    ensures Sorted(Early(b, Lan))
  {
  }

  lemma EthSorted(b: Build)
    ensures Sorted(Early(b, Eth)) && Sorted(Early(b, OduBridge))
  {
  }

  lemma OduSorted(b: Build)
    ensures Sorted(Early(b, OduRouter))
  {
  }

  lemma WlanSorted(b: Build)
    ensures Sorted(Early(b, Wlan))
  {
  }

  lemma WanSorted(b: Build, k: Kind)
    requires k == WanSta || k == WanQ6 || k == WanEcm || k == Embms
    ensures Sorted(Early(b, k))
  {
  }

  /** What an instance registers for is either a report from outside, which goes through the
      external queue, or another handler's event, which goes through the internal one. */
  lemma TwoClasses(b: Build, k: Kind, e: nat)
    requires e in Block(b, k)
    ensures Queued(e) <==> !Internal(e)
  {
    EarlySorted(b, k);
    assert Sorted(Late(b, k));
    hide Early, Late;
    SortedJoin(Early(b, k), Late(b, k));
    var i :| 0 <= i < |Block(b, k)| && Block(b, k)[i] == e;
  }

  // ---- Instances come and go -------------------------------------------------------------

  /** `evts` is the event list, `ifaces` the instance list (keyed by interface index); object
      numbers are not reused. */
  datatype State = State(evts: seq<Reg>, ifaces: seq<Reg>, kinds: map<Obj, Kind>, next: Obj)

  datatype Op = LinkUp(ifaceIndex: nat, kind: Kind) | Deleted(o: Obj)

  function Regs(es: seq<nat>, o: Obj): (r: seq<Reg>)
    ensures |r| == |es| && forall i :: 0 <= i < |r| ==> r[i] == Reg(es[i], o)
  {
    if es == [] then [] else [Reg(es[0], o)] + Regs(es[1..], o)
  }

  /** create_iface_instance, guarded by SearchInstance; and an instance's destructor. */
  function Step(s: State, b: Build, op: Op): State {
    match op
    case LinkUp(i, k) =>
      if exists r :: r in s.ifaces && r.key == i then s
      else State(s.evts + Regs(Block(b, k), s.next), s.ifaces + [Reg(i, s.next)], s.kinds[s.next := k], s.next + 1)
    case Deleted(o) =>
      if o !in s.kinds then s
      else s.(evts := Without(s.evts, o), ifaces := Without(s.ifaces, o))
  }

  function Run(s: State, b: Build, ops: seq<Op>): State {
    if ops == [] then s else Step(Run(s, b, ops[..|ops| - 1]), b, ops[|ops| - 1])
  }

  /** The instances' registrations, one block after the other. */
  function Blocks(b: Build, ifaces: seq<Reg>, kinds: map<Obj, Kind>): seq<Reg> {
    if ifaces == [] then []
    else
      (if ifaces[0].obj in kinds then Regs(Block(b, kinds[ifaces[0].obj]), ifaces[0].obj) else [])
      + Blocks(b, ifaces[1..], kinds)
  }

  predicate Apart(rs: seq<Reg>) {
    forall i, j :: 0 <= i < j < |rs| ==> rs[i].key != rs[j].key && rs[i].obj != rs[j].obj
  }

  /** One instance per interface index, and an event list that holds the permanent listeners'
      registrations and then exactly the live instances' blocks. */
  ghost predicate Inv(s: State, b: Build, base: seq<Reg>) {
    && Apart(s.ifaces)
    && (forall r :: r in s.ifaces ==> r.obj in s.kinds)
    && (forall o :: o in s.kinds ==> o < s.next)
    && (forall r :: r in base ==> r.obj < s.next && r.obj !in s.kinds)
    && s.evts == base + Blocks(b, s.ifaces, s.kinds)
  }

  /** Only the permanent listeners at first. */
  lemma StartInv(b: Build, base: seq<Reg>, next: Obj)
    requires forall r :: r in base ==> r.obj < next
    ensures Inv(Start(base, next), b, base)
  {
    assert base + [] == base;
  }

  lemma {:induction false} BlocksJoin(b: Build, x: seq<Reg>, y: seq<Reg>, kinds: map<Obj, Kind>)
    ensures Blocks(b, x + y, kinds) == Blocks(b, x, kinds) + Blocks(b, y, kinds)
  {
    if x == [] {
      assert x + y == y;
    } else {
      assert (x + y)[1..] == x[1..] + y;
      BlocksJoin(b, x[1..], y, kinds);
    }
  }

  lemma {:induction false} BlocksSame(b: Build, x: seq<Reg>, k1: map<Obj, Kind>, o: Obj, k: Kind)
    requires forall r :: r in x ==> r.obj != o
    ensures Blocks(b, x, k1[o := k]) == Blocks(b, x, k1)
  {
    hide Block;
    if x != [] { BlocksSame(b, x[1..], k1, o, k); }
  }

  lemma {:induction false} BlocksWithout(b: Build, x: seq<Reg>, kinds: map<Obj, Kind>, o: Obj)
    ensures Without(Blocks(b, x, kinds), o) == Blocks(b, Without(x, o), kinds)
  {
    hide Block, Regs;
    if x != [] {
      var own := OwnBlock(b, x[0], kinds);
      BlocksWithout(b, x[1..], kinds, o);
      WithoutJoin(own, Blocks(b, x[1..], kinds), o);
      OwnWithout(b, x[0], kinds, o);
      hide Without;
    }
  }

  function OwnBlock(b: Build, r: Reg, kinds: map<Obj, Kind>): seq<Reg> {
    if r.obj in kinds then Regs(Block(b, kinds[r.obj]), r.obj) else []
  }

  lemma OwnWithout(b: Build, r: Reg, kinds: map<Obj, Kind>, o: Obj)
    ensures Without(OwnBlock(b, r, kinds), o) == if r.obj == o then [] else OwnBlock(b, r, kinds)
  {
    hide Block;
    var own := OwnBlock(b, r, kinds);
    if r.obj == o { WithoutAll(own, o); } else { WithoutNone(own, o); }
  }

  lemma {:induction false} BlocksObjs(b: Build, x: seq<Reg>, kinds: map<Obj, Kind>, i: nat)
    requires i < |Blocks(b, x, kinds)|
    ensures exists r :: r in x && r.obj == Blocks(b, x, kinds)[i].obj
  {
    hide Block;
    var own := if x[0].obj in kinds then Regs(Block(b, kinds[x[0].obj]), x[0].obj) else [];
    if i >= |own| { BlocksObjs(b, x[1..], kinds, i - |own|); } else { assert x[0] in x; }
  }

  lemma {:induction false} WithoutApart(x: seq<Reg>, o: Obj)
    requires Apart(x)
    ensures Apart(Without(x, o))
  {
    if x != [] {
      assert forall j :: 0 <= j < |x[1..]| ==> x[1..][j] == x[j + 1];
      WithoutApart(x[1..], o);
      forall r | r in Without(x[1..], o) ensures r.key != x[0].key && r.obj != x[0].obj {
        var j :| 0 <= j < |x[1..]| && x[1..][j] == r;
      }
    }
  }

  lemma StepInv(s: State, b: Build, base: seq<Reg>, op: Op)
    requires Inv(s, b, base)
    ensures Inv(Step(s, b, op), b, base)
  {
    hide Inv;
    match op
    case LinkUp(i, k) => CreateInv(s, b, base, i, k);
    case Deleted(o) => DeletedInv(s, b, base, o);
  }

  lemma DeletedInv(s: State, b: Build, base: seq<Reg>, o: Obj)
    requires Inv(s, b, base)
    ensures Inv(Step(s, b, Deleted(o)), b, base)
  {
    if o !in s.kinds { return; }
    hide Block, Blocks, Apart, Without;
    WithoutApart(s.ifaces, o);
    DeletedEvts(s, b, base, o);
  }

  lemma DeletedEvts(s: State, b: Build, base: seq<Reg>, o: Obj)
    requires Inv(s, b, base) && o in s.kinds
    ensures Without(s.evts, o) == base + Blocks(b, Without(s.ifaces, o), s.kinds)
  {
    hide Block, Blocks, Apart, Without;
    BlocksWithout(b, s.ifaces, s.kinds, o);
    WithoutJoin(base, Blocks(b, s.ifaces, s.kinds), o);
    WithoutNone(base, o);
  }

  lemma CreateInv(s: State, b: Build, base: seq<Reg>, i: nat, k: Kind)
    requires Inv(s, b, base)
    ensures Inv(Step(s, b, LinkUp(i, k)), b, base)
  {
    if exists r :: r in s.ifaces && r.key == i { return; }
    CreateEvts(s, b, base, i, k);
    ApartAdd(s.ifaces, Reg(i, s.next));
    hide Block, Blocks, Apart, Regs;
  }

  lemma CreateEvts(s: State, b: Build, base: seq<Reg>, i: nat, k: Kind)
    requires Inv(s, b, base)
    ensures base + Blocks(b, s.ifaces + [Reg(i, s.next)], s.kinds[s.next := k]) == s.evts + Regs(Block(b, k), s.next)
  {
    hide Block, Blocks, Apart, Regs;
    var kinds := s.kinds[s.next := k];
    BlocksSame(b, s.ifaces, s.kinds, s.next, k);
    BlocksJoin(b, s.ifaces, [Reg(i, s.next)], kinds);
    BlocksOne(b, Reg(i, s.next), kinds);
  }

  lemma BlocksOne(b: Build, r: Reg, kinds: map<Obj, Kind>)
    requires r.obj in kinds
    ensures Blocks(b, [r], kinds) == Regs(Block(b, kinds[r.obj]), r.obj)
  {
    hide Block;
    assert Blocks(b, [], kinds) == [];
  }

  lemma ApartAdd(rs: seq<Reg>, r: Reg)
    requires Apart(rs) && forall x :: x in rs ==> x.key != r.key && x.obj != r.obj
    ensures Apart(rs + [r])
  {
  }

  /** Whatever links come up and whichever instances delete themselves, no two live instances
      have one interface index. */
  lemma {:induction false} RunInv(s: State, b: Build, base: seq<Reg>, ops: seq<Op>)
    requires Inv(s, b, base)
    ensures Inv(Run(s, b, ops), b, base)
  {
    hide Inv, Step;
    if ops != [] {
      RunInv(s, b, base, ops[..|ops| - 1]);
      StepInv(Run(s, b, ops[..|ops| - 1]), b, base, ops[|ops| - 1]);
    }
  }

  /** A link that comes up gets an instance of the given kind, registered at the end of the event
      list for what that kind listens to, unless its index has an instance already. */
  lemma LinkUpIs(s: State, b: Build, i: nat, k: Kind)
    ensures var s' := Step(s, b, LinkUp(i, k));
            if exists r :: r in s.ifaces && r.key == i then s' == s
            else
              && s'.ifaces == s.ifaces + [Reg(i, s.next)] && s'.kinds == s.kinds[s.next := k] && s'.next == s.next + 1
              && |s'.evts| == |s.evts| + |Block(b, k)| && s'.evts[..|s.evts|] == s.evts
              && forall j :: 0 <= j < |Block(b, k)| ==> s'.evts[|s.evts| + j] == Reg(Block(b, k)[j], s.next)
  {
    hide Block;
  }

  /** A deleted instance leaves both lists, and nobody else does. */
  lemma DeletedIs(s: State, b: Build, o: Obj)
    requires o in s.kinds
    ensures var s' := Step(s, b, Deleted(o));
            && (forall r :: r in s'.ifaces <==> r in s.ifaces && r.obj != o)
            && (forall r :: r in s'.evts <==> r in s.evts && r.obj != o)
            && s'.kinds == s.kinds && s'.next == s.next
  {
    WithoutIs(s.ifaces, o);
    WithoutIs(s.evts, o);
  }

  lemma {:induction false} WithoutIs(rs: seq<Reg>, o: Obj)
    ensures forall r :: r in Without(rs, o) <==> r in rs && r.obj != o
  {
    if rs != [] { WithoutIs(rs[1..], o); }
  }

  /** Only the permanent listeners' registrations. */
  function Start(base: seq<Reg>, next: Obj): State { State(base, [], map[], next) }

  /** So from the start on, whatever happens, the event list is the permanent listeners'
      registrations followed by the live instances' blocks. */
  lemma StartRun(b: Build, base: seq<Reg>, next: Obj, ops: seq<Op>)
    requires forall r :: r in base ==> r.obj < next
    ensures var s := Run(Start(base, next), b, ops);
            Apart(s.ifaces) && s.evts == base + Blocks(b, s.ifaces, s.kinds)
  {
    hide Run, Blocks, Apart;
    StartInv(b, base, next);
    RunInv(Start(base, next), b, base, ops);
  }

  // ---- Deleting oneself during a dispatch ------------------------------------------------

  /** The kinds and events for which the deleting event is the instance's last registration. */
  predicate LastIsDelete(k: Kind, e: nat) {
    k != Wlan && k != WanSta && !(k == WanEcm && e == CFG_CHANGE)
  }

  lemma EarlyFree(b: Build, k: Kind, e: nat)
    requires Deletes(k, e)
    ensures e !in Early(b, k)
  {
    hide Early;
    match k
    case Lan => EarlyLan(b);
    case OduRouter => EarlyOdu(b);
    case Wlan => EarlyWlan(b);
    case _ => EarlyOther(b, k, e);
  }

  lemma EarlyLan(b: Build)
    ensures LAN_DELETE_SELF !in Early(b, Lan)
  {
  }

  lemma EarlyOdu(b: Build)
    ensures LAN_DELETE_SELF !in Early(b, OduRouter)
  {
  }

  lemma EarlyWlan(b: Build)
    ensures LAN_DELETE_SELF !in Early(b, Wlan)
  {
  }

  lemma EarlyOther(b: Build, k: Kind, e: nat)
    requires Deletes(k, e) && k != Lan && k != OduRouter && k != Wlan
    ensures e !in Early(b, k)
  {
  }

  /** Where the deleting event stands in its block. */
  lemma DeleteAt(b: Build, k: Kind, e: nat) returns (i: nat)
    requires Deletes(k, e)
    ensures i < |Block(b, k)| && Block(b, k)[i] == e
    ensures forall j :: 0 <= j < i ==> Block(b, k)[j] != e
    ensures i + 1 == |Block(b, k)| <==> LastIsDelete(k, e)
  {
    EarlyFree(b, k, e);
    hide Early;
    var late := Late(b, k);
    var n := match k
      case WanSta => 2
      case WanQ6 => 2
      case WanEcm => if e == CFG_CHANGE then 0 else 2
      case _ => 0;
    assert late[n] == e && forall j :: 0 <= j < n ==> late[j] != e;
    i := |Early(b, k)| + n;
  }

  /** In every reachable state, an instance that deletes itself while it is served leaves the walk
      on live nodes exactly when the deleting event is the last it registered for: so for LAN,
      ETH and ODU instances and on a WAN link going down, but not for WLAN instances, for a
      station-mode WAN, or when a WAN changes category. */
  lemma DeleteSelfSafeIff(s: State, b: Build, base: seq<Reg>, n: nat, e: nat)
    requires Inv(s, b, base) && n < |s.ifaces| && Deletes(s.kinds[s.ifaces[n].obj], e)
    ensures var o := s.ifaces[n].obj;
            && (Dispatch(s.evts, e, {o}).wild <==> !LastIsDelete(s.kinds[o], e))
            && Dispatch(s.evts, e, {o}).list == Step(s, b, Deleted(o)).evts
  {
    hide Block, Blocks, Early, Late, Without, Inv;
    Known(s, b, base, n);
    var o := s.ifaces[n].obj;
    var block := Block(b, s.kinds[o]);
    var at := DeleteAt(b, s.kinds[o], e);
    var pre := base + Blocks(b, s.ifaces[..n], s.kinds);
    var post := Blocks(b, s.ifaces[n + 1..], s.kinds);
    SplitBlocks(s, b, base, n);
    OthersBlocks(s, b, base, n);
    Placed(pre, block, post, at, e, o);
    DeleteSelfIff(s.evts, |pre| + at, e, o);
  }

  /** From the start: the first interface to come up is a WLAN one, and when it deletes itself the
      walk goes on to a freed node. */
  lemma WlanDeleteRun(b: Build, base: seq<Reg>, next: Obj, i: nat)
    requires forall r :: r in base ==> r.obj < next
    ensures var s := Run(Start(base, next), b, [LinkUp(i, Wlan)]);
            Dispatch(s.evts, LAN_DELETE_SELF, {next}).wild
  {
    var s := Run(Start(base, next), b, [LinkUp(i, Wlan)]);
    assert [LinkUp(i, Wlan)][..0] == [] && Run(Start(base, next), b, []) == Start(base, next);
    assert s == Step(Start(base, next), b, LinkUp(i, Wlan));
    StartInv(b, base, next);
    hide Inv, Dispatch, Block, Regs;
    StepInv(Start(base, next), b, base, LinkUp(i, Wlan));
    DeleteSelfSafeIff(s, b, base, 0, LAN_DELETE_SELF);
  }

  lemma Known(s: State, b: Build, base: seq<Reg>, n: nat)
    requires Inv(s, b, base) && n < |s.ifaces|
    ensures s.ifaces[n].obj in s.kinds
  {
  }

  /** One object's block between other objects' registrations. */
  lemma Placed(pre: seq<Reg>, block: seq<nat>, post: seq<Reg>, at: nat, e: nat, o: Obj)
    requires forall j :: 0 <= j < |pre| ==> pre[j].obj != o
    requires forall j :: 0 <= j < |post| ==> post[j].obj != o
    requires at < |block| && block[at] == e && forall j :: 0 <= j < at ==> block[j] != e
    ensures var rs, i := pre + Regs(block, o) + post, |pre| + at;
            && FirstMatch(rs, i, e, o)
            && (i + 1 < |rs| && rs[i + 1].obj == o <==> at + 1 < |block|)
  {
    hide Regs;
    var rs, i := pre + Regs(block, o) + post, |pre| + at;
    forall j | 0 <= j < i ensures rs[j] != Reg(e, o) {
      if j < |pre| { assert rs[j] == pre[j]; } else { assert rs[j] == Regs(block, o)[j - |pre|]; }
    }
  }

  lemma SplitBlocks(s: State, b: Build, base: seq<Reg>, n: nat)
    requires Inv(s, b, base) && n < |s.ifaces|
    ensures var o := s.ifaces[n].obj;
            s.evts == base + Blocks(b, s.ifaces[..n], s.kinds) + Regs(Block(b, s.kinds[o]), o)
                      + Blocks(b, s.ifaces[n + 1..], s.kinds)
  {
    hide Block, Blocks, Regs, Inv;
    Known(s, b, base, n);
    EvtsAre(s, b, base);
    var x, y, z := s.ifaces[..n], [s.ifaces[n]], s.ifaces[n + 1..];
    assert s.ifaces == x + (y + z);
    BlocksJoin(b, x, y + z, s.kinds);
    BlocksJoin(b, y, z, s.kinds);
    BlocksOne(b, y[0], s.kinds);
  }

  lemma EvtsAre(s: State, b: Build, base: seq<Reg>)
    requires Inv(s, b, base)
    ensures s.evts == base + Blocks(b, s.ifaces, s.kinds)
  {
  }

  lemma OthersBlocks(s: State, b: Build, base: seq<Reg>, n: nat)
    requires Inv(s, b, base) && n < |s.ifaces|
    ensures var o, pre, post := s.ifaces[n].obj, Blocks(b, s.ifaces[..n], s.kinds), Blocks(b, s.ifaces[n + 1..], s.kinds);
            && (forall j :: 0 <= j < |base| ==> base[j].obj != o)
            && (forall j :: 0 <= j < |pre| ==> pre[j].obj != o)
            && (forall j :: 0 <= j < |post| ==> post[j].obj != o)
  {
    hide Block, Blocks;
    var pre, post := Blocks(b, s.ifaces[..n], s.kinds), Blocks(b, s.ifaces[n + 1..], s.kinds);
    forall j | 0 <= j < |pre| ensures pre[j].obj != s.ifaces[n].obj {
      BlocksObjs(b, s.ifaces[..n], s.kinds, j);
    }
    forall j | 0 <= j < |post| ensures post[j].obj != s.ifaces[n].obj {
      BlocksObjs(b, s.ifaces[n + 1..], s.kinds, j);
    }
    forall j | 0 <= j < |base| ensures base[j].obj != s.ifaces[n].obj {
      assert base[j] in base;
    }
  }
}
