/** IPACM_ConntrackListener: conntrack messages become NAT entries, and WAN events table calls. */
module Conntrack {
  import opened Driver
  import opened NatApp
  import opened NatMirror
  import opened NatRuns

  const TCP: nat := 6
  const UDP: nat := 17

  /** STA_CLNT_SUBNET_MASK leaves the low byte out. */
  const STA_CLNT_SUBNET_SIZE: nat := 256

  datatype TcpState = Established | FinWait | OtherState

  datatype Kind = NewMsg | UpdateMsg | DestroyMsg

  /** A conntrack message: the original and the reply tuple, the NAT status flags, the protocol,
      the TCP state and what happened to the connection. */
  datatype Ct = Ct(
    origSrc: Ip, origSport: nat, origDst: Ip, origDport: nat,
    replSrc: Ip, replSport: nat, replDst: Ip, replDport: nat,
    srcNat: bool, dstNat: bool, protocol: nat,
    tcp: TcpState, kind: Kind)

  /** What the listener knows: the WAN address and whether it is a station's, the addresses of NAT
      and non-NAT clients, the private subnets, and the clients of the station's subnet. */
  datatype Config = Config(
    wan: Ip, isSta: bool, natIfs: seq<Ip>, nonNatIfs: seq<Ip>, privates: Ip -> bool,
    staClients: seq<Ip>)

  // ---- From message to entry ---------------------------------------------------------------

  datatype Direction = Source | Destination | Neither

  function Classify(ct: Ct, wan: Ip): Direction {
    if ct.dstNat then Destination
    else if ct.srcNat then Source
    else if ct.origSrc == 0 || ct.origDst == 0 then Neither
    else if ct.origSrc == wan then Source
    else if ct.origDst == wan then Destination
    else Neither
  }

  /** PopulateTCPorUDPEntry */
  function Populate(ct: Ct, dir: Direction, wan: Ip): Entry {
    if dir.Destination? then
      Entry(Tuple(ct.replSrc, ct.origSrc, ct.replSport, ct.origSport, ct.protocol), wan, ct.origDport, 0, true, false, 0)
    else
      Entry(Tuple(ct.origSrc, ct.origDst, ct.origSport, ct.origDport, ct.protocol), wan, ct.replDport, 0, false, false, 0)
  }

  predicate Known(ips: seq<Ip>, e: Entry) {
    exists i :: 0 <= i < |ips| && ips[i] != 0 && (e.key.privateIp == ips[i] || e.key.targetIp == ips[i])
  }

  function Dummy(e: Entry): Entry {
    e.(key := e.key.(privateIp := e.publicIp, privatePort := e.publicPort))
  }

  /** AddIface: the entry to add, and whether it is only a temporary one. */
  function AddIface(e: Entry, cfg: Config): Option<(Entry, bool)> {
    if Known(cfg.natIfs, e) then Some((e, false))
    else if Known(cfg.nonNatIfs, e) then Some((Dummy(e), false))
    else if cfg.privates(e.key.privateIp) || cfg.privates(e.key.targetIp) then Some((e, true))
    else None
  }

  /** CheckSTAClient: a target in the station's subnet that is not a client yet. */
  predicate NoStaClient(cfg: Config, target: Ip) {
    cfg.isSta && cfg.staClients != [] && cfg.staClients[0] / STA_CLNT_SUBNET_SIZE == target / STA_CLNT_SUBNET_SIZE && target !in cfg.staClients
  }

  /** ProcessTCPorUDPMsg: the entry and whether it is only a temporary one. */
  function MakeEntry(ct: Ct, cfg: Config): Option<(Entry, bool)> {
    var dir := Classify(ct, cfg.wan);
    if dir.Neither? then None
    else
      var e := Populate(ct, dir, cfg.wan);
      if e.key.privateIp == cfg.wan then
        if cfg.isSta then None else Some((e.(key := e.key.(privatePort := e.publicPort)), false))
      else
        var r := AddIface(e, cfg);
        if r.None? then None else Some((r.value.0, r.value.1 || NoStaClient(cfg, r.value.0.key.targetIp)))
  }

  /** The tuple UpdateCTUdpTs hands to the kernel for an entry. */
  function Rebuilt(e: Entry, pub: Ip): (Ip, nat, Ip, nat) {
    if e.dstNat then (e.key.targetIp, e.key.targetPort, pub, e.publicPort)
    else (e.key.privateIp, e.key.privatePort, e.key.targetIp, e.key.targetPort)
  }

  function Original(ct: Ct): (Ip, nat, Ip, nat) { (ct.origSrc, ct.origSport, ct.origDst, ct.origDport) }

  /** The private end was replaced by the public one: an embedded or a non-NAT connection. */
  predicate Rewritten(ct: Ct, cfg: Config) {
    var e := Populate(ct, Classify(ct, cfg.wan), cfg.wan);
    e.key.privateIp == cfg.wan || (!Known(cfg.natIfs, e) && Known(cfg.nonNatIfs, e))
  }

  /** The kernel is asked about the very connection the entry was made from if and only if, for
      destination NAT, it was sent to the WAN address, and for source NAT, its private end was
      kept or is what it was replaced by. */
  lemma TupleRoundTripIff(ct: Ct, cfg: Config)
    requires MakeEntry(ct, cfg).Some?
    ensures Rebuilt(MakeEntry(ct, cfg).value.0, cfg.wan) == Original(ct)
       <==> if Classify(ct, cfg.wan).Destination? then ct.origDst == cfg.wan
            else !Rewritten(ct, cfg) || (ct.origSrc, ct.origSport) == (cfg.wan, ct.replDport)
  {
  }

  /** So every connection to or from the WAN address whose private end is a NAT client's comes
      back unchanged. */
  lemma TupleRoundTrip(ct: Ct, cfg: Config)
    requires MakeEntry(ct, cfg).Some? && !Rewritten(ct, cfg)
    requires Classify(ct, cfg.wan).Destination? ==> ct.origDst == cfg.wan
    ensures Rebuilt(MakeEntry(ct, cfg).value.0, cfg.wan) == Original(ct)
  {
    TupleRoundTripIff(ct, cfg);
  }

  /** The same holds of the slot the entry ends up in, whichever way it is stored. */
  lemma StoredRoundTrip(s: State, ct: Ct, cfg: Config, i: nat)
    requires MakeEntry(ct, cfg).Some? && !Rewritten(ct, cfg)
    requires Classify(ct, cfg.wan).Destination? ==> ct.origDst == cfg.wan
    requires i < |s.cache|
    ensures var e := MakeEntry(ct, cfg).value.0;
            && (AddEntry(s, e).0.cache[i] != s.cache[i] ==> Rebuilt(AddEntry(s, e).0.cache[i], cfg.wan) == Original(ct))
            && (CacheEntry(s, e).cache[i] != s.cache[i] ==> Rebuilt(CacheEntry(s, e).cache[i], cfg.wan) == Original(ct))
  {
    TupleRoundTrip(ct, cfg);
    var e := MakeEntry(ct, cfg).value.0;
    hide MakeEntry;
    SlotKeeps(s, e, i);
  }

  lemma SlotKeeps(s: State, e: Entry, i: nat)
    requires i < |s.cache|
    ensures var c := AddEntry(s, e).0.cache[i];
            c != s.cache[i] ==> c.key == e.key && c.publicPort == e.publicPort && c.dstNat == e.dstNat
    ensures var c := CacheEntry(s, e).cache[i];
            c != s.cache[i] ==> c.key == e.key && c.publicPort == e.publicPort && c.dstNat == e.dstNat
  {
  }

  // ---- The listener ------------------------------------------------------------------------

  datatype Listener = Listener(app: State, wanUp: bool, cfg: Config)

  datatype Msg =
    | WanUp(ip: Ip, isSta: bool)
    | WanDown(ip: Ip)
    | Message(ct: Ct)
    | Other(op: Op)   // power save, client loss and time stamps, which leave the WAN state alone

  predicate Opens(ct: Ct) {
    (ct.protocol == TCP && ct.tcp.Established?) || (ct.protocol == UDP && ct.kind.NewMsg?)
  }

  predicate Closes(ct: Ct) {
    !Opens(ct) && ((ct.protocol == TCP && (ct.tcp.FinWait? || ct.kind.DestroyMsg?)) || (ct.protocol == UDP && ct.kind.DestroyMsg?))
  }

  /** AddORDeleteNatEntry: while the WAN is down connections are only cached. */
  function Route(l: Listener, ct: Ct, e: Entry, temp: bool): State {
    if Opens(ct) then
      if !l.wanUp then CacheEntry(l.app, e)
      else if temp then AddTempEntry(l.app, e)
      else AddEntry(l.app, e).0
    else if Closes(ct) then DeleteTempEntry(DeleteEntry(l.app, e.key), e.key)
    else l.app
  }

  /** event_callback: WAN up is ignored while the WAN is up, WAN down while it is down. */
  function React(l: Listener, m: Msg): Listener {
    match m
    case WanUp(ip, isSta) =>
      if l.wanUp || ip == 0 then l
      else Listener(AddTable(l.app, ip).0, true, l.cfg.(wan := ip, isSta := isSta))
    case WanDown(ip) =>
      if !l.wanUp then l else l.(wanUp := false, app := DeleteTable(l.app, ip).0)
    case Message(ct) =>
      var r := MakeEntry(ct, l.cfg);
      if r.None? then l else l.(app := Route(l, ct, r.value.0, r.value.1))
    case Other(op) =>
      if op.OpAddTable? || op.OpDeleteTable? then l else l.(app := Step(l.app, op))
  }

  function Reacts(l: Listener, ms: seq<Msg>): Listener {
    if ms == [] then l else React(Reacts(l, ms[..|ms| - 1]), ms[|ms| - 1])
  }

  /** The listener and NatApp agree on whether, and for which address, there is a table. */
  ghost predicate InStep(l: Listener) {
    && (l.wanUp <==> l.app.tbl != 0)
    && (l.wanUp ==> l.app.pub == l.cfg.wan)
  }

  lemma SameTables(l: Listener, m: Msg)
    requires m.Message? || m.Other?
    ensures var l' := React(l, m);
            l'.app.tbl == l.app.tbl && l'.app.pub == l.app.pub && l'.wanUp == l.wanUp && l'.cfg == l.cfg
  {
    hide AddEntry, SweepFrom, FlushFrom, StampFrom, MakeEntry;
    if m.Other? && m.op.OpFlush? {
      FlushTables(l.app, m.op.ip, m.op.add, m.op.dummy, 0);
    } else if m.Other? && m.op.OpStamp? {
      StampTables(l.app, m.op.ts, m.op.alive, 0);
    }
  }

  /** The hardware carries out the table call that a WAN event makes, and a WAN goes down under the
      address it came up with. */
  predicate TableServed(l: Listener, m: Msg) {
    && (m.WanUp? && !l.wanUp && m.ip != 0 ==> l.app.hw.table == 0 && Answer(l.app.hw).Done?)
    && (m.WanDown? && l.wanUp ==> m.ip == l.cfg.wan && l.app.hw.table == l.app.tbl && Answer(l.app.hw).Done?)
  }

  /** Listener and NatApp stay in step exactly as long as that is so: a WAN-down event with any
      other address leaves the table behind. */
  lemma InStepIff(l: Listener, m: Msg)
    requires InStep(l)
    ensures InStep(React(l, m)) <==> TableServed(l, m)
  {
    if m.Message? || m.Other? {
      SameTables(l, m);
    } else {
      hide SweepFrom;
    }
  }

  ghost predicate AlwaysServed(l: Listener, ms: seq<Msg>) {
    ms == [] || (AlwaysServed(l, ms[..|ms| - 1]) && TableServed(Reacts(l, ms[..|ms| - 1]), ms[|ms| - 1]))
  }

  ghost predicate AlwaysInStep(l: Listener, ms: seq<Msg>) {
    InStep(Reacts(l, ms)) && (ms != [] ==> AlwaysInStep(l, ms[..|ms| - 1]))
  }

  /** The two are in step all through a run exactly when every table call of the run is served. */
  lemma {:induction false} ListenerRun(l: Listener, ms: seq<Msg>)
    requires InStep(l)
    ensures AlwaysInStep(l, ms) <==> AlwaysServed(l, ms)
  {
    hide InStep, React, TableServed;
    if ms != [] {
      var init := ms[..|ms| - 1];
      ListenerRun(l, init);
      if AlwaysServed(l, init) {
        Now(l, init);
        InStepIff(Reacts(l, init), ms[|ms| - 1]);
      }
    }
  }

  lemma Now(l: Listener, ms: seq<Msg>)
    requires AlwaysInStep(l, ms)
    ensures InStep(Reacts(l, ms))
  {
  }

  function Start(maxEntries: nat, alg: set<(nat, nat)>, script: nat -> Reply, cfg: Config): Listener {
    Listener(Init(maxEntries, alg, script), false, cfg)
  }

  /** From the start, a WAN that goes down under another address leaves its table behind. */
  lemma OtherAddressRun(maxEntries: nat, alg: set<(nat, nat)>, script: nat -> Reply, cfg: Config, ip: Ip, other: Ip)
    requires script(0).Done? && ip != 0 && other != ip
    ensures var l := Start(maxEntries, alg, script, cfg);
            InStep(l) && !InStep(Reacts(l, [WanUp(ip, false), WanDown(other)]))
  {
    var l, m1, m2 := Start(maxEntries, alg, script, cfg), WanUp(ip, false), WanDown(other);
    TwoReacts(l, m1, m2);
    InStepIff(l, m1);
    hide Init, AddTable;
    InStepIff(React(l, m1), m2);
  }

  lemma TwoReacts(l: Listener, m1: Msg, m2: Msg)
    ensures Reacts(l, [m1, m2]) == React(React(l, m1), m2)
  {
    hide React;
    assert [m1, m2][..1] == [m1] && [m1][..0] == [];
    assert Reacts(l, [m1]) == React(l, m1);
  }

  // ---- Cache and hardware --------------------------------------------------------------------

  lemma RouteInv(l: Listener, ct: Ct, e: Entry, temp: bool)
    requires Inv(l.app) && (Closes(ct) ==> e.key != ZERO)
    ensures Inv(Route(l, ct, e, temp))
  {
    hide Inv, AddEntry, CacheEntry, DeleteEntry;
    CacheEntryInv(l.app, e);
    SideArrays(l.app, AddTempEntry(l.app, e).temp, l.app.pwr);
    AddEntryInv(l.app, e);
    if e.key != ZERO { DeleteEntryInv(l.app, e.key); }
    var s1 := DeleteEntry(l.app, e.key);
    if Closes(ct) { SideArrays(s1, DeleteTempEntry(s1, e.key).temp, s1.pwr); }
  }

  /** An entry keeps its message's protocol, so a closed connection's tuple is never all zero. */
  lemma MadeProtocol(ct: Ct, cfg: Config)
    requires MakeEntry(ct, cfg).Some?
    ensures MakeEntry(ct, cfg).value.0.key.protocol == ct.protocol
    ensures Opens(ct) || Closes(ct) ==> MakeEntry(ct, cfg).value.0.key != ZERO
  {
  }

  lemma ReactInv(l: Listener, m: Msg)
    requires Inv(l.app) && m != Other(OpDelete(ZERO))
    ensures Inv(React(l, m).app)
  {
    hide Inv, Route, MakeEntry;
    match m
    case WanUp(ip, _) => StepInv(l.app, OpAddTable(ip));
    case WanDown(ip) => StepInv(l.app, OpDeleteTable(ip));
    case Message(ct) =>
      var r := MakeEntry(ct, l.cfg);
      if r.Some? {
        MadeProtocol(ct, l.cfg);
        RouteInv(l, ct, r.value.0, r.value.1);
      }
    case Other(op) => StepInv(l.app, op);
  }

  /** From conntrack and WAN events to the hardware: in every run, matched or not, served or not,
      cache and hardware agree. */
  lemma {:induction false} ListenerInv(l: Listener, ms: seq<Msg>)
    requires Inv(l.app) && Other(OpDelete(ZERO)) !in ms
    ensures Inv(Reacts(l, ms).app)
  {
    hide Inv, React;
    if ms != [] {
      ListenerInv(l, ms[..|ms| - 1]);
      ReactInv(Reacts(l, ms[..|ms| - 1]), ms[|ms| - 1]);
    }
  }

  // ---- Closed connections --------------------------------------------------------------------

  predicate Absent(es: seq<Entry>, k: Tuple) { forall i :: 0 <= i < |es| ==> es[i].key != k }

  predicate AtMostOnce(es: seq<Entry>, k: Tuple) {
    forall i, j :: 0 <= i < j < |es| && es[i].key == k ==> es[j].key != k
  }

  /** A closed connection is forgotten: no cache slot holds its tuple any more, its rule is gone
      unless the hardware refuses, and no temp slot holds it if and only if at most one did. */
  lemma CloseForgets(l: Listener, ct: Ct)
    requires Inv(l.app) && Closes(ct) && MakeEntry(ct, l.cfg).Some?
    ensures var k, s' := MakeEntry(ct, l.cfg).value.0.key, React(l, Message(ct)).app;
            && Absent(s'.cache, k)
            && (s'.hw.badDels == l.app.hw.badDels ==>
                  forall i :: 0 <= i < |l.app.cache| && l.app.cache[i].key == k && l.app.cache[i].enabled ==>
                    l.app.cache[i].hdl !in s'.hw.rules)
            && (Absent(s'.temp, k) <==> AtMostOnce(l.app.temp, k))
  {
    MadeProtocol(ct, l.cfg);
    hide MakeEntry;
    var k := MakeEntry(ct, l.cfg).value.0.key;
    DeleteForgets(l.app, k);
    TempForgets(DeleteEntry(l.app, k), k);
    hide DeleteEntry, DeleteTempEntry;
  }

  lemma DeleteForgets(s: State, k: Tuple)
    requires Inv(s) && k != ZERO
    ensures var s' := DeleteEntry(s, k);
            && Absent(s'.cache, k) && s'.temp == s.temp
            && (s'.hw.badDels == s.hw.badDels ==>
                  forall i :: 0 <= i < |s.cache| && s.cache[i].key == k && s.cache[i].enabled ==> s.cache[i].hdl !in s'.hw.rules)
  {
    var i := FindKey(s.cache, k);
    assert forall j :: 0 <= j < |s.cache| && s.cache[j].key == k ==> j == i;
  }

  lemma TempForgets(s: State, k: Tuple)
    requires k != ZERO
    ensures var s' := DeleteTempEntry(s, k);
            && s' == s.(temp := s'.temp)
            && (Absent(s'.temp, k) <==> AtMostOnce(s.temp, k))
  {
    var i := FindKey(s.temp, k);
    var t := DeleteTempEntry(s, k).temp;
    if i < |s.temp| {
      assert forall j :: 0 <= j < |s.temp| && j != i ==> t[j] == s.temp[j];
      if p, q :| 0 <= p < q < |s.temp| && s.temp[p].key == k && s.temp[q].key == k {
        assert t[q].key == k;
      }
    }
  }

  /** No two temp slots hold one tuple, as long as no flush rewrites them to their dummy form. */
  lemma StepTemps(s: State, op: Op)
    requires Distinct(s.temp) && !(op.OpFlush? && op.add && op.dummy)
    ensures Distinct(Step(s, op).temp)
  {
    hide SweepFrom, AddEntry, CacheEntry, DeleteEntry, StampFrom, FlushFrom, Flushed, Distinct;
    match op
    case OpAddTemp(e) => AddTemps(s, e);
    case OpDeleteTemp(k) => DeleteTemps(s, k);
    case OpFlush(ip, add, dummy) => FlushTemps(s, ip, add, dummy);
    case OpStamp(ts, alive) => StampTables(s, ts, alive, 0);
    case OpCache(e) => CacheKeeps(s, e);
    case _ =>
  }

  lemma AddTemps(s: State, e: Entry)
    requires Distinct(s.temp)
    ensures Distinct(AddTempEntry(s, e).temp)
  {
    FirstOf(s.temp, e.key);
  }

  lemma DeleteTemps(s: State, k: Tuple)
    requires Distinct(s.temp)
    ensures Distinct(DeleteTempEntry(s, k).temp)
  {
  }

  lemma FlushTemps(s: State, ip: Ip, add: bool, dummy: bool)
    requires Distinct(s.temp) && !(add && dummy)
    ensures Distinct(FlushFrom(s, ip, add, dummy, 0).temp)
  {
    hide FlushFrom;
    FlushKeeps(s, ip, add, dummy, 0);
    var s' := FlushFrom(s, ip, add, dummy, 0);
    forall j | 0 <= j < |s.temp| ensures s'.temp[j] == s.temp[j] || s'.temp[j] == EMPTY {
      assert Flushed(s.pub, s'.cache, ip, add, dummy, s.temp[j], s'.temp[j]);
    }
  }

  predicate DummyFlush(m: Msg) { m.Other? && m.op.OpFlush? && m.op.add && m.op.dummy }

  lemma ReactTemps(l: Listener, m: Msg)
    requires Distinct(l.app.temp) && !DummyFlush(m)
    ensures Distinct(React(l, m).app.temp)
  {
    hide Distinct, Step, MakeEntry, AddTable, DeleteTable, AddEntry, CacheEntry, DeleteEntry, AddTempEntry, DeleteTempEntry;
    match m
    case WanUp(ip, _) => StepTables(l.app, ip);
    case WanDown(ip) => StepTables(l.app, ip);
    case Other(op) => StepTemps(l.app, op);
    case Message(ct) =>
      var r := MakeEntry(ct, l.cfg);
      if r.Some? {
        var e := r.value.0;
        CacheKeeps(l.app, e);
        AddTemps(l.app, e);
        DeleteTemps(DeleteEntry(l.app, e.key), e.key);
      }
  }

  lemma StepTables(s: State, ip: Ip)
    ensures AddTable(s, ip).0.temp == DeleteTable(s, ip).0.temp == s.temp
  {
    hide SweepFrom;
  }

  /** So over every run without a dummy flush a closed connection is in no temp slot either. */
  lemma {:induction false} ListenerTemps(l: Listener, ms: seq<Msg>)
    requires Distinct(l.app.temp) && forall m :: m in ms ==> !DummyFlush(m)
    ensures Distinct(Reacts(l, ms).app.temp)
    ensures forall k :: k != ZERO ==> AtMostOnce(Reacts(l, ms).app.temp, k)
  {
    hide React, DummyFlush;
    if ms != [] {
      ListenerTemps(l, ms[..|ms| - 1]);
      ReactTemps(Reacts(l, ms[..|ms| - 1]), ms[|ms| - 1]);
    }
  }

  /** A dummy flush whose entries NatApp does not accept leaves them in their slots, rewritten. */
  lemma {:induction false} FlushRewrites(s: State, ip: Ip, i: nat)
    requires i <= |s.temp|
    requires forall j :: 0 <= j < |s.temp| && Names(s.temp[j], ip) ==>
               s.temp[j].publicIp == s.pub && UsesAlg(s.alg, Dummy(s.temp[j]).key)
    ensures var t := FlushFrom(s, ip, true, true, i).temp;
            forall j :: 0 <= j < |s.temp| ==>
              t[j] == if i <= j && Names(s.temp[j], ip) then Dummy(s.temp[j]) else s.temp[j]
    decreases |s.temp| - i
  {
    if i == |s.temp| { return; }
    var s1 := FlushSlot(s, ip, true, true, i);
    if Names(s.temp[i], ip) { assert s1 == s.(temp := s.temp[i := Dummy(s.temp[i])]); }
    hide FlushSlot, AddEntry;
    FlushRewrites(s1, ip, i + 1);
  }

  /** Two connections of one client to one target whose public ends coincide. */
  function Twin(port: nat): Entry { Entry(Tuple(5, 8, port, 80, TCP), 9, 21, 0, false, false, 0) }

  lemma TakesTwins(s: State)
    requires forall i :: 0 <= i < |s.cache| ==> s.cache[i] == EMPTY
    requires |s.temp| == MAX_TEMP_ENTRIES && forall i :: 0 <= i < |s.temp| ==> s.temp[i] == EMPTY
    requires s.alg == {(TCP, 21)}
    ensures AddTempEntry(AddTempEntry(s, Twin(1000)), Twin(1001)) == s.(temp := s.temp[0 := Twin(1000)][1 := Twin(1001)])
  {
    assert FindBlank(s.temp) == 0;
    FirstOf(s.cache, Twin(1000).key);
    FirstOf(s.temp, Twin(1000).key);
    var s1 := s.(temp := s.temp[0 := Twin(1000)]);
    assert AddTempEntry(s, Twin(1000)) == s1;
    FirstOf(s.cache, Twin(1001).key);
    FirstOf(s1.temp, Twin(1001).key);
    assert FindBlank(s1.temp) == 1;
  }

  lemma TwinsFlushed(s: State)
    requires |s.temp| == MAX_TEMP_ENTRIES && forall i :: 0 <= i < |s.temp| ==> s.temp[i] == EMPTY
    requires s.alg == {(TCP, 21)} && s.pub == 9
    ensures var t := FlushFrom(s.(temp := s.temp[0 := Twin(1000)][1 := Twin(1001)]), 5, true, true, 0).temp;
            |t| == MAX_TEMP_ENTRIES && t[0].key == t[1].key == Dummy(Twin(1000)).key
  {
    hide FlushFrom;
    FlushRewrites(s.(temp := s.temp[0 := Twin(1000)][1 := Twin(1001)]), 5, 0);
  }

  /** From the start: two temp entries that a dummy flush cannot hand over, because their public
      port is an ALG's, end up under one tuple, and closing it forgets only one of them. */
  lemma DummyFlushRun(maxEntries: nat, script: nat -> Reply)
    requires script(0).Done?
    ensures var s := Run(Init(maxEntries, {(TCP, 21)}, script),
                         [OpAddTable(9), OpAddTemp(Twin(1000)), OpAddTemp(Twin(1001)), OpFlush(5, true, true)]);
            !Absent(DeleteTempEntry(s, Dummy(Twin(1000)).key).temp, Dummy(Twin(1000)).key)
  {
    var s0 := Init(maxEntries, {(TCP, 21)}, script);
    hide Init, AddTable, AddTempEntry, FlushFrom, Run, Absent, DeleteTempEntry, Twin, Dummy;
    RunFlush(s0, 9, Twin(1000), Twin(1001), 5);
    FirstTable(maxEntries, {(TCP, 21)}, script, 9);
    var s1 := AddTable(s0, 9).0;
    TakesTwins(s1);
    TwinsFlushed(s1);
    SharedStays(FlushFrom(AddTempEntry(AddTempEntry(s1, Twin(1000)), Twin(1001)), 5, true, true, 0), Dummy(Twin(1000)).key);
  }

  lemma RunFlush(s: State, pub: Ip, e1: Entry, e2: Entry, ip: Ip)
    ensures Run(s, [OpAddTable(pub), OpAddTemp(e1), OpAddTemp(e2), OpFlush(ip, true, true)])
         == FlushFrom(AddTempEntry(AddTempEntry(AddTable(s, pub).0, e1), e2), ip, true, true, 0)
  {
    hide AddTable, AddTempEntry, FlushFrom, Run;
    RunFour(s, OpAddTable(pub), OpAddTemp(e1), OpAddTemp(e2), OpFlush(ip, true, true));
  }

  lemma FirstTable(maxEntries: nat, alg: set<(nat, nat)>, script: nat -> Reply, ip: Ip)
    requires script(0).Done? && ip != 0
    ensures var s := AddTable(Init(maxEntries, alg, script), ip).0;
            && (forall i :: 0 <= i < |s.cache| ==> s.cache[i] == EMPTY)
            && |s.temp| == MAX_TEMP_ENTRIES && (forall i :: 0 <= i < |s.temp| ==> s.temp[i] == EMPTY)
            && s.alg == alg && s.pub == ip
  {
  }

  lemma SharedStays(s: State, k: Tuple)
    requires |s.temp| >= 2 && s.temp[0].key == s.temp[1].key == k
    ensures !Absent(DeleteTempEntry(s, k).temp, k)
  {
    assert FindKey(s.temp, k) == 0;
    assert DeleteTempEntry(s, k).temp[1] == s.temp[1];
  }

  lemma RunFour(s: State, a: Op, b: Op, c: Op, d: Op)
    ensures Run(s, [a, b, c, d]) == Step(Step(Step(Step(s, a), b), c), d)
  {
    hide Step;
    assert [a, b, c, d][..3] == [a, b, c] && [a, b, c][..2] == [a, b] && [a, b][..1] == [a] && [a][..0] == [];
    assert Run(s, [a]) == Step(s, a);
    assert Run(s, [a, b]) == Step(Run(s, [a]), b);
    assert Run(s, [a, b, c]) == Step(Run(s, [a, b]), c);
  }

  // ---- Opened connections --------------------------------------------------------------------

  predicate Remembered(s: State, k: Tuple) { !Absent(s.cache, k) || !Absent(s.temp, k) }

  /** There is a place for the entry: in the cache while the WAN is down, among the temp entries
      for a temporary one, otherwise in the cache with a table and an accepting driver unless one
      of its ends sleeps. */
  predicate Fits(l: Listener, e: Entry, temp: bool) {
    var s := l.app;
    if !l.wanUp then Full(e.key) && !Absent(s.cache, ZERO)
    else if temp then !UsesAlg(s.alg, e.key) && exists i :: 0 <= i < |s.temp| && s.temp[i].key.privateIp == s.temp[i].key.targetIp == 0
    else
      && s.tbl != 0 && !UsesAlg(s.alg, e.key) && Full(e.key) && !Absent(s.cache, ZERO)
      && (Listed(s.pwr, e.key.privateIp) || Listed(s.pwr, e.key.targetIp)
          || (s.tbl == s.hw.table && Answer(s.hw).Done?))
  }

  /** An opened connection is in the cache or among the temp entries afterwards if and only if it
      was already, or there is a place for it. */
  lemma OpenRemembered(l: Listener, ct: Ct)
    requires Opens(ct) && MakeEntry(ct, l.cfg).Some?
    ensures var (e, temp) := MakeEntry(ct, l.cfg).value;
            Remembered(React(l, Message(ct)).app, e.key) <==> Remembered(l.app, e.key) || Fits(l, e, temp)
  {
    MadeProtocol(ct, l.cfg);
    hide MakeEntry;
    var (e, temp) := MakeEntry(ct, l.cfg).value;
    var s := l.app;
    FirstOf(s.cache, e.key);
    FirstOf(s.cache, ZERO);
    FirstOf(s.temp, e.key);
    if !l.wanUp {
      CacheRemembers(s, e);
    } else if temp {
      TempRemembers(s, e);
    } else {
      AddRemembers(s, e);
    }
  }

  lemma CacheRemembers(s: State, e: Entry)
    requires e.key != ZERO
    ensures var s' := CacheEntry(s, e);
            && s'.temp == s.temp
            && (Absent(s'.cache, e.key) <==> Absent(s.cache, e.key) && !(Full(e.key) && !Absent(s.cache, ZERO)))
  {
    FirstOf(s.cache, e.key);
    FirstOf(s.cache, ZERO);
    var i := FindKey(s.cache, ZERO);
    if i < |s.cache| && CacheEntry(s, e) != s { assert CacheEntry(s, e).cache[i].key == e.key; }
  }

  lemma TempRemembers(s: State, e: Entry)
    requires e.key != ZERO
    ensures var s' := AddTempEntry(s, e);
            && s'.cache == s.cache
            && (!Absent(s'.temp, e.key) || !Absent(s.cache, e.key) <==>
                  !Absent(s.temp, e.key) || !Absent(s.cache, e.key)
                  || (!UsesAlg(s.alg, e.key) && FindBlank(s.temp) < |s.temp|))
    ensures FindBlank(s.temp) < |s.temp|
       <==> exists i :: 0 <= i < |s.temp| && s.temp[i].key.privateIp == s.temp[i].key.targetIp == 0
  {
    FirstOf(s.cache, e.key);
    FirstOf(s.temp, e.key);
    var i := FindBlank(s.temp);
    if AddTempEntry(s, e) != s { assert AddTempEntry(s, e).temp[i] == e; }
  }

  lemma AddRemembers(s: State, e: Entry)
    requires e.key != ZERO
    ensures var s' := AddEntry(s, e).0;
            && s'.temp == s.temp
            && (Absent(s'.cache, e.key) <==>
                  Absent(s.cache, e.key) && !(s.tbl != 0 && !UsesAlg(s.alg, e.key) && Full(e.key) && !Absent(s.cache, ZERO)
                    && (Listed(s.pwr, e.key.privateIp) || Listed(s.pwr, e.key.targetIp)
                        || (s.tbl == s.hw.table && Answer(s.hw).Done?))))
  {
    FirstOf(s.cache, e.key);
    FirstOf(s.cache, ZERO);
    var i := FindKey(s.cache, ZERO);
    if i < |s.cache| && AddEntry(s, e).0.cache != s.cache { assert AddEntry(s, e).0.cache[i].key == e.key; }
  }
}
