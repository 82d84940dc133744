/** The NAT cache and the hardware NAT table (IPACM_Conntrack_NATApp.cpp). */
module NatApp {
  import opened Driver

  const MAX_TEMP_ENTRIES: nat := 25
  const MAX_WIFI_CLIENTS: nat := 32

  type Ip = nat

  /** The five fields that identify a connection. */
  datatype Tuple = Tuple(privateIp: Ip, targetIp: Ip, privatePort: nat, targetPort: nat, protocol: nat)

  /** nat_table_entry */
  datatype Entry = Entry(
    key: Tuple,
    publicIp: Ip,
    publicPort: nat,
    timestamp: nat,
    dstNat: bool,
    enabled: bool,
    hdl: Handle)

  const ZERO := Tuple(0, 0, 0, 0, 0)
  const EMPTY := Entry(ZERO, 0, 0, 0, false, false, 0)

  predicate Full(k: Tuple) {
    k.privateIp != 0 && k.targetIp != 0 && k.privatePort != 0 && k.targetPort != 0 && k.protocol != 0
  }

  // ---- The hardware NAT table ----------------------------------------------------------

  datatype Rule = Rule(key: Tuple, publicPort: nat)

  /** `table` is the handle of the one NAT table, 0 when there is none.  The last two fields
      count the refused calls. */
  datatype Hw = Hw(
    table: nat,
    rules: map<Handle, Rule>,
    script: nat -> Reply,
    pos: nat,
    badAdds: nat,
    badDels: nat)

  /** The same hardware later on: refused calls are never forgotten. */
  ghost predicate Later(hw: Hw, hw': Hw) {
    hw'.script == hw.script && hw'.badAdds >= hw.badAdds && hw'.badDels >= hw.badDels
  }

  function Answer(hw: Hw): Reply { hw.script(hw.pos) }

  /** A second table is refused. */
  function AddTbl(hw: Hw): (r: (Hw, Option<nat>))
    ensures Later(hw, r.0)
    ensures r.1.Some? ==> r.1.value != 0 && hw.table == 0
    ensures r.0.rules == hw.rules && r.0.table == if r.1.Some? then r.1.value else hw.table
    ensures r.0.badAdds == hw.badAdds && r.0.badDels == hw.badDels
  {
    if hw.table != 0 || !Answer(hw).Done? then (hw.(pos := hw.pos + 1), None)
    else (hw.(pos := hw.pos + 1, table := Answer(hw).hint + 1), Some(Answer(hw).hint + 1))
  }

  /** The table takes its rules with it. */
  function DelTbl(hw: Hw, tbl: nat): (r: (Hw, bool))
    ensures Later(hw, r.0)
  {
    if tbl == 0 || tbl != hw.table || !Answer(hw).Done? then (hw.(pos := hw.pos + 1, badDels := hw.badDels + 1), false)
    else (hw.(pos := hw.pos + 1, table := 0, rules := map[]), true)
  }

  /** Rules are refused when there is no table. */
  function AddRule(hw: Hw, tbl: nat, rule: Rule): (r: (Hw, Option<Handle>))
    ensures Later(hw, r.0)
    ensures r.0.table == hw.table && r.0.badDels == hw.badDels
    ensures match r.1
            case None => r.0.rules == hw.rules && r.0.badAdds == hw.badAdds + 1
            case Some(h) => h !in hw.rules && r.0.rules == hw.rules[h := rule] && r.0.badAdds == hw.badAdds
    ensures tbl == 0 ==> r.1.None?
  {
    if tbl == 0 || tbl != hw.table || !Answer(hw).Done? then (hw.(pos := hw.pos + 1, badAdds := hw.badAdds + 1), None)
    else
      var h := Pick(hw.rules.Keys, Answer(hw).hint);
      (hw.(pos := hw.pos + 1, rules := hw.rules[h := rule]), Some(h))
  }

  function DelRule(hw: Hw, tbl: nat, h: Handle): (r: (Hw, bool))
    ensures Later(hw, r.0)
    ensures r.0.table == hw.table && r.0.badAdds == hw.badAdds
    ensures r.0.rules == if r.1 then hw.rules - {h} else hw.rules
    ensures r.0.badDels == hw.badDels + (if r.1 then 0 else 1)
  {
    if tbl == 0 || tbl != hw.table || h !in hw.rules || !Answer(hw).Done? then
      (hw.(pos := hw.pos + 1, badDels := hw.badDels + 1), false)
    else
      (hw.(pos := hw.pos + 1, rules := hw.rules - {h}), true)
  }

  // ---- NatApp's state ------------------------------------------------------------------

  /** `tbl` is nat_table_hdl, `pwr` PwrSaveIfs, `cnt` curCnt and `alg` the configured ALG
      (protocol, port) pairs.  `orphans` records the handles of installed rules whose slot
      was cleared although the hardware had refused the delete. */
  datatype State = State(
    cache: seq<Entry>,
    temp: seq<Entry>,
    pwr: seq<Ip>,
    pub: Ip,
    pubPre: Ip,
    tbl: nat,
    cnt: int,
    alg: set<(nat, nat)>,
    hw: Hw,
    orphans: set<Handle>)

  function RuleOf(e: Entry): Rule { Rule(e.key, e.publicPort) }

  /** The first slot holding the tuple, or the array's length. */
  function FindKey(es: seq<Entry>, k: Tuple): (i: nat)
    ensures i <= |es|
    ensures i < |es| ==> es[i].key == k
    ensures forall j :: 0 <= j < i ==> es[j].key != k
  {
    if es == [] || es[0].key == k then 0 else 1 + FindKey(es[1..], k)
  }

  function FindIp(ps: seq<Ip>, ip: Ip): (i: nat)
    ensures i <= |ps|
    ensures i < |ps| ==> ps[i] == ip
    ensures forall j :: 0 <= j < i ==> ps[j] != ip
  {
    if ps == [] || ps[0] == ip then 0 else 1 + FindIp(ps[1..], ip)
  }

  predicate UsesAlg(alg: set<(nat, nat)>, k: Tuple) {
    (k.protocol, k.privatePort) in alg || (k.protocol, k.targetPort) in alg
  }

  /** isPwrSaveIf */
  predicate Listed(pwr: seq<Ip>, ip: Ip) { ip != 0 && ip in pwr }

  // ---- Single entries ------------------------------------------------------------------

  /** AddEntry's and CacheEntry's field copies; only CacheEntry copies the public address. */
  function Filled(e: Entry, publicIp: Ip, enabled: bool, hdl: Handle): Entry {
    Entry(e.key, publicIp, e.publicPort, 0, e.dstNat, enabled, hdl)
  }

  function AddEntry(s: State, e: Entry): (r: (State, int))
    ensures Later(s.hw, r.0.hw) && r.0.hw.badDels == s.hw.badDels && r.0.orphans == s.orphans
    ensures r.0 == s.(cache := r.0.cache, hw := r.0.hw, cnt := r.0.cnt)
  {
    if s.tbl == 0 || UsesAlg(s.alg, e.key) then (s, -1)
    else if !Full(e.key) then (s, 0)
    else if FindKey(s.cache, e.key) < |s.cache| then (s, -1)
    else
      var i := FindKey(s.cache, ZERO);
      if i == |s.cache| then (s, -1)
      else if Listed(s.pwr, e.key.privateIp) || Listed(s.pwr, e.key.targetIp) then
        (s.(cache := s.cache[i := Filled(e, s.cache[i].publicIp, false, 0)], cnt := s.cnt + 1), 0)
      else
        var (hw, h) := AddRule(s.hw, s.tbl, RuleOf(e));
        if h.None? then (s.(hw := hw), -1)
        else
          (s.(hw := hw, cache := s.cache[i := Filled(e, s.cache[i].publicIp, true, h.value)], cnt := s.cnt + 1), 0)
  }

  function CacheEntry(s: State, e: Entry): State {
    if !Full(e.key) || FindKey(s.cache, e.key) < |s.cache| then s
    else
      var i := FindKey(s.cache, ZERO);
      if i == |s.cache| then s
      else s.(cache := s.cache[i := Filled(e, e.publicIp, false, 0)], cnt := s.cnt + 1)
  }

  /** A refused delete is only logged: the slot is cleared all the same. */
  function DeleteEntry(s: State, k: Tuple): (r: State)
    ensures Later(s.hw, r.hw) && (r.hw.badDels == s.hw.badDels ==> r.orphans == s.orphans)
    ensures |r.cache| == |s.cache| && r == s.(cache := r.cache, hw := r.hw, cnt := r.cnt, orphans := r.orphans)
  {
    var i := FindKey(s.cache, k);
    if i == |s.cache| then s
    else
      var s1 := s.(cache := s.cache[i := EMPTY], cnt := s.cnt - 1);
      if !s.cache[i].enabled then s1
      else
        var (hw, ok) := DelRule(s.hw, s.tbl, s.cache[i].hdl);
        s1.(hw := hw, orphans := if ok then s.orphans else s.orphans + {s.cache[i].hdl})
  }

  // ---- Loops over the cache --------------------------------------------------------------

  /** The five loops that visit every slot. */
  datatype Sweep =
    | Restore
    | PowerOff(ip: Ip)
    | PowerOn(ip: Ip)
    | ClientGone(ip: Ip)
    | StaGone(ip: Ip)

  /** What one visit does to a slot; the flag says that the slot was cleared. */
  datatype Visited = Visited(e: Entry, hw: Hw, cleared: bool)

  function Readd(hw: Hw, tbl: nat, e: Entry): Visited {
    var (hw1, h) := AddRule(hw, tbl, RuleOf(e));
    if h.None? then Visited(EMPTY, hw1, true) else Visited(e.(enabled := true, hdl := h.value), hw1, false)
  }

  function Visit(w: Sweep, tbl: nat, hw: Hw, e: Entry): (r: Visited)
    ensures Later(hw, r.hw)
  {
    match w
    case Restore => if e.key.privateIp != 0 then Readd(hw, tbl, e) else Visited(e, hw, false)
    case PowerOn(ip) => if e.key.privateIp == ip && !e.enabled then Readd(hw, tbl, e) else Visited(e, hw, false)
    case PowerOff(ip) =>
      if e.key.privateIp == ip && e.enabled then
        var (hw1, ok) := DelRule(hw, tbl, e.hdl);
        Visited(if ok then e.(enabled := false, hdl := 0) else e, hw1, false)
      else Visited(e, hw, false)
    case ClientGone(ip) =>
      if e.key.privateIp == ip && e.enabled then
        var (hw1, ok) := DelRule(hw, tbl, e.hdl);
        Visited(if ok then e.(enabled := false) else e, hw1, false)
      else Visited(e, hw, false)
    case StaGone(ip) =>
      if e.key.targetIp != ip then Visited(e, hw, false)
      else if e.enabled then
        var (hw1, ok) := DelRule(hw, tbl, e.hdl);
        if ok then Visited(EMPTY, hw1, true) else Visited(e, hw1, false)
      else Visited(EMPTY, hw, true)
  }

  function VisitSlot(s: State, w: Sweep, i: nat): (r: State)
    requires i < |s.cache|
    ensures |r.cache| == |s.cache| && r == s.(cache := r.cache, hw := r.hw, cnt := r.cnt)
    ensures Later(s.hw, r.hw)
  {
    var v := Visit(w, s.tbl, s.hw, s.cache[i]);
    s.(cache := s.cache[i := v.e], hw := v.hw, cnt := if v.cleared then s.cnt - 1 else s.cnt)
  }

  function SweepFrom(s: State, w: Sweep, i: nat): (r: State)
    requires i <= |s.cache|
    ensures |r.cache| == |s.cache| && r == s.(cache := r.cache, hw := r.hw, cnt := r.cnt)
    ensures Later(s.hw, r.hw)
    decreases |s.cache| - i
  {
    if i == |s.cache| then s else SweepFrom(VisitSlot(s, w, i), w, i + 1)
  }

  // ---- WAN up and down -------------------------------------------------------------------

  /** The cache is put back only when the address is the one the last table had. */
  function AddTable(s: State, ip: Ip): (r: (State, int))
    ensures Later(s.hw, r.0.hw)
  {
    var (hw, t) := AddTbl(s.hw);
    if t.None? then (s.(hw := hw), -1)
    else
      var s1 := s.(hw := hw, tbl := t.value);
      var s2 := if ip == s.pubPre then SweepFrom(s1, Restore, 0) else s1;
      (s2.(pub := ip), 0)
  }

  /** Reset's loop. */
  function AllDisabled(es: seq<Entry>): (r: seq<Entry>)
    ensures |r| == |es| && forall i :: 0 <= i < |es| ==> r[i] == es[i].(enabled := false)
  {
    if es == [] then [] else [es[0].(enabled := false)] + AllDisabled(es[1..])
  }

  function DeleteTable(s: State, ip: Ip): (r: (State, int))
    ensures Later(s.hw, r.0.hw)
  {
    if s.tbl == 0 || s.pub != ip then (s, -1)
    else
      var (hw, ok) := DelTbl(s.hw, s.tbl);
      if !ok then (s.(hw := hw), -1)
      else (s.(hw := hw, pubPre := s.pub, tbl := 0, pub := 0, cache := AllDisabled(s.cache), orphans := {}), 0)
  }

  // ---- Power save and client loss ----------------------------------------------------------

  /** A full list drops the address, but its rules are removed all the same. */
  function UpdatePwrSaveIf(s: State, ip: Ip): (r: (State, int))
    ensures Later(s.hw, r.0.hw)
  {
    if ip == 0 then (s, -1)
    else if FindIp(s.pwr, ip) < |s.pwr| then (s, 0)
    else
      var j := FindIp(s.pwr, 0);
      var s1 := if j < |s.pwr| then s.(pwr := s.pwr[j := ip]) else s;
      (SweepFrom(s1, PowerOff(ip), 0), 0)
  }

  function Unlist(pwr: seq<Ip>, ip: Ip): seq<Ip> {
    var j := FindIp(pwr, ip);
    if j < |pwr| then pwr[j := 0] else pwr
  }

  /** The result is -1 even on success. */
  function ResetPwrSaveIf(s: State, ip: Ip): (r: (State, int))
    ensures Later(s.hw, r.0.hw)
  {
    if ip == 0 then (s, -1) else (SweepFrom(s.(pwr := Unlist(s.pwr, ip)), PowerOn(ip), 0), -1)
  }

  function DelEntriesOnClntDiscon(s: State, ip: Ip): (r: (State, int))
    ensures Later(s.hw, r.0.hw)
  {
    if ip == 0 then (s, -1) else (SweepFrom(s.(pwr := Unlist(s.pwr, ip)), ClientGone(ip), 0), 0)
  }

  function DelEntriesOnSTAClntDiscon(s: State, ip: Ip): (r: (State, int))
    ensures Later(s.hw, r.0.hw)
  {
    if ip == 0 then (s, -1) else (SweepFrom(s, StaGone(ip), 0), 0)
  }

  // ---- Temporary entries -------------------------------------------------------------------

  /** The first slot whose two addresses are zero; its ports are not looked at. */
  function FindBlank(es: seq<Entry>): (i: nat)
    ensures i <= |es|
    ensures i < |es| ==> es[i].key.privateIp == 0 && es[i].key.targetIp == 0
    ensures forall j :: 0 <= j < i ==> es[j].key.privateIp != 0 || es[j].key.targetIp != 0
  {
    if es == [] || (es[0].key.privateIp == 0 && es[0].key.targetIp == 0) then 0 else 1 + FindBlank(es[1..])
  }

  function AddTempEntry(s: State, e: Entry): State {
    if UsesAlg(s.alg, e.key) || FindKey(s.cache, e.key) < |s.cache| || FindKey(s.temp, e.key) < |s.temp| then s
    else
      var i := FindBlank(s.temp);
      if i == |s.temp| then s else s.(temp := s.temp[i := e])
  }

  function DeleteTempEntry(s: State, k: Tuple): State {
    var i := FindKey(s.temp, k);
    if i == |s.temp| then s else s.(temp := s.temp[i := EMPTY])
  }

  predicate Names(e: Entry, ip: Ip) { e.key.privateIp == ip || e.key.targetIp == ip }

  /** The dummy form of a temp entry: its private end becomes the public one. */
  function Offered(e: Entry, dummy: bool): Entry {
    if dummy then e.(key := e.key.(privateIp := e.publicIp, privatePort := e.publicPort)) else e
  }

  function FlushSlot(s: State, ip: Ip, add: bool, dummy: bool, i: nat): (r: State)
    requires i < |s.temp|
    ensures |r.temp| == |s.temp| && Later(s.hw, r.hw)
  {
    var t := s.temp[i];
    if !Names(t, ip) then s
    else if !add || t.publicIp != s.pub then s.(temp := s.temp[i := EMPTY])
    else
      var t1 := Offered(t, dummy);
      var (s1, ret) := AddEntry(s.(temp := s.temp[i := t1]), t1);
      if ret != 0 then s1 else s1.(temp := s1.temp[i := EMPTY])
  }

  function FlushFrom(s: State, ip: Ip, add: bool, dummy: bool, i: nat): (r: State)
    requires i <= |s.temp|
    ensures |r.temp| == |s.temp| && Later(s.hw, r.hw)
    decreases |s.temp| - i
  {
    if i == |s.temp| then s else FlushFrom(FlushSlot(s, ip, add, dummy, i), ip, add, dummy, i + 1)
  }

  // ---- Time stamps -------------------------------------------------------------------------

  /** UpdateUDPTimeStamp's visit of one slot: `ts` is the hardware's time stamp, if it can be
      read, and `alive` whether the kernel still knows the connection. */
  function StampSlot(s: State, ts: Option<nat>, alive: bool, i: nat): (r: State)
    requires i < |s.cache|
    ensures |r.cache| == |s.cache| && Later(s.hw, r.hw)
  {
    var e := s.cache[i];
    if !e.enabled || e.key.privateIp == e.publicIp || ts.None? || ts.value == e.timestamp then s
    else if alive then s.(cache := s.cache[i := e.(timestamp := ts.value)])
    else DeleteEntry(s, e.key)
  }

  function StampFrom(s: State, ts: nat -> Option<nat>, alive: nat -> bool, i: nat): (r: State)
    requires i <= |s.cache|
    ensures |r.cache| == |s.cache| && Later(s.hw, r.hw)
    decreases |s.cache| - i
  {
    if i == |s.cache| then s else StampFrom(StampSlot(s, ts(i), alive(i), i), ts, alive, i + 1)
  }

  // ---- Runs --------------------------------------------------------------------------------

  datatype Op =
    | OpAddTable(ip: Ip)
    | OpDeleteTable(ip: Ip)
    | OpAdd(e: Entry)
    | OpDelete(k: Tuple)
    | OpCache(e: Entry)
    | OpPowerSave(ip: Ip)
    | OpPowerReset(ip: Ip)
    | OpClientGone(ip: Ip)
    | OpStaGone(ip: Ip)
    | OpAddTemp(e: Entry)
    | OpDeleteTemp(k: Tuple)
    | OpFlush(ip: Ip, add: bool, dummy: bool)
    | OpStamp(ts: nat -> Option<nat>, alive: nat -> bool)

  function Step(s: State, op: Op): (r: State)
    ensures Later(s.hw, r.hw)
  {
    match op
    case OpAddTable(ip) => AddTable(s, ip).0
    case OpDeleteTable(ip) => DeleteTable(s, ip).0
    case OpAdd(e) => AddEntry(s, e).0
    case OpDelete(k) => DeleteEntry(s, k)
    case OpCache(e) => CacheEntry(s, e)
    case OpPowerSave(ip) => UpdatePwrSaveIf(s, ip).0
    case OpPowerReset(ip) => ResetPwrSaveIf(s, ip).0
    case OpClientGone(ip) => DelEntriesOnClntDiscon(s, ip).0
    case OpStaGone(ip) => DelEntriesOnSTAClntDiscon(s, ip).0
    case OpAddTemp(e) => AddTempEntry(s, e)
    case OpDeleteTemp(k) => DeleteTempEntry(s, k)
    case OpFlush(ip, add, dummy) => FlushFrom(s, ip, add, dummy, 0)
    case OpStamp(ts, alive) => StampFrom(s, ts, alive, 0)
  }

  function Run(s: State, ops: seq<Op>): (r: State)
    ensures Later(s.hw, r.hw)
  {
    if ops == [] then s else Step(Run(s, ops[..|ops| - 1]), ops[|ops| - 1])
  }

  function Init(maxEntries: nat, alg: set<(nat, nat)>, script: nat -> Reply): State {
    State(seq(maxEntries, _ => EMPTY), seq(MAX_TEMP_ENTRIES, _ => EMPTY), seq(MAX_WIFI_CLIENTS, _ => 0),
          0, 0, 0, 0, alg, Hw(0, map[], script, 0, 0, 0), {})
  }
}
