/** The cache and the hardware NAT table agree in every run, whatever the hardware answers. */
module NatMirror {
  import opened Driver
  import opened NatApp

  // ---- The invariant -------------------------------------------------------------------

  /** A slot is empty or all five key fields are set. */
  predicate SlotOk(e: Entry) { e == EMPTY || Full(e.key) }

  predicate Distinct(es: seq<Entry>) {
    forall i, j :: 0 <= i < j < |es| && es[i].key != ZERO ==> es[i].key != es[j].key
  }

  function Used(es: seq<Entry>): set<int> { set i | 0 <= i < |es| && es[i].key != ZERO }

  ghost predicate WellFormed(s: State) {
    && |s.temp| == MAX_TEMP_ENTRIES
    && |s.pwr| == MAX_WIFI_CLIENTS
    && (forall i :: 0 <= i < |s.cache| ==> SlotOk(s.cache[i]))
    && Distinct(s.cache)
    && s.cnt == |Used(s.cache)|
  }

  predicate Owned(es: seq<Entry>, h: Handle) {
    exists i :: 0 <= i < |es| && es[i].enabled && es[i].hdl == h
  }

  /** The installed rules are those of the enabled slots, under distinct handles, and the orphans. */
  ghost predicate Mirror(s: State) {
    && s.tbl == s.hw.table
    && (s.tbl == 0 ==> s.hw.rules == map[] && s.orphans == {})
    && (forall i :: 0 <= i < |s.cache| && s.cache[i].enabled ==>
          && s.cache[i].hdl in s.hw.rules
          && s.hw.rules[s.cache[i].hdl] == RuleOf(s.cache[i])
          && s.cache[i].hdl !in s.orphans)
    && (forall i, j :: 0 <= i < j < |s.cache| && s.cache[i].enabled && s.cache[j].enabled ==>
          s.cache[i].hdl != s.cache[j].hdl)
    && (forall h :: h in s.orphans ==> h in s.hw.rules)
    && (forall h :: h in s.hw.rules ==> h in s.orphans || Owned(s.cache, h))
  }

  ghost predicate Inv(s: State) { WellFormed(s) && Mirror(s) }

  /** The hardware holds one rule per enabled slot and nothing else. */
  ghost predicate Exact(s: State) {
    forall h :: h in s.hw.rules <==> Owned(s.cache, h)
  }

  /** Under the invariant the only surplus rules are those a refused delete left behind. */
  lemma ExactIff(s: State)
    requires Inv(s)
    ensures Exact(s) <==> s.orphans == {}
    ensures s.tbl == 0 ==> forall i :: 0 <= i < |s.cache| ==> !s.cache[i].enabled
  {
    if h :| h in s.orphans {
      assert h in s.hw.rules;
      assert !Owned(s.cache, h);
    }
  }

  lemma InitInv(maxEntries: nat, alg: set<(nat, nat)>, script: nat -> Reply)
    ensures Inv(Init(maxEntries, alg, script))
  {
    assert Used(Init(maxEntries, alg, script).cache) == {};
  }

  // ---- One slot changes ----------------------------------------------------------------

  lemma UsedUpdate(es: seq<Entry>, i: nat, e: Entry)
    requires i < |es|
    ensures |Used(es[i := e])|
         == |Used(es)| + (if e.key != ZERO then 1 else 0) - (if es[i].key != ZERO then 1 else 0)
  {
    var rest := Used(es) - {i};
    assert Used(es) == if es[i].key != ZERO then rest + {i} else rest;
    assert Used(es[i := e]) == if e.key != ZERO then rest + {i} else rest;
  }

  /** The table part: e replaces slot i. */
  lemma PutWellFormed(s: State, s': State, i: nat, e: Entry)
    requires WellFormed(s) && i < |s.cache| && SlotOk(e)
    requires s'.cache == s.cache[i := e] && |s'.temp| == |s.temp| && |s'.pwr| == |s.pwr|
    requires e.key == ZERO || e.key == s.cache[i].key || forall j :: 0 <= j < |s.cache| ==> s.cache[j].key != e.key
    requires s'.cnt == s.cnt + (if e.key != ZERO then 1 else 0) - (if s.cache[i].key != ZERO then 1 else 0)
    ensures WellFormed(s')
  {
    UsedUpdate(s.cache, i, e);
  }

  /** The hardware part: rules and orphans changed only at the slot's old and new handle. */
  lemma PutMirror(s: State, s': State, i: nat, e: Entry)
    requires Mirror(s) && i < |s.cache| && s'.cache == s.cache[i := e]
    requires s'.tbl == s.tbl && s'.hw.table == s.hw.table
    requires s'.tbl == 0 ==> s'.hw.rules == map[] && s'.orphans == {}
    requires var o := s.cache[i];
             forall h :: !(o.enabled && h == o.hdl) && !(e.enabled && h == e.hdl) ==>
               && (h in s'.hw.rules <==> h in s.hw.rules)
               && (h in s.hw.rules ==> s'.hw.rules[h] == s.hw.rules[h])
               && (h in s'.orphans <==> h in s.orphans)
    requires e.enabled ==>
               && e.hdl in s'.hw.rules && s'.hw.rules[e.hdl] == RuleOf(e) && e.hdl !in s'.orphans
               && (e.hdl !in s.hw.rules || (s.cache[i].enabled && e.hdl == s.cache[i].hdl))
    requires var o := s.cache[i];
             o.enabled && !(e.enabled && e.hdl == o.hdl) ==> (o.hdl in s'.hw.rules <==> o.hdl in s'.orphans)
    ensures Mirror(s')
  {
    var o := s.cache[i];
    forall j | 0 <= j < |s.cache| && j != i && s.cache[j].enabled
      ensures !(o.enabled && s.cache[j].hdl == o.hdl) && !(e.enabled && s.cache[j].hdl == e.hdl)
    {
    }
    forall h | h in s'.hw.rules ensures h in s'.orphans || Owned(s'.cache, h) {
      if e.enabled && h == e.hdl {
        assert s'.cache[i].enabled;
      } else if !(o.enabled && h == o.hdl) && h !in s.orphans {
        var j :| 0 <= j < |s.cache| && s.cache[j].enabled && s.cache[j].hdl == h;
        assert s'.cache[j].enabled;
      }
    }
  }

  // ---- Single entries ------------------------------------------------------------------

  lemma FirstOf(es: seq<Entry>, k: Tuple)
    ensures FindKey(es, k) == |es| <==> forall j :: 0 <= j < |es| ==> es[j].key != k
  {
  }

  /** A free slot takes a new tuple, disabled or under a fresh handle. */
  lemma FillInv(s: State, s': State, i: nat, e: Entry)
    requires Inv(s) && i < |s.cache| && s.cache[i].key == ZERO && Full(e.key) && FindKey(s.cache, e.key) == |s.cache|
    requires s' == s.(cache := s.cache[i := e], cnt := s.cnt + 1, hw := s'.hw) && s'.hw.table == s.hw.table
    requires if e.enabled then s.tbl != 0 && e.hdl !in s.hw.rules && s'.hw.rules == s.hw.rules[e.hdl := RuleOf(e)]
             else s'.hw == s.hw
    ensures Inv(s')
  {
    assert s.cache[i] == EMPTY;
    FirstOf(s.cache, e.key);
    PutWellFormed(s, s', i, e);
    PutMirror(s, s', i, e);
  }

  lemma AddEntryInv(s: State, e: Entry)
    requires Inv(s)
    ensures Inv(AddEntry(s, e).0)
  {
    hide Inv;
    var s' := AddEntry(s, e).0;
    var i := FindKey(s.cache, ZERO);
    if i < |s.cache| && s' == s.(cache := s.cache[i := s'.cache[i]], cnt := s.cnt + 1, hw := s'.hw) {
      FillInv(s, s', i, s'.cache[i]);
    } else {
      OnlyPos(s, s');
    }
  }

  /** Counters and script position are no part of the mirror. */
  lemma OnlyPos(s: State, s': State)
    requires Inv(s) && s' == s.(hw := s'.hw) && s'.hw.table == s.hw.table && s'.hw.rules == s.hw.rules
    ensures Inv(s')
  {
  }

  lemma CacheEntryInv(s: State, e: Entry)
    requires Inv(s)
    ensures Inv(CacheEntry(s, e))
  {
    hide Inv;
    var s' := CacheEntry(s, e);
    if s' != s {
      var i := FindKey(s.cache, ZERO);
      FillInv(s, s', i, s'.cache[i]);
    }
  }

  lemma DeleteEntryInv(s: State, k: Tuple)
    requires Inv(s) && k != ZERO
    ensures Inv(DeleteEntry(s, k))
  {
    var s' := DeleteEntry(s, k);
    var i := FindKey(s.cache, k);
    if i == |s.cache| { return; }
    PutWellFormed(s, s', i, EMPTY);
    PutMirror(s, s', i, EMPTY);
  }

  /** The all-zero tuple matches a free slot and counts it down: the invariant survives a delete
      exactly when the tuple is not that one or no slot is free. */
  lemma DeleteEntryInvIff(s: State, k: Tuple)
    requires Inv(s)
    ensures Inv(DeleteEntry(s, k)) <==> k != ZERO || s.cnt == |s.cache|
  {
    if k != ZERO {
      DeleteEntryInv(s, k);
      return;
    }
    FirstOf(s.cache, ZERO);
    var i := FindKey(s.cache, ZERO);
    var all := Below(|s.cache|);
    if i == |s.cache| {
      assert Used(s.cache) == all;
    } else {
      assert Used(s.cache) <= all - {i};
      assert all - {i} == Used(s.cache) + (all - {i} - Used(s.cache));
      assert DeleteEntry(s, ZERO).cache == s.cache;
    }
  }

  function Below(n: nat): (r: set<int>)
    ensures |r| == n && forall j :: j in r <==> 0 <= j < n
  {
    if n == 0 then {} else Below(n - 1) + {n - 1}
  }

  // ---- Loops over the cache ------------------------------------------------------------

  /** The restore loop re-adds whatever it meets, so it needs every slot ahead to be disabled. */
  ghost predicate Ready(s: State, w: Sweep, i: nat) {
    match w
    case Restore => forall j :: i <= j < |s.cache| ==> !s.cache[j].enabled
    case PowerOff(ip) => ip != 0
    case PowerOn(ip) => ip != 0
    case ClientGone(ip) => ip != 0
    case StaGone(ip) => ip != 0
  }

  lemma VisitInv(s: State, w: Sweep, i: nat)
    requires Inv(s) && i < |s.cache| && Ready(s, w, i)
    ensures Inv(VisitSlot(s, w, i)) && Ready(VisitSlot(s, w, i), w, i + 1)
  {
    var s' := VisitSlot(s, w, i);
    PutWellFormed(s, s', i, s'.cache[i]);
    PutMirror(s, s', i, s'.cache[i]);
  }

  lemma {:induction false} SweepInv(s: State, w: Sweep, i: nat)
    requires Inv(s) && i <= |s.cache| && Ready(s, w, i)
    ensures Inv(SweepFrom(s, w, i))
    decreases |s.cache| - i
  {
    hide Inv, Ready, VisitSlot;
    if i < |s.cache| {
      VisitInv(s, w, i);
      SweepInv(VisitSlot(s, w, i), w, i + 1);
    }
  }

  // ---- Tables --------------------------------------------------------------------------

  lemma AddTableInv(s: State, ip: Ip)
    requires Inv(s)
    ensures Inv(AddTable(s, ip).0)
  {
    ExactIff(s);
    var (hw, t) := AddTbl(s.hw);
    if t.Some? {
      var s1 := s.(hw := hw, tbl := t.value);
      if ip == s.pubPre { SweepInv(s1, Restore, 0); }
    }
  }

  lemma DeleteTableInv(s: State, ip: Ip)
    requires Inv(s)
    ensures Inv(DeleteTable(s, ip).0)
  {
    var s' := DeleteTable(s, ip).0;
    assert Used(s'.cache) == Used(s.cache);
  }

  // ---- Flush and time stamps -----------------------------------------------------------

  /** The temp and power-save arrays are no part of the mirror. */
  lemma SideArrays(s: State, temp: seq<Entry>, pwr: seq<Ip>)
    requires Inv(s) && |temp| == |s.temp| && |pwr| == |s.pwr|
    ensures Inv(s.(temp := temp)) && Inv(s.(pwr := pwr))
  {
  }

  lemma {:induction false} FlushInv(s: State, ip: Ip, add: bool, dummy: bool, i: nat)
    requires Inv(s) && i <= |s.temp|
    ensures Inv(FlushFrom(s, ip, add, dummy, i))
    decreases |s.temp| - i
  {
    if i == |s.temp| { return; }
    hide Inv, AddEntry, FlushFrom;
    FlushSlotInv(s, ip, add, dummy, i);
    FlushInv(FlushSlot(s, ip, add, dummy, i), ip, add, dummy, i + 1);
    FlushUnfold(s, ip, add, dummy, i);
  }

  lemma FlushUnfold(s: State, ip: Ip, add: bool, dummy: bool, i: nat)
    requires i < |s.temp|
    ensures FlushFrom(s, ip, add, dummy, i) == FlushFrom(FlushSlot(s, ip, add, dummy, i), ip, add, dummy, i + 1)
  {
  }

  lemma FlushSlotInv(s: State, ip: Ip, add: bool, dummy: bool, i: nat)
    requires Inv(s) && i < |s.temp|
    ensures Inv(FlushSlot(s, ip, add, dummy, i))
  {
    hide AddEntry;
    var t1 := Offered(s.temp[i], dummy);
    var s0 := s.(temp := s.temp[i := t1]);
    AddEntryInv(s0, t1);
  }

  lemma {:induction false} StampInv(s: State, ts: nat -> Option<nat>, alive: nat -> bool, i: nat)
    requires Inv(s) && i <= |s.cache|
    ensures Inv(StampFrom(s, ts, alive, i))
    decreases |s.cache| - i
  {
    hide Inv, StampSlot;
    if i < |s.cache| {
      StampSlotInv(s, ts(i), alive(i), i);
      StampInv(StampSlot(s, ts(i), alive(i), i), ts, alive, i + 1);
    }
  }

  lemma StampSlotInv(s: State, ts: Option<nat>, alive: bool, i: nat)
    requires Inv(s) && i < |s.cache|
    ensures Inv(StampSlot(s, ts, alive, i))
  {
    var s' := StampSlot(s, ts, alive, i);
    var e := s.cache[i];
    if e.enabled && !alive {
      DeleteEntryInv(s, e.key);
    } else if s' != s {
      PutWellFormed(s, s', i, s'.cache[i]);
      PutMirror(s, s', i, s'.cache[i]);
    }
  }

  // ---- All operations, all runs --------------------------------------------------------

  lemma StepInv(s: State, op: Op)
    requires Inv(s) && op != OpDelete(ZERO)
    ensures Inv(Step(s, op))
  {
    hide SweepFrom, DeleteEntry, AddEntry, CacheEntry, FlushFrom, StampFrom, AddTable, DeleteTable, Inv;
    match op
    case OpAddTable(ip) => AddTableInv(s, ip);
    case OpDeleteTable(ip) => DeleteTableInv(s, ip);
    case OpAdd(e) => AddEntryInv(s, e);
    case OpDelete(k) => DeleteEntryInv(s, k);
    case OpCache(e) => CacheEntryInv(s, e);
    case OpPowerSave(ip) => PowerOpInv(s, op);
    case OpPowerReset(ip) => PowerOpInv(s, op);
    case OpClientGone(ip) => PowerOpInv(s, op);
    case OpStaGone(ip) => if ip != 0 { SweepInv(s, StaGone(ip), 0); }
    case OpAddTemp(e) => SideArrays(s, AddTempEntry(s, e).temp, s.pwr);
    case OpDeleteTemp(k) => SideArrays(s, DeleteTempEntry(s, k).temp, s.pwr);
    case OpFlush(ip, add, dummy) => FlushInv(s, ip, add, dummy, 0);
    case OpStamp(ts, alive) => StampInv(s, ts, alive, 0);
  }

  lemma PowerOpInv(s: State, op: Op)
    requires Inv(s) && (op.OpPowerSave? || op.OpPowerReset? || op.OpClientGone?)
    ensures Inv(Step(s, op))
  {
    hide SweepFrom, Inv;
    if op.ip == 0 { return; }
    var on := if FindIp(s.pwr, 0) < |s.pwr| then s.pwr[FindIp(s.pwr, 0) := op.ip] else s.pwr;
    var off := Unlist(s.pwr, op.ip);
    SideArrays(s, s.temp, on);
    SideArrays(s, s.temp, off);
    SweepInv(s.(pwr := on), PowerOff(op.ip), 0);
    SweepInv(s.(pwr := off), PowerOn(op.ip), 0);
    SweepInv(s.(pwr := off), ClientGone(op.ip), 0);
  }

  lemma {:induction false} RunInv(s: State, ops: seq<Op>)
    requires Inv(s) && OpDelete(ZERO) !in ops
    ensures Inv(Run(s, ops))
  {
    if ops != [] {
      RunInv(s, ops[..|ops| - 1]);
      StepInv(Run(s, ops[..|ops| - 1]), ops[|ops| - 1]);
    }
  }
}
