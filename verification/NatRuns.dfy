/** What the NAT cache goes through over whole runs: WAN bounces, power save, flushed entries. */
module NatRuns {
  import opened Driver
  import opened NatApp
  import opened NatMirror

  // ---- Leftover rules ------------------------------------------------------------------

  lemma {:induction false} StampOrphans(s: State, ts: nat -> Option<nat>, alive: nat -> bool, i: nat)
    requires i <= |s.cache|
    ensures StampFrom(s, ts, alive, i).hw.badDels == s.hw.badDels ==> StampFrom(s, ts, alive, i).orphans == s.orphans
    decreases |s.cache| - i
  {
    hide DeleteEntry;
    if i < |s.cache| { StampOrphans(StampSlot(s, ts(i), alive(i), i), ts, alive, i + 1); }
  }

  lemma {:induction false} FlushOrphans(s: State, ip: Ip, add: bool, dummy: bool, i: nat)
    requires i <= |s.temp|
    ensures FlushFrom(s, ip, add, dummy, i).orphans == s.orphans
    decreases |s.temp| - i
  {
    hide AddEntry;
    if i < |s.temp| { FlushOrphans(FlushSlot(s, ip, add, dummy, i), ip, add, dummy, i + 1); }
  }

  lemma StepOrphans(s: State, op: Op)
    requires Step(s, op).hw.badDels == s.hw.badDels
    ensures Step(s, op).orphans <= s.orphans
  {
    hide SweepFrom, AddEntry, CacheEntry, DeleteEntry, StampFrom, FlushFrom;
    match op
    case OpFlush(ip, add, dummy) => FlushOrphans(s, ip, add, dummy, 0);
    case OpStamp(ts, alive) => StampOrphans(s, ts, alive, 0);
    case OpCache(e) => CacheKeeps(s, e);
    case _ =>
  }

  lemma CacheKeeps(s: State, e: Entry)
    ensures CacheEntry(s, e) == s.(cache := CacheEntry(s, e).cache, cnt := CacheEntry(s, e).cnt)
  {
  }

  /** As long as no delete is refused, the hardware holds exactly the enabled slots' rules in
      every reachable state; adds may fail at will. */
  lemma {:induction false} RunExact(s: State, ops: seq<Op>)
    requires Inv(s) && Exact(s) && OpDelete(ZERO) !in ops
    requires Run(s, ops).hw.badDels == s.hw.badDels
    ensures Inv(Run(s, ops)) && Exact(Run(s, ops))
  {
    RunInv(s, ops);
    ExactIff(s);
    ExactIff(Run(s, ops));
    hide Inv, Exact;
    if ops != [] {
      var t := Run(s, ops[..|ops| - 1]);
      RunExact(s, ops[..|ops| - 1]);
      RunInv(s, ops[..|ops| - 1]);
      ExactIff(t);
      StepOrphans(t, ops[|ops| - 1]);
    }
  }

  // ---- WAN bounce ----------------------------------------------------------------------

  lemma DownStep(s: State, op: Op)
    requires s.tbl == 0 && !op.OpAddTable?
    ensures Step(s, op).tbl == 0 && Step(s, op).pubPre == s.pubPre
  {
    hide SweepFrom, AddEntry, StampFrom, FlushFrom;
    match op
    case OpFlush(ip, add, dummy) => FlushTables(s, ip, add, dummy, 0);
    case OpStamp(ts, alive) => StampTables(s, ts, alive, 0);
    case _ =>
  }

  lemma {:induction false} FlushTables(s: State, ip: Ip, add: bool, dummy: bool, i: nat)
    requires i <= |s.temp|
    ensures var s' := FlushFrom(s, ip, add, dummy, i);
            s'.tbl == s.tbl && s'.pubPre == s.pubPre && s'.pub == s.pub && s'.pwr == s.pwr && s'.alg == s.alg
    decreases |s.temp| - i
  {
    hide AddEntry;
    if i < |s.temp| { FlushTables(FlushSlot(s, ip, add, dummy, i), ip, add, dummy, i + 1); }
  }

  lemma {:induction false} StampTables(s: State, ts: nat -> Option<nat>, alive: nat -> bool, i: nat)
    requires i <= |s.cache|
    ensures var s' := StampFrom(s, ts, alive, i);
            s'.tbl == s.tbl && s'.pubPre == s.pubPre && s'.pub == s.pub && s'.pwr == s.pwr && s'.temp == s.temp
    decreases |s.cache| - i
  {
    hide DeleteEntry;
    if i < |s.cache| { StampTables(StampSlot(s, ts(i), alive(i), i), ts, alive, i + 1); }
  }

  lemma {:induction false} DownRun(s: State, ops: seq<Op>)
    requires s.tbl == 0 && forall op :: op in ops ==> !op.OpAddTable?
    ensures Run(s, ops).tbl == 0 && Run(s, ops).pubPre == s.pubPre
  {
    hide Step;
    if ops != [] {
      DownRun(s, ops[..|ops| - 1]);
      DownStep(Run(s, ops[..|ops| - 1]), ops[|ops| - 1]);
    }
  }

  /** The same connection, installed. */
  predicate Reinstalled(e: Entry, e': Entry) {
    e'.enabled && e' == e.(enabled := true, hdl := e'.hdl)
  }

  /** Empty slots stay empty; any other is reinstalled, or cleared by a refused add. */
  predicate RestoredSlot(e: Entry, e': Entry) {
    if e.key.privateIp == 0 then e' == e else e' == EMPTY || Reinstalled(e, e')
  }

  lemma {:induction false} RestoreEffect(s: State, i: nat)
    requires i <= |s.cache|
    ensures var s' := SweepFrom(s, Restore, i);
            && (forall j :: 0 <= j < i ==> s'.cache[j] == s.cache[j])
            && (forall j :: i <= j < |s.cache| ==> RestoredSlot(s.cache[j], s'.cache[j]))
            && s.cnt - s'.cnt == s'.hw.badAdds - s.hw.badAdds
    decreases |s.cache| - i
  {
    if i < |s.cache| { RestoreEffect(VisitSlot(s, Restore, i), i + 1); }
  }

  /** The table goes and comes back with the same address; whatever is cached, deleted, flushed
      or power-saved in between, afterwards the hardware holds exactly the cached connections,
      and each refused add cost one of them. */
  lemma WanBounce(s: State, ip: Ip, ops: seq<Op>)
    requires Inv(s) && DeleteTable(s, ip).1 == 0
    requires OpDelete(ZERO) !in ops && forall op :: op in ops ==> !op.OpAddTable?
    requires AddTable(Run(DeleteTable(s, ip).0, ops), ip).1 == 0
    ensures var down := Run(DeleteTable(s, ip).0, ops);
            var up := AddTable(down, ip).0;
            && Inv(up) && Exact(up) && up.tbl != 0 && up.pub == ip
            && (forall j :: 0 <= j < |down.cache| ==> RestoredSlot(down.cache[j], up.cache[j]))
            && (forall j :: 0 <= j < |up.cache| ==> up.cache[j] == EMPTY || up.cache[j].enabled)
            && down.cnt - up.cnt == up.hw.badAdds - down.hw.badAdds
  {
    var s1 := DeleteTable(s, ip).0;
    var down := Run(s1, ops);
    DeleteTableInv(s, ip);
    RunInv(s1, ops);
    DownRun(s1, ops);
    var up := AddTable(down, ip).0;
    AddTableInv(down, ip);
    RestoreEffect(down.(hw := AddTbl(down.hw).0, tbl := AddTbl(down.hw).1.value), 0);
    assert up.orphans == down.orphans == {};
    ExactIff(up);
  }

  // ---- Power save ----------------------------------------------------------------------

  predicate NoDup(ps: seq<Ip>) {
    forall i, j :: 0 <= i < j < |ps| && ps[i] != 0 ==> ps[i] != ps[j]
  }

  /** No installed rule belongs to a listed client. */
  predicate Quiet(s: State) {
    forall i :: 0 <= i < |s.cache| && s.cache[i].enabled ==> !Listed(s.pwr, s.cache[i].key.privateIp)
  }

  lemma StepNoDup(s: State, op: Op)
    requires NoDup(s.pwr)
    ensures NoDup(Step(s, op).pwr)
  {
    hide SweepFrom, AddEntry, StampFrom, FlushFrom;
    match op
    case OpFlush(ip, add, dummy) => FlushTables(s, ip, add, dummy, 0);
    case OpStamp(ts, alive) => StampTables(s, ts, alive, 0);
    case _ =>
  }

  lemma {:induction false} RunNoDup(s: State, ops: seq<Op>)
    requires NoDup(s.pwr)
    ensures NoDup(Run(s, ops).pwr)
  {
    hide Step, NoDup;
    if ops != [] {
      RunNoDup(s, ops[..|ops| - 1]);
      StepNoDup(Run(s, ops[..|ops| - 1]), ops[|ops| - 1]);
    }
  }

  /** With no duplicates, taking an address off the list takes it off altogether. */
  lemma Unlisted(ps: seq<Ip>, ip: Ip)
    requires NoDup(ps) && ip != 0
    ensures NoDup(Unlist(ps, ip)) && ip !in Unlist(ps, ip)
    ensures forall x :: x in Unlist(ps, ip) ==> x == 0 || x in ps
  {
  }

  /** A sweep other than the restore loop: no slot becomes enabled unless it is the returning
      client's, and keys only ever go. */
  predicate SweptSlot(w: Sweep, e: Entry, e': Entry) {
    && (e' == EMPTY || e'.key == e.key)
    && (e'.enabled ==> e.enabled || (w.PowerOn? && e.key.privateIp == w.ip))
  }

  lemma {:induction false} SweepEffect(s: State, w: Sweep, i: nat)
    requires i <= |s.cache| && !w.Restore?
    ensures var s' := SweepFrom(s, w, i);
            && (forall j :: 0 <= j < i ==> s'.cache[j] == s.cache[j])
            && (forall j :: i <= j < |s.cache| ==> SweptSlot(w, s.cache[j], s'.cache[j]))
            && (w.PowerOff? && s'.hw.badDels == s.hw.badDels ==>
                  forall j :: i <= j < |s.cache| && s.cache[j].key.privateIp == w.ip ==> !s'.cache[j].enabled)
            && (w.PowerOn? && s'.hw.badAdds == s.hw.badAdds ==>
                  forall j :: i <= j < |s.cache| ==>
                    && s'.cache[j].key == s.cache[j].key
                    && (s.cache[j].key.privateIp == w.ip ==> s'.cache[j].enabled))
            && (w.PowerOff? ==> forall j :: i <= j < |s.cache| ==> s'.cache[j].key == s.cache[j].key)
    decreases |s.cache| - i
  {
    if i == |s.cache| { return; }
    VisitEffect(s, w, i);
    hide VisitSlot;
    SweepEffect(VisitSlot(s, w, i), w, i + 1);
  }

  lemma VisitEffect(s: State, w: Sweep, i: nat)
    requires i < |s.cache| && !w.Restore?
    ensures var s' := VisitSlot(s, w, i);
            && s'.cache == s.cache[i := s'.cache[i]]
            && SweptSlot(w, s.cache[i], s'.cache[i])
            && (w.PowerOff? && s'.hw.badDels == s.hw.badDels && s.cache[i].key.privateIp == w.ip ==> !s'.cache[i].enabled)
            && (w.PowerOn? && s'.hw.badAdds == s.hw.badAdds ==>
                  && s'.cache[i].key == s.cache[i].key
                  && (s.cache[i].key.privateIp == w.ip ==> s'.cache[i].enabled))
            && (w.PowerOff? ==> s'.cache[i].key == s.cache[i].key)
  {
  }

  /** What AddEntry does to the cache: at most one free slot is filled. */
  lemma AddEffect(s: State, e: Entry)
    ensures var s' := AddEntry(s, e).0;
            && |s'.cache| == |s.cache|
            && (forall j :: 0 <= j < |s.cache| && s.cache[j].key != ZERO ==> s'.cache[j] == s.cache[j])
            && (forall j :: 0 <= j < |s.cache| && s'.cache[j].enabled ==>
                  s.cache[j].enabled || !Listed(s.pwr, s'.cache[j].key.privateIp))
            && (AddEntry(s, e).1 == 0 && Full(e.key) ==> FindKey(s'.cache, e.key) < |s'.cache|)
            && (s.tbl == 0 ==> s' == s)
  {
    var s' := AddEntry(s, e).0;
    if s'.cache != s.cache {
      assert s'.cache[FindKey(s.cache, ZERO)].key == e.key;
    }
  }

  lemma {:induction false} FlushQuiet(s: State, ip: Ip, add: bool, dummy: bool, i: nat)
    requires i <= |s.temp| && Inv(s) && Quiet(s)
    ensures Quiet(FlushFrom(s, ip, add, dummy, i))
    decreases |s.temp| - i
  {
    if i == |s.temp| { return; }
    FlushSlotInv(s, ip, add, dummy, i);
    AddQuiet(s.(temp := s.temp[i := Offered(s.temp[i], dummy)]), Offered(s.temp[i], dummy));
    hide AddEntry, Inv;
    FlushQuiet(FlushSlot(s, ip, add, dummy, i), ip, add, dummy, i + 1);
  }

  lemma AddQuiet(s: State, e: Entry)
    requires Quiet(s) && forall j :: 0 <= j < |s.cache| ==> SlotOk(s.cache[j])
    ensures Quiet(AddEntry(s, e).0)
  {
    hide AddEntry;
    AddEffect(s, e);
  }

  lemma {:induction false} StampQuiet(s: State, ts: nat -> Option<nat>, alive: nat -> bool, i: nat)
    requires i <= |s.cache| && Quiet(s)
    ensures Quiet(StampFrom(s, ts, alive, i))
    decreases |s.cache| - i
  {
    if i < |s.cache| {
      var s1 := StampSlot(s, ts(i), alive(i), i);
      assert Quiet(s1) by {
        forall j | 0 <= j < |s1.cache| && s1.cache[j].enabled ensures !Listed(s1.pwr, s1.cache[j].key.privateIp) {
          assert s.cache[j].enabled && s1.cache[j].key == s.cache[j].key;
        }
      }
      StampQuiet(s1, ts, alive, i + 1);
    }
  }

  /** Every step but a table's arrival keeps the listed clients out of the hardware, provided
      the deletes that power save itself makes are not refused. */
  lemma StepQuiet(s: State, op: Op)
    requires Inv(s) && NoDup(s.pwr) && Quiet(s) && !op.OpAddTable? && op != OpDelete(ZERO)
    requires op.OpPowerSave? ==> Step(s, op).hw.badDels == s.hw.badDels
    ensures Quiet(Step(s, op))
  {
    hide SweepFrom, AddEntry, StampFrom, FlushFrom;
    match op
    case OpDeleteTable(ip) =>
    case OpAdd(e) => AddQuiet(s, e);
    case OpDelete(k) =>
    case OpCache(e) =>
    case OpPowerSave(ip) => SaveQuiet(s, ip);
    case OpPowerReset(ip) => UnlistQuiet(s, ip, PowerOn(ip));
    case OpClientGone(ip) => UnlistQuiet(s, ip, ClientGone(ip));
    case OpStaGone(ip) => if ip != 0 { SweepEffect(s, StaGone(ip), 0); }
    case OpAddTemp(e) =>
    case OpDeleteTemp(k) =>
    case OpFlush(ip, add, dummy) => FlushQuiet(s, ip, add, dummy, 0); FlushTables(s, ip, add, dummy, 0);
    case OpStamp(ts, alive) => StampQuiet(s, ts, alive, 0);
  }

  lemma SaveQuiet(s: State, ip: Ip)
    requires Quiet(s) && UpdatePwrSaveIf(s, ip).0.hw.badDels == s.hw.badDels
    ensures Quiet(UpdatePwrSaveIf(s, ip).0)
  {
    hide SweepFrom;
    if ip == 0 || FindIp(s.pwr, ip) < |s.pwr| { return; }
    var s1 := s.(pwr := if FindIp(s.pwr, 0) < |s.pwr| then s.pwr[FindIp(s.pwr, 0) := ip] else s.pwr);
    SweepEffect(s1, PowerOff(ip), 0);
    var s2 := SweepFrom(s1, PowerOff(ip), 0);
    forall j | 0 <= j < |s2.cache| && s2.cache[j].enabled ensures !Listed(s2.pwr, s2.cache[j].key.privateIp) {
      assert SweptSlot(PowerOff(ip), s1.cache[j], s2.cache[j]);
      assert s.cache[j].enabled;
    }
  }

  lemma UnlistQuiet(s: State, ip: Ip, w: Sweep)
    requires NoDup(s.pwr) && Quiet(s) && (w == PowerOn(ip) || w == ClientGone(ip))
    ensures ip != 0 ==> Quiet(SweepFrom(s.(pwr := Unlist(s.pwr, ip)), w, 0))
  {
    if ip == 0 { return; }
    hide SweepFrom;
    Unlisted(s.pwr, ip);
    hide Unlist;
    var s1 := s.(pwr := Unlist(s.pwr, ip));
    SweepEffect(s1, w, 0);
    var s2 := SweepFrom(s1, w, 0);
    forall j | 0 <= j < |s2.cache| && s2.cache[j].enabled ensures !Listed(s2.pwr, s2.cache[j].key.privateIp) {
      assert SweptSlot(w, s1.cache[j], s2.cache[j]);
    }
  }

  /** The restore loop does not look at the list: a returning table keeps it exactly when nothing
      is put back or no cached connection belongs to a listed client. */
  lemma AddTableQuietIff(s: State, ip: Ip)
    requires Inv(s) && Quiet(s) && AddTable(s, ip).1 == 0 && AddTable(s, ip).0.hw.badAdds == s.hw.badAdds
    ensures Quiet(AddTable(s, ip).0)
       <==> ip != s.pubPre || forall j :: 0 <= j < |s.cache| ==> !Listed(s.pwr, s.cache[j].key.privateIp)
  {
    hide SweepFrom;
    var s1 := s.(hw := AddTbl(s.hw).0, tbl := AddTbl(s.hw).1.value);
    ExactIff(s);
    if ip != s.pubPre { return; }
    RestoreEffect(s1, 0);
    AddTableInv(s, ip);
    var s' := AddTable(s, ip).0;
    RestoreNoneLost(s, ip);
    if j :| 0 <= j < |s.cache| && Listed(s.pwr, s.cache[j].key.privateIp) {
      assert s'.cache[j].enabled;
      assert !Quiet(s');
    } else {
      forall j | 0 <= j < |s'.cache| && s'.cache[j].enabled ensures !Listed(s'.pwr, s'.cache[j].key.privateIp) {
        assert RestoredSlot(s.cache[j], s'.cache[j]);
        assert !Listed(s.pwr, s.cache[j].key.privateIp);
      }
    }
  }

  lemma RestoreNoneLost(s: State, ip: Ip)
    requires Inv(s) && ip == s.pubPre && AddTable(s, ip).1 == 0 && AddTable(s, ip).0.hw.badAdds == s.hw.badAdds
    ensures forall j :: 0 <= j < |s.cache| && s.cache[j].key != ZERO ==> AddTable(s, ip).0.cache[j].enabled
  {
    var s1 := s.(hw := AddTbl(s.hw).0, tbl := AddTbl(s.hw).1.value);
    RestoreAll(s1, 0);
  }

  lemma {:induction false} RestoreAll(s: State, i: nat)
    requires i <= |s.cache| && SweepFrom(s, Restore, i).hw.badAdds == s.hw.badAdds
    ensures var s' := SweepFrom(s, Restore, i);
            && (forall j :: 0 <= j < i ==> s'.cache[j] == s.cache[j])
            && (forall j :: i <= j < |s.cache| && s.cache[j].key.privateIp != 0 ==> s'.cache[j].enabled)
    decreases |s.cache| - i
  {
    if i < |s.cache| { RestoreAll(VisitSlot(s, Restore, i), i + 1); }
  }

  // ---- A client sleeps and wakes -------------------------------------------------------

  lemma {:induction false} AddsKeep(s: State, ops: seq<Op>)
    requires forall op :: op in ops ==> op.OpAdd?
    ensures |Run(s, ops).cache| == |s.cache| && Run(s, ops).pwr == s.pwr && Run(s, ops).tbl == s.tbl
    ensures forall j :: 0 <= j < |s.cache| && s.cache[j].key != ZERO ==> Run(s, ops).cache[j] == s.cache[j]
  {
    hide AddEntry;
    if ops != [] {
      AddsKeep(s, ops[..|ops| - 1]);
      AddEffect(Run(s, ops[..|ops| - 1]), ops[|ops| - 1].e);
    }
  }

  lemma {:induction false} AddsQuiet(s: State, ops: seq<Op>)
    requires Inv(s) && Quiet(s) && forall op :: op in ops ==> op.OpAdd?
    ensures Inv(Run(s, ops)) && Quiet(Run(s, ops))
  {
    hide AddEntry, Quiet;
    RunInv(s, ops);
    if ops != [] {
      AddsQuiet(s, ops[..|ops| - 1]);
      AddQuiet(Run(s, ops[..|ops| - 1]), ops[|ops| - 1].e);
    }
  }

  /** Every cached connection of c is installed. */
  ghost predicate AllUp(s: State, c: Ip) {
    forall j :: 0 <= j < |s.cache| && s.cache[j].key.privateIp == c ==>
      s.cache[j].enabled && s.cache[j].hdl in s.hw.rules && s.hw.rules[s.cache[j].hdl] == RuleOf(s.cache[j])
  }

  predicate AllDown(s: State, c: Ip) {
    forall j :: 0 <= j < |s.cache| && s.cache[j].key.privateIp == c ==> !s.cache[j].enabled
  }

  predicate SameKeys(c: seq<Entry>, c': seq<Entry>) {
    |c'| == |c| && forall j :: 0 <= j < |c| ==> c'[j].key == c[j].key
  }

  /** c goes to sleep, connections are added meanwhile, c wakes, and the driver refuses no delete
      on the way down and no add on the way up: while it sleeps none of its connections is
      installed (if the list had a place for it), and afterwards every one of them is, the old
      and the new. */
  lemma PowerRoundTrip(s: State, c: Ip, ops: seq<Op>)
    requires Inv(s) && NoDup(s.pwr) && Quiet(s) && c != 0
    requires forall op :: op in ops ==> op.OpAdd?
    requires UpdatePwrSaveIf(s, c).0.hw.badDels == s.hw.badDels
    requires var asleep := Run(UpdatePwrSaveIf(s, c).0, ops);
             ResetPwrSaveIf(asleep, c).0.hw.badAdds == asleep.hw.badAdds
    ensures var asleep := Run(UpdatePwrSaveIf(s, c).0, ops);
            var awake := ResetPwrSaveIf(asleep, c).0;
            && Inv(awake) && !Listed(awake.pwr, c) && AllUp(awake, c)
            && (0 in s.pwr || c in s.pwr ==> AllDown(asleep, c))
            && SameKeys(asleep.cache, awake.cache)
            && |awake.cache| == |s.cache|
            && (forall j :: 0 <= j < |s.cache| && s.cache[j] != EMPTY ==> awake.cache[j].key == s.cache[j].key)
  {
    hide SweepFrom, UpdatePwrSaveIf, ResetPwrSaveIf, Inv, Quiet, Unlist;
    var s1 := UpdatePwrSaveIf(s, c).0;
    var asleep := Run(s1, ops);
    SleepEffect(s, c);
    StepInv(s, OpPowerSave(c));
    StepNoDup(s, OpPowerSave(c));
    AddsKeep(s1, ops);
    RunInv(s1, ops);
    if 0 in s.pwr || c in s.pwr {
      SaveQuiet(s, c);
      AddsQuiet(s1, ops);
      QuietDown(asleep, c);
    }
    WakeUp(asleep, c);
    KeysStay(s, c);
  }

  lemma QuietDown(s: State, c: Ip)
    requires Quiet(s) && Listed(s.pwr, c)
    ensures AllDown(s, c)
  {
  }

  lemma KeysStay(s: State, c: Ip)
    requires Inv(s)
    ensures forall j :: 0 <= j < |s.cache| && s.cache[j] != EMPTY ==> s.cache[j].key != ZERO
  {
  }

  lemma WakeUp(s: State, c: Ip)
    requires Inv(s) && NoDup(s.pwr) && c != 0 && ResetPwrSaveIf(s, c).0.hw.badAdds == s.hw.badAdds
    ensures var s' := ResetPwrSaveIf(s, c).0;
            Inv(s') && !Listed(s'.pwr, c) && AllUp(s', c) && SameKeys(s.cache, s'.cache)
  {
    hide SweepFrom;
    StepInv(s, OpPowerReset(c));
    Unlisted(s.pwr, c);
    SweepEffect(s.(pwr := Unlist(s.pwr, c)), PowerOn(c), 0);
  }

  lemma SleepEffect(s: State, c: Ip)
    requires c != 0
    ensures 0 in s.pwr || c in s.pwr ==> Listed(UpdatePwrSaveIf(s, c).0.pwr, c)
    ensures SameKeys(s.cache, UpdatePwrSaveIf(s, c).0.cache)
  {
    hide SweepFrom;
    if FindIp(s.pwr, c) == |s.pwr| {
      var s1 := s.(pwr := if FindIp(s.pwr, 0) < |s.pwr| then s.pwr[FindIp(s.pwr, 0) := c] else s.pwr);
      assert FindIp(s.pwr, 0) < |s.pwr| ==> s1.pwr[FindIp(s.pwr, 0)] == c;
      SweepEffect(s1, PowerOff(c), 0);
    }
  }

  /** The hardware accepts every call it is able to carry out. */
  ghost predicate Obliging(hw: Hw) { forall n :: n >= hw.pos ==> hw.script(n).Done? }

  lemma {:induction false} WakeEffect(s: State, c: Ip, i: nat)
    requires i <= |s.cache| && Obliging(s.hw) && s.tbl == s.hw.table
    ensures var s' := SweepFrom(s, PowerOn(c), i);
            && (forall j :: 0 <= j < i ==> s'.cache[j] == s.cache[j])
            && forall j :: i <= j < |s.cache| ==>
                 s'.cache[j] == if s.cache[j].key.privateIp == c && !s.cache[j].enabled
                                then if s.tbl == 0 then EMPTY else s.cache[j].(enabled := true, hdl := s'.cache[j].hdl)
                                else s.cache[j]
    decreases |s.cache| - i
  {
    if i < |s.cache| { WakeEffect(VisitSlot(s, PowerOn(c), i), c, i + 1); }
  }

  /** Waking a client while there is no table clears its cached connections: with a hardware that
      accepts what it can, none is lost exactly when the table is up or none was cached. */
  lemma WakeKeepsIff(s: State, c: Ip)
    requires Inv(s) && Obliging(s.hw) && c != 0
    ensures (forall j :: 0 <= j < |s.cache| ==> ResetPwrSaveIf(s, c).0.cache[j].key == s.cache[j].key)
       <==> s.tbl != 0 || forall j :: 0 <= j < |s.cache| ==> s.cache[j].key.privateIp != c
  {
    hide SweepFrom;
    WakeEffect(s.(pwr := Unlist(s.pwr, c)), c, 0);
    ExactIff(s);
  }

  // ---- Flushed temp entries ------------------------------------------------------------

  /** What becomes of one temp slot. */
  ghost predicate Flushed(pub: Ip, cache': seq<Entry>, ip: Ip, add: bool, dummy: bool, t: Entry, t': Entry) {
    if !Names(t, ip) then t' == t
    else if !add || t.publicIp != pub then t' == EMPTY
    else
      var o := Offered(t, dummy);
      t' == o || (t' == EMPTY && (Full(o.key) ==> FindKey(cache', o.key) < |cache'|))
  }

  ghost predicate CacheGrew(c: seq<Entry>, c': seq<Entry>) {
    |c'| == |c| && forall j :: 0 <= j < |c| && c[j].key != ZERO ==> c'[j] == c[j]
  }

  lemma FlushSlotEffect(s: State, ip: Ip, add: bool, dummy: bool, i: nat)
    requires i < |s.temp|
    ensures var s' := FlushSlot(s, ip, add, dummy, i);
            && s'.temp == s.temp[i := s'.temp[i]] && s'.pub == s.pub
            && Flushed(s.pub, s'.cache, ip, add, dummy, s.temp[i], s'.temp[i])
            && CacheGrew(s.cache, s'.cache)
  {
    hide AddEntry;
    var t1 := Offered(s.temp[i], dummy);
    AddEffect(s.(temp := s.temp[i := t1]), t1);
  }

  lemma Grew(c: seq<Entry>, c1: seq<Entry>, c2: seq<Entry>)
    requires CacheGrew(c, c1) && CacheGrew(c1, c2)
    ensures CacheGrew(c, c2)
  {
  }

  lemma FlushedLater(pub: Ip, c: seq<Entry>, c': seq<Entry>, ip: Ip, add: bool, dummy: bool, t: Entry, t': Entry)
    requires Flushed(pub, c, ip, add, dummy, t, t') && CacheGrew(c, c')
    ensures Flushed(pub, c', ip, add, dummy, t, t')
  {
    var k := Offered(t, dummy).key;
    if Full(k) && FindKey(c, k) < |c| { assert c'[FindKey(c, k)].key == k; }
  }

  /** Nothing is lost by a flush: slots that do not name the address are untouched, and an entry
      with the current public address is in the cache afterwards or still in its slot (in its
      dummy form for a dummy flush), unless its tuple is invalid. */
  lemma {:induction false} FlushKeeps(s: State, ip: Ip, add: bool, dummy: bool, i: nat)
    requires i <= |s.temp|
    ensures var s' := FlushFrom(s, ip, add, dummy, i);
            && |s'.temp| == |s.temp| && CacheGrew(s.cache, s'.cache)
            && (forall j :: 0 <= j < i ==> s'.temp[j] == s.temp[j])
            && (forall j :: i <= j < |s.temp| ==> Flushed(s.pub, s'.cache, ip, add, dummy, s.temp[j], s'.temp[j]))
    decreases |s.temp| - i
  {
    hide FlushSlot, Flushed, CacheGrew;
    if i == |s.temp| {
      assert CacheGrew(s.cache, s.cache) by { GrewNone(s.cache); }
      return;
    }
    FlushSlotEffect(s, ip, add, dummy, i);
    var s1 := FlushSlot(s, ip, add, dummy, i);
    FlushKeeps(s1, ip, add, dummy, i + 1);
    var s' := FlushFrom(s, ip, add, dummy, i);
    Grew(s.cache, s1.cache, s'.cache);
    FlushedLater(s.pub, s1.cache, s'.cache, ip, add, dummy, s.temp[i], s1.temp[i]);
  }

  lemma GrewNone(c: seq<Entry>)
    ensures CacheGrew(c, c)
  {
  }

  /** A flush that does not add leaves no temp entry naming the address. */
  lemma FlushDropsAll(s: State, ip: Ip, dummy: bool)
    requires ip != 0
    ensures var s' := FlushFrom(s, ip, false, dummy, 0);
            forall j :: 0 <= j < |s'.temp| ==> !Names(s'.temp[j], ip)
  {
    FlushKeeps(s, ip, false, dummy, 0);
    var s' := FlushFrom(s, ip, false, dummy, 0);
    forall j | 0 <= j < |s'.temp| ensures !Names(s'.temp[j], ip) {
      assert Flushed(s.pub, s'.cache, ip, false, dummy, s.temp[j], s'.temp[j]);
    }
  }

  // ---- Temp entries and time stamps ------------------------------------------------------

  /** A temp entry that is taken in and closed again leaves the array as it was. */
  lemma TempRoundTrip(s: State, e: Entry)
    requires FindKey(s.temp, e.key) == |s.temp|
    requires forall i :: 0 <= i < |s.temp| && s.temp[i].key.privateIp == 0 && s.temp[i].key.targetIp == 0 ==> s.temp[i] == EMPTY
    ensures DeleteTempEntry(AddTempEntry(s, e), e.key) == s
    ensures AddTempEntry(s, e) != s <==>
              !UsesAlg(s.alg, e.key) && FindKey(s.cache, e.key) == |s.cache| && EMPTY in s.temp
  {
    var i := FindBlank(s.temp);
    var s1 := AddTempEntry(s, e);
    if i < |s.temp| {
      assert s.temp[i] == EMPTY && s.temp[i].key != e.key;
      if !UsesAlg(s.alg, e.key) && FindKey(s.cache, e.key) == |s.cache| {
        assert s1.temp[i] == e && s1.temp[i := EMPTY] == s.temp;
        assert forall j :: 0 <= j < |s.temp| && j != i ==> s1.temp[j].key != e.key;
      }
    }
  }

  /** What the time-stamp loop makes of one slot. */
  function Stamped(e: Entry, ts: Option<nat>, alive: bool): Entry {
    if !e.enabled || e.key.privateIp == e.publicIp || ts.None? || ts.value == e.timestamp then e
    else if alive then e.(timestamp := ts.value)
    else EMPTY
  }

  /** Each slot is judged on its own: a connection the kernel has forgotten goes, and it is the
      visited slot that DeleteEntry's search by tuple finds. */
  lemma {:induction false} StampKeeps(s: State, ts: nat -> Option<nat>, alive: nat -> bool, i: nat)
    requires Inv(s) && i <= |s.cache|
    ensures var s' := StampFrom(s, ts, alive, i);
            && |s'.cache| == |s.cache|
            && (forall j :: 0 <= j < i ==> s'.cache[j] == s.cache[j])
            && (forall j :: i <= j < |s.cache| ==> s'.cache[j] == Stamped(s.cache[j], ts(j), alive(j)))
    decreases |s.cache| - i
  {
    if i == |s.cache| { return; }
    StampSlotInv(s, ts(i), alive(i), i);
    StampSlotKeeps(s, ts(i), alive(i), i);
    hide Inv, StampSlot, Stamped;
    StampKeeps(StampSlot(s, ts(i), alive(i), i), ts, alive, i + 1);
  }

  lemma StampSlotKeeps(s: State, ts: Option<nat>, alive: bool, i: nat)
    requires Inv(s) && i < |s.cache|
    ensures StampSlot(s, ts, alive, i).cache == s.cache[i := Stamped(s.cache[i], ts, alive)]
  {
    if s.cache[i].enabled {
      assert forall j :: 0 <= j < |s.cache| && j != i ==> s.cache[j].key != s.cache[i].key;
      assert FindKey(s.cache, s.cache[i].key) == i;
    }
  }

  // ---- Runs that fail ------------------------------------------------------------------------

  /** A connection of client 5. */
  const CONN := Entry(Tuple(5, 8, 1000, 80, 6), 9, 1000, 0, false, false, 0)

  lemma RunLast(s: State, ops: seq<Op>, op: Op)
    ensures Run(s, ops + [op]) == Step(Run(s, ops), op)
  {
    assert (ops + [op])[..|ops|] == ops;
  }

  lemma RunTwo(s: State, a: Op, b: Op)
    ensures Run(s, [a, b]) == Step(Step(s, a), b)
  {
    hide Step;
    RunLast(s, [], a);
    RunLast(s, [a], b);
    assert [] + [a] == [a] && [a] + [b] == [a, b];
  }

  /** One slot, no table: client 5 sleeps and a connection of it is cached. */
  lemma SleepAndCache(s: State)
    requires s.cache == [EMPTY] && s.tbl == 0 && |s.pwr| > 0 && forall i :: 0 <= i < |s.pwr| ==> s.pwr[i] == 0
    ensures Run(s, [OpPowerSave(5), OpCache(CONN)])
         == s.(pwr := s.pwr[0 := 5], cache := [Filled(CONN, 9, false, 0)], cnt := s.cnt + 1)
  {
    RunTwo(s, OpPowerSave(5), OpCache(CONN));
    assert FindIp(s.pwr, 0) == 0 && FindIp(s.pwr, 5) == |s.pwr|;
    var s1 := s.(pwr := s.pwr[0 := 5]);
    assert VisitSlot(s1, PowerOff(5), 0) == s1 by { assert s1.cache[0 := EMPTY] == s1.cache; }
    assert SweepFrom(s1, PowerOff(5), 0) == SweepFrom(s1, PowerOff(5), 1) == s1;
    assert FindKey(s.cache, ZERO) == 0 && FindKey(s.cache, CONN.key) == 1;
    assert s.cache[0 := Filled(CONN, 9, false, 0)] == [Filled(CONN, 9, false, 0)];
  }

  lemma OneSlot(alg: set<(nat, nat)>, script: nat -> Reply)
    ensures Init(1, alg, script).cache == [EMPTY]
  {
  }

  /** From the start, a sleeping client's connection is lost when it wakes before a table is up. */
  lemma WakeLosesRun(alg: set<(nat, nat)>, script: nat -> Reply)
    ensures var asleep := Run(Init(1, alg, script), [OpPowerSave(5), OpCache(CONN)]);
            && |asleep.cache| == 1 && asleep.cache[0].key == CONN.key
            && Step(asleep, OpPowerReset(5)).cache == [EMPTY]
  {
    var s := Init(1, alg, script);
    OneSlot(alg, script);
    SleepAndCache(s);
    hide Run;
    var asleep := Run(s, [OpPowerSave(5), OpCache(CONN)]);
    assert FindIp(asleep.pwr, 5) == 0;
    var s1 := asleep.(pwr := asleep.pwr[0 := 0]);
    var s2 := VisitSlot(s1, PowerOn(5), 0);
    assert s2.cache == [EMPTY];
    assert SweepFrom(s1, PowerOn(5), 0) == SweepFrom(s2, PowerOn(5), 1) == s2;
  }

  /** From the start, the returning table puts the sleeping client's rule back. */
  lemma QuietLostRun(alg: set<(nat, nat)>, script: nat -> Reply)
    requires forall n :: script(n).Done?
    ensures var bounced := Run(Init(1, alg, script), [OpAddTable(9), OpDeleteTable(9)]);
            var asleep := Run(bounced, [OpPowerSave(5), OpCache(CONN)]);
            Quiet(asleep) && !Quiet(Step(asleep, OpAddTable(9)))
  {
    var s := Init(1, alg, script);
    OneSlot(alg, script);
    RunTwo(s, OpAddTable(9), OpDeleteTable(9));
    Bounced(s);
    hide Run, DeleteTable, AddTable, Quiet;
    var bounced := Run(s, [OpAddTable(9), OpDeleteTable(9)]);
    SleepAndCache(bounced);
    assert bounced.pwr[0 := 5][0] == 5;
    PutBack(Run(bounced, [OpPowerSave(5), OpCache(CONN)]));
  }

  lemma Bounced(s: State)
    requires s.cache == [EMPTY] && s.tbl == 0 && s.hw.table == 0 && s.pubPre == 0 && forall n :: s.hw.script(n).Done?
    ensures var s' := DeleteTable(AddTable(s, 9).0, 9).0;
            && s'.cache == [EMPTY] && s'.tbl == 0 && s'.hw.table == 0 && s'.hw.rules == map[]
            && s'.pubPre == 9 && s'.pwr == s.pwr && s'.hw.script == s.hw.script
  {
  }

  lemma PutBack(s: State)
    requires s.cache == [Filled(CONN, 9, false, 0)] && s.tbl == 0 && s.hw.table == 0 && s.pubPre == 9
    requires 5 in s.pwr && forall n :: s.hw.script(n).Done?
    ensures Quiet(s) && !Quiet(AddTable(s, 9).0)
  {
    var (hw, t) := AddTbl(s.hw);
    var s1 := s.(hw := hw, tbl := t.value);
    var s2 := VisitSlot(s1, Restore, 0);
    assert SweepFrom(s1, Restore, 0) == SweepFrom(s2, Restore, 1) == s2;
    assert s2.cache[0].enabled && s2.cache[0].key.privateIp == 5;
  }

  /** At the very start, deleting the all-zero tuple breaks the count. */
  lemma ZeroDeleteRun(maxEntries: nat, alg: set<(nat, nat)>, script: nat -> Reply)
    requires maxEntries > 0
    ensures !Inv(Run(Init(maxEntries, alg, script), [OpDelete(ZERO)]))
  {
    var s := Init(maxEntries, alg, script);
    RunLast(s, [], OpDelete(ZERO));
    assert [] + [OpDelete(ZERO)] == [OpDelete(ZERO)];
    InitInv(maxEntries, alg, script);
    hide Inv;
    DeleteEntryInvIff(s, ZERO);
  }
}
