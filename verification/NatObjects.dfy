/** NatApp as an object that overwrites its arrays in place.  Every method is proved against the
    state function of the same name, so the results about runs hold of this object. */
module NatObjects {
  import opened Driver
  import opened Spec = NatApp

  /** The hardware NAT table behind the driver calls. */
  class NatDriver {
    const script: nat -> Reply
    var table: nat
    var rules: map<Handle, Rule>
    var pos: nat
    ghost var badAdds: nat
    ghost var badDels: nat

    ghost function Now(): Hw
      reads this
    {
      Hw(table, rules, script, pos, badAdds, badDels)
    }

    constructor (script: nat -> Reply)
      ensures Now() == Hw(0, map[], script, 0, 0, 0)
    {
      this.script := script;
      table, rules, pos, badAdds, badDels := 0, map[], 0, 0, 0;
    }

    method AddTable() returns (res: Option<nat>)
      modifies this
      ensures (Now(), res) == AddTbl(old(Now()))
    {
      var reply := script(pos);
      pos := pos + 1;
      if table != 0 || !reply.Done? { return None; }
      table := reply.hint + 1;
      res := Some(table);
    }

    method DeleteTable(tbl: nat) returns (ok: bool)
      modifies this
      ensures (Now(), ok) == DelTbl(old(Now()), tbl)
    {
      var reply := script(pos);
      pos := pos + 1;
      if tbl == 0 || tbl != table || !reply.Done? {
        badDels := badDels + 1;
        return false;
      }
      table, rules := 0, map[];
      ok := true;
    }

    method AddRule(tbl: nat, rule: Rule) returns (res: Option<Handle>)
      modifies this
      ensures (Now(), res) == Spec.AddRule(old(Now()), tbl, rule)
    {
      var reply := script(pos);
      pos := pos + 1;
      if tbl == 0 || tbl != table || !reply.Done? {
        badAdds := badAdds + 1;
        return None;
      }
      var h := Pick(rules.Keys, reply.hint);
      rules := rules[h := rule];
      res := Some(h);
    }

    method DeleteRule(tbl: nat, h: Handle) returns (ok: bool)
      modifies this
      ensures (Now(), ok) == DelRule(old(Now()), tbl, h)
    {
      var reply := script(pos);
      pos := pos + 1;
      if tbl == 0 || tbl != table || h !in rules || !reply.Done? {
        badDels := badDels + 1;
        return false;
      }
      rules := rules - {h};
      ok := true;
    }
  }

  class NatApp {
    const cache: array<Entry>
    const temp: array<Entry>
    const pwr: array<Ip>
    const alg: set<(nat, nat)>
    const hw: NatDriver
    var pub: Ip
    var pubPre: Ip
    var tbl: nat
    var cnt: int
    ghost var orphans: set<Handle>

    ghost predicate Valid() { cache != temp }

    ghost function View(): State
      reads this, cache, temp, pwr, hw
    {
      State(cache[..], temp[..], pwr[..], pub, pubPre, tbl, cnt, alg, hw.Now(), orphans)
    }

    constructor (maxEntries: nat, alg: set<(nat, nat)>, hw: NatDriver)
      requires hw.Now() == Hw(0, map[], hw.script, 0, 0, 0)
      ensures Valid() && fresh(cache) && fresh(temp) && fresh(pwr) && this.hw == hw
      ensures View() == Init(maxEntries, alg, hw.script)
    {
      cache := new Entry[maxEntries](_ => EMPTY);
      temp := new Entry[MAX_TEMP_ENTRIES](_ => EMPTY);
      pwr := new Ip[MAX_WIFI_CLIENTS](_ => 0);
      this.alg, this.hw := alg, hw;
      pub, pubPre, tbl, cnt, orphans := 0, 0, 0, 0, {};
    }

    // ---- Searches ----------------------------------------------------------------------

    static method SlotOf(a: array<Entry>, k: Tuple) returns (i: nat)
      ensures i == FindKey(a[..], k)
    {
      i := 0;
      while i < a.Length && a[i].key != k
        invariant i <= a.Length
        invariant i + FindKey(a[i..], k) == FindKey(a[..], k)
      {
        assert a[i..][1..] == a[i + 1..];
        i := i + 1;
      }
    }

    static method PlaceOf(a: array<Ip>, ip: Ip) returns (i: nat)
      ensures i == FindIp(a[..], ip)
    {
      i := 0;
      while i < a.Length && a[i] != ip
        invariant i <= a.Length
        invariant i + FindIp(a[i..], ip) == FindIp(a[..], ip)
      {
        assert a[i..][1..] == a[i + 1..];
        i := i + 1;
      }
    }

    static method BlankSlot(a: array<Entry>) returns (i: nat)
      ensures i == FindBlank(a[..])
    {
      i := 0;
      while i < a.Length && !(a[i].key.privateIp == 0 && a[i].key.targetIp == 0)
        invariant i <= a.Length
        invariant i + FindBlank(a[i..]) == FindBlank(a[..])
      {
        assert a[i..][1..] == a[i + 1..];
        i := i + 1;
      }
    }

    /** ChkForDup */
    method IsDup(k: Tuple) returns (dup: bool)
      ensures dup == (FindKey(cache[..], k) < cache.Length)
    {
      var i := SlotOf(cache, k);
      dup := i < cache.Length;
    }

    /** isPwrSaveIf */
    method IsPwrSaveIf(ip: Ip) returns (saved: bool)
      ensures saved == Listed(pwr[..], ip)
    {
      var i := 0;
      saved := false;
      while i < pwr.Length && !saved
        invariant i <= pwr.Length
        invariant saved == Listed(pwr[..i], ip)
      {
        saved := pwr[i] != 0 && ip == pwr[i];
        i := i + 1;
      }
    }

    // ---- Single entries ----------------------------------------------------------------

    method AddEntry(rule: Entry) returns (ret: int)
      requires Valid()
      modifies this, cache, hw
      ensures (View(), ret) == Spec.AddEntry(old(View()), rule)
    {
      if tbl == 0 || UsesAlg(alg, rule.key) { return -1; }
      if !Full(rule.key) { return 0; }
      var dup := IsDup(rule.key);
      if dup { return -1; }
      var i := SlotOf(cache, ZERO);
      if i == cache.Length { return -1; }
      var s1 := IsPwrSaveIf(rule.key.privateIp);
      var s2 := IsPwrSaveIf(rule.key.targetIp);
      if s1 || s2 {
        cache[i] := Filled(rule, cache[i].publicIp, false, 0);
      } else {
        var h := hw.AddRule(tbl, RuleOf(rule));
        if h.None? { return -1; }
        cache[i] := Filled(rule, cache[i].publicIp, true, h.value);
      }
      cnt := cnt + 1;
      ret := 0;
      assert cache[..] == old(cache[..])[i := cache[i]];
    }

    method CacheEntry(rule: Entry)
      requires Valid()
      modifies this, cache
      ensures View() == Spec.CacheEntry(old(View()), rule)
    {
      if !Full(rule.key) { return; }
      var dup := IsDup(rule.key);
      if dup { return; }
      var i := SlotOf(cache, ZERO);
      if i == cache.Length { return; }
      cache[i] := Filled(rule, rule.publicIp, false, 0);
      cnt := cnt + 1;
      assert cache[..] == old(cache[..])[i := cache[i]];
    }

    method DeleteEntry(k: Tuple)
      requires Valid()
      modifies this, cache, hw
      ensures View() == Spec.DeleteEntry(old(View()), k)
    {
      var i := SlotOf(cache, k);
      if i == cache.Length { return; }
      if cache[i].enabled {
        var ok := hw.DeleteRule(tbl, cache[i].hdl);
        if !ok { orphans := orphans + {cache[i].hdl}; }
      }
      cache[i] := EMPTY;
      cnt := cnt - 1;
      assert cache[..] == old(cache[..])[i := EMPTY];
    }

    // ---- Loops over the cache ----------------------------------------------------------

    /** The re-adding rounds: a refused add clears the slot. */
    method ReaddSlot(i: nat)
      requires Valid() && i < cache.Length
      modifies this, cache, hw
      ensures var v := Readd(old(hw.Now()), old(tbl), old(cache[i]));
              View() == old(View()).(cache := old(cache[..])[i := v.e], hw := v.hw,
                                     cnt := if v.cleared then old(cnt) - 1 else old(cnt))
    {
      var h := hw.AddRule(tbl, RuleOf(cache[i]));
      if h.None? {
        cache[i] := EMPTY;
        cnt := cnt - 1;
      } else {
        cache[i] := cache[i].(enabled := true, hdl := h.value);
      }
      assert cache[..] == old(cache[..])[i := cache[i]];
    }

    lemma Untouched(w: Sweep, i: nat)
      requires i < cache.Length && Visit(w, tbl, hw.Now(), cache[i]) == Visited(cache[i], hw.Now(), false)
      ensures VisitSlot(View(), w, i) == View()
    {
      assert cache[..][i := cache[i]] == cache[..];
    }

    method AddTable(ip: Ip) returns (ret: int)
      requires Valid()
      modifies this, cache, hw
      ensures (View(), ret) == Spec.AddTable(old(View()), ip)
    {
      hide SweepFrom, Readd;
      var t := hw.AddTable();
      if t.None? { return -1; }
      tbl := t.value;
      if ip == pubPre {
        ghost var s1 := View();
        Unfold(Restore, 0);
        var i := 0;
        while i < cache.Length
          invariant i <= cache.Length
          invariant SweepFrom(View(), Restore, i) == SweepFrom(s1, Restore, 0)
        {
          Unfold(Restore, i);
          if cache[i].key.privateIp != 0 { ReaddSlot(i); } else { Untouched(Restore, i); }
          i := i + 1;
        }
        Unfold(Restore, i);
      }
      pub := ip;
      ret := 0;
    }

    lemma Unfold(w: Sweep, i: nat)
      requires i <= cache.Length
      ensures i < cache.Length ==> SweepFrom(View(), w, i) == SweepFrom(VisitSlot(View(), w, i), w, i + 1)
      ensures i == cache.Length ==> SweepFrom(View(), w, i) == View()
    {
    }

    /** Reset's loop */
    method DisableAll()
      requires Valid()
      modifies cache
      ensures cache[..] == AllDisabled(old(cache[..]))
    {
      var i := 0;
      while i < cache.Length
        invariant i <= cache.Length
        invariant forall j :: 0 <= j < i ==> cache[j] == old(cache[j]).(enabled := false)
        invariant forall j :: i <= j < cache.Length ==> cache[j] == old(cache[j])
      {
        cache[i] := cache[i].(enabled := false);
        i := i + 1;
      }
    }

    method DeleteTable(ip: Ip) returns (ret: int)
      requires Valid()
      modifies this, cache, hw
      ensures (View(), ret) == Spec.DeleteTable(old(View()), ip)
    {
      if tbl == 0 || pub != ip { return -1; }
      var ok := hw.DeleteTable(tbl);
      if !ok { return -1; }
      pubPre := pub;
      tbl, pub, orphans := 0, 0, {};
      DisableAll();
      ret := 0;
    }

    method PowerOffSlot(ip: Ip, i: nat)
      requires Valid() && i < cache.Length
      modifies cache, hw
      ensures View() == VisitSlot(old(View()), PowerOff(ip), i)
    {
      if cache[i].key.privateIp == ip && cache[i].enabled {
        var ok := hw.DeleteRule(tbl, cache[i].hdl);
        if ok { cache[i] := cache[i].(enabled := false, hdl := 0); }
      }
      assert cache[..] == old(cache[..])[i := cache[i]];
    }

    method UpdatePwrSaveIf(ip: Ip) returns (ret: int)
      requires Valid()
      modifies this, cache, pwr, hw
      ensures (View(), ret) == Spec.UpdatePwrSaveIf(old(View()), ip)
    {
      hide SweepFrom, VisitSlot;
      if ip == 0 { return -1; }
      var j := PlaceOf(pwr, ip);
      if j < pwr.Length { return 0; }
      j := PlaceOf(pwr, 0);
      if j < pwr.Length { pwr[j] := ip; }
      assert pwr[..] == if j < pwr.Length then old(pwr[..])[j := ip] else old(pwr[..]);
      ghost var s1 := View();
      var i := 0;
      while i < cache.Length
        invariant i <= cache.Length
        invariant SweepFrom(View(), PowerOff(ip), i) == SweepFrom(s1, PowerOff(ip), 0)
      {
        Unfold(PowerOff(ip), i);
        PowerOffSlot(ip, i);
        i := i + 1;
      }
      Unfold(PowerOff(ip), i);
      ret := 0;
    }

    method Unlist(ip: Ip)
      requires Valid()
      modifies pwr
      ensures View() == old(View()).(pwr := Spec.Unlist(old(pwr[..]), ip))
    {
      var j := PlaceOf(pwr, ip);
      if j < pwr.Length { pwr[j] := 0; }
      assert pwr[..] == if j < pwr.Length then old(pwr[..])[j := 0] else old(pwr[..]);
    }

    method ResetPwrSaveIf(ip: Ip) returns (ret: int)
      requires Valid()
      modifies this, cache, pwr, hw
      ensures (View(), ret) == Spec.ResetPwrSaveIf(old(View()), ip)
    {
      hide SweepFrom, Readd, Spec.Unlist;
      if ip == 0 { return -1; }
      Unlist(ip);
      ghost var s1 := View();
      var i := 0;
      while i < cache.Length
        invariant i <= cache.Length
        invariant SweepFrom(View(), PowerOn(ip), i) == SweepFrom(s1, PowerOn(ip), 0)
      {
        Unfold(PowerOn(ip), i);
        if cache[i].key.privateIp == ip && !cache[i].enabled { ReaddSlot(i); } else { Untouched(PowerOn(ip), i); }
        i := i + 1;
      }
      Unfold(PowerOn(ip), i);
      ret := -1;
    }

    method ClientGoneSlot(ip: Ip, i: nat)
      requires Valid() && i < cache.Length
      modifies cache, hw
      ensures View() == VisitSlot(old(View()), ClientGone(ip), i)
    {
      if cache[i].key.privateIp == ip && cache[i].enabled {
        var ok := hw.DeleteRule(tbl, cache[i].hdl);
        if ok { cache[i] := cache[i].(enabled := false); }
      }
      assert cache[..] == old(cache[..])[i := cache[i]];
    }

    method DelEntriesOnClntDiscon(ip: Ip) returns (ret: int)
      requires Valid()
      modifies this, cache, pwr, hw
      ensures (View(), ret) == Spec.DelEntriesOnClntDiscon(old(View()), ip)
    {
      hide SweepFrom, VisitSlot, Spec.Unlist;
      if ip == 0 { return -1; }
      Unlist(ip);
      ghost var s1 := View();
      var i := 0;
      while i < cache.Length
        invariant i <= cache.Length
        invariant SweepFrom(View(), ClientGone(ip), i) == SweepFrom(s1, ClientGone(ip), 0)
      {
        Unfold(ClientGone(ip), i);
        ClientGoneSlot(ip, i);
        i := i + 1;
      }
      Unfold(ClientGone(ip), i);
      ret := 0;
    }

    method StaGoneSlot(ip: Ip, i: nat)
      requires Valid() && i < cache.Length
      modifies this, cache, hw
      ensures View() == VisitSlot(old(View()), StaGone(ip), i)
    {
      if cache[i].key.targetIp == ip {
        var ok := true;
        if cache[i].enabled { ok := hw.DeleteRule(tbl, cache[i].hdl); }
        if ok {
          cache[i] := EMPTY;
          cnt := cnt - 1;
        }
      }
      assert cache[..] == old(cache[..])[i := cache[i]];
    }

    method DelEntriesOnSTAClntDiscon(ip: Ip) returns (ret: int)
      requires Valid()
      modifies this, cache, hw
      ensures (View(), ret) == Spec.DelEntriesOnSTAClntDiscon(old(View()), ip)
    {
      hide SweepFrom, VisitSlot;
      if ip == 0 { return -1; }
      ghost var s1 := View();
      var i := 0;
      while i < cache.Length
        invariant i <= cache.Length
        invariant SweepFrom(View(), StaGone(ip), i) == SweepFrom(s1, StaGone(ip), 0)
      {
        Unfold(StaGone(ip), i);
        StaGoneSlot(ip, i);
        i := i + 1;
      }
      Unfold(StaGone(ip), i);
      ret := 0;
    }

    // ---- Temporary entries -------------------------------------------------------------

    method AddTempEntry(e: Entry)
      requires Valid()
      modifies temp
      ensures View() == Spec.AddTempEntry(old(View()), e)
    {
      if UsesAlg(alg, e.key) { return; }
      var dup := IsDup(e.key);
      if dup { return; }
      var i := SlotOf(temp, e.key);
      if i < temp.Length { return; }
      i := BlankSlot(temp);
      if i == temp.Length { return; }
      temp[i] := e;
      assert temp[..] == old(temp[..])[i := e];
    }

    method DeleteTempEntry(k: Tuple)
      requires Valid()
      modifies temp
      ensures View() == Spec.DeleteTempEntry(old(View()), k)
    {
      var i := SlotOf(temp, k);
      if i == temp.Length { return; }
      temp[i] := EMPTY;
      assert temp[..] == old(temp[..])[i := EMPTY];
    }

    method SetTemp(i: nat, e: Entry)
      requires Valid() && i < temp.Length
      modifies temp
      ensures View() == old(View()).(temp := old(temp[..])[i := e])
    {
      temp[i] := e;
      assert temp[..] == old(temp[..])[i := e];
    }

    method FlushTempSlot(ip: Ip, add: bool, dummy: bool, i: nat)
      requires Valid() && i < temp.Length
      modifies this, cache, temp, hw
      ensures View() == FlushSlot(old(View()), ip, add, dummy, i)
    {
      hide Spec.AddEntry;
      if temp[i].key.privateIp != ip && temp[i].key.targetIp != ip { return; }
      if add {
        if temp[i].publicIp == pub {
          assert old(temp[..])[i := temp[i]] == old(temp[..]);
          if dummy {
            SetTemp(i, temp[i].(key := temp[i].key.(privateIp := temp[i].publicIp, privatePort := temp[i].publicPort)));
          }
          var ret := AddEntry(temp[i]);
          if ret != 0 { return; }
        }
      }
      SetTemp(i, EMPTY);
    }

    method FlushTempEntries(ip: Ip, add: bool, dummy: bool)
      requires Valid()
      modifies this, cache, temp, hw
      ensures View() == FlushFrom(old(View()), ip, add, dummy, 0)
    {
      hide FlushSlot;
      var i := 0;
      while i < temp.Length
        invariant i <= temp.Length
        invariant FlushFrom(View(), ip, add, dummy, i) == FlushFrom(old(View()), ip, add, dummy, 0)
      {
        FlushTempSlot(ip, add, dummy, i);
        i := i + 1;
      }
    }

    // ---- Time stamps -------------------------------------------------------------------

    method StampOne(ts: Option<nat>, alive: bool, i: nat)
      requires Valid() && i < cache.Length
      modifies this, cache, hw
      ensures View() == StampSlot(old(View()), ts, alive, i)
    {
      var e := cache[i];
      if !e.enabled || e.key.privateIp == e.publicIp || ts.None? || ts.value == e.timestamp { return; }
      if !alive {
        DeleteEntry(e.key);
      } else {
        cache[i] := e.(timestamp := ts.value);
        assert cache[..] == old(cache[..])[i := cache[i]];
      }
    }

    method UpdateUDPTimeStamp(ts: nat -> Option<nat>, alive: nat -> bool)
      requires Valid()
      modifies this, cache, hw
      ensures View() == StampFrom(old(View()), ts, alive, 0)
    {
      hide StampSlot;
      var i := 0;
      while i < cache.Length
        invariant i <= cache.Length
        invariant StampFrom(View(), ts, alive, i) == StampFrom(old(View()), ts, alive, 0)
      {
        StampOne(ts(i), alive(i), i);
        i := i + 1;
      }
    }

    /** Every public entry point is one step of the state machine. */
    method Do(op: Op)
      requires Valid()
      modifies this, cache, temp, pwr, hw
      ensures View() == Step(old(View()), op)
    {
      hide Spec.AddEntry, Spec.CacheEntry, Spec.DeleteEntry, SweepFrom, FlushFrom, StampFrom, Spec.Unlist;
      var ret;
      match op
      case OpAddTable(ip) => ret := AddTable(ip);
      case OpDeleteTable(ip) => ret := DeleteTable(ip);
      case OpAdd(e) => ret := AddEntry(e);
      case OpDelete(k) => DeleteEntry(k);
      case OpCache(e) => CacheEntry(e);
      case OpPowerSave(ip) => ret := UpdatePwrSaveIf(ip);
      case OpPowerReset(ip) => ret := ResetPwrSaveIf(ip);
      case OpClientGone(ip) => ret := DelEntriesOnClntDiscon(ip);
      case OpStaGone(ip) => ret := DelEntriesOnSTAClntDiscon(ip);
      case OpAddTemp(e) => AddTempEntry(e);
      case OpDeleteTemp(k) => DeleteTempEntry(k);
      case OpFlush(ip, add, dummy) => FlushTempEntries(ip, add, dummy);
      case OpStamp(ts, alive) => UpdateUDPTimeStamp(ts, alive);
    }
  }
}
