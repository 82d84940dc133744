/** What each NatApp operation does, said of the state before and after alone: which slots change
    and how, which rules go in or out of the hardware. */
module NatEffects {
  import opened Driver
  import opened NatApp
  import opened NatMirror
  import opened NatRuns

  // ---- The installed rules ---------------------------------------------------------------------

  /** Every enabled slot's connection is installed, translated to the slot's public port. */
  ghost predicate Translated(s: State) {
    forall j :: 0 <= j < |s.cache| && s.cache[j].enabled ==>
      && s.cache[j].hdl in s.hw.rules
      && s.hw.rules[s.cache[j].hdl].key == s.cache[j].key
      && s.hw.rules[s.cache[j].hdl].publicPort == s.cache[j].publicPort
  }

  lemma RunTranslated(s: State, ops: seq<Op>)
    requires Inv(s) && OpDelete(ZERO) !in ops
    ensures Translated(Run(s, ops))
  {
    hide Run;
    RunInv(s, ops);
  }

  // ---- Adding and caching ------------------------------------------------------------------------

  predicate Holds(es: seq<Entry>, k: Tuple) { exists j :: 0 <= j < |es| && es[j].key == k }

  /** An ALG is configured for the protocol and either port. */
  predicate HasAlg(alg: set<(nat, nat)>, k: Tuple) {
    exists p :: p in alg && p.0 == k.protocol && (p.1 == k.privatePort || p.1 == k.targetPort)
  }

  /** Some field of the tuple is zero. */
  predicate Incomplete(k: Tuple) {
    k.privateIp == 0 || k.targetIp == 0 || k.privatePort == 0 || k.targetPort == 0 || k.protocol == 0
  }

  predicate Asleep(pwr: seq<Ip>, k: Tuple) {
    exists j :: 0 <= j < |pwr| && pwr[j] != 0 && (pwr[j] == k.privateIp || pwr[j] == k.targetIp)
  }

  /** The first free slot, and no other, becomes e. */
  predicate Placed(c: seq<Entry>, c': seq<Entry>, e: Entry) {
    exists j :: 0 <= j < |c| && c[j].key == ZERO && !Holds(c[..j], ZERO) && c' == c[j := e]
  }

  lemma PlacedAt(c: seq<Entry>, j: nat, e: Entry)
    requires j == FindKey(c, ZERO) < |c|
    ensures Placed(c, c[j := e], e)
  {
    assert forall p :: 0 <= p < j ==> c[..j][p].key != ZERO;
  }

  lemma HoldsFind(es: seq<Entry>, k: Tuple)
    ensures Holds(es, k) <==> FindKey(es, k) < |es|
  {
    FirstOf(es, k);
  }

  lemma AlgUses(alg: set<(nat, nat)>, k: Tuple)
    ensures HasAlg(alg, k) <==> UsesAlg(alg, k)
  {
    assert (k.protocol, k.privatePort) in alg ==> HasAlg(alg, k);
    assert (k.protocol, k.targetPort) in alg ==> HasAlg(alg, k);
  }

  lemma AsleepListed(pwr: seq<Ip>, k: Tuple)
    ensures Asleep(pwr, k) <==> Listed(pwr, k.privateIp) || Listed(pwr, k.targetIp)
  {
  }

  /** No table, an ALG's connection, one that is cached already, or no free slot. */
  predicate Refuses(s: State, k: Tuple) {
    s.tbl == 0 || HasAlg(s.alg, k) || (!Incomplete(k) && (Holds(s.cache, k) || !Holds(s.cache, ZERO)))
  }

  /** AddEntry's result: an entry enters the first free slot, disabled while an end of it sleeps,
      otherwise enabled and installed, under a new handle, with the entry's tuple and public port. */
  ghost predicate AddFollows(s: State, e: Entry, s': State, ret: int) {
    if Refuses(s, e.key) then s' == s && ret == -1
    else if Incomplete(e.key) then s' == s && ret == 0
    else if Asleep(s.pwr, e.key) then
      && Placed(s.cache, s'.cache, Entry(e.key, 0, e.publicPort, 0, e.dstNat, false, 0))
      && s' == s.(cache := s'.cache, cnt := s.cnt + 1) && ret == 0
    else if Answer(s.hw).Done? then
      exists h :: && h !in s.hw.rules
                  && Placed(s.cache, s'.cache, Entry(e.key, 0, e.publicPort, 0, e.dstNat, true, h))
                  && s'.hw == s.hw.(pos := s.hw.pos + 1, rules := s.hw.rules[h := Rule(e.key, e.publicPort)])
                  && s' == s.(cache := s'.cache, hw := s'.hw, cnt := s.cnt + 1) && ret == 0
    else s' == s.(hw := s.hw.(pos := s.hw.pos + 1, badAdds := s.hw.badAdds + 1)) && ret == -1
  }

  lemma AddEffectIs(s: State, e: Entry)
    requires Inv(s)
    ensures AddFollows(s, e, AddEntry(s, e).0, AddEntry(s, e).1)
  {
    HoldsFind(s.cache, e.key);
    HoldsFind(s.cache, ZERO);
    AlgUses(s.alg, e.key);
    AsleepListed(s.pwr, e.key);
    var j := FindKey(s.cache, ZERO);
    hide Holds, HasAlg, UsesAlg, Asleep, Listed, FindKey, Placed;
    if Refuses(s, e.key) || Incomplete(e.key) { return; }
    assert s.cache[j] == EMPTY;
    if Asleep(s.pwr, e.key) {
      PlacedAt(s.cache, j, Entry(e.key, 0, e.publicPort, 0, e.dstNat, false, 0));
    } else if Answer(s.hw).Done? {
      var h := Pick(s.hw.rules.Keys, Answer(s.hw).hint);
      PlacedAt(s.cache, j, Entry(e.key, 0, e.publicPort, 0, e.dstNat, true, h));
    }
  }

  /** CacheEntry's result: a complete tuple that is not cached yet enters the first free slot,
      disabled. */
  ghost predicate CacheFollows(s: State, e: Entry, s': State) {
    if Incomplete(e.key) || Holds(s.cache, e.key) || !Holds(s.cache, ZERO) then s' == s
    else
      && Placed(s.cache, s'.cache, Entry(e.key, e.publicIp, e.publicPort, 0, e.dstNat, false, 0))
      && s' == s.(cache := s'.cache, cnt := s.cnt + 1)
  }

  lemma CacheEffectIs(s: State, e: Entry)
    ensures CacheFollows(s, e, CacheEntry(s, e))
  {
    HoldsFind(s.cache, e.key);
    HoldsFind(s.cache, ZERO);
    var j := FindKey(s.cache, ZERO);
    hide Holds, FindKey, Placed;
    if !Incomplete(e.key) && !Holds(s.cache, e.key) && Holds(s.cache, ZERO) {
      PlacedAt(s.cache, j, Entry(e.key, e.publicIp, e.publicPort, 0, e.dstNat, false, 0));
    }
  }

  /** DeleteEntry's result: the slot that holds the tuple becomes free, no other slot changes, and
      its rule, no other, is deleted or, when that is refused, orphaned. */
  ghost predicate DeleteFollows(s: State, k: Tuple, s': State) {
    if !Holds(s.cache, k) then s' == s
    else
      exists j :: 0 <= j < |s.cache| && s.cache[j].key == k && s'.cache == s.cache[j := EMPTY] && s'.cnt == s.cnt - 1
        && s' == s.(cache := s'.cache, hw := s'.hw, cnt := s'.cnt, orphans := s'.orphans)
        && (if !s.cache[j].enabled then s'.hw == s.hw && s'.orphans == s.orphans
            else if Answer(s.hw).Done? then
              s'.hw == s.hw.(pos := s.hw.pos + 1, rules := s.hw.rules - {s.cache[j].hdl}) && s'.orphans == s.orphans
            else
              && s'.hw == s.hw.(pos := s.hw.pos + 1, badDels := s.hw.badDels + 1)
              && s'.orphans == s.orphans + {s.cache[j].hdl})
  }

  lemma DeleteEffectIs(s: State, k: Tuple)
    requires Inv(s)
    ensures DeleteFollows(s, k, DeleteEntry(s, k))
  {
    HoldsFind(s.cache, k);
    var j := FindKey(s.cache, k);
    if j < |s.cache| && s.cache[j].enabled {
      assert s.cache[j].hdl in s.hw.rules;
      assert s.tbl != 0 && s.tbl == s.hw.table;
    }
  }

  // ---- Tables --------------------------------------------------------------------------------------

  /** DeleteTable's result: only the current table's address takes it down; the cache stays, slot by
      slot, disabled. */
  ghost predicate DownFollows(s: State, ip: Ip, s': State, ret: int) {
    if s.tbl == 0 || s.pub != ip then s' == s && ret == -1
    else if !Answer(s.hw).Done? then
      s' == s.(hw := s.hw.(pos := s.hw.pos + 1, badDels := s.hw.badDels + 1)) && ret == -1
    else
      && ret == 0 && s'.hw == s.hw.(pos := s.hw.pos + 1, table := 0, rules := map[])
      && |s'.cache| == |s.cache| && (forall j :: 0 <= j < |s.cache| ==> s'.cache[j] == s.cache[j].(enabled := false))
      && s' == s.(cache := s'.cache, hw := s'.hw, tbl := 0, pub := 0, pubPre := s.pub, orphans := {})
  }

  lemma DownEffectIs(s: State, ip: Ip)
    requires Inv(s)
    ensures DownFollows(s, ip, DeleteTable(s, ip).0, DeleteTable(s, ip).1)
  {
  }

  /** AddTable's result: with a table up or a refused call nothing happens; otherwise the table is
      there, for this address, and the cache is touched only when it is the previous one. */
  ghost predicate UpFollows(s: State, ip: Ip, s': State, ret: int) {
    if s.tbl != 0 || !Answer(s.hw).Done? then s' == s.(hw := s.hw.(pos := s.hw.pos + 1)) && ret == -1
    else
      && ret == 0 && s'.tbl != 0 && s'.tbl == s'.hw.table && s'.pub == ip
      && s' == s.(cache := s'.cache, hw := s'.hw, cnt := s'.cnt, tbl := s'.tbl, pub := ip)
      && (ip != s.pubPre ==> s'.cache == s.cache && s'.cnt == s.cnt && s'.hw == s.hw.(pos := s.hw.pos + 1, table := s'.tbl))
      && (ip == s.pubPre ==>
            && |s'.cache| == |s.cache|
            && forall j :: 0 <= j < |s.cache| ==> RestoredSlot(s.cache[j], s'.cache[j]))
  }

  lemma UpEffectIs(s: State, ip: Ip)
    requires Inv(s)
    ensures UpFollows(s, ip, AddTable(s, ip).0, AddTable(s, ip).1)
  {
    var (hw, t) := AddTbl(s.hw);
    if t.Some? && ip == s.pubPre {
      AddTableInv(s, ip);
      RestoreEffect(s.(hw := hw, tbl := t.value), 0);
    }
    hide SweepFrom;
  }

  // ---- A client sleeps, or is lost -----------------------------------------------------------------

  /** Does the loop take this slot's rule out of the hardware? */
  predicate Hit(w: Sweep, e: Entry) {
    match w
    case PowerOff(ip) => e.enabled && e.key.privateIp == ip
    case ClientGone(ip) => e.enabled && e.key.privateIp == ip
    case StaGone(ip) => e.enabled && e.key.targetIp == ip
    case _ => false
  }

  /** What the loop leaves of a slot. */
  function Left(w: Sweep, e: Entry): Entry {
    match w
    case PowerOff(ip) => if e.enabled && e.key.privateIp == ip then e.(enabled := false, hdl := 0) else e
    case ClientGone(ip) => if e.enabled && e.key.privateIp == ip then e.(enabled := false) else e
    case StaGone(ip) => if e.key.targetIp == ip then EMPTY else e
    case _ => e
  }

  predicate Removes(w: Sweep) { w.PowerOff? || w.ClientGone? || w.StaGone? }

  ghost predicate HandleHit(c: seq<Entry>, w: Sweep, i: nat, h: Handle) {
    exists j :: i <= j < |c| && Hit(w, c[j]) && c[j].hdl == h
  }

  /** Slot by slot: what Left says, or, when the delete is refused, the slot as it was. */
  ghost predicate Swept(c: seq<Entry>, c': seq<Entry>, w: Sweep, i: nat) {
    && |c'| == |c| && (forall j :: 0 <= j < i && j < |c| ==> c'[j] == c[j])
    && forall j :: i <= j < |c| ==> c'[j] == Left(w, c[j]) || (Hit(w, c[j]) && c'[j] == c[j])
  }

  /** With no delete refused every slot is what Left says, and exactly the hit slots' rules go. */
  ghost predicate SweptClean(s: State, s': State, w: Sweep, i: nat) {
    && |s'.cache| == |s.cache| && (forall j :: i <= j < |s.cache| ==> s'.cache[j] == Left(w, s.cache[j]))
    && forall h :: (h in s'.hw.rules <==> h in s.hw.rules && !HandleHit(s.cache, w, i, h))
                   && (h in s'.hw.rules ==> s'.hw.rules[h] == s.hw.rules[h])
  }

  lemma VisitSwept(s: State, w: Sweep, i: nat)
    requires i < |s.cache| && Removes(w)
    ensures var s1 := VisitSlot(s, w, i);
            && s1.cache == s.cache[i := s1.cache[i]]
            && (s1.cache[i] == Left(w, s.cache[i]) || (Hit(w, s.cache[i]) && s1.cache[i] == s.cache[i]))
            && s1.hw.badDels >= s.hw.badDels
            && (s1.hw.badDels == s.hw.badDels ==>
                  && s1.cache[i] == Left(w, s.cache[i])
                  && s1.hw.rules == if Hit(w, s.cache[i]) then s.hw.rules - {s.cache[i].hdl} else s.hw.rules)
  {
  }

  lemma {:induction false} SweepRemoves(s: State, w: Sweep, i: nat)
    requires i <= |s.cache| && Removes(w)
    ensures var s' := SweepFrom(s, w, i);
            Swept(s.cache, s'.cache, w, i) && (s'.hw.badDels == s.hw.badDels ==> SweptClean(s, s', w, i))
    decreases |s.cache| - i
  {
    if i == |s.cache| { return; }
    VisitSwept(s, w, i);
    hide VisitSlot, Hit, Left, Swept, SweptClean, Later;
    var s1 := VisitSlot(s, w, i);
    SweepRemoves(s1, w, i + 1);
    var s' := SweepFrom(s1, w, i + 1);
    SweptNext(s.cache, s1.cache, s'.cache, w, i);
    LaterBad(s1, w, i + 1);
    if s'.hw.badDels == s.hw.badDels { CleanNext(s, s1, s', w, i); }
  }

  lemma LaterBad(s: State, w: Sweep, i: nat)
    requires i <= |s.cache|
    ensures SweepFrom(s, w, i).hw.badDels >= s.hw.badDels
  {
  }

  lemma SweptNext(c: seq<Entry>, c1: seq<Entry>, c': seq<Entry>, w: Sweep, i: nat)
    requires i < |c| && |c1| == |c| && c1 == c[i := c1[i]] && Swept(c1, c', w, i + 1)
    requires c1[i] == Left(w, c[i]) || (Hit(w, c[i]) && c1[i] == c[i])
    ensures Swept(c, c', w, i)
  {
    hide Left, Hit;
  }

  lemma CleanNext(s: State, s1: State, s': State, w: Sweep, i: nat)
    requires i < |s.cache| && |s1.cache| == |s.cache| && s1.cache == s.cache[i := s1.cache[i]]
    requires s1.cache[i] == Left(w, s.cache[i]) && SweptClean(s1, s', w, i + 1) && Swept(s1.cache, s'.cache, w, i + 1)
    requires s1.hw.rules == if Hit(w, s.cache[i]) then s.hw.rules - {s.cache[i].hdl} else s.hw.rules
    ensures SweptClean(s, s', w, i)
  {
    hide Left, Hit;
    forall h ensures HandleHit(s.cache, w, i, h) <==> HandleHit(s1.cache, w, i + 1, h) || (Hit(w, s.cache[i]) && s.cache[i].hdl == h) {
      if HandleHit(s.cache, w, i, h) {
        var j :| i <= j < |s.cache| && Hit(w, s.cache[j]) && s.cache[j].hdl == h;
        assert j > i ==> Hit(w, s1.cache[j]) && s1.cache[j].hdl == h;
      }
      if HandleHit(s1.cache, w, i + 1, h) {
        var j :| i + 1 <= j < |s1.cache| && Hit(w, s1.cache[j]) && s1.cache[j].hdl == h;
        assert s.cache[j] == s1.cache[j];
      }
    }
    hide HandleHit;
  }

  /** The list without ip. */
  ghost predicate OffList(pwr: seq<Ip>, pwr': seq<Ip>, ip: Ip) {
    |pwr'| == |pwr| && forall x :: x != 0 ==> (x in pwr' <==> x in pwr && x != ip)
  }

  lemma UnlistIs(pwr: seq<Ip>, ip: Ip)
    requires NoDup(pwr) && ip != 0
    ensures OffList(pwr, Unlist(pwr, ip), ip)
  {
    var j, u := FindIp(pwr, ip), Unlist(pwr, ip);
    forall x | x != 0 && x in pwr && x != ip ensures x in u {
      var p :| 0 <= p < |pwr| && pwr[p] == x;
      assert u[p] == x;
    }
  }

  /** A lost client, with no delete refused: its rules leave the hardware, and no other rule does;
      its connections stay cached, disabled, under their tuples; every other slot is untouched;
      the client is off the power-save list and everybody else stays on it. */
  lemma ClientGoneEffect(s: State, ip: Ip)
    requires Inv(s) && NoDup(s.pwr) && ip != 0 && DelEntriesOnClntDiscon(s, ip).0.hw.badDels == s.hw.badDels
    ensures var s' := DelEntriesOnClntDiscon(s, ip).0;
            && |s'.cache| == |s.cache|
            && (forall j :: 0 <= j < |s.cache| ==>
                  s'.cache[j] == if s.cache[j].key.privateIp == ip then s.cache[j].(enabled := false) else s.cache[j])
            && (forall j :: 0 <= j < |s.cache| && s.cache[j].enabled && s.cache[j].key.privateIp == ip ==> s.cache[j].hdl !in s'.hw.rules)
            && (forall h :: h in s.hw.rules && !HandleHit(s.cache, ClientGone(ip), 0, h) ==>
                  h in s'.hw.rules && s'.hw.rules[h] == s.hw.rules[h])
            && OffList(s.pwr, s'.pwr, ip)
            && s' == s.(cache := s'.cache, hw := s'.hw, cnt := s'.cnt, pwr := s'.pwr)
    ensures DelEntriesOnClntDiscon(s, ip).1 == 0
  {
    hide SweepFrom, Unlist, OffList, NoDup, Inv;
    UnlistIs(s.pwr, ip);
    SweepRemoves(s.(pwr := Unlist(s.pwr, ip)), ClientGone(ip), 0);
  }

  /** A lost station: its connections leave the cache, their rules the hardware, nothing else. */
  lemma StaGoneEffect(s: State, ip: Ip)
    requires Inv(s) && ip != 0 && DelEntriesOnSTAClntDiscon(s, ip).0.hw.badDels == s.hw.badDels
    ensures var s' := DelEntriesOnSTAClntDiscon(s, ip).0;
            && |s'.cache| == |s.cache|
            && (forall j :: 0 <= j < |s.cache| ==> s'.cache[j] == if s.cache[j].key.targetIp == ip then EMPTY else s.cache[j])
            && (forall j :: 0 <= j < |s.cache| && s.cache[j].enabled && s.cache[j].key.targetIp == ip ==> s.cache[j].hdl !in s'.hw.rules)
            && (forall h :: h in s.hw.rules && !HandleHit(s.cache, StaGone(ip), 0, h) ==>
                  h in s'.hw.rules && s'.hw.rules[h] == s.hw.rules[h])
            && s' == s.(cache := s'.cache, hw := s'.hw, cnt := s'.cnt)
    ensures DelEntriesOnSTAClntDiscon(s, ip).1 == 0
  {
    hide SweepFrom, Inv;
    SweepRemoves(s, StaGone(ip), 0);
  }

  /** A refused delete leaves the slot of a lost client or station as it was. */
  lemma GoneRefused(s: State, ip: Ip)
    requires ip != 0
    ensures Swept(s.cache, DelEntriesOnClntDiscon(s, ip).0.cache, ClientGone(ip), 0)
    ensures Swept(s.cache, DelEntriesOnSTAClntDiscon(s, ip).0.cache, StaGone(ip), 0)
  {
    hide SweepFrom, Unlist, Swept;
    SweepRemoves(s.(pwr := Unlist(s.pwr, ip)), ClientGone(ip), 0);
    SweepRemoves(s, StaGone(ip), 0);
  }

  /** A client falls asleep, with no delete refused: the same of its rules and slots; it is on the
      list if that had a place for it, and everybody else is as before. */
  lemma SleepExact(s: State, ip: Ip)
    requires ip != 0 && ip !in s.pwr && UpdatePwrSaveIf(s, ip).0.hw.badDels == s.hw.badDels
    ensures var s' := UpdatePwrSaveIf(s, ip).0;
            && |s'.cache| == |s.cache|
            && (forall j :: 0 <= j < |s.cache| ==>
                  s'.cache[j] == if s.cache[j].enabled && s.cache[j].key.privateIp == ip
                                 then s.cache[j].(enabled := false, hdl := 0) else s.cache[j])
            && (forall j :: 0 <= j < |s.cache| && s.cache[j].enabled && s.cache[j].key.privateIp == ip ==> s.cache[j].hdl !in s'.hw.rules)
            && (forall h :: h in s.hw.rules && !HandleHit(s.cache, PowerOff(ip), 0, h) ==>
                  h in s'.hw.rules && s'.hw.rules[h] == s.hw.rules[h])
            && |s'.pwr| == |s.pwr| && (forall x :: x != 0 ==> (x in s'.pwr <==> x in s.pwr || (x == ip && 0 in s.pwr)))
            && s' == s.(cache := s'.cache, hw := s'.hw, cnt := s'.cnt, pwr := s'.pwr)
    ensures UpdatePwrSaveIf(s, ip).1 == 0
  {
    hide SweepFrom;
    var j := FindIp(s.pwr, 0);
    var pwr := if j < |s.pwr| then s.pwr[j := ip] else s.pwr;
    ListIs(s.pwr, ip);
    SweepRemoves(s.(pwr := pwr), PowerOff(ip), 0);
  }

  lemma ListIs(pwr: seq<Ip>, ip: Ip)
    requires ip != 0
    ensures FindIp(pwr, 0) < |pwr| <==> 0 in pwr
    ensures FindIp(pwr, 0) < |pwr| ==> forall x :: x != 0 ==> (x in pwr[FindIp(pwr, 0) := ip] <==> x in pwr || x == ip)
    ensures FindIp(pwr, ip) < |pwr| <==> ip in pwr
  {
    var j := FindIp(pwr, 0);
    if j < |pwr| {
      var u := pwr[j := ip];
      assert u[j] == ip;
      forall x | x != 0 && x in pwr ensures x in u {
        var p :| 0 <= p < |pwr| && pwr[p] == x;
        assert u[p] == x;
      }
    }
  }

  // ---- A client wakes --------------------------------------------------------------------------------

  /** What a visit makes of a slot of the returning client: enabled and installed under a new
      handle, or, when that is refused, cleared; other slots are untouched. */
  ghost predicate WokenSlot(ip: Ip, e: Entry, e': Entry, rules: map<Handle, Rule>) {
    if e.enabled || e.key.privateIp != ip then e' == e
    else
      || e' == EMPTY
      || (e' == e.(enabled := true, hdl := e'.hdl) && e'.hdl in rules && rules[e'.hdl] == Rule(e.key, e.publicPort))
  }

  lemma VisitWakes(s: State, ip: Ip, i: nat)
    requires i < |s.cache|
    ensures var s1 := VisitSlot(s, PowerOn(ip), i);
            && s1.cache == s.cache[i := s1.cache[i]] && WokenSlot(ip, s.cache[i], s1.cache[i], s1.hw.rules)
            && (forall h :: h in s.hw.rules ==> h in s1.hw.rules && s1.hw.rules[h] == s.hw.rules[h])
            && s1.hw.badAdds >= s.hw.badAdds && (s1.hw.badAdds == s.hw.badAdds ==> s1.cache[i].key == s.cache[i].key)
  {
  }

  lemma {:induction false} SweepWakes(s: State, ip: Ip, i: nat)
    requires i <= |s.cache|
    ensures var s' := SweepFrom(s, PowerOn(ip), i);
            && |s'.cache| == |s.cache| && (forall j :: 0 <= j < i ==> s'.cache[j] == s.cache[j])
            && (forall j :: i <= j < |s.cache| ==> WokenSlot(ip, s.cache[j], s'.cache[j], s'.hw.rules))
            && (forall h :: h in s.hw.rules ==> h in s'.hw.rules && s'.hw.rules[h] == s.hw.rules[h])
            && (s'.hw.badAdds == s.hw.badAdds ==> forall j :: i <= j < |s.cache| ==> s'.cache[j].key == s.cache[j].key)
    decreases |s.cache| - i
  {
    if i == |s.cache| { return; }
    VisitWakes(s, ip, i);
    hide VisitSlot;
    SweepWakes(VisitSlot(s, PowerOn(ip), i), ip, i + 1);
  }

  /** A client wakes: each of its connections is installed again or, when the add is refused, lost;
      the others and their rules are untouched; the client is off the list. */
  lemma WakeExact(s: State, ip: Ip)
    requires NoDup(s.pwr) && ip != 0
    ensures var s' := ResetPwrSaveIf(s, ip).0;
            && |s'.cache| == |s.cache|
            && (forall j :: 0 <= j < |s.cache| ==> WokenSlot(ip, s.cache[j], s'.cache[j], s'.hw.rules))
            && (forall h :: h in s.hw.rules ==> h in s'.hw.rules && s'.hw.rules[h] == s.hw.rules[h])
            && (s'.hw.badAdds == s.hw.badAdds ==> forall j :: 0 <= j < |s.cache| ==> s'.cache[j].key == s.cache[j].key)
            && OffList(s.pwr, s'.pwr, ip)
            && s' == s.(cache := s'.cache, hw := s'.hw, cnt := s'.cnt, pwr := s'.pwr)
    ensures ResetPwrSaveIf(s, ip).1 == -1
  {
    hide SweepFrom, Unlist, OffList, NoDup, WokenSlot;
    UnlistIs(s.pwr, ip);
    SweepWakes(s.(pwr := Unlist(s.pwr, ip)), ip, 0);
  }

  /** The zero address does nothing, nor does a second sleep. */
  lemma NobodyNamed(s: State, ip: Ip)
    ensures ip == 0 ==>
              && UpdatePwrSaveIf(s, ip) == ResetPwrSaveIf(s, ip) == (s, -1)
              && DelEntriesOnClntDiscon(s, ip) == DelEntriesOnSTAClntDiscon(s, ip) == (s, -1)
    ensures ip != 0 && ip in s.pwr ==> UpdatePwrSaveIf(s, ip) == (s, 0)
  {
    if ip != 0 { ListIs(s.pwr, ip); }
    hide SweepFrom;
  }

  // ---- Temporary entries -----------------------------------------------------------------------------

  predicate Blank(e: Entry) { e.key.privateIp == 0 && e.key.targetIp == 0 }

  /** AddTempEntry's result: an entry without an ALG port that is in neither array enters the first
      blank temp slot as it is. */
  ghost predicate TempFollows(s: State, e: Entry, s': State) {
    if HasAlg(s.alg, e.key) || Holds(s.cache, e.key) || Holds(s.temp, e.key) then s' == s
    else if forall j :: 0 <= j < |s.temp| ==> !Blank(s.temp[j]) then s' == s
    else
      exists j :: 0 <= j < |s.temp| && Blank(s.temp[j]) && (forall p :: 0 <= p < j ==> !Blank(s.temp[p])) && s' == s.(temp := s.temp[j := e])
  }

  lemma TempEffectIs(s: State, e: Entry)
    ensures TempFollows(s, e, AddTempEntry(s, e))
  {
    HoldsFind(s.cache, e.key);
    HoldsFind(s.temp, e.key);
    AlgUses(s.alg, e.key);
    hide Holds, HasAlg, UsesAlg, FindKey;
    var j := FindBlank(s.temp);
    assert j < |s.temp| ==> Blank(s.temp[j]);
  }

  /** DeleteTempEntry's result: the first temp slot with the tuple becomes empty. */
  ghost predicate TempGoneFollows(s: State, k: Tuple, s': State) {
    if !Holds(s.temp, k) then s' == s
    else exists j :: 0 <= j < |s.temp| && s.temp[j].key == k && !Holds(s.temp[..j], k) && s' == s.(temp := s.temp[j := EMPTY])
  }

  lemma TempGoneIs(s: State, k: Tuple)
    ensures TempGoneFollows(s, k, DeleteTempEntry(s, k))
  {
    HoldsFind(s.temp, k);
    var j := FindKey(s.temp, k);
    assert forall p :: 0 <= p < j ==> s.temp[..j][p].key != k;
  }

  /** A temp entry as it is handed over: in its dummy form the private end is the public one. */
  function Handed(t: Entry, dummy: bool): Entry {
    if !dummy then t
    else
      var k := Tuple(t.publicIp, t.key.targetIp, t.publicPort, t.key.targetPort, t.key.protocol);
      Entry(k, t.publicIp, t.publicPort, t.timestamp, t.dstNat, t.enabled, t.hdl)
  }

  lemma HandedIs(t: Entry, dummy: bool)
    ensures Handed(t, dummy) == Offered(t, dummy)
  {
  }

  /** Was the tuple cached before the flush came to slot j, or brought in by an earlier slot? */
  predicate Before(s: State, ip: Ip, dummy: bool, i: nat, j: nat, k: Tuple) {
    Holds(s.cache, k) || exists p :: i <= p < j && p < |s.temp| && Names(s.temp[p], ip) && Handed(s.temp[p], dummy).key == k
  }

  /** The connection is cached with its public port and direction. */
  predicate Carries(c: seq<Entry>, e: Entry) {
    exists j :: 0 <= j < |c| && c[j].key == e.key && c[j].publicPort == e.publicPort && c[j].dstNat == e.dstNat
  }

  lemma CarriesOn(c: seq<Entry>, c': seq<Entry>, e: Entry)
    requires CacheGrew(c, c') && Carries(c, e) && e.key != ZERO
    ensures Carries(c', e)
  {
    var j :| 0 <= j < |c| && c[j].key == e.key && c[j].publicPort == e.publicPort && c[j].dstNat == e.dstNat;
    assert c'[j] == c[j];
  }

  /** What a flush makes of temp slot j, visited from slot i on.  A slot that does not name the
      address stays; one that is not to be handed over is cleared; the others are handed to the
      cache and cleared, and stay, as they were offered, only when NatApp does not take them: no
      table, an ALG port, the tuple cached already, the cache full or an add refused. */
  ghost predicate FlushOutcome(s: State, s': State, ip: Ip, add: bool, dummy: bool, i: nat, j: nat)
    requires j < |s.temp| == |s'.temp|
  {
    var t, t' := s.temp[j], s'.temp[j];
    if !Names(t, ip) then t' == t
    else if !add || t.publicIp != s.pub then t' == EMPTY
    else
      var o := Handed(t, dummy);
      if s.tbl == 0 || HasAlg(s.alg, o.key) then t' == o
      else if Incomplete(o.key) then t' == EMPTY
      else
        || (t' == EMPTY && Carries(s'.cache, o))
        || (t' == o && (Before(s, ip, dummy, i, j, o.key) || !Holds(s'.cache, ZERO) || s'.hw.badAdds > s.hw.badAdds))
  }

  /** The cache only grew, by the offered tuples of the visited slots. */
  ghost predicate FlushGrew(s: State, s': State) {
    && CacheGrew(s.cache, s'.cache) && s'.hw.badAdds >= s.hw.badAdds && s'.tbl == s.tbl && s'.alg == s.alg && s'.pub == s.pub
    && (forall k :: k != ZERO && Holds(s.cache, k) ==> Holds(s'.cache, k))
    && (Holds(s'.cache, ZERO) ==> Holds(s.cache, ZERO))
  }

  lemma PlacedHolds(c: seq<Entry>, c': seq<Entry>, e: Entry)
    requires Placed(c, c', e) && e.key != ZERO
    ensures CacheGrew(c, c') && Carries(c', e)
    ensures forall k :: k != ZERO && Holds(c, k) ==> Holds(c', k)
    ensures forall k :: Holds(c', k) ==> k == e.key || Holds(c, k)
  {
    var j :| 0 <= j < |c| && c[j].key == ZERO && !Holds(c[..j], ZERO) && c' == c[j := e];
    assert c'[j].key == e.key;
    forall k | k != ZERO && Holds(c, k) ensures Holds(c', k) {
      var p :| 0 <= p < |c| && c[p].key == k;
      assert c'[p].key == k;
    }
  }

  /** What an add does to the cache's tuples. */
  lemma AddHolds(s: State, e: Entry)
    requires Inv(s)
    ensures var (s', ret) := AddEntry(s, e);
            && FlushGrew(s, s') && s'.temp == s.temp
            && (forall k :: Holds(s'.cache, k) ==> Holds(s.cache, k) || k == e.key)
            && (s.tbl == 0 || HasAlg(s.alg, e.key) ==> ret != 0)
            && (s.tbl != 0 && !HasAlg(s.alg, e.key) && Incomplete(e.key) ==> ret == 0)
            && (!(s.tbl == 0 || HasAlg(s.alg, e.key)) && !Incomplete(e.key) ==>
                  if ret == 0 then Carries(s'.cache, e)
                  else Holds(s.cache, e.key) || !Holds(s'.cache, ZERO) || s'.hw.badAdds > s.hw.badAdds)
  {
    AddEffectIs(s, e);
    GrewNone(s.cache);
    var (s', ret) := AddEntry(s, e);
    hide AddEntry, Holds, HasAlg, Asleep, Placed, Inv, CacheGrew;
    if !Refuses(s, e.key) && !Incomplete(e.key) && ret == 0 {
      if Asleep(s.pwr, e.key) {
        PlacedHolds(s.cache, s'.cache, Entry(e.key, 0, e.publicPort, 0, e.dstNat, false, 0));
      } else {
        var h :| h !in s.hw.rules && Placed(s.cache, s'.cache, Entry(e.key, 0, e.publicPort, 0, e.dstNat, true, h));
        PlacedHolds(s.cache, s'.cache, Entry(e.key, 0, e.publicPort, 0, e.dstNat, true, h));
      }
    }
  }

  lemma FlushSlotIs(s: State, ip: Ip, add: bool, dummy: bool, i: nat)
    requires Inv(s) && i < |s.temp|
    ensures var s1 := FlushSlot(s, ip, add, dummy, i);
            && FlushGrew(s, s1) && s1.temp == s.temp[i := s1.temp[i]] && FlushOutcome(s, s1, ip, add, dummy, i, i)
            && (forall k :: Holds(s1.cache, k) ==> Holds(s.cache, k) || (Names(s.temp[i], ip) && k == Handed(s.temp[i], dummy).key))
  {
    var t1 := Handed(s.temp[i], dummy);
    HandedIs(s.temp[i], dummy);
    var s0 := s.(temp := s.temp[i := t1]);
    SideArrays(s, s0.temp, s.pwr);
    hide AddEntry, Holds, HasAlg, Inv, Incomplete, CacheGrew, Carries;
    GrewNone(s.cache);
    AddHolds(s0, t1);
  }

  lemma OutcomeLater(s: State, s1: State, s': State, ip: Ip, add: bool, dummy: bool, i: nat, j: nat)
    requires i < j < |s.temp| == |s1.temp| == |s'.temp| && s1.temp == s.temp[i := s1.temp[i]]
    requires FlushGrew(s, s1) && FlushOutcome(s1, s', ip, add, dummy, i + 1, j)
    requires forall k :: Holds(s1.cache, k) ==> Holds(s.cache, k) || (Names(s.temp[i], ip) && k == Handed(s.temp[i], dummy).key)
    ensures FlushOutcome(s, s', ip, add, dummy, i, j)
  {
    hide Holds, HasAlg, Incomplete, Names, Handed, CacheGrew, Carries;
    var k := Handed(s.temp[j], dummy).key;
    if Before(s1, ip, dummy, i + 1, j, k) && !Holds(s1.cache, k) {
      var p :| i + 1 <= p < j && Names(s1.temp[p], ip) && Handed(s1.temp[p], dummy).key == k;
      assert s.temp[p] == s1.temp[p];
    }
  }

  lemma OutcomeNow(s: State, s1: State, s': State, ip: Ip, add: bool, dummy: bool, i: nat)
    requires i < |s.temp| == |s1.temp| == |s'.temp| && s'.temp[i] == s1.temp[i]
    requires FlushGrew(s1, s') && FlushOutcome(s, s1, ip, add, dummy, i, i)
    ensures FlushOutcome(s, s', ip, add, dummy, i, i)
  {
    var o := Handed(s.temp[i], dummy);
    if Carries(s1.cache, o) && !Incomplete(o.key) { CarriesOn(s1.cache, s'.cache, o); }
    hide Holds, HasAlg, Names, Handed, CacheGrew, Carries;
  }

  lemma {:induction false} FlushIs(s: State, ip: Ip, add: bool, dummy: bool, i: nat)
    requires Inv(s) && i <= |s.temp|
    ensures var s' := FlushFrom(s, ip, add, dummy, i);
            && FlushGrew(s, s') && |s'.temp| == |s.temp| && (forall j :: 0 <= j < i ==> s'.temp[j] == s.temp[j])
            && forall j :: i <= j < |s.temp| ==> FlushOutcome(s, s', ip, add, dummy, i, j)
    decreases |s.temp| - i
  {
    GrewNone(s.cache);
    if i == |s.temp| { return; }
    FlushSlotInv(s, ip, add, dummy, i);
    FlushSlotIs(s, ip, add, dummy, i);
    hide FlushSlot, FlushOutcome, FlushGrew, Inv, Holds, Names, Handed;
    var s1 := FlushSlot(s, ip, add, dummy, i);
    FlushIs(s1, ip, add, dummy, i + 1);
    var s' := FlushFrom(s1, ip, add, dummy, i + 1);
    GrewTwice(s, s1, s');
    OutcomeNow(s, s1, s', ip, add, dummy, i);
    forall j | i < j < |s.temp| ensures FlushOutcome(s, s', ip, add, dummy, i, j) {
      OutcomeLater(s, s1, s', ip, add, dummy, i, j);
    }
  }

  lemma GrewTwice(s: State, s1: State, s2: State)
    requires FlushGrew(s, s1) && FlushGrew(s1, s2)
    ensures FlushGrew(s, s2)
  {
    Grew(s.cache, s1.cache, s2.cache);
    hide Holds, CacheGrew;
  }
}
