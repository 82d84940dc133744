/** The Ethernet clients of a LAN interface (IPACM_Lan.cpp): an array of records, compacted in
    place when a client leaves, that stands for a sequence of clients. */
module EthClients {
  import opened Driver

  const MAX_ETH_CLIENTS: nat := 15
  const IPV6_NUM_ADDR: nat := 3

  /** The routing handles of one tx property. */
  datatype RtHdl = RtHdl(v4: Handle, v6: seq<Handle>, wan: seq<Handle>)

  /** ipa_eth_client: `v6` holds IPV6_NUM_ADDR addresses of which `v6Set` are in use, and the
      first `rt6Set` of them have routing rules. */
  datatype Slot = Slot(
    mac: nat,
    hdr4: Handle, hdr6: Handle, hdr4Set: bool, hdr6Set: bool,
    v4: nat, v4Set: bool, v6: seq<nat>, v6Set: nat,
    rt4Set: bool, rt6Set: nat, rt: seq<RtHdl>)

  /** What a record says: only the parts in use. */
  datatype Client = Client(
    mac: nat,
    hdr4: Handle, hdr6: Handle, hdr4Set: bool, hdr6Set: bool,
    v4: nat, v4Set: bool, v6: seq<nat>,
    rt4Set: bool, rt4: seq<Handle>, rt6: seq<seq<Handle>>, wan6: seq<seq<Handle>>)

  /** A record's bounds, for an interface with n tx properties. */
  predicate Sized(s: Slot, n: nat) {
    && |s.v6| == IPV6_NUM_ADDR && s.rt6Set <= s.v6Set <= IPV6_NUM_ADDR
    && |s.rt| == n
    && forall t :: 0 <= t < n ==> |s.rt[t].v6| == IPV6_NUM_ADDR && |s.rt[t].wan| == IPV6_NUM_ADDR
  }

  function Meaning(s: Slot, n: nat): Client
    requires Sized(s, n)
  {
    Client(s.mac, s.hdr4, s.hdr6, s.hdr4Set, s.hdr6Set, s.v4, s.v4Set, s.v6[..s.v6Set], s.rt4Set,
           seq(n, t requires 0 <= t < n => s.rt[t].v4),
           seq(n, t requires 0 <= t < n => s.rt[t].v6[..s.rt6Set]),
           seq(n, t requires 0 <= t < n => s.rt[t].wan[..s.rt6Set]))
  }

  /** The first n elements of b, then what a had. */
  function Over<T>(a: seq<T>, b: seq<T>, n: nat): (r: seq<T>)
    requires n <= |a| == |b|
    ensures |r| == |a| && r[..n] == b[..n]
  {
    b[..n] + a[n..]
  }

  /** One round of the compaction: the fields are copied, the v6 addresses up to the source's
      count, and the v6 handles up to its rule count. */
  function CopyOver(a: Slot, b: Slot, n: nat): (r: Slot)
    requires Sized(a, n) && Sized(b, n)
    ensures Sized(r, n) && Meaning(r, n) == Meaning(b, n)
  {
    var r := Slot(b.mac, b.hdr4, b.hdr6, b.hdr4Set, b.hdr6Set, b.v4, b.v4Set, Over(a.v6, b.v6, b.v6Set), b.v6Set,
                  b.rt4Set, b.rt6Set,
                  seq(n, t requires 0 <= t < n =>
                    RtHdl(b.rt[t].v4, Over(a.rt[t].v6, b.rt[t].v6, b.rt6Set), Over(a.rt[t].wan, b.rt[t].wan, b.rt6Set))));
    assert Meaning(r, n).rt6 == Meaning(b, n).rt6;
    assert Meaning(r, n).wan6 == Meaning(b, n).wan6;
    r
  }

  // ---- The clients as a sequence -----------------------------------------------------------

  predicate Distinct(cs: seq<Client>) {
    |cs| <= MAX_ETH_CLIENTS && forall i, j :: 0 <= i < j < |cs| ==> cs[i].mac != cs[j].mac
  }

  function IndexOf(cs: seq<Client>, mac: nat): (i: nat)
    ensures i <= |cs| && (i < |cs| ==> cs[i].mac == mac)
    ensures forall j :: 0 <= j < i ==> cs[j].mac != mac
  {
    if cs == [] || cs[0].mac == mac then 0 else 1 + IndexOf(cs[1..], mac)
  }

  function Without(cs: seq<Client>, i: nat): seq<Client>
    requires i < |cs|
  {
    cs[..i] + cs[i + 1..]
  }

  lemma DistinctWithout(cs: seq<Client>, i: nat)
    requires Distinct(cs) && i < |cs|
    ensures Distinct(Without(cs, i))
  {
  }

  lemma {:induction false} NotThere(cs: seq<Client>, mac: nat)
    requires forall j :: 0 <= j < |cs| ==> cs[j].mac != mac
    ensures IndexOf(cs, mac) == |cs|
  {
    if cs != [] { NotThere(cs[1..], mac); }
  }

  /** Removing a client leaves every other one as it was. */
  lemma WithoutKeeps(cs: seq<Client>, mac: nat)
    requires Distinct(cs) && IndexOf(cs, mac) < |cs|
    ensures var r := Without(cs, IndexOf(cs, mac));
            && Distinct(r) && IndexOf(r, mac) == |r| == |cs| - 1
            && forall c :: c in cs && c.mac != mac ==> c in r
  {
    var i := IndexOf(cs, mac);
    var r := Without(cs, i);
    DistinctWithout(cs, i);
    assert forall j :: 0 <= j < |cs| && j != i ==> cs[j].mac != mac;
    hide Distinct, IndexOf, Without;
    WithoutOthers(cs, i, mac);
    NotThere(r, mac);
  }

  lemma WithoutOthers(cs: seq<Client>, i: nat, mac: nat)
    requires i < |cs| && cs[i].mac == mac && forall j :: 0 <= j < |cs| && j != i ==> cs[j].mac != mac
    ensures var r := Without(cs, i);
            && |r| == |cs| - 1
            && (forall c :: c in cs && c.mac != mac ==> c in r)
            && forall j :: 0 <= j < |r| ==> r[j].mac != mac
  {
    var r := Without(cs, i);
    forall c | c in cs && c.mac != mac ensures c in r {
      var j :| 0 <= j < |cs| && cs[j] == c;
      assert r[if j < i then j else j - 1] == c;
    }
    forall j | 0 <= j < |r| ensures r[j].mac != mac {
      assert r[j] == cs[if j < i then j else j + 1];
    }
  }

  function Meanings(ss: seq<Slot>, n: nat): (cs: seq<Client>)
    requires forall i :: 0 <= i < |ss| ==> Sized(ss[i], n)
    ensures |cs| == |ss| && forall i :: 0 <= i < |cs| ==> cs[i] == Meaning(ss[i], n)
  {
    if ss == [] then [] else [Meaning(ss[0], n)] + Meanings(ss[1..], n)
  }

  // ---- The array -----------------------------------------------------------------------------

  /** How the hardware answers a client's removal, call by call. */
  datatype Removal = Removal(routes4: bool, routes6: bool, header4: bool, header6: bool)

  class EthTable {
    const slots: array<Slot>
    /** The number of tx properties, which of them are for IPv6, and whether there are any. */
    const tx: nat
    const isV6: seq<bool>
    const hasTx: bool
    var num: nat

    ghost predicate InBounds()
      reads this, slots
    {
      && slots.Length == MAX_ETH_CLIENTS && num <= slots.Length && |isV6| == tx
      && forall i :: 0 <= i < slots.Length ==> Sized(slots[i], tx)
    }

    ghost function Contents(): seq<Client>
      requires InBounds()
      reads this, slots
    {
      Meanings(slots[..num], tx)
    }

    ghost predicate Valid()
      reads this, slots
    {
      InBounds() && Distinct(Contents())
    }

    constructor (isV6: seq<bool>, hasTx: bool)
      ensures Valid() && fresh(slots) && this.isV6 == isV6 && this.hasTx == hasTx && Contents() == []
    {
      var tx := |isV6|;
      this.tx, this.isV6, this.hasTx, num := tx, isV6, hasTx, 0;
      slots := new Slot[MAX_ETH_CLIENTS](_ =>
        Slot(0, 0, 0, false, false, 0, false, [0, 0, 0], 0, false, 0, seq(tx, _ => RtHdl(0, [0, 0, 0], [0, 0, 0]))));
    }

    /** get_eth_client_index */
    method Find(mac: nat) returns (i: nat)
      requires Valid()
      ensures i == IndexOf(Contents(), mac)
    {
      ghost var cs := Contents();
      i := 0;
      while i < num && slots[i].mac != mac
        invariant i <= num && i + IndexOf(cs[i..], mac) == IndexOf(cs, mac)
      {
        assert cs[i..][1..] == cs[i + 1..] && cs[i].mac == slots[i].mac;
        i := i + 1;
      }
      assert i < num ==> cs[i..][0].mac == slots[i].mac;
    }

    /** What one record's overwriting means for the sequence. */
    method Write(i: nat, s: Slot)
      requires InBounds() && i < slots.Length && Sized(s, tx)
      modifies slots
      ensures InBounds() && slots[..] == old(slots[..])[i := s]
      ensures Contents() == if i < num then old(Contents())[i := Meaning(s, tx)] else old(Contents())
    {
      slots[i] := s;
      hide Sized, Meaning;
    }

    lemma Record(i: nat)
      requires InBounds() && i < slots.Length
      ensures Sized(slots[i], tx) && |Contents()| == num
      ensures i < num ==> Contents()[i] == Meaning(slots[i], tx)
    {
      hide Sized, Meaning;
    }

    /** handle_eth_hdr_init: a known or a sixteenth client is refused; `a4` and `a6` are the
        answers to the header adds, made when there is a tx property of the family.  An interface
        without tx properties reports success and counts nobody. */
    method HdrInit(mac: nat, a4: Option<Handle>, a6: Option<Handle>) returns (ok: bool)
      requires Valid()
      modifies this, slots
      ensures Valid()
      ensures !ok || !hasTx ==> Contents() == old(Contents())
      ensures ok <==> && IndexOf(old(Contents()), mac) == |old(Contents())| && |old(Contents())| < MAX_ETH_CLIENTS
                      && (hasTx ==> (false in isV6 ==> a4.Some?) && (true in isV6 ==> a6.Some?))
      ensures ok && hasTx ==> exists c: Client :: Contents() == old(Contents()) + [c] && IsNew(c, mac, isV6, a4, a6)
    {
      hide Sized, Meaning;
      ghost var cs := Contents();
      var i := Find(mac);
      Bounds();
      if i < num || num >= MAX_ETH_CLIENTS { return false; }
      if !hasTx {
        Record(num);
        Rewrite(slots[num].(mac := mac));
        return true;
      }
      var tx4, tx6 := false in isV6, true in isV6;
      ok := PutHeaders(mac, tx4, tx6, a4, a6);
      if !ok { return; }
      var s := slots[num];
      Record(num);
      FreshMeaning(s, tx, isV6, a4, a6);
      Write(num, s.(rt4Set := false, rt6Set := 0, v4Set := false, v6Set := 0));
      Prefix(num + 1);
      num := num + 1;
      NewMac(cs, Contents()[num - 1]);
    }

    /** The first free record takes the MAC and the headers the hardware accepts. */
    method PutHeaders(mac: nat, tx4: bool, tx6: bool, a4: Option<Handle>, a6: Option<Handle>) returns (ok: bool)
      requires Valid() && num < slots.Length
      modifies slots
      ensures Valid() && Contents() == old(Contents())
      ensures ok <==> (tx4 ==> a4.Some?) && (tx6 ==> a6.Some?)
      ensures ok ==> var s := slots[num];
                     && s.mac == mac
                     && (tx4 ==> s.hdr4Set && a4 == Some(s.hdr4)) && (tx6 ==> s.hdr6Set && a6 == Some(s.hdr6))
    {
      hide Sized, Meaning, Distinct;
      Record(num);
      var s := slots[num];
      Rewrite(s.(mac := mac));
      if tx4 {
        if a4.None? { return false; }
        Rewrite(slots[num].(hdr4 := a4.value, hdr4Set := true));
      }
      if tx6 {
        if a6.None? { return false; }
        Rewrite(slots[num].(hdr6 := a6.value, hdr6Set := true));
      }
      ok := true;
    }

    /** Rewrite the first free record without touching its arrays. */
    method Rewrite(s: Slot)
      requires Valid() && num < slots.Length
      requires s.v6 == slots[num].v6 && s.v6Set == slots[num].v6Set && s.rt6Set == slots[num].rt6Set && s.rt == slots[num].rt
      modifies slots
      ensures Valid() && Contents() == old(Contents()) && slots[num] == s
    {
      hide Sized, Meaning, Distinct;
      Record(num);
      SameSize(slots[num], s, tx);
      Write(num, s);
      assert slots[..][num] == slots[num];
    }

    lemma Bounds()
      requires Valid()
      ensures |Contents()| == num <= slots.Length == MAX_ETH_CLIENTS
    {
    }

    lemma Prefix(n: nat)
      requires InBounds() && 0 < n <= slots.Length
      ensures Meanings(slots[..n], tx) == Meanings(slots[..n - 1], tx) + [Meaning(slots[n - 1], tx)]
    {
      hide Meaning, Sized;
      assert slots[..n] == slots[..n - 1] + [slots[n - 1]];
    }

    /** The v6 half of handle_eth_client_ipaddr: a fourth or a known address is refused, the zero
        address passes without being stored. */
    method AddV6(mac: nat, addr: nat) returns (ok: bool)
      requires Valid()
      modifies slots
      ensures Valid()
      ensures var cs, i := old(Contents()), IndexOf(old(Contents()), mac);
              && (ok <==> i < |cs| && (addr == 0 || (addr !in cs[i].v6 && |cs[i].v6| < IPV6_NUM_ADDR)))
              && Contents() == if ok && addr != 0 then cs[i := cs[i].(v6 := cs[i].v6 + [addr])] else cs
    {
      hide Meaning;
      var i := Find(mac);
      Bounds();
      if i == num { return false; }
      if addr == 0 { return true; }
      Record(i);
      var s := slots[i];
      V6Of(s, tx);
      if s.v6Set == IPV6_NUM_ADDR { return false; }
      var n := 0;
      while n < s.v6Set
        invariant n <= s.v6Set && addr !in s.v6[..n]
      {
        if s.v6[n] == addr {
          assert s.v6[..s.v6Set][n] == addr;
          return false;
        }
        n := n + 1;
      }
      V6Meaning(s, tx, addr);
      SameMac(Contents(), i, Meaning(s, tx).(v6 := s.v6[..s.v6Set] + [addr]));
      Write(i, s.(v6 := s.v6[s.v6Set := addr], v6Set := s.v6Set + 1));
      ok := true;
    }

    /** The LAN and the WAN rule of each new address for one tx property; the first refusal ends
        it. */
    method AddRules(h0: RtHdl, t: nat, from: nat, to: nat, lan: (nat, nat) -> Option<Handle>, wan: (nat, nat) -> Option<Handle>)
      returns (h: RtHdl, ok: bool)
      requires |h0.v6| == |h0.wan| == IPV6_NUM_ADDR && from <= to <= IPV6_NUM_ADDR
      ensures Keeps(h0, h, from)
      ensures ok <==> Accepted(t, from, to, lan, wan)
      ensures ok ==> Filled(h, t, from, to, lan, wan)
    {
      h := h0;
      var k := from;
      while k < to
        invariant from <= k <= to && Keeps(h0, h, from) && Filled(h, t, from, k, lan, wan)
      {
        if lan(t, k).None? { return h, false; }
        h := h.(v6 := h.v6[k := lan(t, k).value]);
        if wan(t, k).None? { return h, false; }
        h := h.(wan := h.wan[k := wan(t, k).value]);
        k := k + 1;
      }
      ok := true;
    }

    /** The rules for one record, v6 tx property by v6 tx property. */
    method AddAllRules(s: Slot, lan: (nat, nat) -> Option<Handle>, wan: (nat, nat) -> Option<Handle>)
      returns (rt: seq<RtHdl>, ok: bool)
      requires Sized(s, tx) && |isV6| == tx
      ensures |rt| == tx && forall t :: 0 <= t < tx ==> Keeps(s.rt[t], rt[t], s.rt6Set)
      ensures ok <==> forall t :: 0 <= t < tx && isV6[t] ==> Accepted(t, s.rt6Set, s.v6Set, lan, wan)
      ensures ok ==> forall t :: 0 <= t < tx && isV6[t] ==> Filled(rt[t], t, s.rt6Set, s.v6Set, lan, wan)
    {
      RtOf(s, tx);
      hide Keeps, Accepted, Filled;
      var t := 0;
      rt := s.rt;
      while t < tx
        invariant t <= tx && |rt| == tx
        invariant forall u :: 0 <= u < tx ==> Keeps(s.rt[u], rt[u], s.rt6Set)
        invariant forall u :: t <= u < tx ==> rt[u] == s.rt[u]
        invariant forall u :: 0 <= u < t && isV6[u] ==>
                    Filled(rt[u], u, s.rt6Set, s.v6Set, lan, wan) && Accepted(u, s.rt6Set, s.v6Set, lan, wan)
      {
        if isV6[t] {
          var h, done := AddRules(s.rt[t], t, s.rt6Set, s.v6Set, lan, wan);
          rt := rt[t := h];
          if !done { return rt, false; }
        }
        t := t + 1;
      }
      ok := true;
    }

    /** The v6 half of handle_eth_client_route_rule: each new address gets a LAN and a WAN rule per
        v6 tx property; `lan` and `wan` are the hardware's answers.  A refused rule leaves the
        client as it was: handles noted by then do not count. */
    method AddRoutes6(mac: nat, lan: (nat, nat) -> Option<Handle>, wan: (nat, nat) -> Option<Handle>) returns (ok: bool)
      requires Valid()
      modifies slots
      ensures Valid()
      ensures var cs, i := old(Contents()), IndexOf(old(Contents()), mac);
              if !hasTx || i == |cs| then ok && Contents() == cs
              else
                && (ok <==> AllAccepted(cs[i], isV6, lan, wan))
                && (!ok ==> Contents() == cs)
                && (ok ==> Elsewhere(cs, Contents(), i) && RoutedClient(cs[i], Contents()[i], isV6, lan, wan))
    {
      if !hasTx { return true; }
      hide Meaning, Meanings, Sized, RoutedClient, AllAccepted, Accepted, Filled, Keeps, Elsewhere, Distinct;
      var i := Find(mac);
      Bounds();
      if i == num { return true; }
      Record(i);
      var s := slots[i];
      ghost var cs := Contents();
      var rt;
      rt, ok := AddAllRules(s, lan, wan);
      AcceptedMeaning(s, isV6, lan, wan);
      if ok {
        var s' := s.(rt := rt, rt6Set := s.v6Set);
        RoutesMeaning(s, s', isV6, lan, wan);
        SameMac(cs, i, Meaning(s', tx));
        SetElsewhere(cs, i, Meaning(s', tx));
        Write(i, s');
      } else {
        PartMeaning(s, s.(rt := rt), tx);
        Write(i, s.(rt := rt));
        assert cs[i := cs[i]] == cs;
      }
    }

    /** handle_eth_client_down_evt's loop: every later record moves one place down. */
    method ShiftDown(from: nat)
      requires InBounds() && from < num
      modifies slots
      ensures InBounds() && |Contents()| == num
      ensures forall j :: 0 <= j < num - 1 ==> Contents()[j] == old(Contents())[if j < from then j else j + 1]
    {
      hide Meaning, Sized, CopyOver, Meanings;
      ghost var cs := Contents();
      var i := from;
      while i < num - 1
        invariant from <= i <= num - 1 && InBounds() && |Contents()| == num
        invariant forall j :: 0 <= j < i ==> Contents()[j] == cs[if j < from then j else j + 1]
        invariant forall j :: i < j < num ==> Contents()[j] == cs[j]
      {
        Record(i);
        Record(i + 1);
        Write(i, CopyOver(slots[i], slots[i + 1], tx));
        i := i + 1;
      }
    }

    method Compact(from: nat)
      requires Valid() && from < num
      modifies this, slots
      ensures Valid() && Contents() == Without(old(Contents()), from)
    {
      hide Meaning, Sized, Meanings;
      ghost var cs := Contents();
      Bounds();
      ShiftDown(from);
      Prefix(num);
      ghost var shifted := Contents();
      num := num - 1;
      assert Contents() == shifted[..num];
      assert Contents() == Without(cs, from);
      DistinctWithout(cs, from);
    }

    /** handle_eth_client_down_evt: an unknown client is no error, a refused delete ends the
        removal and leaves every client in place. */
    method ClientDown(mac: nat, r: Removal) returns (ok: bool)
      requires Valid()
      modifies this, slots
      ensures Valid()
      ensures var cs, i := old(Contents()), IndexOf(old(Contents()), mac);
              if i == |cs| then ok && Contents() == cs
              else
                && (ok <==> Removable(cs[i], isV6, r))
                && (ok ==> Contents() == Without(cs, i))
                && (!ok ==> Elsewhere(cs, Contents(), i) && Contents()[i].mac == mac)
    {
      hide Meaning, Elsewhere, Distinct, Meanings, Without, Removable, Sized;
      ghost var cs := Contents();
      var i := Find(mac);
      Bounds();
      if i == num { return true; }
      ok := DeleteRules(i, r);
      if ok {
        ElsewhereWithout(cs, Contents(), i);
        Compact(i);
      }
    }

    /** The deletes, one kind after the other up to the first refusal, and the final resets. */
    method DeleteRules(i: nat, r: Removal) returns (ok: bool)
      requires Valid() && i < |Contents()|
      modifies slots
      ensures Valid() && |Contents()| == |old(Contents())| == num
      ensures Elsewhere(old(Contents()), Contents(), i) && Contents()[i].mac == old(Contents())[i].mac
      ensures ok <==> Removable(old(Contents())[i], isV6, r)
    {
      hide Meaning, Elsewhere, Distinct, Meanings, Removable;
      ghost var cs := Contents();
      Bounds();
      Record(i);
      var s := slots[i];
      RemovableMeaning(s, isV6, r);
      SameElsewhere(cs, i);
      ok := false;
      if false in isV6 && s.rt4Set && !r.routes4 { return; }
      s := s.(rt4Set := false);
      Update(i, s, cs);
      if true in isV6 && s.rt6Set != 0 && !r.routes6 { return; }
      s := s.(rt6Set := 0);
      Update(i, s, cs);
      if s.hdr4Set {
        if !r.header4 { return; }
        s := s.(hdr4Set := false);
        Update(i, s, cs);
      }
      if s.hdr6Set {
        if !r.header6 { return; }
        s := s.(hdr6Set := false);
        Update(i, s, cs);
      }
      Update(i, s.(v4Set := false, v6Set := 0), cs);
      ok := true;
    }

    /** Rewrite a record under the same MAC. */
    method Update(i: nat, s: Slot, ghost cs: seq<Client>)
      requires Valid() && i < num && Sized(s, tx) && s.mac == Contents()[i].mac && Elsewhere(cs, Contents(), i)
      modifies slots
      ensures Valid() && |Contents()| == num && Elsewhere(cs, Contents(), i) && Contents()[i].mac == s.mac
    {
      Bounds();
      MacMeaning(s, tx);
      SameMac(Contents(), i, Meaning(s, tx));
      hide Meaning, Sized;
      Write(i, s);
    }
  }

  /** Handles below `from`, and the v4 handle, are kept. */
  predicate Keeps(h: RtHdl, h': RtHdl, from: nat) {
    && |h.v6| == |h.wan| == |h'.v6| == |h'.wan| == IPV6_NUM_ADDR && from <= IPV6_NUM_ADDR
    && h'.v4 == h.v4 && h'.v6[..from] == h.v6[..from] && h'.wan[..from] == h.wan[..from]
  }

  predicate Accepted(t: nat, from: nat, to: nat, lan: (nat, nat) -> Option<Handle>, wan: (nat, nat) -> Option<Handle>) {
    forall k :: from <= k < to ==> lan(t, k).Some? && wan(t, k).Some?
  }

  predicate Filled(h: RtHdl, t: nat, from: nat, to: nat, lan: (nat, nat) -> Option<Handle>, wan: (nat, nat) -> Option<Handle>) {
    && to <= |h.v6| && to <= |h.wan|
    && forall k :: from <= k < to ==> lan(t, k) == Some(h.v6[k]) && wan(t, k) == Some(h.wan[k])
  }

  /** Handles kept for the addresses that had rules, the hardware's new ones for the rest. */
  predicate Extends(a: seq<Handle>, b: seq<Handle>, n: nat, isV6: bool, t: nat, h: (nat, nat) -> Option<Handle>) {
    && |a| <= |b| == n && b[..|a|] == a
    && (isV6 ==> forall k :: |a| <= k < n ==> h(t, k) == Some(b[k]))
  }

  predicate Routed(c: Client, c': Client, isV6: bool, t: nat, lan: (nat, nat) -> Option<Handle>, wan: (nat, nat) -> Option<Handle>) {
    && t < |c.rt6| && t < |c'.rt6| && t < |c.wan6| && t < |c'.wan6|
    && Extends(c.rt6[t], c'.rt6[t], |c.v6|, isV6, t, lan)
    && Extends(c.wan6[t], c'.wan6[t], |c.v6|, isV6, t, wan)
  }

  predicate AllAccepted(c: Client, isV6: seq<bool>, lan: (nat, nat) -> Option<Handle>, wan: (nat, nat) -> Option<Handle>) {
    forall t :: 0 <= t < |isV6| && t < |c.rt6| && isV6[t] ==> Accepted(t, |c.rt6[t]|, |c.v6|, lan, wan)
  }

  /** Only the v6 routing handles of c changed, each list as Routed says. */
  predicate RoutedClient(c: Client, c': Client, isV6: seq<bool>, lan: (nat, nat) -> Option<Handle>, wan: (nat, nat) -> Option<Handle>) {
    && c' == c.(rt6 := c'.rt6, wan6 := c'.wan6)
    && forall t :: 0 <= t < |isV6| ==> Routed(c, c', isV6[t], t, lan, wan)
  }

  lemma AcceptedMeaning(s: Slot, isV6: seq<bool>, lan: (nat, nat) -> Option<Handle>, wan: (nat, nat) -> Option<Handle>)
    requires Sized(s, |isV6|)
    ensures AllAccepted(Meaning(s, |isV6|), isV6, lan, wan)
       <==> forall t :: 0 <= t < |isV6| && isV6[t] ==> Accepted(t, s.rt6Set, s.v6Set, lan, wan)
  {
    RtOf(s, |isV6|);
    hide Accepted;
    forall t | 0 <= t < |isV6|
      ensures Accepted(t, |Meaning(s, |isV6|).rt6[t]|, |Meaning(s, |isV6|).v6|, lan, wan) == Accepted(t, s.rt6Set, s.v6Set, lan, wan)
    {
    }
  }

  predicate HasRoutes6(c: Client, isV6: seq<bool>) {
    exists t :: 0 <= t < |c.rt6| && t < |isV6| && isV6[t] && c.rt6[t] != []
  }

  /** The hardware carries out every delete that the client's removal needs. */
  predicate Removable(c: Client, isV6: seq<bool>, r: Removal) {
    && (false in isV6 && c.rt4Set ==> r.routes4) && (HasRoutes6(c, isV6) ==> r.routes6)
    && (c.hdr4Set ==> r.header4) && (c.hdr6Set ==> r.header6)
  }

  lemma RtOf(s: Slot, n: nat)
    requires Sized(s, n)
    ensures forall t :: 0 <= t < n ==> Keeps(s.rt[t], s.rt[t], s.rt6Set)
    ensures Meaning(s, n).v6 == s.v6[..s.v6Set] && |Meaning(s, n).rt6| == n
    ensures forall t :: 0 <= t < n ==> |Meaning(s, n).rt6[t]| == s.rt6Set
  {
  }

  /** Handles noted beyond those in use mean nothing. */
  lemma PartMeaning(s: Slot, s': Slot, n: nat)
    requires Sized(s, n) && s' == s.(rt := s'.rt) && |s'.rt| == n
    requires forall t :: 0 <= t < n ==> Keeps(s.rt[t], s'.rt[t], s.rt6Set)
    ensures Sized(s', n) && Meaning(s', n) == Meaning(s, n)
  {
    assert Meaning(s', n).rt4 == Meaning(s, n).rt4;
    assert Meaning(s', n).rt6 == Meaning(s, n).rt6;
    assert Meaning(s', n).wan6 == Meaning(s, n).wan6;
  }

  lemma RoutesMeaning(s: Slot, s': Slot, isV6: seq<bool>, lan: (nat, nat) -> Option<Handle>, wan: (nat, nat) -> Option<Handle>)
    requires Sized(s, |isV6|) && s' == s.(rt := s'.rt, rt6Set := s.v6Set) && |s'.rt| == |isV6|
    requires forall t :: 0 <= t < |isV6| ==> Keeps(s.rt[t], s'.rt[t], s.rt6Set)
    requires forall t :: 0 <= t < |isV6| && isV6[t] ==> Filled(s'.rt[t], t, s.rt6Set, s.v6Set, lan, wan)
    ensures Sized(s', |isV6|)
    ensures var c, c' := Meaning(s, |isV6|), Meaning(s', |isV6|);
            RoutedClient(c, c', isV6, lan, wan) && c'.mac == c.mac
  {
    var n := |isV6|;
    assert Meaning(s', n).rt4 == Meaning(s, n).rt4;
    forall t | 0 <= t < n ensures Routed(Meaning(s, n), Meaning(s', n), isV6[t], t, lan, wan) {
      RoutedAt(s, s', n, isV6[t], t, lan, wan);
    }
  }

  lemma RoutedAt(s: Slot, s': Slot, n: nat, isV6: bool, t: nat, lan: (nat, nat) -> Option<Handle>, wan: (nat, nat) -> Option<Handle>)
    requires Sized(s, n) && Sized(s', n) && s'.rt6Set == s.v6Set && t < n && Keeps(s.rt[t], s'.rt[t], s.rt6Set)
    requires isV6 ==> Filled(s'.rt[t], t, s.rt6Set, s.v6Set, lan, wan)
    ensures Routed(Meaning(s, n), Meaning(s', n), isV6, t, lan, wan)
  {
    var h, h' := s.rt[t], s'.rt[t];
    assert h'.v6[..s.v6Set][..s.rt6Set] == h'.v6[..s.rt6Set] && h'.wan[..s.v6Set][..s.rt6Set] == h'.wan[..s.rt6Set];
    var c, c' := Meaning(s, n), Meaning(s', n);
    assert c.rt6[t] == h.v6[..s.rt6Set] && c'.rt6[t] == h'.v6[..s.v6Set];
    assert c.wan6[t] == h.wan[..s.rt6Set] && c'.wan6[t] == h'.wan[..s.v6Set];
  }

  predicate Elsewhere(cs: seq<Client>, cs': seq<Client>, i: nat) {
    i < |cs| == |cs'| && forall j :: 0 <= j < |cs| && j != i ==> cs'[j] == cs[j]
  }

  lemma SameElsewhere(cs: seq<Client>, i: nat)
    requires i < |cs|
    ensures Elsewhere(cs, cs, i)
  {
  }

  lemma SetElsewhere(cs: seq<Client>, i: nat, c: Client)
    requires i < |cs|
    ensures Elsewhere(cs, cs[i := c], i)
  {
  }

  lemma ElsewhereWithout(cs: seq<Client>, cs': seq<Client>, i: nat)
    requires Elsewhere(cs, cs', i)
    ensures Without(cs', i) == Without(cs, i)
  {
  }

  lemma NewMac(cs: seq<Client>, c: Client)
    requires Distinct(cs) && |cs| < MAX_ETH_CLIENTS && IndexOf(cs, c.mac) == |cs|
    ensures Distinct(cs + [c])
  {
  }

  /** A client as handle_eth_hdr_init leaves it. */
  predicate IsNew(c: Client, mac: nat, isV6: seq<bool>, a4: Option<Handle>, a6: Option<Handle>) {
    && c.mac == mac && !c.v4Set && c.v6 == [] && !c.rt4Set
    && (false in isV6 ==> c.hdr4Set && a4 == Some(c.hdr4)) && (true in isV6 ==> c.hdr6Set && a6 == Some(c.hdr6))
  }

  lemma SameSize(s: Slot, s': Slot, n: nat)
    requires Sized(s, n) && s'.v6 == s.v6 && s'.v6Set == s.v6Set && s'.rt6Set == s.rt6Set && s'.rt == s.rt
    ensures Sized(s', n)
  {
  }

  lemma FreshMeaning(s: Slot, n: nat, isV6: seq<bool>, a4: Option<Handle>, a6: Option<Handle>)
    requires Sized(s, n)
    requires false in isV6 ==> s.hdr4Set && a4 == Some(s.hdr4)
    requires true in isV6 ==> s.hdr6Set && a6 == Some(s.hdr6)
    ensures var s' := s.(rt4Set := false, rt6Set := 0, v4Set := false, v6Set := 0);
            Sized(s', n) && IsNew(Meaning(s', n), s.mac, isV6, a4, a6)
  {
  }

  lemma V6Of(s: Slot, n: nat)
    requires Sized(s, n)
    ensures Meaning(s, n).v6 == s.v6[..s.v6Set]
  {
  }

  lemma V6Meaning(s: Slot, n: nat, addr: nat)
    requires Sized(s, n) && s.v6Set < IPV6_NUM_ADDR
    ensures var s' := s.(v6 := s.v6[s.v6Set := addr], v6Set := s.v6Set + 1);
            Sized(s', n) && Meaning(s', n) == Meaning(s, n).(v6 := s.v6[..s.v6Set] + [addr])
    ensures Meaning(s, n).v6 == s.v6[..s.v6Set]
  {
    var s' := s.(v6 := s.v6[s.v6Set := addr], v6Set := s.v6Set + 1);
    assert s'.v6[..s'.v6Set] == s.v6[..s.v6Set] + [addr];
  }

  lemma MacMeaning(s: Slot, n: nat)
    requires Sized(s, n)
    ensures Meaning(s, n).mac == s.mac
  {
  }

  lemma RemovableMeaning(s: Slot, isV6: seq<bool>, r: Removal)
    requires Sized(s, |isV6|)
    ensures var c := Meaning(s, |isV6|);
            && c.mac == s.mac
            && (Removable(c, isV6, r) <==>
                  && (false in isV6 && s.rt4Set ==> r.routes4) && (true in isV6 && s.rt6Set != 0 ==> r.routes6)
                  && (s.hdr4Set ==> r.header4) && (s.hdr6Set ==> r.header6))
  {
    var c := Meaning(s, |isV6|);
    if true in isV6 && s.rt6Set != 0 {
      var t :| 0 <= t < |isV6| && isV6[t];
      assert |c.rt6[t]| == s.rt6Set;
    }
  }

  lemma SameMac(cs: seq<Client>, i: nat, c: Client)
    requires Distinct(cs) && i < |cs| && c.mac == cs[i].mac
    ensures Distinct(cs[i := c])
  {
  }
}
