/** The LAN-to-LAN client table and its event handlers (IPACM_LanToLan.cpp).

    The source instantiates the same code for IPv4 and IPv6 tables; Key is the table's key.
    A client_info pointer is modelled by the key of the table entry it points to. */
module LanToLan {
  import opened Driver
  import opened LanRules

  type Key = int

  datatype Peer = Peer(ptr: Key, num: int)

  datatype Link = Link(ptr: Key, hs: Handles)

  datatype Client = Client(
    mac: nat,
    active: bool,
    powersave: bool,
    iface: IfaceId,
    peers: seq<Peer>,
    links: seq<Link>)

  /** `pairs` is the uint8_t num_offload_pair; `wild` records that a handler followed a pointer
      whose client was already erased, which is undefined in the source. */
  datatype State = State(
    clients: map<Key, Client>,
    pairs: nat,
    rules: Rules,
    wild: bool)

  datatype Event =
    | Active(k: Key, mac: nat, iface: IfaceId)
    | Inactive(k: Key)
    | Disconnect(k: Key)
    | PowerSave(k: Key)
    | PowerRecover(k: Key)
    | NewConn(src: Key, dst: Key)
    | DelConn(src: Key, dst: Key)
  {
    predicate IsPower() { PowerSave? || PowerRecover? }
  }

  // ---- Table projections ---------------------------------------------------------------

  /** Everything but the link lists. */
  function Shapes(cs: map<Key, Client>): map<Key, Client> {
    map k | k in cs :: cs[k].(links := [])
  }

  /** Everything but the peer lists. */
  function Bare(cs: map<Key, Client>): map<Key, Client> {
    map k | k in cs :: cs[k].(peers := [])
  }

  function PeersOf(cs: map<Key, Client>): map<Key, seq<Peer>> {
    map k | k in cs :: cs[k].peers
  }

  function SetLinks(cs: map<Key, Client>, k: Key, ls: seq<Link>): (r: map<Key, Client>)
    requires k in cs
    ensures Shapes(r) == Shapes(cs)
  {
    cs[k := cs[k].(links := ls)]
  }

  // ---- Peer lists ----------------------------------------------------------------------

  /** add_connection's scan of one peer list: count up the entry, or append one. */
  function AddPeer(ps: seq<Peer>, k: Key): seq<Peer> {
    if ps == [] then [Peer(k, 1)]
    else if ps[0].ptr == k then [ps[0].(num := ps[0].num + 1)] + ps[1..]
    else [ps[0]] + AddPeer(ps[1..], k)
  }

  /** remove_connection's scan of one peer list: count down the entry, drop it at zero. */
  function DropPeer(ps: seq<Peer>, k: Key): seq<Peer> {
    if ps == [] then []
    else if ps[0].ptr == k then
      if ps[0].num == 1 then ps[1..] else [ps[0].(num := ps[0].num - 1)] + ps[1..]
    else [ps[0]] + DropPeer(ps[1..], k)
  }

  /** clear_peer_list's erase in the peer's list. */
  function ErasePeer(ps: seq<Peer>, k: Key): seq<Peer> {
    if ps == [] then []
    else if ps[0].ptr == k then ps[1..]
    else [ps[0]] + ErasePeer(ps[1..], k)
  }

  /** The connection count of the first entry for k, 0 when there is none. */
  function Num(ps: seq<Peer>, k: Key): int {
    if ps == [] then 0 else if ps[0].ptr == k then ps[0].num else Num(ps[1..], k)
  }

  predicate HasPeer(ps: seq<Peer>, k: Key) {
    exists p :: p in ps && p.ptr == k
  }

  function SetPeers(cs: map<Key, Client>, k: Key, ps: seq<Peer>): (r: map<Key, Client>)
    requires k in cs
    ensures PeersOf(r) == PeersOf(cs)[k := ps]
    ensures Bare(r) == Bare(cs)
  {
    cs[k := cs[k].(peers := ps)]
  }

  function AddConnection(cs: map<Key, Client>, a: Key, b: Key): (r: (map<Key, Client>, bool))
    requires a in cs && b in cs
    ensures r.0.Keys == cs.Keys
    ensures Bare(r.0) == Bare(cs)
  {
    var cs1 := SetPeers(cs, a, AddPeer(cs[a].peers, b));
    var cs2 := SetPeers(cs1, b, AddPeer(cs1[b].peers, a));
    (cs2, !HasPeer(cs[a].peers, b) || !HasPeer(cs1[b].peers, a))
  }

  /** The flag says whether the destination's entry reached zero. */
  function RemoveConnection(cs: map<Key, Client>, a: Key, b: Key): (r: (map<Key, Client>, bool))
    requires a in cs && b in cs
    ensures r.0.Keys == cs.Keys
    ensures Bare(r.0) == Bare(cs)
  {
    var cs1 := SetPeers(cs, a, DropPeer(cs[a].peers, b));
    var cs2 := SetPeers(cs1, b, DropPeer(cs1[b].peers, a));
    (cs2, HasPeer(cs1[b].peers, a) && Num(cs1[b].peers, a) == 1)
  }

  /** One round of clear_peer_list: false when the reverse entry is missing. */
  function ClearOne(s: State, a: Key, p: Peer): (r: (State, bool))
    requires a in s.clients
    ensures r.0.clients.Keys == s.clients.Keys
    ensures Bare(r.0.clients) == Bare(s.clients)
    ensures r.0.rules == s.rules && r.0.pairs == s.pairs
  {
    var b := p.ptr;
    if b !in s.clients then (s.(wild := true), false)
    else if !HasPeer(s.clients[b].peers, a) then (s, false)
    else (s.(clients := SetPeers(s.clients, b, ErasePeer(s.clients[b].peers, a))), true)
  }

  /** clear_peer_list: the loop over the client's own list, then the clear. */
  function ClearPeers(s: State, a: Key, todo: seq<Peer>): (r: (State, bool))
    requires a in s.clients
    ensures r.0.clients.Keys == s.clients.Keys
    ensures Bare(r.0.clients) == Bare(s.clients)
    ensures r.0.rules == s.rules && r.0.pairs == s.pairs
    decreases |todo|
  {
    if todo == [] then (s.(clients := SetPeers(s.clients, a, [])), true)
    else
      var (s1, ok) := ClearOne(s, a, todo[0]);
      if ok then ClearPeers(s1, a, todo[1..]) else (s1, false)
  }

  // ---- Link lists ----------------------------------------------------------------------

  function FindLink(ls: seq<Link>, k: Key): (i: nat)
    ensures i <= |ls|
    ensures i < |ls| ==> ls[i].ptr == k
    ensures forall j :: 0 <= j < i ==> ls[j].ptr != k
  {
    if ls == [] || ls[0].ptr == k then 0 else 1 + FindLink(ls[1..], k)
  }

  function RemoveAt(ls: seq<Link>, i: nat): seq<Link>
    requires i < |ls|
  {
    ls[..i] + ls[i + 1..]
  }

  /** add_offload_link: false when the cap is reached or a rule call fails. */
  function AddLink(s: State, a: Key, b: Key): (r: (State, bool))
    requires a in s.clients && b in s.clients
    ensures Shapes(r.0.clients) == Shapes(s.clients)
    ensures r.0.clients.Keys == s.clients.Keys
    ensures Later(s.rules, r.0.rules)
    ensures r.0.pairs == s.pairs && r.0.wild == s.wild
  {
    if s.pairs >= MAX_OFFLOAD_PAIR then (s, false)
    else
      var (rules, hs) := Install(s.rules, s.clients[a].iface, s.clients[b].iface);
      if hs.None? then (s.(rules := rules), false)
      else
        (s.(rules := rules, clients := SetLinks(s.clients, a, s.clients[a].links + [Link(b, hs.value)])), true)
  }

  /** Both directions of a pair, as check_potential_link adds them: the first call's result is
      overwritten by the second's. */
  function LinkBoth(s: State, a: Key, b: Key): (r: State)
    requires a in s.clients && b in s.clients
    ensures Shapes(r.clients) == Shapes(s.clients)
    ensures r.clients.Keys == s.clients.Keys
    ensures Later(s.rules, r.rules)
    ensures r.wild == s.wild
  {
    var s1 := AddLink(s, a, b).0;
    var (s2, ok) := AddLink(s1, b, a);
    if ok then s2.(pairs := Inc8(s2.pairs)) else s2
  }

  /** One round of check_potential_link: false when the peer pointer dangles. */
  function CheckOne(s: State, a: Key, p: Peer): (r: (State, bool))
    requires a in s.clients
    ensures Shapes(r.0.clients) == Shapes(s.clients)
    ensures r.0.clients.Keys == s.clients.Keys
    ensures Later(s.rules, r.0.rules)
  {
    if p.ptr !in s.clients then (s.(wild := true), false)
    else if s.clients[p.ptr].active && p.num > 0 then (LinkBoth(s, a, p.ptr), true)
    else (s, true)
  }

  /** check_potential_link's loop over the client's peers. */
  function CheckPotential(s: State, a: Key, todo: seq<Peer>): (r: State)
    requires a in s.clients
    ensures Shapes(r.clients) == Shapes(s.clients)
    ensures r.clients.Keys == s.clients.Keys
    ensures Later(s.rules, r.rules)
    decreases |todo|
  {
    if todo == [] then s
    else
      var (s1, ok) := CheckOne(s, a, todo[0]);
      if ok then CheckPotential(s1, a, todo[1..]) else s1
  }

  /** One round of turnoff_offload_links: both directions of one link. */
  function TurnOffOne(s: State, a: Key, l: Link): (r: (State, bool))
    requires a in s.clients
    ensures Shapes(r.0.clients) == Shapes(s.clients)
    ensures r.0.clients.Keys == s.clients.Keys
    ensures Later(s.rules, r.0.rules)
  {
    var b := l.ptr;
    if b !in s.clients then (s.(wild := true), false)
    else
      var (r1, ok1) := Remove(s.rules, s.clients[a].iface, s.clients[b].iface, l.hs);
      var ls := s.clients[b].links;
      var j := FindLink(ls, a);
      if !ok1 || j == |ls| then (s.(rules := r1), false)
      else
        var (r2, ok2) := Remove(r1, s.clients[b].iface, s.clients[a].iface, ls[j].hs);
        if !ok2 then (s.(rules := r2), false)
        else (State(SetLinks(s.clients, b, RemoveAt(ls, j)), Dec8(s.pairs), r2, s.wild), true)
  }

  /** turnoff_offload_links: the loop over the client's own list, then the clear.  Any failure
      returns at once and leaves the client's list uncleared. */
  function TurnOff(s: State, a: Key, todo: seq<Link>): (r: (State, bool))
    requires a in s.clients
    ensures Shapes(r.0.clients) == Shapes(s.clients)
    ensures r.0.clients.Keys == s.clients.Keys
    ensures Later(s.rules, r.0.rules)
    decreases |todo|
  {
    if todo == [] then (s.(clients := SetLinks(s.clients, a, [])), true)
    else
      var (s1, ok) := TurnOffOne(s, a, todo[0]);
      if ok then TurnOff(s1, a, todo[1..]) else (s1, false)
  }

  /** One half of erase_offload_link: drop a's first link to b and its rules. */
  function EraseHalf(s: State, a: Key, b: Key): (r: (State, bool))
    requires a in s.clients && b in s.clients
    ensures Shapes(r.0.clients) == Shapes(s.clients)
    ensures r.0.clients.Keys == s.clients.Keys
    ensures Later(s.rules, r.0.rules)
    ensures r.0.pairs == s.pairs && r.0.wild == s.wild
  {
    var ls := s.clients[a].links;
    var j := FindLink(ls, b);
    if j == |ls| then (s, false)
    else
      var (rules, ok) := Remove(s.rules, s.clients[a].iface, s.clients[b].iface, ls[j].hs);
      (s.(rules := rules, clients := SetLinks(s.clients, a, RemoveAt(ls, j))), ok)
  }

  function EraseLinks(s: State, a: Key, b: Key): (r: State)
    requires a in s.clients && b in s.clients
    ensures Shapes(r.clients) == Shapes(s.clients)
    ensures r.clients.Keys == s.clients.Keys
    ensures Later(s.rules, r.rules)
    ensures r.wild == s.wild
  {
    var (s1, ok1) := EraseHalf(s, a, b);
    var (s2, ok2) := EraseHalf(s1, b, a);
    if ok1 && ok2 then s2.(pairs := Dec8(s2.pairs)) else s2
  }

  // ---- Power save: only the filter rules go and come back --------------------------------

  /** One round of remove_flt_rules: failed deletes are only logged, a missing reverse link ends
      the loop. */
  function RemoveFltOne(s: State, a: Key, l: Link): (r: (State, bool))
    requires a in s.clients
    ensures r.0.clients == s.clients && r.0.pairs == s.pairs
    ensures Later(s.rules, r.0.rules)
  {
    var s1 := s.(rules := DelFlt(s.rules, s.clients[a].iface, l.hs.flt).0);
    var b := l.ptr;
    if b !in s.clients then (s1.(wild := true), false)
    else
      var ls := s.clients[b].links;
      var j := FindLink(ls, a);
      if j == |ls| then (s1, false)
      else (s1.(rules := DelFlt(s1.rules, s.clients[b].iface, ls[j].hs.flt).0), true)
  }

  /** remove_flt_rules' loop. */
  function RemoveFlts(s: State, a: Key, todo: seq<Link>): (r: (State, bool))
    requires a in s.clients
    ensures r.0.clients == s.clients && r.0.pairs == s.pairs
    ensures Later(s.rules, r.0.rules)
    decreases |todo|
  {
    if todo == [] then (s, true)
    else
      var (s1, ok) := RemoveFltOne(s, a, todo[0]);
      if ok then RemoveFlts(s1, a, todo[1..]) else (s1, false)
  }

  function SetFlt(ls: seq<Link>, i: nat, h: Handle): (r: seq<Link>)
    requires i < |ls|
    ensures |r| == |ls|
    ensures forall j :: 0 <= j < |ls| ==> r[j].ptr == ls[j].ptr
  {
    ls[i := ls[i].(hs := ls[i].hs.(flt := h))]
  }

  /** One round of add_flt_rules: fresh filter handles for the client's i-th link and for its
      reverse. */
  function AddFltRound(s: State, a: Key, i: nat): (r: (State, bool))
    requires a in s.clients && i < |s.clients[a].links|
    ensures Shapes(r.0.clients) == Shapes(s.clients)
    ensures r.0.clients.Keys == s.clients.Keys
    ensures |r.0.clients[a].links| == |s.clients[a].links|
    ensures Later(s.rules, r.0.rules)
    ensures r.0.pairs == s.pairs
  {
    var b := s.clients[a].links[i].ptr;
    if b !in s.clients then (s.(wild := true), false)
    else
      var (r1, h1) := AddFlt(s.rules, s.clients[a].iface);
      if h1.None? then (s.(rules := r1), false)
      else
        var cs1 := SetLinks(s.clients, a, SetFlt(s.clients[a].links, i, h1.value));
        var j := FindLink(cs1[b].links, a);
        if j == |cs1[b].links| then (s.(rules := r1, clients := cs1), false)
        else
          var (r2, h2) := AddFlt(r1, cs1[b].iface);
          if h2.None? then (s.(rules := r2, clients := cs1), false)
          else (s.(rules := r2, clients := SetLinks(cs1, b, SetFlt(cs1[b].links, j, h2.value))), true)
  }

  /** add_flt_rules, from the client's i-th link on. */
  function AddFlts(s: State, a: Key, i: nat): (r: (State, bool))
    requires a in s.clients && i <= |s.clients[a].links|
    ensures Shapes(r.0.clients) == Shapes(s.clients)
    ensures r.0.clients.Keys == s.clients.Keys
    ensures Later(s.rules, r.0.rules)
    ensures r.0.pairs == s.pairs
    decreases |s.clients[a].links| - i
  {
    if i == |s.clients[a].links| then (s, true)
    else
      var (s1, ok) := AddFltRound(s, a, i);
      if ok then AddFlts(s1, a, i + 1) else (s1, false)
  }

  // ---- Event handlers ------------------------------------------------------------------

  function SetInfo(s: State, k: Key, mac: nat, iface: IfaceId): State
    requires k in s.clients
  {
    s.(clients := s.clients[k := s.clients[k].(mac := mac, active := true, powersave := false, iface := iface)])
  }

  function SetFlags(s: State, k: Key, active: bool, powersave: bool): State
    requires k in s.clients
  {
    s.(clients := s.clients[k := s.clients[k].(active := active, powersave := powersave)])
  }

  function Erase(s: State, k: Key): State {
    s.(clients := s.clients - {k})
  }

  /** An event naming no known interface is rejected up front ("not populated properly"). */
  function HandleActive(s: State, k: Key, mac: nat, iface: IfaceId): (r: State)
    ensures Later(s.rules, r.rules)
  {
    if iface !in s.rules.ifaces then s
    else if k !in s.clients then
      s.(clients := s.clients[k := Client(mac, true, false, iface, [], [])])
    else if s.clients[k].active then
      if s.clients[k].mac == mac then s
      else
        var s1 := TurnOff(s, k, s.clients[k].links).0;
        var s2 := ClearPeers(s1, k, s1.clients[k].peers).0;
        SetInfo(s2, k, mac, iface)
    else
      var s1 := SetInfo(s, k, mac, iface);
      CheckPotential(s1, k, s1.clients[k].peers)
  }

  function HandleInactive(s: State, k: Key): (r: State)
    ensures Later(s.rules, r.rules)
  {
    if k !in s.clients then s
    else
      var s1 := TurnOff(s, k, s.clients[k].links).0;
      var s2 := SetFlags(s1, k, false, s1.clients[k].powersave);
      if s2.clients[k].peers == [] then Erase(s2, k) else s2
  }

  function HandleDisconnect(s: State, k: Key): (r: State)
    ensures Later(s.rules, r.rules)
  {
    if k !in s.clients then s
    else
      var s1 := TurnOff(s, k, s.clients[k].links).0;
      Erase(ClearPeers(s1, k, s1.clients[k].peers).0, k)
  }

  function HandlePowerSave(s: State, k: Key): (r: State)
    ensures Later(s.rules, r.rules)
  {
    if k !in s.clients then s
    else
      var (s1, ok) := RemoveFlts(s, k, s.clients[k].links);
      if ok then SetFlags(s1, k, false, true) else s1
  }

  function HandlePowerRecover(s: State, k: Key): (r: State)
    ensures Later(s.rules, r.rules)
  {
    if k !in s.clients || s.clients[k].active || !s.clients[k].powersave then s
    else
      var (s1, ok) := AddFlts(s, k, 0);
      if !ok then s1
      else
        var s2 := SetFlags(s1, k, true, false);
        CheckPotential(s2, k, s2.clients[k].peers)
  }

  /** The first connection's links; unlike check_potential_link, a failure ends it at once. */
  function LinkNew(s: State, a: Key, b: Key): (r: State)
    requires a in s.clients && b in s.clients
    ensures Shapes(r.clients) == Shapes(s.clients)
    ensures Later(s.rules, r.rules)
    ensures r.wild == s.wild
  {
    var (s1, ok1) := AddLink(s, a, b);
    if !ok1 then s1
    else
      var (s2, ok2) := AddLink(s1, b, a);
      if ok2 then s2.(pairs := Inc8(s2.pairs)) else s2
  }

  function HandleNewConn(s: State, a: Key, b: Key): (r: State)
    ensures Later(s.rules, r.rules)
  {
    if a !in s.clients || b !in s.clients then s
    else
      var (cs, first) := AddConnection(s.clients, a, b);
      var s1 := s.(clients := cs);
      if first && cs[a].active && cs[b].active then LinkNew(s1, a, b) else s1
  }

  /** The entry of an inactive client without peers is dropped. */
  function DropIdle(s: State, k: Key): (r: State)
    ensures r.rules == s.rules
  {
    if k !in s.clients then s.(wild := true)
    else if !s.clients[k].active && !s.clients[k].powersave && s.clients[k].peers == [] then Erase(s, k)
    else s
  }

  predicate Reachable(c: Client) { c.active || c.powersave }

  /** Links are erased when both ends are active, and once per end that is in power save. */
  function EraseByMode(s: State, a: Key, b: Key): (r: State)
    requires a in s.clients && b in s.clients
    ensures Shapes(r.clients) == Shapes(s.clients)
    ensures r.clients.Keys == s.clients.Keys
    ensures Later(s.rules, r.rules)
    ensures r.wild == s.wild
  {
    var ca, cb := s.clients[a], s.clients[b];
    if ca.active && cb.active then EraseLinks(s, a, b)
    else
      var t := if ca.powersave && Reachable(cb) then EraseLinks(s, a, b) else s;
      if cb.powersave && Reachable(ca) then EraseLinks(t, b, a) else t
  }

  function HandleDelConn(s: State, a: Key, b: Key): (r: State)
    ensures Later(s.rules, r.rules)
  {
    if a !in s.clients || b !in s.clients then s
    else
      var (cs, last) := RemoveConnection(s.clients, a, b);
      var s1 := s.(clients := cs);
      if !last then s1
      else
        DropIdle(DropIdle(EraseByMode(s1, a, b), a), b)
  }

  function Step(s: State, e: Event): (r: State)
    ensures Later(s.rules, r.rules)
  {
    match e
    case Active(k, mac, iface) => HandleActive(s, k, mac, iface)
    case Inactive(k) => HandleInactive(s, k)
    case Disconnect(k) => HandleDisconnect(s, k)
    case PowerSave(k) => HandlePowerSave(s, k)
    case PowerRecover(k) => HandlePowerRecover(s, k)
    case NewConn(a, b) => HandleNewConn(s, a, b)
    case DelConn(a, b) => HandleDelConn(s, a, b)
  }

  function Run(s: State, es: seq<Event>): (r: State)
    ensures Later(s.rules, r.rules)
  {
    if es == [] then s else Step(Run(s, es[..|es| - 1]), es[|es| - 1])
  }
}
