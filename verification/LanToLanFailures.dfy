/** Runs from the initial state that reach the failures whose exact conditions LanToLanLimits
    gives: two clients on two interfaces, and a driver that refuses a given set of calls. */
module LanToLanFailures {
  import opened Driver
  import opened LanRules
  import opened LanToLan
  import opened LanToLanPeers
  import opened LanToLanLinks
  import opened LanToLanGraph
  import opened LanToLanRuns
  import opened LanToLanLimits

  function Script(refused: set<nat>): nat -> Reply { (n: nat) => if n in refused then Refused else Done(100 + n) }

  function Table(h: Handle): Slots {
    Slots([Slot(h, false), Slot(h + 1, false), Slot(h + 2, false)], 0, [Slot(0, false), Slot(0, false), Slot(0, false)])
  }

  function Start(refused: set<nat>): State { Init(map[1 := Table(10), 2 := Table(20)], Script(refused)) }

  const Meet: seq<Event> := [Active(1, 11, 1), Active(2, 12, 2), NewConn(1, 2)]

  function Pair(peers: bool): map<Key, Client> {
    map[1 := Client(11, true, false, 1, if peers then [Peer(2, 1)] else [], []),
        2 := Client(12, true, false, 2, if peers then [Peer(1, 1)] else [], [])]
  }

  /** Both clients are known and connected; the links are still to come. */
  function Joined(refused: set<nat>): State { Start(refused).(clients := Pair(true)) }

  lemma RunNext(s: State, es: seq<Event>, e: Event)
    ensures Run(s, es + [e]) == Step(Run(s, es), e)
  {
    assert (es + [e])[..|es|] == es;
  }

  lemma BothActive(refused: set<nat>)
    ensures var s1 := Step(Start(refused), Active(1, 11, 1));
            Step(s1, Active(2, 12, 2)) == Start(refused).(clients := Pair(false))
  {
    hide CheckPotential, TurnOff, ClearPeers;
    var s1 := Step(Start(refused), Active(1, 11, 1));
    assert s1.clients == map[1 := Client(11, true, false, 1, [], [])];
    assert Step(s1, Active(2, 12, 2)).clients == Pair(false);
  }

  lemma Joins()
    ensures AddConnection(Pair(false), 1, 2) == (Pair(true), true)
  {
    var cs := Pair(false);
    assert AddPeer([], 2) == [Peer(2, 1)] && AddPeer([], 1) == [Peer(1, 1)];
    assert AddConnection(cs, 1, 2).0 == Pair(true);
    assert !HasPeer([], 2);
  }

  lemma RunThree(s: State, e1: Event, e2: Event, e3: Event)
    ensures Run(s, [e1, e2, e3]) == Step(Step(Step(s, e1), e2), e3)
  {
    hide Step;
    RunNext(s, [], e1);
    RunNext(s, [e1], e2);
    RunNext(s, [e1, e2], e3);
    assert [] + [e1] == [e1] && [e1] + [e2] == [e1, e2] && [e1, e2] + [e3] == [e1, e2, e3];
  }

  lemma Met(refused: set<nat>)
    ensures Run(Start(refused), Meet) == LinkNew(Joined(refused), 1, 2)
  {
    hide Step, LinkNew, Run;
    RunThree(Start(refused), Active(1, 11, 1), Active(2, 12, 2), NewConn(1, 2));
    BothActive(refused);
    NewLinks(Start(refused).(clients := Pair(false)), Pair(true));
  }

  lemma NewLinks(s: State, cs: map<Key, Client>)
    requires 1 in s.clients && 2 in s.clients && s.clients == Pair(false) && cs == Pair(true)
    ensures Step(s, NewConn(1, 2)) == LinkNew(s.(clients := cs), 1, 2)
  {
    hide LinkNew, AddConnection;
    Joins();
  }

  // ---- An idle client stays ----------------------------------------------------------------

  /** Whatever the driver refuses: when client 1, inactive by now, loses its only peer to a
      disconnect, it stays in the table, idle. */
  lemma StrandedRun(refused: set<nat>)
    ensures var cs := Run(Start(refused), Meet + [Inactive(1)] + [Disconnect(2)]).clients;
            1 in cs && Idle(cs[1])
  {
    var s3 := LinkNew(Joined(refused), 1, 2);
    Met(refused);
    RunNext(Start(refused), Meet, Inactive(1));
    RunNext(Start(refused), Meet + [Inactive(1)], Disconnect(2));
    hide LinkNew, Step, Shapes;
    SameInfo(Joined(refused).clients, s3.clients);
    var c := s3.clients[1];
    assert c.(links := []) == Pair(true)[1];
    assert c.peers == c.(links := []).peers && c.powersave == c.(links := []).powersave;
    JoinedPeers(refused);
    StaysDormant(s3, 1);
    var s4 := Step(s3, Inactive(1));
    StepFollows(s3, Inactive(1));
    StrandedIsIdle(s4, Disconnect(2), 1);
  }

  lemma JoinedPeers(refused: set<nat>)
    ensures PeerInv(PeersOf(Pair(true)))
  {
    var P := PeersOf(Pair(true));
    assert P == map[1 := [Peer(2, 1)], 2 := [Peer(1, 1)]];
    assert Num([], 0) == 0;
    forall x ensures Num(P[1], x) == (if x == 2 then 1 else 0) && Num(P[2], x) == if x == 1 then 1 else 0 {
      assert P[1][1..] == [] && P[2][1..] == [];
    }
    assert forall a, b :: Cnt(P, a, b) == if (a, b) == (1, 2) || (a, b) == (2, 1) then 1 else 0;
    assert PeersOk([Peer(2, 1)]) && PeersOk([Peer(1, 1)]);
  }

  /** An inactive event leaves a connected client in the table. */
  lemma StaysDormant(s: State, k: Key)
    requires k in s.clients && !s.clients[k].powersave && s.clients[k].peers != []
    ensures var s' := Step(s, Inactive(k));
            && s'.clients.Keys == s.clients.Keys && Dormant(s'.clients[k]) && s'.clients[k].peers == s.clients[k].peers
  {
    hide TurnOff, Shapes;
    var s1 := TurnOff(s, k, s.clients[k].links).0;
    SameInfo(s.clients, s1.clients);
    assert s.clients[k].(links := []).peers == s1.clients[k].(links := []).peers;
    assert s.clients[k].(links := []).powersave == s1.clients[k].(links := []).powersave;
  }

  // ---- A client connected to itself ----------------------------------------------------------

  lemma SelfRun(refused: set<nat>)
    ensures !PeerInv(PeersOf(Run(Start(refused), [Active(1, 11, 1)] + [NewConn(1, 1)]).clients))
  {
    var s, e := Start(refused), Active(1, 11, 1);
    RunNext(s, [], e);
    RunNext(s, [e], NewConn(1, 1));
    assert [] + [e] == [e];
    StartInv(refused);
    hide Step, PeerInv;
    PeerInvKeptIff(s, e);
    KnownNow(refused);
    PeerInvKeptIff(Step(s, e), NewConn(1, 1));
  }

  lemma KnownNow(refused: set<nat>)
    ensures 1 in Step(Start(refused), Active(1, 11, 1)).clients
  {
  }

  // ---- A one-sided link ----------------------------------------------------------------------

  lemma FreshRoom(refused: set<nat>)
    ensures HasRoom(Start(refused).rules, 1, 2) && HasRoom(Start(refused).rules, 2, 1)
  {
  }

  /** The two clients are connected but not linked, after one refused call. */
  ghost predicate NotLinked(s: State, refused: set<nat>) {
    && s.clients == Pair(true) && s.pairs == 0 && s.rules.pos == 1 && {1, 2} <= s.rules.ifaces.Keys
    && HasRoom(s.rules, 2, 1)
    && forall n :: s.rules.script(n).Done? <==> n !in refused
  }

  lemma MetRefused(refused: set<nat>)
    requires 0 in refused
    ensures NotLinked(Run(Start(refused), Meet), refused)
  {
    Met(refused);
    FreshRoom(refused);
    var r := Start(refused).rules;
    InstallIff(r, 1, 2);
    InstallElsewhere(r, 1, 2);
    AcceptsThree(r);
    hide Install, FirstFree, Accepts, Run;
  }

  lemma LeavesAndReturns(s: State)
    requires s.clients == Pair(true) && {1, 2} <= s.rules.ifaces.Keys
    ensures Step(Step(s, Inactive(1)), Active(1, 11, 1)) == LinkBoth(s, 1, 2)
  {
    hide LinkBoth;
    var s1 := Step(s, Inactive(1));
    var c := s.clients[1];
    assert SetLinks(s.clients, 1, []) == s.clients;
    assert TurnOff(s, 1, []) == (s, true);
    assert s1 == s.(clients := s.clients[1 := c.(active := false)]);
    assert s1.clients[1 := c] == s.clients;
    assert SetInfo(s1, 1, 11, 1) == s;
    assert CheckPotential(s, 1, [Peer(2, 1)]) == CheckPotential(LinkBoth(s, 1, 2), 1, []);
  }

  /** A refused first call and room for the other direction make a one-sided link. */
  lemma OneSided(s: State)
    requires NotLinked(s, {0, 1})
    ensures !Symmetric(LinksOf(LinkBoth(s, 1, 2).clients))
  {
    var r := s.rules;
    AcceptsThree(r);
    AcceptsThree(r.(pos := 2));
    NoLinksYet();
    hide Accepts, LinkBoth, FirstFree, Symmetric;
    CrossSymmetricIff(s, 1, 2);
  }

  /** With the first two calls refused, client 1's return links client 2 to it, but not it to
      client 2. */
  lemma AsymmetricRun()
    ensures !Symmetric(LinksOf(Run(Start({0, 1}), Meet + [Inactive(1)] + [Active(1, 11, 1)]).clients))
  {
    var s := Start({0, 1});
    RunNext(s, Meet, Inactive(1));
    RunNext(s, Meet + [Inactive(1)], Active(1, 11, 1));
    MetRefused({0, 1});
    hide Run, Step, LinkBoth, HasRoom, Symmetric, LinksOf, Start, Pair, Script;
    LeavesAndReturns(Run(s, Meet));
    OneSided(Run(s, Meet));
  }

  lemma NoLinksYet()
    ensures Symmetric(LinksOf(Pair(true)))
  {
  }

  // ---- Linked clients ------------------------------------------------------------------------

  /** The two clients, linked under these handles. */
  function Wired(h1: Handles, h2: Handles): map<Key, Client> {
    map[1 := Client(11, true, false, 1, [Peer(2, 1)], [Link(2, h1)]),
        2 := Client(12, true, false, 2, [Peer(1, 1)], [Link(1, h2)])]
  }

  /** A table with one filter, valid or not, and one valid header. */
  function Used(h: Handle, valid: bool, g: Handle): Slots {
    Slots([Slot(h, valid), Slot(h + 1, false), Slot(h + 2, false)], if valid then 1 else 0,
          [Slot(g, true), Slot(0, false), Slot(0, false)])
  }

  function Tables(valid: bool, h1: Handles, h2: Handles): map<IfaceId, Slots> {
    map[1 := Used(10, valid, h2.hdr), 2 := Used(20, valid, h1.hdr)]
  }

  lemma InstallDone(r: Rules, own: IfaceId, peer: IfaceId)
    requires Installable(r, own, peer) && own != peer && own in r.ifaces && peer in r.ifaces
    ensures var (r', hs) := Install(r, own, peer);
            var t, u := r.ifaces[own], r.ifaces[peer];
            var i, j := FirstFree(t.flt), FirstFree(u.hdr);
            && hs.Some? && hs.value.flt == t.flt[i].hdl
            && r'.ifaces == r.ifaces[peer := u.(hdr := u.hdr[j := Slot(hs.value.hdr, true)])]
                                    [own := t.(flt := t.flt[i := Slot(t.flt[i].hdl, true)], numFlt := Inc8(t.numFlt))]
            && r'.pos == r.pos + 3 && r'.script == r.script && r'.faults == r.faults
  {
    AcceptsThree(r);
    hide Accepts, FirstFree;
  }

  lemma FirstInstall(r: Rules)
    requires r.ifaces == map[1 := Table(10), 2 := Table(20)] && Accepts(r, 3)
    ensures var (r1, h1) := Install(r, 1, 2);
            && h1.Some? && h1.value.flt == 10 && r1.pos == r.pos + 3 && r1.script == r.script && r1.faults == r.faults
            && r1.ifaces == map[1 := Used(10, true, 0).(hdr := Table(10).hdr), 2 := Table(20).(hdr := Used(20, false, h1.value.hdr).hdr)]
  {
    hide Accepts, Install;
    assert FirstFree(Table(10).flt) == 0 && FirstFree(Table(20).hdr) == 0;
    InstallDone(r, 1, 2);
    assert Table(10).flt[0 := Slot(10, true)] == Used(10, true, 0).flt;
    var g := Install(r, 1, 2).1.value.hdr;
    assert Table(20).hdr[0 := Slot(g, true)] == Used(20, false, g).hdr;
  }

  lemma SecondInstall(r: Rules, h1: Handles)
    requires r.ifaces == map[1 := Used(10, true, 0).(hdr := Table(10).hdr), 2 := Table(20).(hdr := Used(20, false, h1.hdr).hdr)]
    requires Accepts(r, 3)
    ensures var (r2, h2) := Install(r, 2, 1);
            && h2.Some? && h2.value.flt == 20 && r2.pos == r.pos + 3 && r2.script == r.script && r2.faults == r.faults
            && r2.ifaces == Tables(true, h1, h2.value)
  {
    hide Accepts, Install;
    assert FirstFree(Table(20).flt) == 0 && FirstFree(Table(10).hdr) == 0;
    InstallDone(r, 2, 1);
    assert Table(20).flt[0 := Slot(20, true)] == Used(20, true, 0).flt;
    var g := Install(r, 2, 1).1.value.hdr;
    assert Table(10).hdr[0 := Slot(g, true)] == Used(10, true, g).hdr;
  }

  /** The two clients have just been linked, by six accepted calls. */
  ghost predicate IsLinked(s: State, refused: set<nat>, h1: Handles, h2: Handles) {
    && s.clients == Wired(h1, h2) && h1.flt == 10 && h2.flt == 20 && s.pairs == 1
    && s.rules.ifaces == Tables(true, h1, h2) && s.rules.pos == 6 && s.rules.faults == 0
    && forall n :: s.rules.script(n).Done? <==> n !in refused
  }

  lemma LinkJoined(s: State) returns (h1: Handles, h2: Handles)
    requires s.clients == Pair(true) && s.pairs == 0 && Accepts(s.rules, 6)
    requires s.rules.ifaces == map[1 := Table(10), 2 := Table(20)]
    ensures h1.flt == 10 && h2.flt == 20
    ensures var s' := LinkNew(s, 1, 2);
            && s'.clients == Wired(h1, h2) && s'.pairs == 1 && s'.rules.ifaces == Tables(true, h1, h2)
            && s'.rules.pos == s.rules.pos + 6 && s'.rules.script == s.rules.script && s'.rules.faults == s.rules.faults
  {
    var r := s.rules;
    FirstInstall(r);
    var r1 := Install(r, 1, 2).0;
    h1 := Install(r, 1, 2).1.value;
    hide Install, Tables, Table, Used, Pair, Wired, LinkNew, Shapes;
    SecondInstall(r1, h1);
    h2 := Install(r1, 2, 1).1.value;
    LinkNewResult(s, h1, h2);
  }

  lemma MetLinked(refused: set<nat>) returns (h1: Handles, h2: Handles)
    requires forall n | n in refused :: n >= 6
    ensures IsLinked(Run(Start(refused), Meet), refused, h1, h2)
  {
    Met(refused);
    hide LinkNew, Run, Tables, Table, Wired, Shapes;
    h1, h2 := LinkJoined(Joined(refused));
  }

  lemma LinkNewResult(s: State, h1: Handles, h2: Handles)
    requires s.clients == Pair(true) && s.pairs == 0
    requires Install(s.rules, 1, 2).1 == Some(h1) && Install(Install(s.rules, 1, 2).0, 2, 1).1 == Some(h2)
    ensures LinkNew(s, 1, 2) == State(Wired(h1, h2), 1, Install(Install(s.rules, 1, 2).0, 2, 1).0, s.wild)
  {
    hide Install, Later, Shapes;
    assert [] + [Link(2, h1)] == [Link(2, h1)] && [] + [Link(1, h2)] == [Link(1, h2)];
    var s1 := AddLink(s, 1, 2).0;
    assert s1.clients == s.clients[1 := s.clients[1].(links := [Link(2, h1)])];
    var s2 := AddLink(s1, 2, 1).0;
    assert s2.clients == Wired(h1, h2);
  }

  lemma StartInv(refused: set<nat>)
    ensures Inv(Start(refused), false)
    ensures forall i :: i in Start(refused).rules.ifaces ==> FreshTables(Start(refused).rules.ifaces[i])
  {
    assert Total(LinksOf(map[])) == 0;
  }

  lemma MeetInv(refused: set<nat>)
    requires Run(Start(refused), Meet).rules.faults == 0
    ensures Inv(Run(Start(refused), Meet), false)
  {
    hide Run, Inv;
    StartInv(refused);
    RunInv(Start(refused), Meet, false);
  }

  // ---- A dangling pointer --------------------------------------------------------------------

  lemma RefusedTurnOff(s: State, h1: Handles, h2: Handles)
    requires IsLinked(s, {6}, h1, h2) && 1 in s.clients
    ensures !TurnOff(s, 1, s.clients[1].links).1
  {
    hide TurnOff;
    if TurnOff(s, 1, s.clients[1].links).1 { TurnOffCalls(s, 1, s.clients[1].links); }
  }

  /** With the first delete refused, client 2 keeps a link to client 1, which is gone. */
  lemma DanglingRun()
    ensures var cs := Run(Start({6}), Meet + [Disconnect(1)]).clients;
            1 !in cs && exists x :: M(LinksOf(cs), x, 1) > 0
  {
    hide Run, Start, Step, Inv, M, LinksOf, IsLinked;
    RunNext(Start({6}), Meet, Disconnect(1));
    var h1, h2 := MetLinked({6});
    var s3 := Run(Start({6}), Meet);
    LinkedQuiet(s3, {6}, h1, h2);
    MeetInv({6});
    Dangles(s3, h1, h2);
  }

  lemma LinkedQuiet(s: State, refused: set<nat>, h1: Handles, h2: Handles)
    requires IsLinked(s, refused, h1, h2)
    ensures s.rules.faults == 0 && 1 in s.clients
  {
  }

  lemma Dangles(s: State, h1: Handles, h2: Handles)
    requires IsLinked(s, {6}, h1, h2) && Inv(s, false)
    ensures var cs := Step(s, Disconnect(1)).clients;
            1 !in cs && exists x :: M(LinksOf(cs), x, 1) > 0
  {
    hide M, TurnOff, HandleDisconnect, Sym, PeerInv, LinksOk, LinksOf, IsLinked;
    LinkedQuiet(s, {6}, h1, h2);
    RefusedTurnOff(s, h1, h2);
    DisconnectClears(s, 1);
    DisconnectDormant(s, 1);
  }

  // ---- A doubled link ------------------------------------------------------------------------

  /** Both filter rules are there, or neither. */
  ghost predicate Filtered(s: State, valid: bool, active: bool, h1: Handles, h2: Handles) {
    && h1.flt == 10 && h2.flt == 20 && s.pairs == 1
    && s.clients == Wired(h1, h2)[1 := Wired(h1, h2)[1].(active := active, powersave := !active)]
    && s.rules.ifaces == Tables(valid, h1, h2) && s.rules.faults == 0
    && forall n :: s.rules.script(n).Done?
  }

  lemma LinksFound(h1: Handles, h2: Handles)
    ensures FindLink([Link(2, h1)], 2) == 0 && FindLink([Link(1, h2)], 1) == 0
  {
  }

  lemma DelFirst(r: Rules, i: IfaceId, h: Handle, g: Handle)
    requires i in r.ifaces && r.ifaces[i] == Used(h, true, g) && r.script(r.pos).Done?
    ensures DelFlt(r, i, h) == (r.(pos := r.pos + 1, ifaces := r.ifaces[i := Used(h, false, g)]), true)
  {
    var t := r.ifaces[i].flt;
    assert FirstWith(t, h) == 0;
    assert t[0 := Slot(h, false)] == Used(h, false, g).flt;
  }

  lemma AddFirst(r: Rules, i: IfaceId, h: Handle, g: Handle)
    requires i in r.ifaces && r.ifaces[i] == Used(h, false, g) && r.script(r.pos).Done?
    ensures AddFlt(r, i) == (r.(pos := r.pos + 1, ifaces := r.ifaces[i := Used(h, true, g)]), Some(h))
  {
    var t := r.ifaces[i].flt;
    assert FirstFree(t) == 0;
    assert t[0 := Slot(h, true)] == Used(h, true, g).flt;
  }

  lemma Sleeps(s: State, h1: Handles, h2: Handles)
    requires Filtered(s, true, true, h1, h2)
    ensures Filtered(Step(s, PowerSave(1)), false, false, h1, h2)
  {
    var r := s.rules;
    DelFirst(r, 1, 10, h2.hdr);
    var r1 := DelFlt(r, 1, 10).0;
    DelFirst(r1, 2, 20, h1.hdr);
    LinksFound(h1, h2);
    hide DelFlt, FindLink, Used;
    var l := Link(2, h1);
    var s1 := RemoveFltOne(s, 1, l).0;
    assert RemoveFltOne(s, 1, l).1 && s1 == s.(rules := DelFlt(r1, 2, 20).0);
    assert RemoveFlts(s, 1, [l]) == RemoveFlts(s1, 1, [l][1..]) == (s1, true);
  }

  lemma Wakes(s: State, h1: Handles, h2: Handles)
    requires Filtered(s, false, false, h1, h2)
    ensures var (s1, ok) := AddFlts(s, 1, 0);
            ok && Filtered(SetFlags(s1, 1, true, false), true, true, h1, h2)
  {
    var r := s.rules;
    AddFirst(r, 1, 10, h2.hdr);
    var r1 := AddFlt(r, 1).0;
    AddFirst(r1, 2, 20, h1.hdr);
    LinksFound(h1, h2);
    hide AddFlt, FindLink, Used;
    assert SetFlt([Link(2, h1)], 0, 10) == [Link(2, h1)] && SetFlt([Link(1, h2)], 0, 20) == [Link(1, h2)];
    var s1 := AddFltRound(s, 1, 0).0;
    assert SetLinks(s.clients, 1, s.clients[1].links) == s.clients && SetLinks(s.clients, 2, s.clients[2].links) == s.clients;
    assert AddFltRound(s, 1, 0).1 && s1 == s.(rules := AddFlt(r1, 2).0);
    assert AddFlts(s, 1, 0) == AddFlts(s1, 1, 1) == (s1, true);
  }

  lemma UsedRoom(r: Rules, h1: Handles, h2: Handles)
    requires r.ifaces == Tables(true, h1, h2)
    ensures HasRoom(r, 1, 2) && HasRoom(r, 2, 1)
  {
    assert FirstFree(Used(10, true, h2.hdr).flt) == FirstFree(Used(10, true, h2.hdr).hdr) == 1;
    assert FirstFree(Used(20, true, h1.hdr).flt) == FirstFree(Used(20, true, h1.hdr).hdr) == 1;
  }

  lemma LinksAgain(s: State, h1: Handles, h2: Handles)
    requires Filtered(s, true, true, h1, h2)
    ensures CheckPotential(s, 1, [Peer(2, 1)]).rules.faults == 0
  {
    UsedRoom(s.rules, h1, h2);
    InstallIff(s.rules, 1, 2);
    InstallElsewhere(s.rules, 1, 2);
    var r1 := Install(s.rules, 1, 2).0;
    InstallIff(r1, 2, 1);
    OnePeer(s);
    hide Install, FirstFree, CallsTaken, LinkBoth, CheckPotential;
    LinkBothRules(s, 1, 2);
  }

  lemma OnePeer(s: State)
    requires 1 in s.clients && 2 in s.clients && s.clients[2].active
    ensures CheckPotential(s, 1, [Peer(2, 1)]) == LinkBoth(s, 1, 2)
  {
    hide LinkBoth;
    assert CheckPotential(s, 1, [Peer(2, 1)]) == CheckPotential(LinkBoth(s, 1, 2), 1, []);
  }

  lemma FilteredFacts(s: State, valid: bool, active: bool, h1: Handles, h2: Handles)
    requires Filtered(s, valid, active, h1, h2)
    ensures s.clients.Keys == {1, 2} && s.clients[2].active && s.clients[1].active == active && s.clients[1].powersave == !active
    ensures s.clients[1].peers == [Peer(2, 1)] && s.clients[1].links == [Link(2, h1)]
    ensures s.pairs == 1 && s.rules.faults == 0
  {
  }

  lemma WakesQuietly(s: State, h1: Handles, h2: Handles)
    requires Filtered(s, false, false, h1, h2)
    ensures Step(s, PowerRecover(1)).rules.faults == 0
  {
    hide AddFlts, CheckPotential, HandlePowerRecover, Filtered, SetFlags, Shapes;
    FilteredFacts(s, false, false, h1, h2);
    Wakes(s, h1, h2);
    RecoverSteps(s, 1);
    var s2 := SetFlags(AddFlts(s, 1, 0).0, 1, true, false);
    FilteredFacts(s2, true, true, h1, h2);
    LinksAgain(s2, h1, h2);
    FlagsKeepPeers(AddFlts(s, 1, 0).0, 1);
  }

  lemma FlagsKeepPeers(s: State, k: Key)
    requires k in s.clients
    ensures SetFlags(s, k, true, false).clients[k].peers == s.clients[k].peers
  {
  }

  lemma OneOffered(cs: map<Key, Client>)
    requires 2 in cs && cs[2].active
    ensures 2 in Linked(cs, [Peer(2, 1)], 2)
  {
  }

  lemma Doubles(s: State, h1: Handles, h2: Handles)
    requires Filtered(s, false, false, h1, h2) && Inv(s, true)
    ensures var s' := Step(s, PowerRecover(1)); s'.rules.faults == 0 && M(LinksOf(s'.clients), 1, 2) >= 2
  {
    hide HandlePowerRecover, Inv, Filtered, M, Linked, LinksOf;
    FilteredFacts(s, false, false, h1, h2);
    WakesQuietly(s, h1, h2);
    OneLink(s.clients, h1);
    OneOffered(s.clients);
    RecoverDoubles(s, 1, 2);
  }

  lemma OneLink(cs: map<Key, Client>, h1: Handles)
    requires 1 in cs && cs[1].links == [Link(2, h1)]
    ensures M(LinksOf(cs), 1, 2) == 1
  {
    assert Mult([Link(2, h1)][1..], 2) == 0;
  }

  lemma LinkedFiltered(s: State, h1: Handles, h2: Handles)
    requires IsLinked(s, {}, h1, h2)
    ensures Filtered(s, true, true, h1, h2)
  {
    hide Tables;
    assert Wired(h1, h2)[1 := Wired(h1, h2)[1].(active := true, powersave := false)] == Wired(h1, h2);
  }

  /** With every call accepted, a nap doubles client 1's link to client 2. */
  lemma DoubledRun()
    ensures var s := Run(Start({}), Meet + [PowerSave(1)] + [PowerRecover(1)]);
            s.rules.faults == 0 && M(LinksOf(s.clients), 1, 2) >= 2
  {
    RunNext(Start({}), Meet, PowerSave(1));
    RunNext(Start({}), Meet + [PowerSave(1)], PowerRecover(1));
    var h1, h2 := MetLinked({});
    var s3 := Run(Start({}), Meet);
    LinkedFiltered(s3, h1, h2);
    hide Run, Step, Start, Inv, Filtered, IsLinked, M, LinksOf;
    FilteredFacts(s3, true, true, h1, h2);
    MeetInv({});
    Weaken(s3, false);
    Sleeps(s3, h1, h2);
    FilteredFacts(Step(s3, PowerSave(1)), false, false, h1, h2);
    StepInv(s3, PowerSave(1), true);
    Doubles(Step(s3, PowerSave(1)), h1, h2);
  }

  // ---- A counter below zero ------------------------------------------------------------------

  /** The slot is found by its handle although it is free already, and counted down again. */
  lemma DelAgain(r: Rules, i: IfaceId, h: Handle, g: Handle)
    requires i in r.ifaces && r.ifaces[i] == Used(h, false, g) && r.script(r.pos).Done?
    ensures DelFlt(r, i, h) == (r.(pos := r.pos + 1, ifaces := r.ifaces[i := Used(h, false, g).(numFlt := 255)]), true)
  {
    var t := r.ifaces[i].flt;
    assert FirstWith(t, h) == 0;
    assert t[0 := Slot(h, false)] == t;
  }

  lemma SleepsToo(s: State, h1: Handles, h2: Handles)
    requires Filtered(s, false, false, h1, h2)
    ensures var s' := Step(s, PowerSave(2));
            && s'.rules.ifaces == map[1 := Used(10, false, h2.hdr).(numFlt := 255), 2 := Used(20, false, h1.hdr).(numFlt := 255)]
            && s'.rules.faults == 0
  {
    var r := s.rules;
    DelAgain(r, 2, 20, h1.hdr);
    var r1 := DelFlt(r, 2, 20).0;
    DelAgain(r1, 1, 10, h2.hdr);
    LinksFound(h1, h2);
    hide DelFlt, FindLink, Used;
    var l := Link(1, h2);
    var s1 := RemoveFltOne(s, 2, l).0;
    assert RemoveFltOne(s, 2, l).1 && s1 == s.(rules := DelFlt(r1, 1, 10).0);
    assert RemoveFlts(s, 2, [l]) == RemoveFlts(s1, 2, [l][1..]) == (s1, true);
  }

  /** With every call accepted, two linked clients that both fall asleep drive the slot counters of
      their interfaces below zero: no filter slot is valid, and no filter rule can be added. */
  lemma BothAsleepRun()
    ensures var r := Run(Start({}), Meet + [PowerSave(1)] + [PowerSave(2)]).rules;
            && r.faults == 0 && 1 in r.ifaces && r.ifaces[1].numFlt == 255
            && (forall j :: 0 <= j < |r.ifaces[1].flt| ==> !r.ifaces[1].flt[j].valid) && AddFlt(r, 1).1.None?
  {
    RunNext(Start({}), Meet, PowerSave(1));
    RunNext(Start({}), Meet + [PowerSave(1)], PowerSave(2));
    var h1, h2 := MetLinked({});
    var s3 := Run(Start({}), Meet);
    LinkedFiltered(s3, h1, h2);
    hide Run, Step, Start, Filtered, IsLinked, AddFlt, Used;
    Sleeps(s3, h1, h2);
    SleepsToo(Step(s3, PowerSave(1)), h1, h2);
    Uncounted(Step(Step(s3, PowerSave(1)), PowerSave(2)).rules, h2.hdr);
  }

  lemma Uncounted(r: Rules, g: Handle)
    requires 1 in r.ifaces && r.ifaces[1] == Used(10, false, g).(numFlt := 255)
    ensures r.ifaces[1].numFlt == 255 && AddFlt(r, 1).1.None?
    ensures forall j :: 0 <= j < |r.ifaces[1].flt| ==> !r.ifaces[1].flt[j].valid
  {
  }
}
