/** Resource-manager dependencies (IPACM_Config.cpp): a fixed table of resource pairs whose
    driver dependencies are set up while both ends are up. */
module ResourceManager {
  datatype Res =
    | WlanProd | WlanCons | UsbProd | UsbCons | OduProd | OduCons | Q6Prod | Q6Cons
    | OtherRes(id: nat)

  type Edge = (Res, Res)

  /** One ipa_rm_tbl entry. */
  datatype Entry = Entry(
    p1: Res, c1: Res, p2: Res, c2: Res,
    producerUp: bool, consumerUp: bool, isSet: bool, bypass: bool)

  function Row(p1: Res, c1: Res, p2: Res, c2: Res): Entry { Entry(p1, c1, p2, c2, false, false, false, false) }

  const TABLE: seq<Entry> := [
    Row(WlanProd, Q6Cons, Q6Prod, WlanCons),
    Row(UsbProd, Q6Cons, Q6Prod, UsbCons),
    Row(WlanProd, UsbCons, UsbProd, WlanCons),
    Row(OduProd, Q6Cons, Q6Prod, OduCons),
    Row(WlanProd, OduCons, OduProd, WlanCons),
    Row(OduProd, UsbCons, UsbProd, OduCons)]

  /** `a2` is ipa_rm_a2_check; `edges` are the driver's dependencies, whose calls are answered
      from `script` and counted in `refused` when they fail. */
  datatype State = State(
    tbl: seq<Entry>,
    a2: int,
    edges: set<Edge>,
    script: nat -> bool,
    pos: nat,
    refused: nat)

  function AddEdge(s: State, e: Edge): (r: State)
    ensures r == s.(edges := r.edges, pos := r.pos, refused := r.refused) && r.refused >= s.refused
    ensures r.refused == s.refused ==> r.edges == s.edges + {e}
  {
    if s.script(s.pos) then s.(pos := s.pos + 1, edges := s.edges + {e})
    else s.(pos := s.pos + 1, refused := s.refused + 1)
  }

  function DelEdge(s: State, e: Edge): (r: State)
    ensures r == s.(edges := r.edges, pos := r.pos, refused := r.refused) && r.refused >= s.refused
    ensures r.refused == s.refused ==> r.edges == s.edges - {e}
  {
    if s.script(s.pos) then s.(pos := s.pos + 1, edges := s.edges - {e})
    else s.(pos := s.pos + 1, refused := s.refused + 1)
  }

  /** An entry's set-up: the bypassed direction is skipped, failures are only logged. */
  function SetUp(s: State, i: nat): (r: State)
    requires i < |s.tbl|
    ensures r.tbl == s.tbl[i := s.tbl[i].(isSet := true)] && r.a2 == s.a2 && r.refused >= s.refused
    ensures r.refused == s.refused ==>
              r.edges == s.edges + (if s.tbl[i].bypass then {} else {(s.tbl[i].p1, s.tbl[i].c1)}) + {(s.tbl[i].p2, s.tbl[i].c2)}
  {
    var e := s.tbl[i];
    var s1 := if e.bypass then s else AddEdge(s, (e.p1, e.c1));
    var s2 := AddEdge(s1, (e.p2, e.c2));
    s2.(tbl := s.tbl[i := e.(isSet := true)])
  }

  function TearDown(s: State, i: nat): (r: State)
    requires i < |s.tbl|
    ensures r.tbl == s.tbl[i := s.tbl[i].(isSet := false)] && r.a2 == s.a2 && r.refused >= s.refused
    ensures r.refused == s.refused ==>
              r.edges == s.edges - (if s.tbl[i].bypass then {} else {(s.tbl[i].p1, s.tbl[i].c1)}) - {(s.tbl[i].p2, s.tbl[i].c2)}
  {
    var e := s.tbl[i];
    var s1 := s.(tbl := s.tbl[i := e.(isSet := false)]);
    var s2 := if e.bypass then s1 else DelEdge(s1, (e.p1, e.c1));
    DelEdge(s2, (e.p2, e.c2))
  }

  function Put(s: State, i: nat, e: Entry): State
    requires i < |s.tbl|
  {
    s.(tbl := s.tbl[i := e])
  }

  // ---- The loops' rounds -----------------------------------------------------------------

  function ProducerUp(s: State, r: Res, bypass: bool, i: nat): (s': State)
    requires i < |s.tbl|
    ensures |s'.tbl| == |s.tbl| && s'.a2 == s.a2 && s'.refused >= s.refused
  {
    if r != s.tbl[i].p1 then s
    else
      var t := Put(s, i, s.tbl[i].(producerUp := true, bypass := bypass));
      if t.tbl[i].consumerUp && !t.tbl[i].isSet then SetUp(t, i) else t
  }

  function ConsumerUp(s: State, r: Res, i: nat): (s': State)
    requires i < |s.tbl|
    ensures |s'.tbl| == |s.tbl| && s'.a2 == s.a2 && s'.refused >= s.refused
  {
    if r != s.tbl[i].c1 then s
    else
      var t := Put(s, i, s.tbl[i].(consumerUp := true));
      if t.tbl[i].producerUp && !t.tbl[i].isSet then SetUp(t, i) else t
  }

  function AddRound(s: State, r: Res, bypass: bool, i: nat): (s': State)
    requires i < |s.tbl|
    ensures |s'.tbl| == |s.tbl| && s'.a2 == s.a2 && s'.refused >= s.refused
  {
    ConsumerUp(ProducerUp(s, r, bypass, i), r, i)
  }

  /** The consumer half is skipped while exactly one default route through Q6 is left. */
  function DelRound(s: State, r: Res, i: nat): (s': State)
    requires i < |s.tbl|
    ensures |s'.tbl| == |s.tbl| && s'.a2 == s.a2 && s'.refused >= s.refused
  {
    var s1 :=
      if r != s.tbl[i].p1 then s
      else
        var t := if s.tbl[i].isSet then TearDown(s, i) else s;
        Put(t, i, t.tbl[i].(producerUp := false, bypass := false));
    if r != s1.tbl[i].c1 || (s1.tbl[i].c1 == Q6Cons && s1.a2 == 1) then s1
    else
      var t := if s1.tbl[i].isSet then TearDown(s1, i) else s1;
      Put(t, i, t.tbl[i].(consumerUp := false))
  }

  function AddFrom(s: State, r: Res, bypass: bool, i: nat): (s': State)
    requires i <= |s.tbl|
    ensures |s'.tbl| == |s.tbl| && s'.a2 == s.a2 && s'.refused >= s.refused
    decreases |s.tbl| - i
  {
    if i == |s.tbl| then s else AddFrom(AddRound(s, r, bypass, i), r, bypass, i + 1)
  }

  function DelFrom(s: State, r: Res, i: nat): (s': State)
    requires i <= |s.tbl|
    ensures |s'.tbl| == |s.tbl| && s'.a2 == s.a2 && s'.refused >= s.refused
    decreases |s.tbl| - i
  {
    if i == |s.tbl| then s else DelFrom(DelRound(s, r, i), r, i + 1)
  }

  function AddRmDepend(s: State, r: Res, bypass: bool): (s': State)
    ensures s'.refused >= s.refused
  {
    AddFrom(if r == Q6Cons then s.(a2 := s.a2 + 1) else s, r, bypass, 0)
  }

  function DelRmDepend(s: State, r: Res): (s': State)
    ensures s'.refused >= s.refused
  {
    DelFrom(if r == Q6Cons then s.(a2 := s.a2 - 1) else s, r, 0)
  }

  datatype Op = Add(r: Res, bypass: bool) | Del(r: Res)

  function Step(s: State, op: Op): (s': State)
    ensures s'.refused >= s.refused
  {
    match op
    case Add(r, b) => AddRmDepend(s, r, b)
    case Del(r) => DelRmDepend(s, r)
  }

  function Run(s: State, ops: seq<Op>): (s': State)
    ensures s'.refused >= s.refused
  {
    if ops == [] then s else Step(Run(s, ops[..|ops| - 1]), ops[|ops| - 1])
  }

  function Init(script: nat -> bool): State { State(TABLE, 0, {}, script, 0, 0) }

  // ---- What the table means --------------------------------------------------------------

  /** The resources that are up, the producers' bypass flags, and the Q6 routes left. */
  datatype Ups = Ups(up: set<Res>, bypassed: set<Res>, a2: int)

  function UpStep(u: Ups, op: Op): Ups {
    match op
    case Add(r, b) =>
      Ups(u.up + {r}, if b then u.bypassed + {r} else u.bypassed - {r}, if r == Q6Cons then u.a2 + 1 else u.a2)
    case Del(r) =>
      var n := if r == Q6Cons then u.a2 - 1 else u.a2;
      Ups(if r == Q6Cons && n == 1 then u.up else u.up - {r}, u.bypassed - {r}, n)
  }

  function UpRun(ops: seq<Op>): Ups {
    if ops == [] then Ups({}, {}, 0) else UpStep(UpRun(ops[..|ops| - 1]), ops[|ops| - 1])
  }

  /** What an entry's four flags must be. */
  function Meant(row: Entry, u: Ups): Entry {
    row.(producerUp := row.p1 in u.up, consumerUp := row.c1 in u.up,
         isSet := row.p1 in u.up && row.c1 in u.up, bypass := row.p1 in u.bypassed)
  }

  /** The table after i rounds: the first i entries are as after the step, the rest as before. */
  predicate Mixed(tbl: seq<Entry>, u0: Ups, u1: Ups, i: nat) {
    && |tbl| == |TABLE| && i <= |TABLE|
    && forall j :: 0 <= j < |TABLE| ==> tbl[j] == Meant(TABLE[j], if j < i then u1 else u0)
  }

  predicate Means(s: State, u: Ups) {
    s.a2 == u.a2 && Mixed(s.tbl, u, u, 0)
  }

  lemma Producers(i: nat)
    requires i < |TABLE|
    ensures TABLE[i].p1 != Q6Cons && TABLE[i].p1 != TABLE[i].c1
  {
  }

  lemma AddRoundMeans(s: State, r: Res, bypass: bool, u0: Ups, u1: Ups, i: nat)
    requires i < |TABLE| && Mixed(s.tbl, u0, u1, i) && u1.up == u0.up + {r}
    requires u1.bypassed == if bypass then u0.bypassed + {r} else u0.bypassed - {r}
    ensures Mixed(AddRound(s, r, bypass, i).tbl, u0, u1, i + 1)
  {
    Producers(i);
    hide AddRound;
    AddEntryMeans(s, r, bypass, u0, u1, i, TABLE[i]);
  }

  lemma AddEntryMeans(s: State, r: Res, bypass: bool, u0: Ups, u1: Ups, i: nat, row: Entry)
    requires i < |s.tbl| && s.tbl[i] == Meant(row, u0) && row.p1 != row.c1 && u1.up == u0.up + {r}
    requires u1.bypassed == if bypass then u0.bypassed + {r} else u0.bypassed - {r}
    ensures AddRound(s, r, bypass, i).tbl == s.tbl[i := Meant(row, u1)]
  {
    hide SetUp;
  }

  lemma DelRoundMeans(s: State, r: Res, u0: Ups, u1: Ups, i: nat)
    requires i < |TABLE| && Mixed(s.tbl, u0, u1, i)
    requires u1.up == if r == Q6Cons && s.a2 == 1 then u0.up else u0.up - {r}
    requires u1.bypassed == u0.bypassed - {r}
    ensures Mixed(DelRound(s, r, i).tbl, u0, u1, i + 1)
  {
    Producers(i);
    hide DelRound;
    DelEntryMeans(s, r, u0, u1, i, TABLE[i]);
  }

  lemma DelEntryMeans(s: State, r: Res, u0: Ups, u1: Ups, i: nat, row: Entry)
    requires i < |s.tbl| && s.tbl[i] == Meant(row, u0) && row.p1 != row.c1 && row.p1 != Q6Cons
    requires u1.up == if r == Q6Cons && s.a2 == 1 then u0.up else u0.up - {r}
    requires u1.bypassed == u0.bypassed - {r}
    ensures DelRound(s, r, i).tbl == s.tbl[i := Meant(row, u1)]
  {
    hide TearDown;
  }

  lemma {:induction false} AddMeans(s: State, r: Res, bypass: bool, u0: Ups, u1: Ups, i: nat)
    requires i <= |TABLE| && Mixed(s.tbl, u0, u1, i) && u1.up == u0.up + {r}
    requires u1.bypassed == if bypass then u0.bypassed + {r} else u0.bypassed - {r}
    ensures Mixed(AddFrom(s, r, bypass, i).tbl, u0, u1, |TABLE|)
    decreases |TABLE| - i
  {
    hide AddRound;
    if i < |TABLE| {
      AddRoundMeans(s, r, bypass, u0, u1, i);
      AddMeans(AddRound(s, r, bypass, i), r, bypass, u0, u1, i + 1);
    }
  }

  lemma {:induction false} DelMeans(s: State, r: Res, u0: Ups, u1: Ups, i: nat)
    requires i <= |TABLE| && Mixed(s.tbl, u0, u1, i)
    requires u1.up == if r == Q6Cons && s.a2 == 1 then u0.up else u0.up - {r}
    requires u1.bypassed == u0.bypassed - {r}
    ensures Mixed(DelFrom(s, r, i).tbl, u0, u1, |TABLE|)
    decreases |TABLE| - i
  {
    hide DelRound;
    if i < |TABLE| {
      DelRoundMeans(s, r, u0, u1, i);
      DelMeans(DelRound(s, r, i), r, u0, u1, i + 1);
    }
  }

  lemma StepMeans(s: State, op: Op, u: Ups)
    requires Means(s, u)
    ensures Means(Step(s, op), UpStep(u, op))
  {
    hide AddFrom, DelFrom;
    var u1 := UpStep(u, op);
    match op
    case Add(r, b) => AddMeans(if r == Q6Cons then s.(a2 := s.a2 + 1) else s, r, b, u, u1, 0);
    case Del(r) => DelMeans(if r == Q6Cons then s.(a2 := s.a2 - 1) else s, r, u, u1, 0);
  }

  /** Whatever the driver answers, the six entries' flags are those of the set of resources that
      are up; in particular an entry is set exactly when both its ends are. */
  lemma {:induction false} RunMeans(script: nat -> bool, ops: seq<Op>)
    ensures Means(Run(Init(script), ops), UpRun(ops))
  {
    if ops != [] {
      RunMeans(script, ops[..|ops| - 1]);
      hide Means, Step, UpStep;
      StepMeans(Run(Init(script), ops[..|ops| - 1]), ops[|ops| - 1], UpRun(ops[..|ops| - 1]));
    }
  }

  // ---- The driver's dependencies -----------------------------------------------------------

  function Both(e: Entry): set<Edge> { {(e.p1, e.c1), (e.p2, e.c2)} }

  /** The dependencies an entry stands for: one when its producer bypasses, two otherwise. */
  function EdgesOf(e: Entry): set<Edge> {
    if !e.isSet then {} else if e.bypass then {(e.p2, e.c2)} else Both(e)
  }

  const ENTRIES: nat := 6

  /** The two dependencies the i-th entry is about. */
  function Own(i: nat): set<Edge>
    requires i < ENTRIES
  {
    Both(TABLE[i])
  }

  /** The driver's dependencies are those of the set entries. */
  ghost predicate Exact(tbl: seq<Entry>, edges: set<Edge>) {
    && |tbl| == ENTRIES
    && (forall i :: 0 <= i < ENTRIES ==> Both(tbl[i]) == Own(i) && edges * Own(i) == EdgesOf(tbl[i]))
    && (forall e :: e in edges ==> exists i :: 0 <= i < ENTRIES && e in Own(i))
  }

  /** All twelve dependencies of the table differ. */
  lemma TwelveEdges(i: nat, j: nat)
    requires i < j < ENTRIES
    ensures Own(i) !! Own(j) && |Own(i)| == 2 && |Own(j)| == 2
  {
    assert TABLE[i].p1 != TABLE[i].p2 && TABLE[j].p1 != TABLE[j].p2;
  }

  /** One entry and its own dependencies change. */
  predicate Local(s: State, s': State, i: nat) {
    && i < |s.tbl| == |s'.tbl|
    && s'.tbl == s.tbl[i := s'.tbl[i]]
    && Both(s'.tbl[i]) == Both(s.tbl[i])
    && s'.edges - Both(s.tbl[i]) == s.edges - Both(s.tbl[i])
  }

  lemma Elsewhere(s: State, s': State, i: nat, j: nat)
    requires Local(s, s', i) && i < ENTRIES && j < ENTRIES && i != j && Both(s.tbl[i]) == Own(i)
    ensures s'.edges * Own(j) == s.edges * Own(j)
  {
    if j < i { TwelveEdges(j, i); } else { TwelveEdges(i, j); }
    hide Own, Both;
    forall e ensures e in s'.edges * Own(j) <==> e in s.edges * Own(j) {
      if e in Own(j) { assert e in s'.edges - Own(i) <==> e in s.edges - Own(i); }
    }
  }

  lemma ExactUpdate(s: State, s': State, i: nat)
    requires Exact(s.tbl, s.edges) && i < ENTRIES && Local(s, s', i)
    requires s'.edges * Both(s.tbl[i]) == EdgesOf(s'.tbl[i])
    ensures Exact(s'.tbl, s'.edges)
  {
    hide Own, Both, EdgesOf;
    forall j | 0 <= j < ENTRIES ensures Both(s'.tbl[j]) == Own(j) && s'.edges * Own(j) == EdgesOf(s'.tbl[j]) {
      if j != i { Elsewhere(s, s', i, j); }
    }
    forall e | e in s'.edges ensures exists j :: 0 <= j < ENTRIES && e in Own(j) {
      if e !in Own(i) { assert e in s'.edges - Own(i); }
    }
  }

  /** The producer's flag does not change under an entry that is set. */
  predicate SameBypass(tbl: seq<Entry>, r: Res, bypass: bool) {
    forall i :: 0 <= i < |tbl| && tbl[i].p1 == r && tbl[i].isSet ==> tbl[i].bypass == bypass
  }

  lemma ProducerEdges(s: State, r: Res, bypass: bool, i: nat)
    requires i < |s.tbl| && ProducerUp(s, r, bypass, i).refused == s.refused
    ensures var s' := ProducerUp(s, r, bypass, i);
            && Local(s, s', i) && (s'.tbl[i].p1, s'.tbl[i].c1) == (s.tbl[i].p1, s.tbl[i].c1)
            && (s.edges * Both(s.tbl[i]) == EdgesOf(s.tbl[i]) && SameBypass(s.tbl, r, bypass) ==>
                  s'.edges * Both(s.tbl[i]) == EdgesOf(s'.tbl[i]))
            && (s'.tbl[i].p1 == r ==> s'.tbl[i].bypass == bypass)
            && (s.tbl[i].isSet ==> s'.edges == s.edges)
            && (s.tbl[i].isSet && s.tbl[i].p1 == r ==> s'.tbl[i] == s.tbl[i].(producerUp := true, bypass := bypass))
  {
    hide SetUp;
  }

  lemma ConsumerEdges(s: State, r: Res, i: nat)
    requires i < |s.tbl| && ConsumerUp(s, r, i).refused == s.refused
    ensures var s' := ConsumerUp(s, r, i);
            && Local(s, s', i)
            && (s.edges * Both(s.tbl[i]) == EdgesOf(s.tbl[i]) ==> s'.edges * Both(s.tbl[i]) == EdgesOf(s'.tbl[i]))
            && (s'.tbl[i].p1, s'.tbl[i].bypass) == (s.tbl[i].p1, s.tbl[i].bypass)
            && (s.tbl[i].c1 != r ==> s' == s)
  {
    hide SetUp;
  }

  lemma AddRoundEdges(s: State, r: Res, bypass: bool, i: nat)
    requires i < |s.tbl| && AddRound(s, r, bypass, i).refused == s.refused
    ensures var s' := AddRound(s, r, bypass, i);
            && Local(s, s', i)
            && (s.edges * Both(s.tbl[i]) == EdgesOf(s.tbl[i]) && SameBypass(s.tbl, r, bypass) ==>
                  s'.edges * Both(s.tbl[i]) == EdgesOf(s'.tbl[i]))
            && (s'.tbl[i].p1 == r && s'.tbl[i].isSet ==> s'.tbl[i].bypass == bypass)
            && (s.tbl[i].isSet && s.tbl[i].c1 != r ==> s'.edges == s.edges)
            && (s.tbl[i].isSet && s.tbl[i].p1 == r && s.tbl[i].c1 != r ==>
                  s'.tbl[i] == s.tbl[i].(producerUp := true, bypass := bypass))
  {
    var s1 := ProducerUp(s, r, bypass, i);
    ProducerEdges(s, r, bypass, i);
    ConsumerEdges(s1, r, i);
    LocalTwice(s, s1, AddRound(s, r, bypass, i), i);
    hide ProducerUp, ConsumerUp, Local, SameBypass, Both, EdgesOf;
  }

  lemma LocalTwice(s: State, s1: State, s2: State, i: nat)
    requires Local(s, s1, i) && Local(s1, s2, i)
    ensures Local(s, s2, i) && Both(s1.tbl[i]) == Both(s.tbl[i])
  {
    hide Both;
    assert s1.tbl[i := s2.tbl[i]] == s.tbl[i := s2.tbl[i]];
  }

  lemma DelRoundEdges(s: State, r: Res, i: nat)
    requires i < |s.tbl| && DelRound(s, r, i).refused == s.refused
    ensures var s' := DelRound(s, r, i);
            && Local(s, s', i)
            && (s.edges * Both(s.tbl[i]) == EdgesOf(s.tbl[i]) ==> s'.edges * Both(s.tbl[i]) == EdgesOf(s'.tbl[i]))
  {
    hide TearDown;
  }

  lemma {:induction false} AddExact(s: State, r: Res, bypass: bool, i: nat)
    requires Exact(s.tbl, s.edges) && i <= ENTRIES && SameBypass(s.tbl, r, bypass)
    requires AddFrom(s, r, bypass, i).refused == s.refused
    ensures var s' := AddFrom(s, r, bypass, i); Exact(s'.tbl, s'.edges)
    decreases ENTRIES - i
  {
    hide AddRound, Own, Both, EdgesOf;
    if i < ENTRIES {
      var s1 := AddRound(s, r, bypass, i);
      AddRoundEdges(s, r, bypass, i);
      ExactUpdate(s, s1, i);
      AddExact(s1, r, bypass, i + 1);
    }
  }

  lemma {:induction false} DelExact(s: State, r: Res, i: nat)
    requires Exact(s.tbl, s.edges) && i <= ENTRIES
    requires DelFrom(s, r, i).refused == s.refused
    ensures var s' := DelFrom(s, r, i); Exact(s'.tbl, s'.edges)
    decreases ENTRIES - i
  {
    hide DelRound, Own, Both, EdgesOf;
    if i < ENTRIES {
      var s1 := DelRound(s, r, i);
      DelRoundEdges(s, r, i);
      ExactUpdate(s, s1, i);
      DelExact(s1, r, i + 1);
    }
  }

  /** An add leaves a set entry's dependencies alone, whatever it does to its flag. */
  lemma {:induction false} AddLeaves(s: State, r: Res, bypass: bool, i: nat, j: nat)
    requires i <= ENTRIES == |s.tbl| && j < ENTRIES && s.tbl[j].isSet && s.tbl[j].p1 == r && s.tbl[j].c1 != r
    requires forall k :: 0 <= k < ENTRIES ==> Both(s.tbl[k]) == Own(k)
    requires AddFrom(s, r, bypass, i).refused == s.refused
    ensures var s' := AddFrom(s, r, bypass, i);
            && s'.edges * Own(j) == s.edges * Own(j)
            && s'.tbl[j] == if i <= j then s.tbl[j].(producerUp := true, bypass := bypass) else s.tbl[j]
    decreases ENTRIES - i
  {
    hide AddRound, Own, Both, EdgesOf;
    if i < ENTRIES {
      AddRoundEdges(s, r, bypass, i);
      if i != j { Elsewhere(s, AddRound(s, r, bypass, i), i, j); }
      AddLeaves(AddRound(s, r, bypass, i), r, bypass, i + 1, j);
    }
  }

  /** What the table's meaning gives for its names. */
  lemma Names(s: State, u: Ups)
    requires Means(s, u)
    ensures |s.tbl| == ENTRIES
    ensures forall i :: 0 <= i < ENTRIES ==>
              && Both(s.tbl[i]) == Own(i) && s.tbl[i].p1 != s.tbl[i].c1
              && (s.tbl[i].p1, s.tbl[i].c1) != (s.tbl[i].p2, s.tbl[i].c2)
  {
  }

  /** In any state the table can be in, with a driver that accepts every call, an add keeps the
      dependencies exact if and only if it does not change the bypass flag of a producer that
      some set entry uses. */
  lemma AddExactIff(s: State, u: Ups, r: Res, bypass: bool)
    requires Means(s, u) && Exact(s.tbl, s.edges) && AddRmDepend(s, r, bypass).refused == s.refused
    ensures Exact(AddRmDepend(s, r, bypass).tbl, AddRmDepend(s, r, bypass).edges) <==> SameBypass(s.tbl, r, bypass)
  {
    hide AddFrom, Means, Own, Both, EdgesOf;
    Names(s, u);
    var s1 := if r == Q6Cons then s.(a2 := s.a2 + 1) else s;
    if SameBypass(s.tbl, r, bypass) {
      AddExact(s1, r, bypass, 0);
    } else {
      var j :| 0 <= j < |s.tbl| && s.tbl[j].p1 == r && s.tbl[j].isSet && s.tbl[j].bypass != bypass;
      AddLeaves(s1, r, bypass, 0, j);
      OneOrTwo(s.tbl[j], AddRmDepend(s, r, bypass).tbl[j]);
    }
  }

  lemma OneOrTwo(e: Entry, e': Entry)
    requires e.isSet && e' == e.(producerUp := e'.producerUp, bypass := e'.bypass) && e.bypass != e'.bypass
    requires (e.p1, e.c1) != (e.p2, e.c2)
    ensures EdgesOf(e) != EdgesOf(e')
  {
    assert (e.p1, e.c1) in Both(e);
  }

  /** Each add of the run leaves the bypass flags of set entries as they are. */
  predicate Steady(script: nat -> bool, ops: seq<Op>) {
    ops == [] ||
    (Steady(script, ops[..|ops| - 1])
     && (ops[|ops| - 1].Add? ==>
           SameBypass(Run(Init(script), ops[..|ops| - 1]).tbl, ops[|ops| - 1].r, ops[|ops| - 1].bypass)))
  }

  lemma InitExact()
    ensures Exact(TABLE, {})
  {
  }

  /** In every run in which producers keep their bypass flag while in use and the driver refuses
      nothing, the driver's dependencies are exactly those of the set entries. */
  lemma {:induction false} RunExact(script: nat -> bool, ops: seq<Op>)
    requires Steady(script, ops) && Run(Init(script), ops).refused == 0
    ensures Exact(Run(Init(script), ops).tbl, Run(Init(script), ops).edges)
  {
    if ops == [] {
      InitExact();
      return;
    }
    hide Exact, SameBypass, Step, Init;
    RunExact(script, ops[..|ops| - 1]);
    StepExact(Run(Init(script), ops[..|ops| - 1]), ops[|ops| - 1]);
  }

  lemma StepExact(s: State, op: Op)
    requires Exact(s.tbl, s.edges) && (op.Add? ==> SameBypass(s.tbl, op.r, op.bypass))
    requires Step(s, op).refused == s.refused
    ensures Exact(Step(s, op).tbl, Step(s, op).edges)
  {
    hide Exact, SameBypass, AddFrom, DelFrom;
    ExactSize(s);
    match op
    case Add(r, b) => AddExact(if r == Q6Cons then s.(a2 := s.a2 + 1) else s, r, b, 0);
    case Del(r) => DelExact(if r == Q6Cons then s.(a2 := s.a2 - 1) else s, r, 0);
  }

  lemma ExactSize(s: State)
    requires Exact(s.tbl, s.edges)
    ensures |s.tbl| == ENTRIES
  {
  }

  // ---- A changed flag ----------------------------------------------------------------------

  ghost predicate Accepting(s: State) { forall n :: s.script(n) }

  lemma RoundAccepted(s: State, r: Res, bypass: bool, i: nat)
    requires Accepting(s) && i < |s.tbl|
    ensures Accepting(AddRound(s, r, bypass, i)) && AddRound(s, r, bypass, i).refused == s.refused
  {
  }

  lemma {:induction false} FromAccepted(s: State, r: Res, bypass: bool, i: nat)
    requires Accepting(s) && i <= |s.tbl|
    ensures Accepting(AddFrom(s, r, bypass, i)) && AddFrom(s, r, bypass, i).refused == s.refused
    decreases |s.tbl| - i
  {
    hide AddRound, Accepting;
    if i < |s.tbl| {
      RoundAccepted(s, r, bypass, i);
      FromAccepted(AddRound(s, r, bypass, i), r, bypass, i + 1);
    }
  }

  /** A driver that accepts every call refuses no add. */
  lemma AddAccepted(s: State, r: Res, bypass: bool)
    requires Accepting(s)
    ensures Accepting(AddRmDepend(s, r, bypass)) && AddRmDepend(s, r, bypass).refused == s.refused
  {
    hide AddFrom;
    FromAccepted(if r == Q6Cons then s.(a2 := s.a2 + 1) else s, r, bypass, 0);
  }

  lemma RunLast(s: State, ops: seq<Op>, op: Op)
    ensures Run(s, ops + [op]) == Step(Run(s, ops), op) && (ops + [op])[..|ops|] == ops
  {
    assert (ops + [op])[..|ops|] == ops;
  }

  /** From the start, with every call accepted: a producer that comes up again with another bypass
      flag leaves a dependency behind that no set entry stands for. */
  lemma FlagRun(script: nat -> bool)
    requires forall n :: script(n)
    ensures var s := Run(Init(script), [Add(WlanProd, false)] + [Add(Q6Cons, false)]);
            var s' := Step(s, Add(WlanProd, true));
            Exact(s.tbl, s.edges) && !Exact(s'.tbl, s'.edges)
  {
    var ops := [Add(WlanProd, false)] + [Add(Q6Cons, false)];
    var s1, s2 := Run(Init(script), [Add(WlanProd, false)]), Run(Init(script), ops);
    RunLast(Init(script), [Add(WlanProd, false)], Add(Q6Cons, false));
    RunLast(Init(script), [], Add(WlanProd, false));
    assert [] + [Add(WlanProd, false)] == [Add(WlanProd, false)];
    hide Exact, AddRmDepend, Means, Accepting;
    StartAccepting(script);
    AddAccepted(Init(script), WlanProd, false);
    AddAccepted(s1, Q6Cons, false);
    AddAccepted(s2, WlanProd, true);
    StartSteady(script);
    RunExact(script, ops);
    RunMeans(script, ops);
    WlanInUse(s2, ops);
    AddExactIff(s2, UpRun(ops), WlanProd, true);
  }

  lemma StartAccepting(script: nat -> bool)
    requires forall n :: script(n)
    ensures Accepting(Init(script))
  {
  }

  lemma StartSteady(script: nat -> bool)
    ensures Steady(script, [Add(WlanProd, false)] + [Add(Q6Cons, false)])
  {
    var a, b := Add(WlanProd, false), Add(Q6Cons, false);
    RunLast(Init(script), [a], b);
    RunMeans(script, [a]);
    hide Run;
    FirstSteady(script, a);
    NoQ6Producer(Run(Init(script), [a]), UpRun([a]));
  }

  lemma FirstSteady(script: nat -> bool, op: Op)
    requires op.Add? && !op.bypass
    ensures Steady(script, [op])
  {
    assert [op][..0] == [] && Steady(script, []) && Run(Init(script), []) == Init(script);
  }

  lemma NoQ6Producer(s: State, u: Ups)
    requires Means(s, u)
    ensures SameBypass(s.tbl, Q6Cons, false)
  {
    forall i | 0 <= i < |s.tbl| ensures s.tbl[i].p1 != Q6Cons { Producers(i); }
  }

  lemma WlanInUse(s: State, ops: seq<Op>)
    requires ops == [Add(WlanProd, false)] + [Add(Q6Cons, false)] && Means(s, UpRun(ops))
    ensures !SameBypass(s.tbl, WlanProd, true)
  {
    assert ops[..1] == [Add(WlanProd, false)];
    assert UpRun([Add(WlanProd, false)]) == Ups({WlanProd}, {}, 0);
    assert UpRun(ops) == Ups({WlanProd, Q6Cons}, {}, 1);
    assert s.tbl[0].p1 == WlanProd && s.tbl[0].isSet && !s.tbl[0].bypass;
  }

  // ---- The dependencies by kind -----------------------------------------------------------------

  datatype Kind = Wlan | Odu | Usb | Q6

  function Rank(k: Kind): nat { match k case Wlan => 0 case Odu => 1 case Usb => 2 case Q6 => 3 }

  function Producer(k: Kind): Res { match k case Wlan => WlanProd case Odu => OduProd case Usb => UsbProd case Q6 => Q6Prod }

  function Consumer(k: Kind): Res { match k case Wlan => WlanCons case Odu => OduCons case Usb => UsbCons case Q6 => Q6Cons }

  /** The table's entry for two kinds, the first of lower rank. */
  function EntryFor(a: Kind, b: Kind): (i: nat)
    requires Rank(a) < Rank(b)
    ensures i < ENTRIES && TABLE[i] == Row(Producer(a), Consumer(b), Producer(b), Consumer(a))
  {
    if a == Wlan then (if b == Q6 then 0 else if b == Usb then 2 else 4)
    else if a == Odu then (if b == Q6 then 3 else 5)
    else 1
  }

  /** Every dependency of the table is that of some kind's producer on another kind's consumer. */
  lemma OwnKinds(i: nat, e: Edge)
    requires i < ENTRIES && e in Own(i)
    ensures exists a, b :: a != b && e == (Producer(a), Consumer(b))
  {
    var kinds: seq<(Kind, Kind)> := [(Wlan, Q6), (Usb, Q6), (Wlan, Usb), (Odu, Q6), (Wlan, Odu), (Odu, Usb)];
    var (a, b) := kinds[i];
    assert e == (Producer(a), Consumer(b)) || e == (Producer(b), Consumer(a));
  }

  /** Two kinds are in touch when the lower one's producer and the higher one's consumer are up. */
  predicate InTouch(u: Ups, a: Kind, b: Kind) {
    if Rank(a) < Rank(b) then Producer(a) in u.up && Consumer(b) in u.up else Producer(b) in u.up && Consumer(a) in u.up
  }

  /** In every run in which producers keep their bypass flag while in use and the driver refuses
      nothing, a kind's producer depends on another kind's consumer exactly while the two kinds are
      in touch, unless it is the lower one's and bypassed; there are no other dependencies. */
  lemma DependsIff(script: nat -> bool, ops: seq<Op>, a: Kind, b: Kind)
    requires Steady(script, ops) && Run(Init(script), ops).refused == 0 && a != b
    ensures var u := UpRun(ops);
            (Producer(a), Consumer(b)) in Run(Init(script), ops).edges
            <==> InTouch(u, a, b) && !(Rank(a) < Rank(b) && Producer(a) in u.bypassed)
  {
    hide Run, UpRun, Exact, Means, Producer, Consumer;
    RunExact(script, ops);
    RunMeans(script, ops);
    var s, u := Run(Init(script), ops), UpRun(ops);
    if Rank(a) < Rank(b) { EntryDepends(s, u, a, b); } else { EntryDepends(s, u, b, a); }
  }

  lemma EntryDepends(s: State, u: Ups, a: Kind, b: Kind)
    requires Means(s, u) && Exact(s.tbl, s.edges) && Rank(a) < Rank(b)
    ensures var up := Producer(a) in u.up && Consumer(b) in u.up;
            && ((Producer(a), Consumer(b)) in s.edges <==> up && Producer(a) !in u.bypassed)
            && ((Producer(b), Consumer(a)) in s.edges <==> up)
  {
    var i := EntryFor(a, b);
    var row := Row(Producer(a), Consumer(b), Producer(b), Consumer(a));
    assert s.tbl[i] == Meant(row, u) && s.edges * Own(i) == EdgesOf(s.tbl[i]);
    assert Own(i) == Both(row) && Producer(a) != Producer(b);
    hide Exact, Mixed, EntryFor, Own, Producer, Consumer;
    var e, f := (Producer(a), Consumer(b)), (Producer(b), Consumer(a));
    assert e in Both(row) && f in Both(row) && e != f;
    assert e in s.edges <==> e in s.edges * Own(i);
    assert f in s.edges <==> f in s.edges * Own(i);
  }

  lemma NoOtherDependency(script: nat -> bool, ops: seq<Op>, e: Edge)
    requires Steady(script, ops) && Run(Init(script), ops).refused == 0 && e in Run(Init(script), ops).edges
    ensures exists a, b :: a != b && e == (Producer(a), Consumer(b))
  {
    RunExact(script, ops);
    hide Run, Own;
    var i :| 0 <= i < ENTRIES && e in Own(i);
    OwnKinds(i, e);
  }

  // ---- Counting routes through Q6 ----------------------------------------------------------

  /** What the counter is for: the consumer stays up as long as routes through it are left. */
  predicate Counted(u: Ups) { u.a2 >= 0 && (Q6Cons in u.up <==> u.a2 > 0) }

  /** The source tests for exactly one route left, so with three or more the consumer goes down
      although two or more remain. */
  lemma CountedIff(u: Ups)
    requires Counted(u) && u.a2 > 0
    ensures Counted(UpStep(u, Del(Q6Cons))) <==> u.a2 <= 2
  {
  }

  /** So with three routes, the first that goes takes the consumer down. */
  lemma ThreeRoutesRun()
    ensures var add := Add(Q6Cons, false);
            var u := UpRun([add] + [add] + [add] + [Del(Q6Cons)]);
            u.a2 == 2 && Q6Cons !in u.up
  {
    var add := Add(Q6Cons, false);
    UpLast([], add);
    assert [] + [add] == [add];
    UpLast([add], add);
    UpLast([add] + [add], add);
    UpLast([add] + [add] + [add], Del(Q6Cons));
  }

  lemma UpLast(ops: seq<Op>, op: Op)
    ensures UpRun(ops + [op]) == UpStep(UpRun(ops), op)
  {
    assert (ops + [op])[..|ops|] == ops;
  }

  /** With an IPv4 and an IPv6 route at most, it works. */
  lemma {:induction false} RunCounted(ops: seq<Op>)
    requires forall n :: 0 <= n <= |ops| ==> 0 <= UpRun(ops[..n]).a2 <= 2
    ensures Counted(UpRun(ops))
  {
    if ops != [] {
      var before := ops[..|ops| - 1];
      assert forall n :: 0 <= n <= |before| ==> before[..n] == ops[..n];
      RunCounted(before);
      assert 0 <= UpRun(ops[..|ops|]).a2 <= 2 && ops[..|ops|] == ops;
    }
  }

  // ---- The table as an object --------------------------------------------------------------

  class Config {
    const tbl: array<Entry>
    var a2: int
    var edges: set<Edge>
    const script: nat -> bool
    var pos: nat
    ghost var refused: nat

    ghost function View(): State
      reads this, tbl
    {
      State(tbl[..], a2, edges, script, pos, refused)
    }

    constructor (script: nat -> bool)
      ensures View() == Init(script) && fresh(tbl)
    {
      tbl := new Entry[|TABLE|](i requires 0 <= i < |TABLE| => TABLE[i]);
      a2, edges, pos, refused := 0, {}, 0, 0;
      this.script := script;
      new;
      assert tbl[..] == TABLE;
    }

    /** The add-dependency ioctl. */
    method AddDependency(e: Edge)
      modifies this`edges, this`pos, this`refused
      ensures View() == AddEdge(old(View()), e)
    {
      if script(pos) { edges := edges + {e}; } else { refused := refused + 1; }
      pos := pos + 1;
    }

    method DelDependency(e: Edge)
      modifies this`edges, this`pos, this`refused
      ensures View() == DelEdge(old(View()), e)
    {
      if script(pos) { edges := edges - {e}; } else { refused := refused + 1; }
      pos := pos + 1;
    }

    method Write(i: nat, e: Entry)
      requires i < tbl.Length
      modifies tbl
      ensures View() == Put(old(View()), i, e)
    {
      tbl[i] := e;
      assert tbl[..] == old(tbl[..])[i := e];
    }

    method SetUpEntry(i: nat)
      requires i < tbl.Length
      modifies this, tbl
      ensures View() == SetUp(old(View()), i)
    {
      hide AddEdge;
      if !tbl[i].bypass { AddDependency((tbl[i].p1, tbl[i].c1)); }
      AddDependency((tbl[i].p2, tbl[i].c2));
      Write(i, tbl[i].(isSet := true));
    }

    method TearDownEntry(i: nat)
      requires i < tbl.Length
      modifies this, tbl
      ensures View() == TearDown(old(View()), i)
    {
      hide DelEdge;
      Write(i, tbl[i].(isSet := false));
      if !tbl[i].bypass { DelDependency((tbl[i].p1, tbl[i].c1)); }
      DelDependency((tbl[i].p2, tbl[i].c2));
    }

    method AddEntryRound(r: Res, bypass: bool, i: nat)
      requires i < tbl.Length
      modifies this, tbl
      ensures View() == AddRound(old(View()), r, bypass, i)
    {
      hide SetUp;
      if r == tbl[i].p1 {
        Write(i, tbl[i].(producerUp := true, bypass := bypass));
        if tbl[i].consumerUp && !tbl[i].isSet { SetUpEntry(i); }
      }
      if r == tbl[i].c1 {
        Write(i, tbl[i].(consumerUp := true));
        if tbl[i].producerUp && !tbl[i].isSet { SetUpEntry(i); }
      }
    }

    method DelEntryRound(r: Res, i: nat)
      requires i < tbl.Length
      modifies this, tbl
      ensures View() == DelRound(old(View()), r, i)
    {
      hide TearDown;
      if r == tbl[i].p1 {
        if tbl[i].isSet { TearDownEntry(i); }
        Write(i, tbl[i].(producerUp := false, bypass := false));
      }
      if r == tbl[i].c1 {
        if tbl[i].c1 == Q6Cons && a2 == 1 { return; }
        if tbl[i].isSet { TearDownEntry(i); }
        Write(i, tbl[i].(consumerUp := false));
      }
    }

    method AddDepend(r: Res, bypass: bool)
      modifies this, tbl
      ensures View() == AddRmDepend(old(View()), r, bypass)
    {
      hide AddRound;
      if r == Q6Cons { a2 := a2 + 1; }
      ghost var s := View();
      var i := 0;
      while i < tbl.Length
        invariant i <= tbl.Length
        invariant AddFrom(View(), r, bypass, i) == AddFrom(s, r, bypass, 0)
      {
        AddEntryRound(r, bypass, i);
        i := i + 1;
      }
    }

    method DelDepend(r: Res)
      modifies this, tbl
      ensures View() == DelRmDepend(old(View()), r)
    {
      hide DelRound;
      if r == Q6Cons { a2 := a2 - 1; }
      ghost var s := View();
      var i := 0;
      while i < tbl.Length
        invariant i <= tbl.Length
        invariant DelFrom(View(), r, i) == DelFrom(s, r, 0)
      {
        DelEntryRound(r, i);
        i := i + 1;
      }
    }
  }
}
