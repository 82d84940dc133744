/** The registration lists of IPACM_EvtDispatcher and IPACM_IfaceManager: two linked lists of
    (key, object) nodes with the same code, where the key is an event or an interface index. */
module Listeners {

  type Obj = nat

  datatype Reg = Reg(key: nat, obj: Obj)

  /** The list without one object's registrations. */
  function Without(rs: seq<Reg>, o: Obj): (r: seq<Reg>)
    ensures |r| <= |rs|
    ensures forall x :: x in r <==> x in rs && x.obj != o
  {
    if rs == [] then []
    else if rs[0].obj == o then Without(rs[1..], o)
    else [rs[0]] + Without(rs[1..], o)
  }

  /** The registrations for one event. */
  function Matching(rs: seq<Reg>, event: nat): seq<Reg> {
    if rs == [] then []
    else if rs[0].key == event then [rs[0]] + Matching(rs[1..], event)
    else Matching(rs[1..], event)
  }

  lemma {:induction false} WithoutJoin(a: seq<Reg>, b: seq<Reg>, o: Obj)
    ensures Without(a + b, o) == Without(a, o) + Without(b, o)
  {
    if a == [] {
      assert a + b == b;
    } else {
      assert (a + b)[1..] == a[1..] + b;
      WithoutJoin(a[1..], b, o);
    }
  }

  lemma {:induction false} MatchingJoin(a: seq<Reg>, b: seq<Reg>, event: nat)
    ensures Matching(a + b, event) == Matching(a, event) + Matching(b, event)
  {
    if a == [] {
      assert a + b == b;
    } else {
      assert (a + b)[1..] == a[1..] + b;
      MatchingJoin(a[1..], b, event);
    }
  }

  lemma {:induction false} WithoutNone(rs: seq<Reg>, o: Obj)
    requires forall i :: 0 <= i < |rs| ==> rs[i].obj != o
    ensures Without(rs, o) == rs
  {
    if rs != [] { WithoutNone(rs[1..], o); }
  }

  lemma {:induction false} WithoutAll(rs: seq<Reg>, o: Obj)
    requires forall i :: 0 <= i < |rs| ==> rs[i].obj == o
    ensures Without(rs, o) == []
  {
    if rs != [] { WithoutAll(rs[1..], o); }
  }

  // ---- Dispatch ------------------------------------------------------------------------

  /** What a dispatch leaves and whom it called.  `wild` says that it went on to a node which the
      last callback had freed, which is undefined in the source; the walk ends there. */
  datatype Walked = Walked(list: seq<Reg>, calls: seq<Reg>, wild: bool)

  function Called(r: Reg, w: Walked): Walked { w.(calls := [r] + w.calls) }

  /** ProcessEvt from the node rest[0] on.  The node is copied before its callback runs, so the
      walk goes on to the successor the node had before the call.  The objects in `deletes`
      answer this event by deleting, and so deregistering, themselves. */
  function Walk(before: seq<Reg>, rest: seq<Reg>, event: nat, deletes: set<Obj>): Walked
    decreases |rest|
  {
    if rest == [] then Walked(before, [], false)
    else
      var r := rest[0];
      if r.key != event then Walk(before + [r], rest[1..], event, deletes)
      else if r.obj !in deletes then Called(r, Walk(before + [r], rest[1..], event, deletes))
      else if |rest| > 1 && rest[1].obj == r.obj then Walked(Without(before + rest, r.obj), [r], true)
      else Called(r, Walk(Without(before, r.obj), Without(rest[1..], r.obj), event, deletes))
  }

  function Dispatch(rs: seq<Reg>, event: nat, deletes: set<Obj>): Walked { Walk([], rs, event, deletes) }

  /** Every callback that deletes its object runs at that object's last registration. */
  predicate Tidy(rs: seq<Reg>, event: nat, deletes: set<Obj>) {
    forall i, j :: 0 <= i < j < |rs| && rs[i].key == event && rs[i].obj in deletes ==> rs[j].obj != rs[i].obj
  }

  lemma {:induction false} WalkTidy(before: seq<Reg>, rest: seq<Reg>, event: nat, deletes: set<Obj>)
    requires Tidy(rest, event, deletes)
    ensures var w := Walk(before, rest, event, deletes);
            !w.wild && w.calls == Matching(rest, event)
    decreases |rest|
  {
    if rest == [] { return; }
    var r := rest[0];
    if r.key == event && r.obj in deletes {
      assert forall j :: 0 <= j < |rest[1..]| ==> rest[1..][j].obj == rest[j + 1].obj;
      WithoutNone(rest[1..], r.obj);
      WalkTidy(Without(before, r.obj), rest[1..], event, deletes);
    } else {
      WalkTidy(before + [r], rest[1..], event, deletes);
    }
  }

  /** Each matching registration is called exactly once, in registration order, and only live
      nodes are touched, as long as deleting callbacks run at their object's last registration. */
  lemma DispatchTidy(rs: seq<Reg>, event: nat, deletes: set<Obj>)
    requires Tidy(rs, event, deletes)
    ensures !Dispatch(rs, event, deletes).wild
    ensures Dispatch(rs, event, deletes).calls == Matching(rs, event)
  {
    WalkTidy([], rs, event, deletes);
  }

  predicate FirstMatch(rs: seq<Reg>, i: nat, event: nat, o: Obj) {
    && i < |rs| && rs[i] == Reg(event, o)
    && forall j :: 0 <= j < i ==> rs[j] != Reg(event, o)
  }

  /** What a walk does when o, whose first matching node is rest[i], deletes itself. */
  predicate WalkedAt(before: seq<Reg>, rest: seq<Reg>, i: nat, event: nat, o: Obj) {
    i < |rest| &&
    var w := Walk(before, rest, event, {o});
    && (w.wild <==> i + 1 < |rest| && rest[i + 1].obj == o)
    && w.list == Without(before + rest, o)
    && w.calls == Matching(rest[..i + 1], event) + (if w.wild then [] else Matching(Without(rest[i + 1..], o), event))
  }

  lemma {:induction false} WalkOne(before: seq<Reg>, rest: seq<Reg>, i: nat, event: nat, o: Obj)
    requires FirstMatch(rest, i, event, o)
    ensures WalkedAt(before, rest, i, event, o)
    decreases |rest|
  {
    hide WalkedAt;
    if i == 0 {
      WalkFirst(before, rest, event, o);
    } else {
      assert rest[1..][i - 1] == rest[i] && rest[0] != Reg(event, o);
      forall j | 0 <= j < i - 1 ensures rest[1..][j] != Reg(event, o) { assert rest[1..][j] == rest[j + 1]; }
      WalkOne(before + [rest[0]], rest[1..], i - 1, event, o);
      WalkedBack(before, rest, i, event, o);
    }
  }

  lemma WalkedBack(before: seq<Reg>, rest: seq<Reg>, i: nat, event: nat, o: Obj)
    requires 0 < i < |rest| && rest[0] != Reg(event, o) && WalkedAt(before + [rest[0]], rest[1..], i - 1, event, o)
    ensures WalkedAt(before, rest, i, event, o)
  {
    hide Without, Walk, Matching;
    WalkSkip(before, rest, event, o);
    assert before + rest == before + [rest[0]] + rest[1..];
    assert rest[1..][i..] == rest[i + 1..];
    MatchingSkip(rest, i + 1, event);
  }

  lemma WalkSkip(before: seq<Reg>, rest: seq<Reg>, event: nat, o: Obj)
    requires rest != [] && rest[0] != Reg(event, o)
    ensures var w := Walk(before + [rest[0]], rest[1..], event, {o});
            Walk(before, rest, event, {o}) == if rest[0].key == event then Called(rest[0], w) else w
  {
  }

  lemma MatchingSkip(rest: seq<Reg>, n: nat, event: nat)
    requires 0 < n <= |rest|
    ensures Matching(rest[..n], event)
         == (if rest[0].key == event then [rest[0]] else []) + Matching(rest[1..][..n - 1], event)
  {
    assert rest[..n][1..] == rest[1..][..n - 1];
  }

  lemma WalkFirst(before: seq<Reg>, rest: seq<Reg>, event: nat, o: Obj)
    requires rest != [] && rest[0] == Reg(event, o)
    ensures WalkedAt(before, rest, 0, event, o)
  {
    assert rest[..1][1..] == [] && Matching(rest[..1], event) == [rest[0]];
    var after := Without(rest[1..], o);
    WalkTidy(Without(before, o), after, event, {o});
    WalkKeeps(Without(before, o), after, event, o);
    WithoutJoin(before, rest, o);
    assert Without(rest, o) == after;
  }

  lemma {:induction false} WalkKeeps(before: seq<Reg>, rest: seq<Reg>, event: nat, o: Obj)
    requires forall x :: x in rest ==> x.obj != o
    ensures Walk(before, rest, event, {o}).list == before + rest
    decreases |rest|
  {
    if rest == [] {
      assert before + rest == before;
    } else {
      WalkKeeps(before + [rest[0]], rest[1..], event, o);
      assert before + [rest[0]] + rest[1..] == before + rest;
    }
  }

  /** One object deletes itself: exactly its registrations go, and the walk touches a freed node
      exactly when the node after the one being served belongs to the same object. */
  lemma DeleteSelfIff(rs: seq<Reg>, i: nat, event: nat, o: Obj)
    requires FirstMatch(rs, i, event, o)
    ensures var w := Dispatch(rs, event, {o});
            && (w.wild <==> i + 1 < |rs| && rs[i + 1].obj == o)
            && w.list == Without(rs, o)
            && (!w.wild ==> w.calls == Matching(rs[..i + 1], event) + Matching(Without(rs[i + 1..], o), event))
  {
    WalkOne([], rs, i, event, o);
    assert [] + rs == rs;
  }
}

/** The linked list itself. */
module ListenerObjects {
  import opened Listeners

  class Node {
    const key: nat
    const obj: Obj
    var next: Node?

    constructor (key: nat, obj: Obj)
      ensures this.key == key && this.obj == obj && next == null
    {
      this.key, this.obj, next := key, obj, null;
    }
  }

  function Entries(ns: seq<Node>): (rs: seq<Reg>)
    ensures |rs| == |ns| && forall i :: 0 <= i < |rs| ==> rs[i] == Reg(ns[i].key, ns[i].obj)
  {
    if ns == [] then [] else [Reg(ns[0].key, ns[0].obj)] + Entries(ns[1..])
  }

  /** The surviving nodes, the same objects in the same order. */
  function Keep(ns: seq<Node>, o: Obj): (r: seq<Node>)
    ensures forall i :: 0 <= i < |r| ==> r[i] in ns && r[i].obj != o
    ensures forall i :: 0 <= i < |ns| && ns[i].obj != o ==> ns[i] in r
  {
    if ns == [] then [] else if ns[0].obj == o then Keep(ns[1..], o) else [ns[0]] + Keep(ns[1..], o)
  }

  lemma {:induction false} KeepJoin(a: seq<Node>, b: seq<Node>, o: Obj)
    ensures Keep(a + b, o) == Keep(a, o) + Keep(b, o)
  {
    if a == [] {
      assert a + b == b;
    } else {
      assert (a + b)[1..] == a[1..] + b;
      KeepJoin(a[1..], b, o);
    }
  }

  lemma {:induction false} KeepEntries(ns: seq<Node>, o: Obj)
    ensures Entries(Keep(ns, o)) == Without(Entries(ns), o)
  {
    if ns != [] {
      assert Entries(ns)[1..] == Entries(ns[1..]);
      KeepEntries(ns[1..], o);
      if ns[0].obj != o { assert Keep(ns, o)[1..] == Keep(ns[1..], o); }
    }
  }

  lemma EntriesJoin(a: seq<Node>, b: seq<Node>)
    ensures Entries(a + b) == Entries(a) + Entries(b)
  {
  }

  class Registry {
    var head: Node?
    ghost var nodes: seq<Node>
    ghost var freed: set<Node>

    /** head leads through `nodes` to null, and none of them is freed. */
    ghost predicate Valid()
      reads this, nodes
    {
      Linked(head, nodes) && forall n :: n in nodes ==> n !in freed
    }

    constructor ()
      ensures Valid() && nodes == [] && freed == {}
    {
      head, nodes, freed := null, [], {};
    }

    lemma ValidAt(k: nat)
      requires Valid() && k < |nodes|
      ensures head == nodes[0] && nodes[k] !in freed && nodes[k].next == if k + 1 < |nodes| then nodes[k + 1] else null
      ensures forall j :: 0 <= j < |nodes| && j != k ==> nodes[j] != nodes[k]
    {
    }

    lemma ValidHead()
      requires Valid()
      ensures head == if nodes == [] then null else nodes[0]
    {
    }

    method LastNode() returns (tmp: Node)
      requires Valid() && head != null
      ensures nodes != [] && tmp == nodes[|nodes| - 1]
    {
      hide Valid;
      ValidHead();
      tmp := head;
      ghost var i := 0;
      ValidAt(i);
      while tmp.next != null
        invariant 0 <= i < |nodes| && tmp == nodes[i]
        invariant tmp.next == if i + 1 < |nodes| then nodes[i + 1] else null
        decreases |nodes| - i
      {
        tmp := tmp.next;
        i := i + 1;
        ValidAt(i);
      }
    }

    /** registr: walk to the last node and append. */
    method Registr(key: nat, obj: Obj)
      requires Valid()
      modifies this, nodes
      ensures Valid() && Entries(nodes) == Entries(old(nodes)) + [Reg(key, obj)] && freed == old(freed)
      ensures |nodes| == |old(nodes)| + 1 && nodes[..|old(nodes)|] == old(nodes) && fresh(nodes[|old(nodes)|])
    {
      hide Entries, Nexts, Chain;
      var nw := new Node(key, obj);
      ghost var nx := Nexts(nodes);
      ValidHead();
      if head == null {
        head := nw;
      } else {
        var tmp := LastNode();
        ValidAt(|nodes| - 1);
        tmp.next := nw;
        assert Nexts(nodes) == nx[|nodes| - 1 := nw];
      }
      Appended(old(head), head, nodes, nx, nw);
      EntriesJoin(nodes, [nw]);
      nodes := nodes + [nw];
      EntriesOne(nw);
    }

    /** Unlink and free the k-th node; `prev` matters only when some node is before it. */
    method Unlink(tmp: Node, prev: Node, ghost k: nat) returns (next: Node?)
      requires Valid() && k < |nodes| && tmp == nodes[k] && (k > 0 ==> prev == nodes[k - 1])
      modifies this, nodes
      ensures Valid() && nodes == old(nodes)[..k] + old(nodes)[k + 1..]
      ensures freed == old(freed) + {tmp}
      ensures next == if k < |nodes| then nodes[k] else null
    {
      hide Nexts, Chain;
      ghost var head0, nx := head, Nexts(nodes);
      ValidAt(k);
      ValidAt(if k == 0 then 0 else k - 1);
      if tmp == head {
        head := head.next;
      } else if tmp.next == null {
        prev.next := null;
      } else {
        prev.next := tmp.next;
      }
      assert Nexts(nodes) == if k == 0 then nx else nx[k - 1 := nx[k]];
      Unlinked(head0, head, nodes, nx, k);
      next := tmp.next;
      NoLonger(nodes, nx, k, head0);
      freed := freed + {tmp};
      nodes := nodes[..k] + nodes[k + 1..];
    }

    /** The loop of deregistr at the i-th of the nodes `all` it started with. */
    ghost predicate Swept(all: seq<Node>, kept: seq<Node>, i: nat, param: Obj, tmp: Node?, prev: Node)
      reads this
    {
      && i <= |all| && kept == Keep(all[..i], param) && nodes == kept + all[i..]
      && tmp == (if i == |all| then null else all[i])
      && (kept != [] ==> prev == kept[|kept| - 1])
      && (forall n :: n in nodes ==> n in all)
    }

    /** One round: `prev` is followed only after some node has survived. */
    method SweepNode(param: Obj, tmp: Node, prev: Node, ghost all: seq<Node>, ghost kept: seq<Node>, ghost i: nat)
      returns (next: Node?, last: Node, ghost kept': seq<Node>)
      requires Valid() && Swept(all, kept, i, param, tmp, prev) && i < |all|
      modifies this, nodes
      ensures Valid() && Swept(all, kept', i + 1, param, next, last)
      ensures forall n :: n in nodes ==> n in old(nodes)
    {
      hide Valid, Keep;
      KeepNext(all, i, param);
      CutJoin(kept, all, i);
      ValidAt(|kept|);
      assert tmp !in freed;
      if tmp.obj == param {
        next := Unlink(tmp, prev, |kept|);
        last, kept' := prev, kept;
      } else {
        next, last, kept' := tmp.next, tmp, kept + [all[i]];
      }
    }

    /** deregistr: unlink and free every node of the object, in place. */
    method Deregistr(param: Obj)
      requires Valid()
      modifies this, nodes
      ensures Valid() && nodes == Keep(old(nodes), param)
      ensures forall n :: n in nodes ==> n in old(nodes)
    {
      hide Valid, Keep, Swept;
      ghost var all, kept, i := nodes, Keep([], param), 0;
      ValidHead();
      KeepNone(param);
      if head == null { return; }
      var tmp: Node?, prev: Node := head, head;
      SweptStart(param, prev);
      while tmp != null
        invariant 0 <= i <= |all| && Valid() && Swept(all, kept, i, param, tmp, prev)
        decreases |all| - i
      {
        SweptOn(all, kept, i, param, tmp, prev);
        tmp, prev, kept := SweepNode(param, tmp, prev, all, kept, i);
        i := i + 1;
      }
      SweptEnd(all, kept, i, param, tmp, prev);
    }

    lemma SweptStart(param: Obj, first: Node)
      requires nodes != [] && first == nodes[0]
      ensures Swept(nodes, Keep([], param), 0, param, first, first)
    {
    }

    lemma SweptOn(all: seq<Node>, kept: seq<Node>, i: nat, param: Obj, tmp: Node?, prev: Node)
      requires Swept(all, kept, i, param, tmp, prev) && tmp != null
      ensures i < |all|
      ensures forall j :: 0 <= j < |nodes| ==> nodes[j] in all
    {
      assert forall j :: 0 <= j < |nodes| ==> nodes[j] in nodes;
    }

    lemma SweptEnd(all: seq<Node>, kept: seq<Node>, i: nat, param: Obj, tmp: Node?, prev: Node)
      requires Swept(all, kept, i, param, tmp, prev) && tmp == null
      ensures nodes == Keep(all, param) && forall n :: n in nodes ==> n in all
    {
      hide Keep;
      assert all[..i] == all;
    }

    /** SearchInstance */
    method Search(key: nat) returns (found: bool)
      requires Valid()
      ensures found == exists r :: r in Entries(nodes) && r.key == key
    {
      var tmp := head;
      ghost var i := 0;
      while tmp != null
        invariant 0 <= i <= |nodes| && tmp == if i == |nodes| then null else nodes[i]
        invariant forall j :: 0 <= j < i ==> nodes[j].key != key
        decreases |nodes| - i
      {
        if tmp.key == key {
          assert Entries(nodes)[i].key == key;
          return true;
        }
        tmp := tmp.next;
        i := i + 1;
      }
      found := false;
    }

    /** The loop of ProcessEvt with `rest` still ahead. */
    ghost predicate AtNode(before: seq<Node>, rest: seq<Node>, tmp: Node?)
      reads this
    {
      nodes == before + rest && tmp == if rest == [] then null else rest[0]
    }

    /** One round: the node is copied, its callback runs, and the copy leads on. */
    method ServeNode(tmp: Node, event: nat, deletes: set<Obj>, ghost before: seq<Node>, ghost rest: seq<Node>)
      returns (next: Node?, called: seq<Reg>, ghost before': seq<Node>, ghost rest': seq<Node>)
      requires Valid() && AtNode(before, rest, tmp) && rest != []
      requires !Walk(Entries(before), Entries(rest), event, deletes).wild
      modifies this, nodes
      ensures Valid() && AtNode(before', rest', next) && |rest'| < |rest|
      ensures forall n :: n in nodes ==> n in old(nodes)
      ensures Continues(Walk(Entries(before), Entries(rest), event, deletes), called,
                        Walk(Entries(before'), Entries(rest'), event, deletes))
    {
      hide Valid, Walk, Entries, Keep;
      assert nodes[|before|] == tmp && (|rest| > 1 ==> nodes[|before| + 1] == rest[1]);
      ValidAt(|before|);
      assert tmp !in freed;
      WalkNode(before, rest, event, deletes);
      var tmp1 := (tmp.key, tmp.obj, tmp.next);
      called := if event == tmp1.0 then [Reg(tmp1.0, tmp1.1)] else [];
      if event == tmp1.0 && tmp1.1 in deletes {
        KeepAround(before, rest, tmp1.1);
        Deregistr(tmp1.1);
        before', rest' := Keep(before, tmp1.1), Keep(rest[1..], tmp1.1);
      } else {
        before', rest' := before + [rest[0]], rest[1..];
      }
      next := tmp1.2;
    }

    /** ProcessEvt.  Whenever the walk over the list's value is not wild, the pointer walk never
        follows a freed node and does just what the value walk says. */
    method ProcessEvt(event: nat, deletes: set<Obj>) returns (calls: seq<Reg>)
      requires Valid() && !Dispatch(Entries(nodes), event, deletes).wild
      modifies this, nodes
      ensures Valid()
      ensures Walked(Entries(nodes), calls, false) == Dispatch(old(Entries(nodes)), event, deletes)
    {
      hide Valid, Walk, Entries;
      ghost var all: seq<Node>, before: seq<Node>, rest: seq<Node> := nodes, [], nodes;
      ValidHead();
      EntriesNone();
      var tmp := head;
      calls := [];
      while tmp != null
        invariant Valid() && AtNode(before, rest, tmp)
        invariant forall n :: n in nodes ==> n in all
        invariant Continues(old(Dispatch(Entries(nodes), event, deletes)), calls,
                            Walk(Entries(before), Entries(rest), event, deletes))
        decreases |rest|
      {
        var called: seq<Reg>;
        assert nodes == before + rest;
        assert forall i :: 0 <= i < |nodes| ==> nodes[i] in all;
        tmp, called, before, rest := ServeNode(tmp, event, deletes, before, rest);
        calls := calls + called;
      }
      WalkEnd(Entries(before), event, deletes);
      assert before + rest == before;
    }
  }

  /** w starts with these calls and goes on as w'. */
  predicate Continues(w: Walked, called: seq<Reg>, w': Walked) {
    w.wild == w'.wild == false && w.list == w'.list && w.calls == called + w'.calls
  }

  lemma EntriesNone()
    ensures Entries([]) == []
  {
  }

  lemma WalkEnd(before: seq<Reg>, event: nat, deletes: set<Obj>)
    ensures Walk(before, [], event, deletes) == Walked(before, [], false)
  {
  }

  /** The value walk's first round, on nodes. */
  lemma WalkNode(before: seq<Node>, rest: seq<Node>, event: nat, deletes: set<Obj>)
    requires rest != [] && !Walk(Entries(before), Entries(rest), event, deletes).wild
    ensures var w, n := Walk(Entries(before), Entries(rest), event, deletes), rest[0];
            if n.key == event && n.obj in deletes then
              && (|rest| > 1 ==> rest[1].obj != n.obj)
              && Continues(w, [Reg(n.key, n.obj)],
                           Walk(Entries(Keep(before, n.obj)), Entries(Keep(rest[1..], n.obj)), event, deletes))
            else
              Continues(w, if n.key == event then [Reg(n.key, n.obj)] else [],
                        Walk(Entries(before + [n]), Entries(rest[1..]), event, deletes))
  {
    assert Entries(rest)[1..] == Entries(rest[1..]);
    EntriesJoin(before, [rest[0]]);
    EntriesOne(rest[0]);
    KeepEntries(before, rest[0].obj);
    KeepEntries(rest[1..], rest[0].obj);
  }

  /** Removing the served node's object leaves its successor where the walk expects it. */
  lemma KeepAround(before: seq<Node>, rest: seq<Node>, o: Obj)
    requires rest != [] && rest[0].obj == o && (|rest| > 1 ==> rest[1].obj != o)
    ensures Keep(before + rest, o) == Keep(before, o) + Keep(rest[1..], o)
    ensures |Keep(rest[1..], o)| < |rest|
    ensures |rest| > 1 ==> Keep(rest[1..], o) != [] && Keep(rest[1..], o)[0] == rest[1]
    ensures |rest| == 1 ==> Keep(rest[1..], o) == []
  {
    KeepJoin(before, rest, o);
    KeepShort(rest[1..], o);
  }

  lemma {:induction false} KeepShort(ns: seq<Node>, o: Obj)
    ensures |Keep(ns, o)| <= |ns|
  {
    if ns != [] { KeepShort(ns[1..], o); }
  }

  lemma EntriesOne(n: Node)
    ensures Entries([n]) == [Reg(n.key, n.obj)]
  {
  }

  lemma KeepNone(o: Obj)
    ensures Keep([], o) == []
  {
  }

  lemma KeepNext(ns: seq<Node>, i: nat, o: Obj)
    requires i < |ns|
    ensures Keep(ns[..i + 1], o) == Keep(ns[..i], o) + (if ns[i].obj == o then [] else [ns[i]])
  {
    assert ns[..i + 1] == ns[..i] + [ns[i]];
    KeepJoin(ns[..i], [ns[i]], o);
  }

  lemma CutJoin(kept: seq<Node>, all: seq<Node>, i: nat)
    requires i < |all|
    ensures var ns := kept + all[i..];
            && ns[|kept|] == all[i] && |ns| == |kept| + |all| - i
            && ns[..|kept|] + ns[|kept| + 1..] == kept + all[i + 1..]
            && ns == kept + [all[i]] + all[i + 1..]
            && (i + 1 < |all| ==> ns[|kept| + 1] == all[i + 1])
            && (kept != [] ==> ns[|kept| - 1] == kept[|kept| - 1])
  {
  }

  // ---- Links ---------------------------------------------------------------------------

  /** The nodes' next pointers, as values. */
  ghost function Nexts(ns: seq<Node>): (r: seq<Node?>)
    reads ns
    ensures |r| == |ns| && forall i :: 0 <= i < |r| ==> r[i] == ns[i].next
  {
    if ns == [] then [] else [ns[0].next] + Nexts(ns[1..])
  }

  /** head leads through the distinct nodes ns, whose next pointers are nx, to null. */
  ghost predicate Chain(head: Node?, ns: seq<Node>, nx: seq<Node?>) {
    && |nx| == |ns|
    && (forall i, j :: 0 <= i < j < |ns| ==> ns[i] != ns[j])
    && head == (if ns == [] then null else ns[0])
    && (forall i :: 0 <= i < |ns| ==> nx[i] == if i == |ns| - 1 then null else ns[i + 1])
  }

  ghost predicate Linked(head: Node?, ns: seq<Node>)
    reads ns
  {
    Chain(head, ns, Nexts(ns))
  }

  /** The node behind the last one (or the head) now leads to a new node. */
  lemma Appended(h0: Node?, h1: Node?, ns: seq<Node>, nx: seq<Node?>, nw: Node)
    requires Chain(h0, ns, nx) && nw !in ns && nw.next == null
    requires h1 == if ns == [] then nw else h0
    requires Nexts(ns) == if ns == [] then nx else nx[|ns| - 1 := nw]
    ensures Linked(h1, ns + [nw])
  {
    hide Linked, Nexts, Chain;
    NextsJoin(ns, [nw]);
    assert Nexts([nw]) == [null];
    ChainAdd(h0, ns, nx, nw);
    LinksBack(h1, ns + [nw]);
  }

  lemma ChainAdd(h0: Node?, ns: seq<Node>, nx: seq<Node?>, nw: Node)
    requires Chain(h0, ns, nx) && nw !in ns
    ensures var nx1 := if ns == [] then nx else nx[|ns| - 1 := nw];
            Chain(if ns == [] then nw else h0, ns + [nw], nx1 + [null])
  {
  }

  /** The node before the k-th (or the head) now leads past it. */
  lemma Unlinked(h0: Node?, h1: Node?, ns: seq<Node>, nx: seq<Node?>, k: nat)
    requires Chain(h0, ns, nx) && k < |ns|
    requires h1 == if k == 0 then nx[0] else h0
    requires Nexts(ns) == if k == 0 then nx else nx[k - 1 := nx[k]]
    ensures Linked(h1, ns[..k] + ns[k + 1..])
  {
    hide Linked, Nexts, Chain;
    NextsCut(ns, k);
    ChainCut(h0, ns, nx, k);
    LinksBack(h1, ns[..k] + ns[k + 1..]);
  }

  lemma NoLonger(ns: seq<Node>, nx: seq<Node?>, k: nat, h0: Node?)
    requires Chain(h0, ns, nx) && k < |ns|
    ensures var r := ns[..k] + ns[k + 1..];
            forall i :: 0 <= i < |r| ==> r[i] != ns[k]
    ensures nx[k] == if k + 1 < |ns| then ns[k + 1] else null
  {
  }

  lemma LinksBack(head: Node?, ns: seq<Node>)
    requires Chain(head, ns, Nexts(ns))
    ensures Linked(head, ns)
  {
  }

  lemma NextsSlice(ns: seq<Node>, i: nat, j: nat)
    requires i <= j <= |ns|
    ensures Nexts(ns[i..j]) == Nexts(ns)[i..j]
  {
    hide Nexts;
    assert forall k :: 0 <= k < j - i ==> Nexts(ns[i..j])[k] == ns[i + k].next == Nexts(ns)[i..j][k];
  }

  lemma NextsCut(ns: seq<Node>, k: nat)
    requires k < |ns|
    ensures Nexts(ns[..k] + ns[k + 1..]) == Nexts(ns)[..k] + Nexts(ns)[k + 1..]
  {
    hide Nexts;
    NextsJoin(ns[..k], ns[k + 1..]);
    NextsSlice(ns, 0, k);
    NextsSlice(ns, k + 1, |ns|);
    Slices(ns, Nexts(ns), k);
  }

  lemma Slices<T, U>(x: seq<T>, y: seq<U>, k: nat)
    requires k < |x| == |y|
    ensures x[0..k] == x[..k] && x[k + 1..|x|] == x[k + 1..]
    ensures y[0..k] == y[..k] && y[k + 1..|x|] == y[k + 1..]
  {
  }

  lemma NextsJoin(a: seq<Node>, b: seq<Node>)
    ensures Nexts(a + b) == Nexts(a) + Nexts(b)
  {
    hide Nexts;
    assert forall i :: 0 <= i < |a + b| ==> Nexts(a + b)[i] == (a + b)[i].next;
  }

  lemma ChainCut(h0: Node?, ns: seq<Node>, nx: seq<Node?>, k: nat)
    requires Chain(h0, ns, nx) && k < |ns|
    ensures var nx1 := if k == 0 then nx else nx[k - 1 := nx[k]];
            Chain(if k == 0 then nx[0] else h0, ns[..k] + ns[k + 1..], nx1[..k] + nx1[k + 1..])
  {
    var r := ns[..k] + ns[k + 1..];
    var nx1 := if k == 0 then nx else nx[k - 1 := nx[k]];
    var rx := nx1[..k] + nx1[k + 1..];
    assert forall j :: 0 <= j < |r| ==> r[j] == if j < k then ns[j] else ns[j + 1];
    forall j | 0 <= j < |r| ensures rx[j] == if j == |r| - 1 then null else r[j + 1] {
      if j == k - 1 { assert rx[j] == nx[k]; }
    }
  }
}
