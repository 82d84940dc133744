/** Where the LAN-to-LAN connection events come from (IPACM_LanToLan.cpp): generated between
    clients of different interface categories, or reported by conntrack and cached until both
    ends are known; and the loop through the event queue back into the client table. */
module Connections {
  import opened Driver
  import opened LanRules
  import opened LanToLan
  import opened LanToLanPeers
  import MessageQueues

  const MAX_CACHE_CONNECTION: nat := 20

  datatype Conn = Conn(src: Key, dst: Key)

  /** An interface's category. */
  type Cats = IfaceId -> nat

  function Posted(c: Conn): Event { NewConn(c.src, c.dst) }

  // ---- Generated connections -------------------------------------------------------------

  predicate Qualified(cs: map<Key, Client>, cats: Cats, k: Key, b: Key) {
    k in cs && b in cs && cats(cs[b].iface) != cats(cs[k].iface) && cs[b].active
  }

  /** generate_new_connection: the table is walked in an order of its own. */
  function Generated(cs: map<Key, Client>, cats: Cats, k: Key, order: seq<Key>): (es: seq<Event>)
    ensures forall e :: e in es <==> e.NewConn? && e.src == k && e.dst in order && Qualified(cs, cats, k, e.dst)
  {
    if order == [] then []
    else
      (if Qualified(cs, cats, k, order[0]) then [NewConn(k, order[0])] else [])
      + Generated(cs, cats, k, order[1..])
  }

  /** Every qualified peer gets one event, and a client is never its own peer. */
  lemma {:induction false} GeneratedOnce(cs: map<Key, Client>, cats: Cats, k: Key, order: seq<Key>)
    requires forall i, j :: 0 <= i < j < |order| ==> order[i] != order[j]
    ensures var es := Generated(cs, cats, k, order);
            && NewConn(k, k) !in es
            && forall i, j :: 0 <= i < j < |es| ==> es[i] != es[j]
  {
    if order != [] {
      GeneratedOnce(cs, cats, k, order[1..]);
      assert order[0] !in order[1..];
      var rest := Generated(cs, cats, k, order[1..]);
      assert NewConn(k, order[0]) !in rest;
    }
  }

  // ---- Cached connections ----------------------------------------------------------------

  /** is_lan2lan_connection */
  predicate IsLanToLan(cs: map<Key, Client>, cats: Cats, c: Conn) {
    c.src in cs && c.dst in cs && cats(cs[c.src].iface) != cats(cs[c.dst].iface)
  }

  /** cache_new_connection: a full cache is cleared first. */
  function CacheNew(cache: seq<Conn>, c: Conn, potential: bool): (r: seq<Conn>)
    ensures |cache| <= MAX_CACHE_CONNECTION ==> |r| <= MAX_CACHE_CONNECTION
    ensures forall x :: x in r ==> x in cache || x == c
  {
    if !potential then cache else (if |cache| == MAX_CACHE_CONNECTION then [] else cache) + [c]
  }

  function FindConn(cache: seq<Conn>, c: Conn): (i: nat)
    ensures i <= |cache| && (i < |cache| <==> c in cache)
    ensures i < |cache| ==> cache[i] == c
  {
    if cache == [] || cache[0] == c then 0 else 1 + FindConn(cache[1..], c)
  }

  /** remove_cache_connection: the first equal entry goes. */
  function Uncached(cache: seq<Conn>, c: Conn): seq<Conn> {
    var i := FindConn(cache, c);
    if i == |cache| then cache else cache[..i] + cache[i + 1..]
  }

  /** One occurrence goes, and nothing else. */
  lemma UncachedOnce(cache: seq<Conn>, c: Conn)
    ensures multiset(Uncached(cache, c)) == multiset(cache) - multiset{c}
    ensures |Uncached(cache, c)| <= |cache| && forall x :: x in Uncached(cache, c) ==> x in cache
  {
    var i := FindConn(cache, c);
    if i < |cache| {
      assert cache == cache[..i] + [cache[i]] + cache[i + 1..];
    } else {
      assert c !in multiset(cache);
    }
  }

  /** A cached connection of k whose other end is in the table. */
  predicate Ripe(cs: map<Key, Client>, k: Key, c: Conn) {
    (c.src == k && c.dst in cs) || (c.dst == k && c.src in cs)
  }

  function RipeOnes(cs: map<Key, Client>, k: Key, cache: seq<Conn>, want: bool): (r: seq<Conn>)
    ensures |r| <= |cache| && forall c :: c in r <==> c in cache && Ripe(cs, k, c) == want
  {
    if cache == [] then []
    else (if Ripe(cs, k, cache[0]) == want then [cache[0]] else []) + RipeOnes(cs, k, cache[1..], want)
  }

  function PostedAll(cs: seq<Conn>): (es: seq<Event>)
    ensures |es| == |cs| && forall i :: 0 <= i < |cs| ==> es[i] == Posted(cs[i])
  {
    if cs == [] then [] else [Posted(cs[0])] + PostedAll(cs[1..])
  }

  /** check_cache_connection splits the cache: what it posts and what it keeps are together what
      was cached. */
  lemma {:induction false} CheckSplits(cs: map<Key, Client>, k: Key, cache: seq<Conn>)
    ensures multiset(RipeOnes(cs, k, cache, true)) + multiset(RipeOnes(cs, k, cache, false)) == multiset(cache)
  {
    if cache != [] {
      assert cache == [cache[0]] + cache[1..];
      CheckSplits(cs, k, cache[1..]);
    }
  }

  lemma RipeNone(cs: map<Key, Client>, k: Key)
    ensures RipeOnes(cs, k, [], true) == RipeOnes(cs, k, [], false) == [] && PostedAll([]) == []
  {
  }

  lemma RipeNext(cs: map<Key, Client>, k: Key, todo: seq<Conn>)
    requires todo != []
    ensures var c, rest := todo[0], todo[1..];
            if Ripe(cs, k, c) then
              && PostedAll(RipeOnes(cs, k, todo, true)) == [Posted(c)] + PostedAll(RipeOnes(cs, k, rest, true))
              && RipeOnes(cs, k, todo, false) == RipeOnes(cs, k, rest, false)
            else
              && RipeOnes(cs, k, todo, true) == RipeOnes(cs, k, rest, true)
              && RipeOnes(cs, k, todo, false) == [c] + RipeOnes(cs, k, rest, false)
  {
    var ripe := RipeOnes(cs, k, todo, true);
    if Ripe(cs, k, todo[0]) { assert ripe[1..] == RipeOnes(cs, k, todo[1..], true); }
  }

  // ---- The cache as an object --------------------------------------------------------------

  class ConnectionCache {
    var conns: seq<Conn>

    constructor ()
      ensures conns == []
    {
      conns := [];
    }

    method Cache(c: Conn, potential: bool)
      modifies this
      ensures conns == CacheNew(old(conns), c, potential)
    {
      if potential {
        if |conns| == MAX_CACHE_CONNECTION { conns := []; }
        conns := conns + [c];
      }
    }

    method Remove(c: Conn)
      modifies this
      ensures conns == Uncached(old(conns), c)
    {
      var i := 0;
      while i < |conns| && conns[i] != c
        invariant i <= |conns| && conns == old(conns)
        invariant i + FindConn(conns[i..], c) == FindConn(conns, c)
      {
        assert conns[i..][1..] == conns[i + 1..];
        i := i + 1;
      }
      if i < |conns| { conns := conns[..i] + conns[i + 1..]; }
    }

    /** check_cache_connection: erase while walking. */
    method Check(cs: map<Key, Client>, k: Key) returns (posted: seq<Event>)
      modifies this
      ensures posted == PostedAll(RipeOnes(cs, k, old(conns), true))
      ensures conns == RipeOnes(cs, k, old(conns), false)
    {
      hide RipeOnes, PostedAll;
      ghost var todo := conns;
      var i := 0;
      posted := [];
      RipeNone(cs, k);
      while i < |conns|
        invariant i <= |conns| && |conns| - i == |todo| <= |old(conns)| && conns[i..] == todo
        invariant posted + PostedAll(RipeOnes(cs, k, todo, true)) == PostedAll(RipeOnes(cs, k, old(conns), true))
        invariant conns[..i] + RipeOnes(cs, k, todo, false) == RipeOnes(cs, k, old(conns), false)
        decreases |todo|
      {
        RipeNext(cs, k, todo);
        var c := conns[i];
        assert todo[0] == c && conns[i..][1..] == conns[i + 1..];
        if Ripe(cs, k, c) {
          posted := posted + [Posted(c)];
          conns := conns[..i] + conns[i + 1..];
        } else {
          i := i + 1;
        }
        todo := todo[1..];
      }
      assert conns[..i] == conns;
    }
  }

  // ---- The loop through the event queues ---------------------------------------------------

  /** The events' numbers (IPACM_Defs.h). */
  function EventId(e: Event): nat {
    match e
    case NewConn(_, _) => 31
    case DelConn(_, _) => 32
    case Active(_, _, _) => 511
    case Inactive(_) => 512
    case Disconnect(_) => 513
    case PowerSave(_) => 514
    case PowerRecover(_) => 515
  }

  predicate IsExternal(e: Event) { MessageQueues.External(MessageQueues.Event(EventId(e), 0)) }

  /** Connection events are external, client events internal. */
  lemma ExternalIff(e: Event)
    ensures IsExternal(e) <==> e.NewConn? || e.DelConn?
  {
  }

  /** `ctOpt` is the CT_OPT build, in which connections come from conntrack instead of being
      generated; the two queues hold the events posted and not yet delivered. */
  datatype System = System(
    lan: State,
    cache: seq<Conn>,
    internal: seq<Event>,
    external: seq<Event>,
    cats: Cats,
    ctOpt: bool)

  datatype Action =
    | Post(e: Event)                                // an interface reports on a client
    | Report(c: Conn, isNew: bool, potential: bool) // a conntrack message
    | Deliver(order: seq<Key>)                      // the next event's callback

  /** The handlers that go on to look for connections, and for which client. */
  function LooksFor(s: State, e: Event): Option<Key> {
    match e
    case Active(k, mac, i) =>
      if i !in s.rules.ifaces then None
      else if k in s.clients && s.clients[k].active && s.clients[k].mac == mac then None
      else Some(k)
    case PowerRecover(k) =>
      if k in s.clients && !s.clients[k].active && s.clients[k].powersave && AddFlts(s, k, 0).1 then Some(k) else None
    case _ => None
  }

  /** The events that e's callback posts. */
  function Posts(t: System, e: Event, order: seq<Key>): seq<Event> {
    var k := LooksFor(t.lan, e);
    if k.None? then []
    else if !t.ctOpt then Generated(Step(t.lan, e).clients, t.cats, k.value, order)
    else if e.PowerRecover? then []
    else PostedAll(RipeOnes(Step(t.lan, e).clients, k.value, t.cache, true))
  }

  function CacheLeft(t: System, e: Event): seq<Conn> {
    var k := LooksFor(t.lan, e);
    if k.None? || !t.ctOpt || e.PowerRecover? then t.cache
    else RipeOnes(Step(t.lan, e).clients, k.value, t.cache, false)
  }

  function Next(t: System): (Option<Event>, seq<Event>, seq<Event>) { MessageQueues.Taken(t.internal, t.external) }

  function Enqueued(t: System, e: Event): System {
    var (i, x) := MessageQueues.Posted(t.internal, t.external, e, IsExternal(e));
    t.(internal := i, external := x)
  }

  function Act(t: System, a: Action): System {
    match a
    case Post(e) => if IsExternal(e) then t else Enqueued(t, e)
    case Report(c, isNew, potential) =>
      if !t.ctOpt then t
      else if IsLanToLan(t.lan.clients, t.cats, c) then
        Enqueued(t, if isNew then Posted(c) else DelConn(c.src, c.dst))
      else if isNew then t.(cache := CacheNew(t.cache, c, potential))
      else if potential then t.(cache := Uncached(t.cache, c))
      else t
    case Deliver(order) =>
      var (e, i, x) := Next(t);
      if e.None? then t
      else
        System(Step(t.lan, e.value), CacheLeft(t, e.value), i, x + Posts(t, e.value, order), t.cats, t.ctOpt)
  }

  function Acts(t: System, acts: seq<Action>): System {
    if acts == [] then t else Act(Acts(t, acts[..|acts| - 1]), acts[|acts| - 1])
  }

  /** conntrack does not report a connection of an address with itself. */
  predicate Plausible(a: Action) { a.Report? && a.isNew ==> a.c.src != a.c.dst }

  predicate NoSelfConn(es: seq<Event>) { forall e :: e in es ==> e.NewConn? ==> e.src != e.dst }

  ghost predicate NoSelfAnywhere(t: System) {
    && PeerInv(PeersOf(t.lan.clients))
    && NoSelfConn(t.internal) && NoSelfConn(t.external)
    && (forall c :: c in t.cache ==> c.src != c.dst)
    && |t.cache| <= MAX_CACHE_CONNECTION
  }

  lemma PostsNoSelf(t: System, e: Event, order: seq<Key>)
    requires NoSelfAnywhere(t)
    ensures NoSelfConn(Posts(t, e, order))
    ensures |CacheLeft(t, e)| <= |t.cache| && forall c :: c in CacheLeft(t, e) ==> c in t.cache
  {
    hide Step, PeerInv, Generated, RipeOnes, PostedAll, LooksFor, Ripe;
  }

  lemma ActKeeps(t: System, a: Action)
    requires NoSelfAnywhere(t) && Plausible(a)
    ensures NoSelfAnywhere(Act(t, a))
  {
    hide Step, PeerInv, Posts, CacheLeft, Uncached, IsLanToLan;
    if a.Report? {
      UncachedOnce(t.cache, a.c);
    } else if a.Deliver? && Next(t).0.Some? {
      StepFollows(t.lan, Next(t).0.value);
      PostsNoSelf(t, Next(t).0.value, a.order);
    }
  }

  /** In either build, in every run of the whole loop in which conntrack reports no address
      connected to itself, no client is ever connected to itself: the peer lists stay a symmetric
      table of positive counts. */
  lemma {:induction false} ActsKeep(t: System, acts: seq<Action>)
    requires NoSelfAnywhere(t) && forall a :: a in acts ==> Plausible(a)
    ensures NoSelfAnywhere(Acts(t, acts))
  {
    hide NoSelfAnywhere, Act, Plausible;
    if acts != [] {
      ActsKeep(t, acts[..|acts| - 1]);
      ActKeeps(Acts(t, acts[..|acts| - 1]), acts[|acts| - 1]);
    }
  }

  /** The events delivered in the course of a run, in order. */
  function Delivered(t: System, acts: seq<Action>): seq<Event> {
    if acts == [] then []
    else
      var e := Next(Acts(t, acts[..|acts| - 1])).0;
      Delivered(t, acts[..|acts| - 1]) + (if acts[|acts| - 1].Deliver? && e.Some? then [e.value] else [])
  }

  lemma ActLan(t: System, a: Action)
    ensures Act(t, a).lan == if a.Deliver? && Next(t).0.Some? then Step(t.lan, Next(t).0.value) else t.lan
  {
    hide Step, Posts, CacheLeft;
  }

  lemma NextNoSelf(t: System)
    requires NoSelfAnywhere(t) && Next(t).0.Some? && Next(t).0.value.NewConn?
    ensures Next(t).0.value.src != Next(t).0.value.dst
  {
    hide PeerInv;
  }

  /** The client table after a run of the loop is that of a run of the delivered events, none of
      which connects a client to itself: whatever holds of such runs holds of the loop. */
  lemma {:induction false} LanIsRun(t: System, acts: seq<Action>)
    requires NoSelfAnywhere(t) && forall a :: a in acts ==> Plausible(a)
    ensures Acts(t, acts).lan == Run(t.lan, Delivered(t, acts)) && NoSelf(Delivered(t, acts))
  {
    hide NoSelfAnywhere, Act, Next, Step, Plausible;
    if acts != [] {
      var init, a := acts[..|acts| - 1], acts[|acts| - 1];
      LanIsRun(t, init);
      ActsKeep(t, init);
      var before := Acts(t, init);
      ActLan(before, a);
      if a.Deliver? && Next(before).0.Some? {
        var es, e := Delivered(t, init), Next(before).0.value;
        if e.NewConn? { NextNoSelf(before); }
        assert (es + [e])[..|es|] == es;
      } else {
        assert Delivered(t, init) + [] == Delivered(t, init);
      }
    }
  }

  // ---- What is posted, cached and forgotten ------------------------------------------------

  /** e's handler goes on to look for connections: a client came up, or came back with another MAC,
      or woke with its filter rules in place. */
  predicate GoesOn(s: State, e: Event) {
    match e
    case Active(k, mac, i) => i in s.rules.ifaces && !(k in s.clients && s.clients[k].active && s.clients[k].mac == mac)
    case PowerRecover(k) =>
      k in s.clients && !s.clients[k].active && s.clients[k].powersave
      && k in Step(s, e).clients && Step(s, e).clients[k].active
    case _ => false
  }

  lemma GoesOnIs(s: State, e: Event)
    ensures GoesOn(s, e) ==> e.Active? || e.PowerRecover?
    ensures LooksFor(s, e) == if GoesOn(s, e) then Some(e.k) else None
  {
    if e.PowerRecover? && e.k in s.clients && !s.clients[e.k].active && s.clients[e.k].powersave {
      hide AddFlts, CheckPotential, Shapes;
      var (s1, ok) := AddFlts(s, e.k, 0);
      SameShapesActive(s.clients, s1.clients, e.k);
      if ok {
        var s2 := SetFlags(s1, e.k, true, false);
        SameShapesActive(s2.clients, Step(s, e).clients, e.k);
      }
    }
  }

  lemma SameShapesActive(cs: map<Key, Client>, cs': map<Key, Client>, k: Key)
    requires Shapes(cs') == Shapes(cs) && k in cs
    ensures k in cs' && cs'[k].active == cs[k].active
  {
    assert Shapes(cs').Keys == cs'.Keys && Shapes(cs).Keys == cs.Keys;
    assert Shapes(cs')[k].active == Shapes(cs)[k].active;
  }

  /** The other end of a connection of k is in the table. */
  predicate OtherKnown(cs: map<Key, Client>, k: Key, c: Conn) {
    (c.src == k && c.dst in cs) || (c.dst == k && c.src in cs)
  }

  /** What e's callback posts, and what it leaves in the cache.  Without CT_OPT: one connection to
      each active client of another category; with it, after an activation: the cached connections
      of the client whose other end is known, and these leave the cache. */
  ghost predicate PostsFollow(t: System, e: Event, order: seq<Key>, posts: seq<Event>, left: seq<Conn>) {
    var cs := Step(t.lan, e).clients;
    if !GoesOn(t.lan, e) then posts == [] && left == t.cache
    else if !t.ctOpt then
      && left == t.cache
      && forall p :: p in posts <==>
           exists b :: b in order && p == NewConn(e.k, b) && e.k in cs && b in cs && cs[b].active
                       && t.cats(cs[b].iface) != t.cats(cs[e.k].iface)
    else if e.PowerRecover? then posts == [] && left == t.cache
    else
      && |posts| + |left| == |t.cache|
      && (forall p :: p in posts <==> exists c :: c in t.cache && OtherKnown(cs, e.k, c) && p == NewConn(c.src, c.dst))
      && (forall c :: c in left <==> c in t.cache && !OtherKnown(cs, e.k, c))
  }

  lemma PostsIs(t: System, e: Event, order: seq<Key>)
    ensures PostsFollow(t, e, order, Posts(t, e, order), CacheLeft(t, e))
  {
    GoesOnIs(t.lan, e);
    hide Step, LooksFor, GoesOn, Generated, RipeOnes, PostedAll;
    var cs := Step(t.lan, e).clients;
    if GoesOn(t.lan, e) {
      if !t.ctOpt {
        GeneratedIs(cs, t.cats, e.k, order);
      } else if e.Active? {
        CachedIs(cs, e.k, t.cache);
      }
    }
  }

  lemma GeneratedIs(cs: map<Key, Client>, cats: Cats, k: Key, order: seq<Key>)
    ensures forall p :: p in Generated(cs, cats, k, order) <==>
              exists b :: b in order && p == NewConn(k, b) && k in cs && b in cs && cs[b].active && cats(cs[b].iface) != cats(cs[k].iface)
  {
    hide Generated;
  }

  lemma CachedIs(cs: map<Key, Client>, k: Key, cache: seq<Conn>)
    ensures var posts, left := PostedAll(RipeOnes(cs, k, cache, true)), RipeOnes(cs, k, cache, false);
            && |posts| + |left| == |cache|
            && (forall p :: p in posts <==> exists c :: c in cache && OtherKnown(cs, k, c) && p == NewConn(c.src, c.dst))
            && (forall c :: c in left <==> c in cache && !OtherKnown(cs, k, c))
  {
    var ripe, left := RipeOnes(cs, k, cache, true), RipeOnes(cs, k, cache, false);
    hide RipeOnes, PostedAll;
    CheckCounts(cs, k, cache);
    forall c | c in cache && OtherKnown(cs, k, c) ensures NewConn(c.src, c.dst) in PostedAll(ripe) {
      var i :| 0 <= i < |ripe| && ripe[i] == c;
      assert PostedAll(ripe)[i] == NewConn(c.src, c.dst);
    }
    forall p | p in PostedAll(ripe) ensures exists c :: c in cache && OtherKnown(cs, k, c) && p == NewConn(c.src, c.dst) {
      var i :| 0 <= i < |ripe| && PostedAll(ripe)[i] == p;
      assert ripe[i] in cache && OtherKnown(cs, k, ripe[i]);
    }
  }

  lemma CheckCounts(cs: map<Key, Client>, k: Key, cache: seq<Conn>)
    ensures |RipeOnes(cs, k, cache, true)| + |RipeOnes(cs, k, cache, false)| == |cache|
  {
    hide RipeOnes;
    CheckSplits(cs, k, cache);
    var ripe, left := RipeOnes(cs, k, cache, true), RipeOnes(cs, k, cache, false);
    assert |multiset(ripe) + multiset(left)| == |multiset(cache)|;
  }

  /** Both ends are in the table, on interfaces of different categories. */
  predicate Crosses(t: System, c: Conn) {
    && c.src in t.lan.clients && c.dst in t.lan.clients
    && t.cats(t.lan.clients[c.src].iface) != t.cats(t.lan.clients[c.dst].iface)
  }

  /** What a conntrack report does, in the CT_OPT build: it is posted when it crosses categories;
      otherwise a new connection is cached, a full cache of twenty being cleared first, and an
      ended one's first entry leaves the cache. */
  ghost predicate ReportFollows(t: System, c: Conn, isNew: bool, potential: bool, t': System) {
    if !t.ctOpt then t' == t
    else if Crosses(t, c) then t' == t.(external := t.external + [if isNew then NewConn(c.src, c.dst) else DelConn(c.src, c.dst)])
    else if !potential then t' == t
    else if isNew then t' == t.(cache := (if |t.cache| == 20 then [] else t.cache) + [c])
    else if c !in t.cache then t' == t
    else exists i :: 0 <= i < |t.cache| && t.cache[i] == c && c !in t.cache[..i] && t' == t.(cache := t.cache[..i] + t.cache[i + 1..])
  }

  lemma ReportIs(t: System, c: Conn, isNew: bool, potential: bool)
    ensures ReportFollows(t, c, isNew, potential, Act(t, Report(c, isNew, potential)))
  {
    ExternalIff(NewConn(c.src, c.dst));
    ExternalIff(DelConn(c.src, c.dst));
    hide IsExternal;
    if c in t.cache { FirstConn(t.cache, c); }
  }

  /** A client event posted by an interface goes behind the internal events. */
  lemma PostIs(t: System, e: Event)
    ensures Act(t, Post(e)) == if e.NewConn? || e.DelConn? then t else t.(internal := t.internal + [e])
  {
    ExternalIff(e);
  }

  /** What a delivery does: the oldest internal event is served, or, when there is none, the oldest
      external one; what its callback posts goes behind the external ones. */
  lemma DeliverIs(t: System, order: seq<Key>)
    ensures var t' := Act(t, Deliver(order));
            if t.internal != [] then
              var e := t.internal[0];
              t' == t.(lan := Step(t.lan, e), cache := CacheLeft(t, e), internal := t.internal[1..],
                       external := t.external + Posts(t, e, order))
            else if t.external != [] then
              var e := t.external[0];
              t' == t.(lan := Step(t.lan, e), cache := CacheLeft(t, e), external := t.external[1..] + Posts(t, e, order))
            else t' == t
  {
    hide Step, Posts, CacheLeft;
  }

  lemma {:induction false} FirstConn(cache: seq<Conn>, c: Conn)
    requires c in cache
    ensures FindConn(cache, c) < |cache| && c !in cache[..FindConn(cache, c)]
  {
    if cache[0] != c {
      FirstConn(cache[1..], c);
      var i := FindConn(cache[1..], c);
      assert cache[..i + 1] == [cache[0]] + cache[1..][..i];
    }
  }

  // ---- Categories --------------------------------------------------------------------------

  /** Both ends are in the table, on interfaces of one category. */
  predicate SameCategory(cs: map<Key, Client>, cats: Cats, e: Event) {
    e.NewConn? && e.src in cs && e.dst in cs && cats(cs[e.src].iface) == cats(cs[e.dst].iface)
  }

  /** A cached connection of the client that e activates, whose other end is already on an
      interface of the category of e's. */
  predicate JoinsAlike(t: System, e: Event, c: Conn)
    requires e.Active?
  {
    (c.src == e.k && Alike(t, e, c.dst)) || (c.dst == e.k && Alike(t, e, c.src))
  }

  predicate Alike(t: System, e: Event, x: Key)
    requires e.Active?
  {
    x == e.k || (x in t.lan.clients && t.cats(t.lan.clients[x].iface) == t.cats(e.iface))
  }

  lemma ActiveIfaces(s: State, e: Event)
    requires e.Active? && LooksFor(s, e).Some?
    ensures var cs := Step(s, e).clients;
            && cs.Keys == s.clients.Keys + {e.k} && cs[e.k].iface == e.iface
            && forall x :: x in s.clients && x != e.k ==> cs[x].iface == s.clients[x].iface
  {
    hide TurnOff, ClearPeers, CheckPotential;
    var k := e.k;
    if k in s.clients {
      if s.clients[k].active {
        var s1 := TurnOff(s, k, s.clients[k].links).0;
        var s2 := ClearPeers(s1, k, s1.clients[k].peers).0;
        SameLan(s.clients, s1.clients);
        BareIfaces(s1.clients, s2.clients);
      } else {
        var s1 := SetInfo(s, k, e.mac, e.iface);
        SameLan(s1.clients, Step(s, e).clients);
      }
    }
  }

  lemma SameLan(cs: map<Key, Client>, cs': map<Key, Client>)
    requires Shapes(cs') == Shapes(cs)
    ensures cs'.Keys == cs.Keys && forall x :: x in cs ==> cs'[x].iface == cs[x].iface
  {
    assert Shapes(cs).Keys == cs.Keys && Shapes(cs').Keys == cs'.Keys;
    forall x | x in cs ensures cs'[x].iface == cs[x].iface {
      assert Shapes(cs')[x].iface == Shapes(cs)[x].iface;
    }
  }

  lemma BareIfaces(cs: map<Key, Client>, cs': map<Key, Client>)
    requires Bare(cs') == Bare(cs)
    ensures cs'.Keys == cs.Keys && forall x :: x in cs ==> cs'[x].iface == cs[x].iface
  {
    assert Bare(cs).Keys == cs.Keys && Bare(cs').Keys == cs'.Keys;
    forall x | x in cs ensures cs'[x].iface == cs[x].iface {
      assert Bare(cs')[x].iface == Bare(cs)[x].iface;
    }
  }

  /** A callback posts a connection between two clients of one category if and only if, in the
      CT_OPT build, it activates a client and the cache holds a connection of that client whose
      other end is on an interface of the same category: a cached connection is posted without
      the category test that a fresh report and a generated connection get. */
  lemma CacheSkipsCategory(t: System, e: Event, order: seq<Key>)
    ensures (exists p :: p in Posts(t, e, order) && SameCategory(Step(t.lan, e).clients, t.cats, p))
       <==> t.ctOpt && e.Active? && LooksFor(t.lan, e).Some? && exists c :: c in t.cache && JoinsAlike(t, e, c)
  {
    hide Step, Generated, RipeOnes, PostedAll;
    if !t.ctOpt || !e.Active? || LooksFor(t.lan, e).None? { return; }
    ActiveIfaces(t.lan, e);
    hide LooksFor;
    var cs := Step(t.lan, e).clients;
    var ripe := RipeOnes(cs, e.k, t.cache, true);
    if c :| c in t.cache && JoinsAlike(t, e, c) {
      assert c in ripe;
      var i :| 0 <= i < |ripe| && ripe[i] == c;
      assert PostedAll(ripe)[i] == Posted(c) && SameCategory(cs, t.cats, Posted(c));
    }
    if p :| p in PostedAll(ripe) && SameCategory(cs, t.cats, p) {
      var i :| 0 <= i < |ripe| && PostedAll(ripe)[i] == p;
      assert ripe[i] in t.cache && JoinsAlike(t, e, ripe[i]);
    }
  }

  /** A client's arrival, from its post to its delivery. */
  lemma Arrives(t: System, k: Key, mac: nat, i: IfaceId, order: seq<Key>)
    requires t.ctOpt && t.internal == t.external == [] && i in t.lan.rules.ifaces && k !in t.lan.clients
    ensures var cs := t.lan.clients[k := Client(mac, true, false, i, [], [])];
            Act(Act(t, Post(Active(k, mac, i))), Deliver(order))
            == t.(lan := t.lan.(clients := cs), cache := RipeOnes(cs, k, t.cache, false),
                  external := PostedAll(RipeOnes(cs, k, t.cache, true)))
  {
    hide CheckPotential, TurnOff, ClearPeers, RipeOnes, PostedAll, Generated;
    var t1 := Act(t, Post(Active(k, mac, i)));
    assert t1 == t.(internal := [Active(k, mac, i)]);
    assert Step(t.lan, Active(k, mac, i)) == t.lan.(clients := t.lan.clients[k := Client(mac, true, false, i, [], [])]);
    assert Next(t1).0 == Some(Active(k, mac, i)) && Next(t1).1 == [] && Next(t1).2 == [];
  }

  /** A connection reported before its ends are known is cached, and stays so when the first of
      them arrives. */
  lemma CachedUntilBoth(t: System, i: IfaceId, order: seq<Key>)
    requires t.ctOpt && t.lan.clients == map[] && t.cache == [] && t.internal == t.external == []
    requires i in t.lan.rules.ifaces
    ensures Act(Act(Act(t, Report(Conn(1, 2), true, true)), Post(Active(1, 11, i))), Deliver(order))
         == t.(cache := [Conn(1, 2)], lan := t.lan.(clients := map[1 := Client(11, true, false, i, [], [])]))
  {
    var c := Conn(1, 2);
    var t1 := Act(t, Report(c, true, true));
    assert t1 == t.(cache := [c]);
    hide Act, PostedAll, RipeOnes;
    Arrives(t1, 1, 11, i, order);
    var cs := map[1 := Client(11, true, false, i, [], [])];
    RipeNone(cs, 1);
    RipeSingle(cs, 1, c);
    assert t.lan.clients[1 := Client(11, true, false, i, [], [])] == cs;
  }

  /** Such a connection does get posted: reported before its ends are known, it is cached, and the
      second end's arrival on the same interface posts it. */
  lemma SameCategoryRun(t: System, i: IfaceId, order: seq<Key>)
    requires t.ctOpt && t.lan.clients == map[] && t.cache == [] && t.internal == t.external == []
    requires i in t.lan.rules.ifaces
    ensures var acts := [Report(Conn(1, 2), true, true), Post(Active(1, 11, i)), Deliver(order),
                         Post(Active(2, 12, i)), Deliver(order)];
            var t5 := Acts(t, acts);
            NewConn(1, 2) in t5.external && SameCategory(t5.lan.clients, t.cats, NewConn(1, 2))
  {
    hide Acts, Act, PostedAll, RipeOnes;
    ActsFive(t, Report(Conn(1, 2), true, true), Post(Active(1, 11, i)), Deliver(order), Post(Active(2, 12, i)), Deliver(order));
    CachedUntilBoth(t, i, order);
    var c := Conn(1, 2);
    var cs := map[1 := Client(11, true, false, i, [], [])];
    Arrives(t.(cache := [c], lan := t.lan.(clients := cs)), 2, 12, i, order);
    RipeSingle(cs[2 := Client(12, true, false, i, [], [])], 2, c);
    assert PostedAll([c])[0] == NewConn(1, 2);
  }

  lemma RipeSingle(cs: map<Key, Client>, k: Key, c: Conn)
    ensures RipeOnes(cs, k, [c], true) == if Ripe(cs, k, c) then [c] else []
    ensures RipeOnes(cs, k, [c], false) == if Ripe(cs, k, c) then [] else [c]
  {
  }

  lemma ActsFive(t: System, a: Action, b: Action, c: Action, d: Action, e: Action)
    ensures Acts(t, [a, b, c, d, e]) == Act(Act(Act(Act(Act(t, a), b), c), d), e)
  {
    hide Act;
    assert [a, b, c, d, e][..4] == [a, b, c, d] && [a, b, c, d][..3] == [a, b, c] && [a, b, c][..2] == [a, b];
    assert [a, b][..1] == [a] && [a][..0] == [];
    assert Acts(t, [a]) == Act(t, a);
    assert Acts(t, [a, b]) == Act(Acts(t, [a]), b);
    assert Acts(t, [a, b, c]) == Act(Acts(t, [a, b]), c);
    assert Acts(t, [a, b, c, d]) == Act(Acts(t, [a, b, c]), d);
  }
}
