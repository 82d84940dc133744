/** The mutex and condition-variable protocol between any number of PostEvt callers and the one
    thread in MessageQueue::Process, one step per atomic action. */
module MessagePump {
  import opened Driver
  import opened MessageQueues

  /** Where a PostEvt call is; everything between Outside and Outside holds the mutex. */
  datatype Producer = Outside | Entered(e: Event) | Queued | Signalled

  /** Where Process is. */
  datatype Consumer =
    | Top                 // about to lock
    | Locked              // about to try the internal queue
    | NoInternal          // about to try the external queue
    | NoneFound           // about to wait
    | Asleep              // in pthread_cond_wait, not woken, mutex released
    | Woken               // in pthread_cond_wait, about to take the mutex again
    | Relocked            // about to unlock and start over
    | Took(e: Event)      // about to unlock
    | Busy(e: Event)      // in the callback, mutex released

  datatype Owner = Free | ByConsumer | ByProducer(id: nat)

  /** Producer 0 stands for the posts the consumer's own callbacks make.  `posted` and `done` are
      the events in the order they were queued and processed. */
  datatype State = State(
    mutex: Owner,
    producers: map<nat, Producer>,
    consumer: Consumer,
    internal: seq<Event>,
    external: seq<Event>,
    posted: seq<Event>,
    done: seq<Event>)

  datatype Step =
    | Enter(id: nat, e: Event)
    | Enqueue(id: nat)
    | Signal(id: nat, ok: bool)
    | Leave(id: nat)
    | Lock
    | TryInternal
    | TryExternal
    | Wait
    | SpuriousWake
    | Reacquire
    | Unlock
    | Finish

  function At(s: State, id: nat): Producer {
    if id in s.producers then s.producers[id] else Outside
  }

  predicate Enabled(s: State, st: Step) {
    match st
    case Enter(id, e) => At(s, id).Outside? && s.mutex.Free? && (id == 0 ==> s.consumer.Busy?)
    case Enqueue(id) => At(s, id).Entered?
    case Signal(id, _) => At(s, id).Queued?
    case Leave(id) => At(s, id).Signalled?
    case Lock => s.consumer.Top? && s.mutex.Free?
    case TryInternal => s.consumer.Locked?
    case TryExternal => s.consumer.NoInternal?
    case Wait => s.consumer.NoneFound?
    case SpuriousWake => s.consumer.Asleep?
    case Reacquire => s.consumer.Woken? && s.mutex.Free?
    case Unlock => s.consumer.Relocked? || s.consumer.Took?
    case Finish => s.consumer.Busy? && At(s, 0).Outside?
  }

  function Move(s: State, id: nat, p: Producer): State {
    s.(producers := s.producers[id := p])
  }

  /** A step that is not enabled does nothing, so every schedule is a run. */
  function Apply(s: State, st: Step): State {
    if !Enabled(s, st) then s
    else match st
      case Enter(id, e) => Move(s, id, Entered(e)).(mutex := ByProducer(id))
      case Enqueue(id) =>
        var e := At(s, id).e;
        var (i, x) := Posted(s.internal, s.external, e, External(e));
        Move(s, id, Queued).(internal := i, external := x, posted := s.posted + [e])
      case Signal(id, ok) =>
        Move(s, id, Signalled).(consumer := if ok && s.consumer.Asleep? then Woken else s.consumer)
      case Leave(id) => Move(s, id, Outside).(mutex := Free)
      case Lock => s.(mutex := ByConsumer, consumer := Locked)
      case TryInternal =>
        if s.internal == [] then s.(consumer := NoInternal)
        else s.(consumer := Took(s.internal[0]), internal := s.internal[1..])
      case TryExternal =>
        if s.external == [] then s.(consumer := NoneFound)
        else s.(consumer := Took(s.external[0]), external := s.external[1..])
      case Wait => s.(mutex := Free, consumer := Asleep)
      case SpuriousWake => s.(consumer := Woken)
      case Reacquire => s.(mutex := ByConsumer, consumer := Relocked)
      case Unlock => s.(mutex := Free, consumer := if s.consumer.Took? then Busy(s.consumer.e) else Top)
      case Finish => s.(consumer := Top, done := s.done + [s.consumer.e])
  }

  function Run(s: State, steps: seq<Step>): State {
    if steps == [] then s else Apply(Run(s, steps[..|steps| - 1]), steps[|steps| - 1])
  }

  const INIT := State(Free, map[], Top, [], [], [], [])

  // ---- The invariant -------------------------------------------------------------------

  /** The events of one class, in order. */
  function Only(es: seq<Event>, ext: bool): seq<Event> {
    if es == [] then []
    else if External(es[|es| - 1]) == ext then Only(es[..|es| - 1], ext) + [es[|es| - 1]]
    else Only(es[..|es| - 1], ext)
  }

  function InHand(c: Consumer): seq<Event> {
    if c.Took? || c.Busy? then [c.e] else []
  }

  predicate Holds(c: Consumer) {
    c.Locked? || c.NoInternal? || c.NoneFound? || c.Relocked? || c.Took?
  }

  /** The mutex is held by exactly the thread that is inside its critical section. */
  ghost predicate Exclusive(s: State) {
    && (s.mutex == ByConsumer <==> Holds(s.consumer))
    && (forall id: nat :: !At(s, id).Outside? <==> s.mutex == ByProducer(id))
  }

  /** Every queued event is accounted for, class by class and in order. */
  ghost predicate Conserved(s: State) {
    && Only(s.posted, false) == Only(s.done + InHand(s.consumer), false) + s.internal
    && Only(s.posted, true) == Only(s.done + InHand(s.consumer), true) + s.external
    && (forall e :: e in s.internal ==> !External(e))
    && (forall e :: e in s.external ==> External(e))
  }

  /** A producer that has queued its event and not signalled yet. */
  predicate AboutToSignal(s: State) {
    s.mutex.ByProducer? && At(s, s.mutex.id).Queued?
  }

  predicate Empty(s: State) { s.internal == [] && s.external == [] }

  ghost predicate Awake(s: State) {
    && (s.consumer.NoInternal? ==> s.internal == [])
    && (s.consumer.NoneFound? ==> Empty(s))
  }

  ghost predicate Inv(s: State) { Exclusive(s) && Conserved(s) && Awake(s) }

  lemma OnlyAppend(es: seq<Event>, e: Event, ext: bool)
    ensures Only(es + [e], ext) == Only(es, ext) + (if External(e) == ext then [e] else [])
  {
    assert (es + [e])[..|es|] == es;
  }

  lemma ApplyExclusive(s: State, st: Step)
    requires Exclusive(s)
    ensures Exclusive(Apply(s, st))
  {
  }

  lemma ApplyConserved(s: State, st: Step)
    requires Conserved(s)
    ensures Conserved(Apply(s, st))
  {
    if !Enabled(s, st) { return; }
    if st.Enqueue? {
      EnqueueConserved(s, st.id);
    } else if st.TryInternal? || st.TryExternal? {
      TakeConserved(s, st);
    } else {
      hide Only;
      assert st.Finish? ==> s.done + [s.consumer.e] + [] == s.done + InHand(s.consumer);
    }
  }

  lemma EnqueueConserved(s: State, id: nat)
    requires Conserved(s) && At(s, id).Entered?
    ensures Conserved(Apply(s, Enqueue(id)))
  {
    hide Only;
    OnlyAppend(s.posted, At(s, id).e, true);
    OnlyAppend(s.posted, At(s, id).e, false);
  }

  lemma TakeConserved(s: State, st: Step)
    requires Conserved(s) && Enabled(s, st) && (st.TryInternal? || st.TryExternal?)
    ensures Conserved(Apply(s, st))
  {
    if st.TryInternal? { InternalConserved(s); } else { ExternalConserved(s); }
  }

  lemma InternalConserved(s: State)
    requires Conserved(s) && Enabled(s, TryInternal)
    ensures Conserved(Apply(s, TryInternal))
  {
    hide Only;
    assert s.done + [] == s.done;
    var q := s.internal;
    if q != [] {
      assert q == [q[0]] + q[1..];
      OnlyAppend(s.done, q[0], true);
      OnlyAppend(s.done, q[0], false);
    }
  }

  lemma ExternalConserved(s: State)
    requires Conserved(s) && Enabled(s, TryExternal)
    ensures Conserved(Apply(s, TryExternal))
  {
    hide Only;
    assert s.done + [] == s.done;
    var q := s.external;
    if q != [] {
      assert q == [q[0]] + q[1..];
      OnlyAppend(s.done, q[0], true);
      OnlyAppend(s.done, q[0], false);
    }
  }

  lemma ApplyAwake(s: State, st: Step)
    requires Exclusive(s) && Awake(s)
    ensures Awake(Apply(s, st))
  {
    if Enabled(s, st) && st.Enter? { assert At(s, st.id).Outside?; }
    if Enabled(s, st) && st.Enqueue? { assert s.mutex == ByProducer(st.id); }
    if Enabled(s, st) && st.Signal? { assert s.mutex == ByProducer(st.id); }
    if Enabled(s, st) && st.Leave? { assert s.mutex == ByProducer(st.id); }
  }

  lemma ApplyInv(s: State, st: Step)
    requires Inv(s)
    ensures Inv(Apply(s, st))
  {
    hide Exclusive, Conserved, Awake, Apply;
    ApplyExclusive(s, st);
    ApplyConserved(s, st);
    ApplyAwake(s, st);
  }

  lemma {:induction false} RunInv(steps: seq<Step>)
    ensures Inv(Run(INIT, steps))
  {
    if steps != [] {
      RunInv(steps[..|steps| - 1]);
      hide Inv, Apply;
      ApplyInv(Run(INIT, steps[..|steps| - 1]), steps[|steps| - 1]);
    }
  }

  // ---- What a reader wants to know -------------------------------------------------------

  /** Has a signal failed while the consumer was asleep, without its having been woken since? */
  predicate Lost(steps: seq<Step>) {
    if steps == [] then false
    else LostNext(Lost(steps[..|steps| - 1]), Run(INIT, steps[..|steps| - 1]), steps[|steps| - 1])
  }

  predicate LostNext(lost: bool, s: State, st: Step) {
    if !Enabled(s, st) then lost
    else if st.Signal? && s.consumer.Asleep? then !st.ok
    else lost && !st.SpuriousWake?
  }

  /** What a sleeping consumer's queues hold. */
  ghost predicate Sleeping(s: State, lost: bool) {
    && (lost ==> s.consumer.Asleep? && !Empty(s))
    && (s.consumer.Asleep? && !lost ==> Empty(s) || AboutToSignal(s))
    && (s.consumer.Asleep? && AboutToSignal(s) ==> !Empty(s))
  }

  lemma ApplySleeping(s: State, st: Step, lost: bool)
    requires Exclusive(s) && Awake(s) && Sleeping(s, lost)
    ensures Sleeping(Apply(s, st), LostNext(lost, s, st))
  {
    if Enabled(s, st) && st.Enter? { assert At(s, st.id).Outside?; }
    if Enabled(s, st) && st.Enqueue? { assert s.mutex == ByProducer(st.id); }
    if Enabled(s, st) && st.Signal? { assert s.mutex == ByProducer(st.id); }
    if Enabled(s, st) && st.Leave? { assert s.mutex == ByProducer(st.id); }
  }

  lemma {:induction false} RunSleeping(steps: seq<Step>)
    ensures Sleeping(Run(INIT, steps), Lost(steps))
  {
    if steps != [] {
      var init := steps[..|steps| - 1];
      RunInv(init);
      RunSleeping(init);
      hide Conserved, Sleeping, Apply, LostNext;
      ApplySleeping(Run(INIT, init), steps[|steps| - 1], Lost(init));
    }
  }

  /** No lost wakeup, exactly: in every schedule of any number of producers, a consumer asleep with
      the mutex free has empty queues if and only if no signal failed during this sleep. */
  lemma NoLostWakeup(steps: seq<Step>)
    ensures var s := Run(INIT, steps);
            s.consumer.Asleep? && s.mutex.Free? ==> (Empty(s) <==> !Lost(steps))
  {
    RunSleeping(steps);
  }

  /** The exception is real: PostEvt reports the failed signal but leaves its event queued. */
  lemma FailedSignalSleeps(e: Event) returns (steps: seq<Step>)
    ensures var s := Run(INIT, steps);
            s.consumer.Asleep? && s.mutex.Free? && !Empty(s) && Lost(steps)
  {
    var asleep := INIT.(consumer := Asleep);
    var s1, s2 := [Lock, TryInternal, TryExternal, Wait], [Enter(1, e), Enqueue(1), Signal(1, false), Leave(1)];
    RunFour(INIT, Lock, TryInternal, TryExternal, Wait);
    assert Run(INIT, s1) == asleep;
    MissedSignal(asleep, e);
    steps := s1 + s2;
    RunJoin(INIT, s1, s2);
    NoLostWakeup(steps);
  }

  lemma MissedSignal(s: State, e: Event)
    requires s == INIT.(consumer := Asleep)
    ensures var t := Run(s, [Enter(1, e), Enqueue(1), Signal(1, false), Leave(1)]);
            t.consumer.Asleep? && t.mutex.Free? && !Empty(t)
  {
    RunFour(s, Enter(1, e), Enqueue(1), Signal(1, false), Leave(1));
    var t1 := Apply(s, Enter(1, e));
    var t2 := Apply(t1, Enqueue(1));
    assert At(t1, 1) == Entered(e) && At(t2, 1) == Queued && !Empty(t2);
    var t3 := Apply(t2, Signal(1, false));
    assert At(t3, 1) == Signalled;
  }

  lemma RunFour(s: State, a: Step, b: Step, c: Step, d: Step)
    ensures Run(s, [a, b, c, d]) == Apply(Apply(Apply(Apply(s, a), b), c), d)
  {
    hide Apply;
    assert [a, b, c, d][..3] == [a, b, c] && [a, b, c][..2] == [a, b] && [a, b][..1] == [a] && [a][..0] == [];
    assert Run(s, [a]) == Apply(s, a);
    assert Run(s, [a, b]) == Apply(Run(s, [a]), b);
    assert Run(s, [a, b, c]) == Apply(Run(s, [a, b]), c);
  }

  lemma {:induction false} RunJoin(s: State, a: seq<Step>, b: seq<Step>)
    ensures Run(s, a + b) == Run(Run(s, a), b)
  {
    hide Apply;
    if b == [] {
      assert a + b == a;
    } else {
      assert (a + b)[..|a + b| - 1] == a + b[..|b| - 1];
      RunJoin(s, a, b[..|b| - 1]);
    }
  }

  /** First in, first out per class: what was queued is what was processed, then what is in hand,
      then what is pending. */
  lemma Fifo(steps: seq<Step>)
    ensures var s := Run(INIT, steps);
            && Only(s.posted, false) == Only(s.done + InHand(s.consumer), false) + s.internal
            && Only(s.posted, true) == Only(s.done + InHand(s.consumer), true) + s.external
  {
    RunInv(steps);
  }

  /** An external event is taken only when no internal one is pending, although the two queues
      are looked at in separate steps. */
  lemma InternalFirst(steps: seq<Step>, st: Step)
    ensures var s, s' := Run(INIT, steps), Apply(Run(INIT, steps), st);
            s'.consumer.Took? && s'.consumer != s.consumer && External(s'.consumer.e) ==> s.internal == []
  {
    RunInv(steps);
  }

  /** The two dequeue steps together take what the critical section of Process takes. */
  lemma TakesAsOne(s: State)
    requires s.consumer.Locked?
    ensures var s2 := Apply(Apply(s, TryInternal), TryExternal);
            var t := Taken(s.internal, s.external);
            && (s2.internal, s2.external) == (t.1, t.2)
            && s2.consumer == (if t.0.Some? then Took(t.0.value) else NoneFound)
  {
  }

  // ---- Progress ------------------------------------------------------------------------

  ghost predicate AllOutside(s: State) { forall id: nat :: At(s, id).Outside? }

  /** The consumer's next step when nobody else moves. */
  function NextStep(c: Consumer): Step {
    match c
    case Top => Lock
    case Locked => TryInternal
    case NoInternal => TryExternal
    case NoneFound => Wait
    case Asleep => Wait
    case Woken => Reacquire
    case Relocked => Unlock
    case Took(_) => Unlock
    case Busy(_) => Finish
  }

  function Rank(c: Consumer): nat {
    match c
    case Took(_) => 8
    case Busy(_) => 7
    case Woken => 7
    case Relocked => 6
    case Top => 5
    case Locked => 4
    case NoInternal => 3
    case NoneFound => 2
    case Asleep => 1
  }

  function Work(s: State): nat { 10 * (|s.internal| + |s.external|) + Rank(s.consumer) }

  lemma Moves(s: State)
    requires Inv(s) && AllOutside(s) && !s.consumer.Asleep?
    ensures var s' := Apply(s, NextStep(s.consumer));
            && Inv(s') && AllOutside(s') && Work(s') < Work(s) && s'.posted == s.posted
            && (s'.consumer.Asleep? ==> Empty(s'))
  {
    hide Inv, Only;
    ApplyInv(s, NextStep(s.consumer));
    NobodyElse(s);
    assert forall id: nat :: At(Apply(s, NextStep(s.consumer)), id) == At(s, id);
  }

  lemma NobodyElse(s: State)
    requires Inv(s) && AllOutside(s)
    ensures s.mutex == if Holds(s.consumer) then ByConsumer else Free
    ensures s.consumer.NoneFound? ==> Empty(s)
  {
    hide Conserved;
    var owner := if s.mutex.ByProducer? then s.mutex.id else 0;
    assert At(s, owner).Outside?;
  }

  /** Once the producers are done, a consumer that is not asleep over a queued event processes by
      itself everything that was ever queued, each class in order, and goes back to sleep. */
  lemma {:induction false} Drains(s: State) returns (steps: seq<Step>)
    requires Inv(s) && AllOutside(s) && (s.consumer.Asleep? ==> Empty(s))
    ensures forall st :: st in steps ==> !st.Enter? && !st.SpuriousWake?
    ensures var s' := Run(s, steps);
            && s'.consumer.Asleep? && Empty(s') && s'.posted == s.posted
            && Only(s'.done, false) == Only(s.posted, false) && Only(s'.done, true) == Only(s.posted, true)
    decreases Work(s)
  {
    if s.consumer.Asleep? {
      steps := [];
      assert s.done + [] == s.done;
      return;
    }
    hide Inv, AllOutside, Only, Apply;
    Moves(s);
    var s1 := Apply(s, NextStep(s.consumer));
    var rest := Drains(s1);
    steps := [NextStep(s.consumer)] + rest;
    RunFirst(s, NextStep(s.consumer), rest);
  }

  lemma {:induction false} RunFirst(s: State, st: Step, rest: seq<Step>)
    ensures Run(s, [st] + rest) == Run(Apply(s, st), rest)
  {
    hide Apply;
    var all := [st] + rest;
    if rest == [] {
      assert all[..0] == [];
    } else {
      assert all[..|all| - 1] == [st] + rest[..|rest| - 1];
      RunFirst(s, st, rest[..|rest| - 1]);
    }
  }

  /** The same over whole runs, and exactly: after any schedule that leaves the producers done, the
      consumer alone gets everything processed if and only if no signal was lost; if one was, no
      step but a spurious wakeup or a new post changes anything. */
  lemma DrainsIff(steps: seq<Step>) returns (more: seq<Step>)
    requires AllOutside(Run(INIT, steps))
    ensures forall st :: st in more ==> !st.Enter? && !st.SpuriousWake?
    ensures !Lost(steps) ==>
              var s' := Run(Run(INIT, steps), more);
              && s'.consumer.Asleep? && Empty(s') && s'.posted == Run(INIT, steps).posted
              && Only(s'.done, false) == Only(s'.posted, false) && Only(s'.done, true) == Only(s'.posted, true)
    ensures Lost(steps) ==>
              forall rest: seq<Step> :: (forall st :: st in rest ==> !st.Enter? && !st.SpuriousWake?) ==>
                Run(Run(INIT, steps), rest) == Run(INIT, steps)
    ensures Lost(steps) ==> !Empty(Run(INIT, steps))
  {
    var s := Run(INIT, steps);
    RunInv(steps);
    RunSleeping(steps);
    more := [];
    hide Inv, Only, Lost, Run;
    NobodyElse(s);
    if Lost(steps) {
      forall rest: seq<Step> | forall st :: st in rest ==> !st.Enter? && !st.SpuriousWake? ensures Run(s, rest) == s {
        StaysAsleep(s, rest);
      }
    } else {
      assert s.consumer.Asleep? ==> Empty(s);
      more := Drains(s);
    }
  }

  lemma {:induction false} StaysAsleep(s: State, rest: seq<Step>)
    requires s.consumer.Asleep? && AllOutside(s) && forall st :: st in rest ==> !st.Enter? && !st.SpuriousWake?
    ensures Run(s, rest) == s
  {
    if rest != [] {
      StaysAsleep(s, rest[..|rest| - 1]);
      assert !Enabled(s, rest[|rest| - 1]);
    }
  }
}
