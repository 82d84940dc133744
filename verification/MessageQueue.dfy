/** The linked message queues (IPACM_CmdQueue.cpp) and how one item is posted and taken. */
module MessageQueues {
  import opened Driver

  const IPA_EXTERNAL_EVENT_MAX: nat := 500

  /** ipacm_cmd_q_data: `data` stands for the payload. */
  datatype Event = Event(id: nat, data: nat)

  predicate External(e: Event) { e.id < IPA_EXTERNAL_EVENT_MAX }

  class Message {
    const evt: Event
    var next: Message?

    constructor (evt: Event)
      ensures this.evt == evt && next == null
    {
      this.evt, next := evt, null;
    }
  }

  class MessageQueue {
    var Head: Message?
    var Tail: Message?
    /** The linked messages, and those that were taken out and deleted. */
    ghost var nodes: seq<Message>
    ghost var freed: set<Message>

    ghost predicate Valid()
      reads this, nodes
    {
      && (forall i, j :: 0 <= i < j < |nodes| ==> nodes[i] != nodes[j])
      && Head == (if nodes == [] then null else nodes[0])
      && (forall i, j {:trigger nodes[i], nodes[j]} :: 0 <= i < |nodes| && j == i + 1 < |nodes| ==> nodes[i].next == nodes[j])
      && (nodes != [] ==> Tail == nodes[|nodes| - 1] && nodes[|nodes| - 1].next == null)
      && (forall m :: m in nodes ==> m !in freed)
    }

    /** The queue as a sequence, oldest first. */
    ghost function Contents(): (s: seq<Event>)
      reads this
      ensures |s| == |nodes| && forall i :: 0 <= i < |s| ==> s[i] == nodes[i].evt
    {
      Events(nodes)
    }

    constructor ()
      ensures Valid() && nodes == [] && freed == {}
    {
      Head, Tail, nodes, freed := null, null, [], {};
    }

    /** Tail is followed only while the queue is non-empty, so a tail left over from a drained
        queue, whose message may be deleted by now, is never touched. */
    method Enqueue(item: Message)
      requires Valid() && item !in nodes && item !in freed && item.next == null
      modifies this, nodes
      ensures Valid() && nodes == old(nodes) + [item] && freed == old(freed)
      ensures Contents() == old(Contents()) + [item.evt]
    {
      if Head == null {
        Tail := item;
        Head := item;
      } else {
        if Tail == null {
          assert false;
        } else {
          assert Tail in nodes && Tail !in freed;
          Tail.next := item;
        }
        Tail := item;
      }
      nodes := nodes + [item];
    }

    method Dequeue() returns (item: Message?)
      requires Valid()
      modifies this
      ensures Valid() && freed == old(freed) && (item == null <==> old(nodes) == [])
      ensures item == null ==> nodes == old(nodes)
      ensures item != null ==> item == old(nodes)[0] && nodes == old(nodes)[1..]
      ensures item != null ==> old(Contents()) == [item.evt] + Contents()
    {
      if Head == null { return null; }
      item := Head;
      Head := Head.next;
      nodes := nodes[1..];
    }

    /** `delete item` once it has been processed. */
    ghost method Delete(item: Message)
      requires Valid() && item !in nodes
      modifies this`freed
      ensures Valid() && freed == old(freed) + {item} && Contents() == old(Contents())
    {
      freed := freed + {item};
    }
  }

  /** The two queues behind PostEvt and Process. */
  class Queues {
    const internal: MessageQueue
    const external: MessageQueue

    ghost predicate Valid()
      reads this, internal, internal.nodes, external, external.nodes
    {
      && internal != external && internal.Valid() && external.Valid()
      && (forall i, j :: 0 <= i < |internal.nodes| && 0 <= j < |external.nodes| ==> internal.nodes[i] != external.nodes[j])
      && (forall m :: m in internal.nodes ==> !External(m.evt) && m !in external.freed)
      && (forall m :: m in external.nodes ==> External(m.evt) && m !in internal.freed)
    }

    constructor ()
      ensures Valid() && fresh(internal) && fresh(external)
      ensures internal.Contents() == [] && external.Contents() == []
    {
      internal := new MessageQueue();
      external := new MessageQueue();
    }

    /** PostEvt's critical section. */
    method Post(evt: Event)
      requires Valid()
      modifies internal, internal.nodes, external, external.nodes
      ensures Valid()
      ensures (internal.Contents(), external.Contents())
           == Posted(old(internal.Contents()), old(external.Contents()), evt, External(evt))
    {
      hide Events;
      var item := new Message(evt);
      if External(evt) {
        external.Enqueue(item);
        assert internal.Contents() == old(internal.Contents());
      } else {
        internal.Enqueue(item);
        assert external.Contents() == old(external.Contents());
      }
    }

    /** Process' critical section: the external queue is looked at only when the internal one is
        empty. */
    method Take() returns (item: Message?)
      requires Valid()
      modifies internal, external
      ensures Valid()
      ensures var t := Taken(old(internal.Contents()), old(external.Contents()));
              && (internal.Contents(), external.Contents()) == (t.1, t.2)
              && (item == null <==> t.0.None?)
              && (item != null ==> item.evt == t.0.value && item !in internal.nodes && item !in external.nodes)
      ensures item != null ==> item !in internal.freed && item !in external.freed
      ensures internal.freed == old(internal.freed) && external.freed == old(external.freed)
    {
      hide Events;
      item := internal.Dequeue();
      if item == null {
        item := external.Dequeue();
      } else {
        assert external.Contents() == old(external.Contents());
      }
    }

    /** One item through Process: take it, run its callback, delete it. */
    method ProcessOne() returns (done: Option<Event>, ghost item: Message?)
      requires Valid()
      modifies internal, external
      ensures Valid()
      ensures (done, internal.Contents(), external.Contents()) == Taken(old(internal.Contents()), old(external.Contents()))
      ensures done.None? <==> item == null
      ensures item != null ==> item.evt == done.value && item !in old(internal.freed) && item !in old(external.freed)
      ensures Freed() == old(Freed()) + (if item == null then {} else {item})
    {
      hide Events;
      var m := Take();
      item := m;
      if m == null { return None, null; }
      done := Some(m.evt);
      Discard(m);
    }

    ghost function Freed(): set<Message>
      reads internal, external
    {
      internal.freed + external.freed
    }

    /** `delete item` on the queue it came from. */
    ghost method Discard(item: Message)
      requires Valid() && item !in internal.nodes && item !in external.nodes
      modifies internal`freed, external`freed
      ensures Valid() && Freed() == old(Freed()) + {item}
      ensures internal.Contents() == old(internal.Contents()) && external.Contents() == old(external.Contents())
    {
      hide Events;
      if External(item.evt) { external.Delete(item); } else { internal.Delete(item); }
    }
  }

  ghost function Events(ms: seq<Message>): (s: seq<Event>)
    ensures |s| == |ms| && forall i :: 0 <= i < |s| ==> s[i] == ms[i].evt
  {
    if ms == [] then [] else [ms[0].evt] + Events(ms[1..])
  }

  // ---- The critical sections on sequences ------------------------------------------------

  function Posted<T>(internal: seq<T>, external: seq<T>, e: T, isExternal: bool): (seq<T>, seq<T>) {
    if isExternal then (internal, external + [e]) else (internal + [e], external)
  }

  function Taken<T>(internal: seq<T>, external: seq<T>): (Option<T>, seq<T>, seq<T>) {
    if internal != [] then (Some(internal[0]), internal[1..], external)
    else if external != [] then (Some(external[0]), internal, external[1..])
    else (None, internal, external)
  }
}
