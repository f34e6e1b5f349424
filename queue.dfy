/**
 * The generic FIFO queue of src/queue.ts: a singly linked list with `head`
 * and `tail` pointers and an element count `cursor`, plus one listener set per
 * event kind that is notified synchronously on every mutation.
 *
 * Listeners are callbacks in the source. Here a listener is an opaque handle,
 * and calling it is recorded as a `Delivery` appended to the queue's
 * `delivered` log, in the order the callbacks would run.
 */
module Queues {
  import opened Wrappers

  /** Handle standing for one registered callback (callbacks are compared by identity). */
  type Listener = nat

  /** The three event names the queue emits: "enqueue", "dequeue" and "clear". */
  datatype EventKind = EnqueueKind | DequeueKind | ClearKind

  /** An emitted event with its payload: the enqueued or removed data; `clear` carries none. */
  datatype QueueEvent<T> = Enqueued(data: T) | Dequeued(data: T) | Cleared {
    function Kind(): EventKind {
      match this
      case Enqueued(_) => EnqueueKind
      case Dequeued(_) => DequeueKind
      case Cleared => ClearKind
    }
  }

  /** One invocation of a listener callback with an event. */
  datatype Delivery<T> = Delivery(listener: Listener, event: QueueEvent<T>)

  /** What `on` returns: calling it unsubscribes `listener` from `kind`. */
  datatype Subscription = Subscription(kind: EventKind, listener: Listener)

  /** The deliveries a `forEach` over listener set `ls` makes for event `e`. */
  function Notify<T>(ls: seq<Listener>, e: QueueEvent<T>): (r: seq<Delivery<T>>)
    ensures |r| == |ls|
    ensures forall i :: 0 <= i < |ls| ==> r[i] == Delivery(ls[i], e)
  {
    if ls == [] then [] else Notify(ls[..|ls| - 1], e) + [Delivery(ls[|ls| - 1], e)]
  }

  /** A JavaScript `Set` of listeners: insertion-ordered and without duplicates. */
  ghost predicate NoDuplicates(ls: seq<Listener>) {
    forall i, j :: 0 <= i < j < |ls| ==> ls[i] != ls[j]
  }

  /** `Set.prototype.add`: appends `l` unless it is already present. */
  function AddListener(ls: seq<Listener>, l: Listener): (r: seq<Listener>)
    ensures ls <= r && l in r && |r| <= |ls| + 1
  {
    if l in ls then ls else ls + [l]
  }

  /** `Set.prototype.delete`: removes `l`, keeping the order of the others. */
  function RemoveListener(ls: seq<Listener>, l: Listener): (r: seq<Listener>)
    ensures l !in r && |r| <= |ls|
  {
    if ls == [] then []
    else if ls[0] == l then RemoveListener(ls[1..], l)
    else [ls[0]] + RemoveListener(ls[1..], l)
  }

  /** After `add`, exactly the old listeners and `l` are registered, and still each once. */
  lemma AddMembership(ls: seq<Listener>, l: Listener)
    ensures forall x :: x in AddListener(ls, l) <==> x in ls || x == l
    ensures NoDuplicates(ls) ==> NoDuplicates(AddListener(ls, l))
  {
  }

  /** After `delete`, exactly the old listeners other than `l` are registered, and still each once. */
  lemma {:induction false} RemoveMembership(ls: seq<Listener>, l: Listener)
    ensures forall x :: x in RemoveListener(ls, l) <==> x in ls && x != l
    ensures NoDuplicates(ls) ==> NoDuplicates(RemoveListener(ls, l))
  {
    if ls != [] {
      RemoveMembership(ls[1..], l);
      if ls[0] != l {
        assert NoDuplicates(ls) ==> ls[0] !in ls[1..];
      }
    }
  }

  /** Removing an absent listener is a no-op. */
  lemma {:induction false} RemoveAbsent(ls: seq<Listener>, l: Listener)
    requires l !in ls
    ensures RemoveListener(ls, l) == ls
  {
    if ls != [] {
      RemoveAbsent(ls[1..], l);
    }
  }

  /** Registering a listener and then calling the returned unsubscribe restores the set. */
  lemma {:induction false} RemoveUndoesAdd(ls: seq<Listener>, l: Listener)
    requires l !in ls
    ensures RemoveListener(AddListener(ls, l), l) == ls
  {
    if ls == [] {
    } else {
      assert (ls + [l])[0] == ls[0];
      assert (ls + [l])[1..] == ls[1..] + [l];
      RemoveUndoesAdd(ls[1..], l);
    }
  }

  /** Registering the same listener twice is the same as registering it once. */
  lemma AddIdempotent(ls: seq<Listener>, l: Listener)
    ensures AddListener(AddListener(ls, l), l) == AddListener(ls, l)
  {
  }

  class QueueNode<T> {
    var data: T
    var next: QueueNode?<T>

    constructor (data: T, next: QueueNode?<T>)
      ensures this.data == data && this.next == next
    {
      this.data := data;
      this.next := next;
    }
  }

  class Queue<T> {
    // public view: the held items, front first, and the nodes holding them
    ghost var contents: seq<T>
    ghost var nodes: seq<QueueNode<T>>
    /** Every node this queue has allocated; it only grows, by fresh nodes. */
    ghost var footprint: set<QueueNode<T>>

    // implementation
    var cursor: int
    var head: QueueNode?<T>
    var tail: QueueNode?<T>
    var enqueueListeners: seq<Listener>
    var dequeueListeners: seq<Listener>
    var clearListeners: seq<Listener>

    /** Every callback invocation made by `emit`, oldest first. */
    var delivered: seq<Delivery<T>>

    /** The object invariant: a well-formed chain of nodes and duplicate-free listener sets. */
    ghost predicate Valid()
      reads this`cursor, this`head, this`tail, this`contents, this`nodes, this`footprint, footprint
      reads this`enqueueListeners, this`dequeueListeners, this`clearListeners
    {
      Linked() && Registered()
    }

    /**
     * `head` to `tail` is a chain of distinct nodes holding `contents` in order,
     * the last node points nowhere, and `cursor` counts the nodes.
     */
    ghost predicate Linked()
      reads this`cursor, this`head, this`tail, this`contents, this`nodes, this`footprint, footprint
    {
      && (forall i :: 0 <= i < |nodes| ==> nodes[i] in footprint)
      && cursor == |nodes| == |contents|
      && (forall i :: 0 <= i < |nodes| ==> nodes[i].data == contents[i])
      && (forall i, j :: 0 <= i && j == i + 1 && j < |nodes| ==> nodes[i].next == nodes[j])
      && (forall i, j :: 0 <= i < j < |nodes| ==> nodes[i] != nodes[j])
      && (nodes == [] ==> head == null && tail == null)
      && (nodes != [] ==> head == nodes[0] && tail == nodes[|nodes| - 1] && tail.next == null)
    }

    /** Each listener set is a set: no callback is registered twice for one event. */
    ghost predicate Registered()
      reads this`enqueueListeners, this`dequeueListeners, this`clearListeners
    {
      NoDuplicates(enqueueListeners) && NoDuplicates(dequeueListeners) && NoDuplicates(clearListeners)
    }

    /** The listener set of one event kind. */
    function Listeners(kind: EventKind): seq<Listener>
      reads this
    {
      match kind
      case EnqueueKind => enqueueListeners
      case DequeueKind => dequeueListeners
      case ClearKind => clearListeners
    }

    /** No listener set changed, except possibly that of `changed`. */
    twostate predicate ListenersKept(changed: Option<EventKind>)
      reads this
    {
      && (changed == Some(EnqueueKind) || enqueueListeners == old(enqueueListeners))
      && (changed == Some(DequeueKind) || dequeueListeners == old(dequeueListeners))
      && (changed == Some(ClearKind) || clearListeners == old(clearListeners))
    }

    constructor ()
      ensures Valid() && fresh(this)
      ensures contents == [] && footprint == {} && delivered == []
      ensures enqueueListeners == dequeueListeners == clearListeners == []
    {
      head, tail := null, null;
      cursor := 0;
      enqueueListeners, dequeueListeners, clearListeners := [], [], [];
      delivered := [];
      contents, nodes, footprint := [], [], {};
    }

    /** `emit`: calls every listener of the event's kind, in registration order. */
    method Emit(e: QueueEvent<T>)
      modifies this`delivered
      ensures delivered == old(delivered) + Notify(Listeners(e.Kind()), e)
      ensures Valid() == old(Valid())
    {
      var ls := Listeners(e.Kind());
      var i := 0;
      while i < |ls|
        invariant 0 <= i <= |ls|
        invariant delivered == old(delivered) + Notify(ls[..i], e)
      {
        assert ls[..i + 1][..i] == ls[..i];
        delivered := delivered + [Delivery(ls[i], e)];
        i := i + 1;
      }
      assert ls[..|ls|] == ls;
    }

    /** The pointer work of `enqueue`: hooks a new node in after the tail. */
    method Append(node: QueueNode<T>)
      requires Linked() && node.next == null && node !in footprint
      modifies this`cursor, this`head, this`tail, this`contents, this`nodes, this`footprint, footprint
      ensures Linked()
      ensures contents == old(contents) + [node.data] && footprint == old(footprint) + {node}
    {
      cursor := cursor + 1;
      if tail == null {
        tail, head := node, node;
      } else {
        tail.next := node;
        tail := node;
      }
      contents := contents + [node.data];
      nodes := nodes + [node];
      footprint := footprint + {node};
    }

    method Enqueue(data: T)
      requires Valid()
      modifies this, footprint
      ensures Valid()
      ensures contents == old(contents) + [data]
      ensures old(footprint) <= footprint && fresh(footprint - old(footprint)) && |footprint - old(footprint)| == 1
      ensures delivered == old(delivered) + Notify(enqueueListeners, Enqueued(data))
      ensures ListenersKept(None)
    {
      var node := new QueueNode(data, null);
      Append(node);
      assert footprint - old(footprint) == {node};
      Emit(Enqueued(data));
    }

    /** The pointer work of `dequeue`: unhooks the head node and returns its item. */
    method Unlink() returns (data: T)
      requires Linked() && contents != []
      modifies this`cursor, this`head, this`tail, this`contents, this`nodes, footprint
      ensures Linked()
      ensures data == old(contents)[0] && contents == old(contents)[1..]
    {
      ghost var rest := nodes[1..];
      assert forall k :: 0 <= k < |rest| ==> rest[k] != nodes[0] && rest[k] == nodes[k + 1];
      cursor := cursor - 1;
      var node := head;
      head := head.next;
      node.next := null;
      if cursor == 0 {
        tail := null;
      }
      data := node.data;
      contents := contents[1..];
      nodes := nodes[1..];
    }

    /** Removes and returns the front item; on an empty queue returns `None` and changes nothing. */
    method Dequeue() returns (r: Option<T>)
      requires Valid()
      modifies this, footprint
      ensures Valid() && footprint == old(footprint)
      ensures old(contents) == [] ==> r == None && unchanged(this)
      ensures old(contents) != [] ==>
        && r == Some(old(contents)[0])
        && contents == old(contents)[1..]
        && delivered == old(delivered) + Notify(dequeueListeners, Dequeued(r.value))
      ensures ListenersKept(None)
    {
      if head == null {
        return None;
      }
      var data := Unlink();
      Emit(Dequeued(data));
      return Some(data);
    }

    /** The front item without removing it, or `None` when empty. */
    function Peek(): (r: Option<T>)
      reads this, footprint
      requires Valid()
      ensures r == if contents == [] then None else Some(contents[0])
    {
      if head == null then None else Some(head.data)
    }

    /** Tests `head == null`, which holds exactly when the queue holds nothing. */
    predicate IsEmpty()
      reads this, footprint
      requires Valid()
      ensures IsEmpty() <==> contents == []
    {
      head == null
    }

    /** The `size` getter: the element count kept in `cursor`. */
    function Size(): (n: int)
      reads this, footprint
      requires Valid()
      ensures n == |contents|
    {
      cursor
    }

    /** Drops every item at once and emits a single `clear` event. */
    method Clear()
      requires Valid()
      modifies this
      ensures Valid()
      ensures contents == [] && footprint == old(footprint)
      ensures delivered == old(delivered) + Notify(clearListeners, Cleared)
      ensures ListenersKept(None)
    {
      head := null;
      tail := null;
      cursor := 0;
      contents, nodes := [], [];
      Emit(Cleared);
    }

    /** Unregisters `l` from `kind`; a listener that is not registered is ignored. */
    method Off(kind: EventKind, l: Listener)
      requires Valid()
      modifies this
      ensures Valid()
      ensures Listeners(kind) == RemoveListener(old(Listeners(kind)), l)
      ensures ListenersKept(Some(kind))
      ensures contents == old(contents) && footprint == old(footprint) && delivered == old(delivered)
    {
      RemoveMembership(Listeners(kind), l);
      match kind
      case EnqueueKind => enqueueListeners := RemoveListener(enqueueListeners, l);
      case DequeueKind => dequeueListeners := RemoveListener(dequeueListeners, l);
      case ClearKind => clearListeners := RemoveListener(clearListeners, l);
    }

    /** Registers `l` for `kind` and returns the capability that unregisters it. */
    method On(kind: EventKind, l: Listener) returns (unsubscribe: Subscription)
      requires Valid()
      modifies this
      ensures Valid()
      ensures unsubscribe == Subscription(kind, l)
      ensures Listeners(kind) == AddListener(old(Listeners(kind)), l)
      ensures ListenersKept(Some(kind))
      ensures contents == old(contents) && footprint == old(footprint) && delivered == old(delivered)
    {
      AddMembership(Listeners(kind), l);
      match kind {
        case EnqueueKind => enqueueListeners := AddListener(enqueueListeners, l);
        case DequeueKind => dequeueListeners := AddListener(dequeueListeners, l);
        case ClearKind => clearListeners := AddListener(clearListeners, l);
      }
      unsubscribe := Subscription(kind, l);
    }

    /** Calls the function `on` returned: `off` with the same event and callback. */
    method Unsubscribe(s: Subscription)
      requires Valid()
      modifies this
      ensures Valid()
      ensures Listeners(s.kind) == RemoveListener(old(Listeners(s.kind)), s.listener)
      ensures ListenersKept(Some(s.kind))
      ensures contents == old(contents) && footprint == old(footprint) && delivered == old(delivered)
    {
      Off(s.kind, s.listener);
    }
  }

  /** The items a sequence of operations enqueues, in order: `Some(x)` enqueues x, `None` dequeues. */
  function Pushed<T>(ops: seq<Option<T>>): seq<T> {
    if ops == [] then []
    else Pushed(ops[..|ops| - 1]) + (if ops[|ops| - 1].Some? then [ops[|ops| - 1].value] else [])
  }

  /** One step of a client: `Some(x)` enqueues `x`, `None` dequeues. */
  method Apply<T>(q: Queue<T>, op: Option<T>) returns (r: Option<T>)
    requires q.Valid()
    modifies q, q.footprint
    ensures q.Valid() && fresh(q.footprint - old(q.footprint))
    ensures op.Some? ==> r == None && q.contents == old(q.contents) + [op.value]
    ensures op.None? && old(q.contents) == [] ==> r == None && q.contents == []
    ensures op.None? && old(q.contents) != [] ==> r == Some(old(q.contents)[0]) && q.contents == old(q.contents)[1..]
  {
    match op {
      case Some(x) =>
        q.Enqueue(x);
        r := None;
      case None =>
        r := q.Dequeue();
    }
  }

  /** A `dequeue` on a non-empty queue: the front item comes off. */
  method PopFront<T>(q: Queue<T>) returns (x: T)
    requires q.Valid() && q.contents != []
    modifies q, q.footprint
    ensures q.Valid() && q.footprint == old(q.footprint)
    ensures old(q.contents) == [x] + q.contents
  {
    var r := q.Dequeue();
    x := r.value;
  }

  /** Dequeues until the queue is empty; the items come out in queue order. */
  method DrainAll<T>(q: Queue<T>) returns (out: seq<T>)
    requires q.Valid()
    modifies q, q.footprint
    ensures q.Valid() && q.contents == [] && out == old(q.contents)
  {
    out := [];
    while !q.IsEmpty()
      invariant q.Valid() && q.footprint == old(q.footprint)
      invariant out + q.contents == old(q.contents)
      decreases |q.contents|
    {
      ghost var before := q.contents;
      var x := PopFront(q);
      assert out + [x] + q.contents == out + before;
      out := out + [x];
    }
  }

  /**
   * The FIFO law: runs any interleaving of enqueues and dequeues on a new queue,
   * then drains it. What the interleaved dequeues return is a prefix of what was
   * enqueued, and everything comes out exactly in enqueue order.
   */
  method FifoLaw<T>(ops: seq<Option<T>>) returns (popped: seq<T>, all: seq<T>)
    ensures popped <= Pushed(ops)
    ensures all == Pushed(ops)
  {
    var q := new Queue<T>();
    popped := [];
    var i := 0;
    while i < |ops|
      invariant 0 <= i <= |ops|
      invariant q.Valid() && fresh(q) && fresh(q.footprint)
      invariant popped + q.contents == Pushed(ops[..i])
    {
      assert ops[..i + 1][..i] == ops[..i];
      var r := Apply(q, ops[i]);
      if r.Some? {
        popped := popped + [r.value];
      }
      i := i + 1;
    }
    assert ops[..|ops|] == ops;
    var rest := DrainAll(q);
    all := popped + rest;
  }

  /** Push then pop one item, observing the queue at each step (src/queue.test.ts:5-18). */
  method PushPopScenario<T>(x: T)
    returns (emptyBefore: bool, emptyAfterPush: bool, sizeAfterPush: int, front: Option<T>,
             popped: Option<T>, emptyAfterPop: bool, sizeAfterPop: int, frontAfterPop: Option<T>)
    ensures emptyBefore && !emptyAfterPush && sizeAfterPush == 1 && front == Some(x)
    ensures popped == Some(x) && emptyAfterPop && sizeAfterPop == 0 && frontAfterPop == None
  {
    var q := new Queue<T>();
    emptyBefore := q.IsEmpty();
    q.Enqueue(x);
    emptyAfterPush, sizeAfterPush, front := q.IsEmpty(), q.Size(), q.Peek();
    popped := q.Dequeue();
    emptyAfterPop, sizeAfterPop, frontAfterPop := q.IsEmpty(), q.Size(), q.Peek();
  }

  /** After `clear` the queue is empty, has size 0 and nothing to peek (src/queue.test.ts:20-29). */
  method ClearScenario<T>(x: T) returns (empty: bool, size: int, front: Option<T>)
    ensures empty && size == 0 && front == None
  {
    var q := new Queue<T>();
    q.Enqueue(x);
    q.Clear();
    empty, size, front := q.IsEmpty(), q.Size(), q.Peek();
  }

  /** A new queue with one callback registered for all three events. */
  method SubscribedQueue<T>(l: Listener) returns (q: Queue<T>)
    ensures fresh(q) && q.Valid() && q.contents == [] && q.footprint == {} && q.delivered == []
    ensures q.enqueueListeners == q.dequeueListeners == q.clearListeners == [l]
  {
    q := new Queue<T>();
    var _ := q.On(EnqueueKind, l);
    var _ := q.On(DequeueKind, l);
    var _ := q.On(ClearKind, l);
  }

  /**
   * One callback registered for all three events observes enqueue, dequeue and
   * clear, in that order, once each (src/queue.test.ts:31-45).
   */
  method EventScenario<T>(x: T, l: Listener) returns (log: seq<Delivery<T>>)
    ensures log == [Delivery(l, Enqueued(x)), Delivery(l, Dequeued(x)), Delivery(l, Cleared)]
  {
    var q := SubscribedQueue<T>(l);
    q.Enqueue(x);
    assert q.delivered == [Delivery(l, Enqueued(x))];
    var _ := q.Dequeue();
    assert q.delivered == [Delivery(l, Enqueued(x)), Delivery(l, Dequeued(x))];
    q.Clear();
    assert Notify<T>([l], Cleared) == [Delivery(l, Cleared)];
    log := q.delivered;
  }
}
