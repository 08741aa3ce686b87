/** The single-consumer channel of `mpsc`: a deque shared by every Sender
    and the Receiver, and a count of senders kept in an `unsigned`.
    Each operation is one step taken under the channel's mutex; the mutex
    itself and the condition variable are not modelled, and the wait in
    `recv` is reported as the outcome `WouldBlock`. */
module Channel {
  import opened Wrappers

  // ---------------------------------------------------------------------
  // The shared state as a value

  /** `Inner` without its mutex and condition variable. */
  datatype State<T> = State(queue: seq<T>, senders: u32)

  /** `senders++` on an `unsigned`: wraps to 0 after the largest value. */
  function Incremented(n: u32): (r: u32)
    ensures r == (n + 1) % U32_LIMIT
    ensures n < U32_LIMIT - 1 ==> r == n + 1
  {
    if n == U32_LIMIT - 1 then 0 else n + 1
  }

  /** `senders--` on an `unsigned`: wraps to the largest value below 0. */
  function Decremented(n: u32): (r: u32)
    ensures (r + 1) % U32_LIMIT == n
    ensures n > 0 ==> r == n - 1
  {
    if n == 0 then U32_LIMIT - 1 else n - 1
  }

  /** A Sender copied (copy constructor or copy assignment): one more count, same queue. */
  function Copied<T>(st: State<T>): (r: State<T>)
    ensures r.queue == st.queue && r.senders == Incremented(st.senders)
  {
    st.(senders := Incremented(st.senders))
  }

  /** A Sender destroyed: one count less, same queue. */
  function Dropped<T>(st: State<T>): (r: State<T>)
    ensures r.queue == st.queue && (r.senders + 1) % U32_LIMIT == st.senders
  {
    st.(senders := Decremented(st.senders))
  }

  /** Whether destroying a Sender in state `st` wakes the receiver:
      exactly when the count it leaves is 0. */
  predicate Notifies<T>(st: State<T>)
    ensures Notifies(st) <==> st.senders == 1
  {
    Dropped(st).senders == 0
  }

  /** `send`: the item goes in at the front of the deque. */
  function Pushed<T>(st: State<T>, x: T): (r: State<T>)
    ensures |r.queue| == |st.queue| + 1 && r.queue[0] == x && r.queue[1..] == st.queue
    ensures r.senders == st.senders
  {
    st.(queue := [x] + st.queue)
  }

  /** What `recv` reports: an item, the null optional once every Sender
      has gone, or that it would wait. */
  datatype Received<T> = Item(value: T) | Closed | WouldBlock

  /** `recv`: the front of the deque when there is one; otherwise Closed
      when the count is 0, and a wait, with nothing changed, when it is not. */
  function Take<T>(st: State<T>): (r: (Received<T>, State<T>))
    ensures r.0.Item? <==> st.queue != []
    ensures r.0.Item? ==> r.0.value == st.queue[0] && r.1 == State(st.queue[1..], st.senders)
    ensures r.0 == Closed <==> st.queue == [] && st.senders == 0
    ensures r.0 == WouldBlock ==> r.1 == st
    ensures r.0 == Closed ==> r.1 == st
    ensures r.1.senders == st.senders
  {
    if st.queue != [] then (Item(st.queue[0]), st.(queue := st.queue[1..]))
    else if st.senders == 0 then (Closed, st)
    else (WouldBlock, st)
  }

  /** What `try_recv` reports: nothing queued, or that the front was removed
      (the value it would hand back is not modelled). */
  datatype Polled = Nothing | Removed

  /** `try_recv`: removes the front when there is one; an empty deque
      answers Nothing whatever the count of senders. */
  function Poll<T>(st: State<T>): (r: (Polled, State<T>))
    ensures r.0 == Nothing <==> st.queue == []
    ensures r.0 == Nothing ==> r.1 == st
    ensures r.0 == Removed ==> r.1 == State(st.queue[1..], st.senders)
  {
    if st.queue != [] then (Removed, st.(queue := st.queue[1..])) else (Nothing, st)
  }

  /** `make_channel`: a fresh `Inner` (count 0), a Sender made from it by
      the converting constructor (no count), copied into the returned tuple
      (count 1), after which the local Sender is destroyed (count 0). */
  function Opened<T>(): (st: State<T>)
    ensures st.queue == [] && st.senders == 0
  {
    Dropped(Copied(State([], 0)))
  }

  // ---------------------------------------------------------------------
  // Properties of runs of operations

  /** The items in the order they were sent, last first. */
  function Reverse<T>(xs: seq<T>): (r: seq<T>)
    ensures |r| == |xs|
    decreases |xs|
  {
    if xs == [] then [] else Reverse(xs[1..]) + [xs[0]]
  }

  /** Sending `xs` one after another. */
  function SendAll<T>(st: State<T>, xs: seq<T>): State<T>
    decreases |xs|
  {
    if xs == [] then st else SendAll(Pushed(st, xs[0]), xs[1..])
  }

  /** Sending puts the items in front of those queued, last sent first. */
  lemma {:induction false} SendAllQueue<T>(st: State<T>, xs: seq<T>)
    ensures SendAll(st, xs).queue == Reverse(xs) + st.queue
    ensures SendAll(st, xs).senders == st.senders
    decreases |xs|
  {
    if xs != [] {
      SendAllQueue(Pushed(st, xs[0]), xs[1..]);
      assert Reverse(xs[1..]) + ([xs[0]] + st.queue) == (Reverse(xs[1..]) + [xs[0]]) + st.queue;
    }
  }

  /** Sending one more item after a run of sends. */
  lemma {:induction false} SendAllSnoc<T>(st: State<T>, xs: seq<T>, x: T)
    ensures SendAll(st, xs + [x]) == Pushed(SendAll(st, xs), x)
    decreases |xs|
  {
    if xs == [] {
      assert [] + [x] == [x];
    } else {
      assert (xs + [x])[0] == xs[0] && (xs + [x])[1..] == xs[1..] + [x];
      SendAllSnoc(Pushed(st, xs[0]), xs[1..], x);
    }
  }

  /** The last item of a non-empty sequence comes first in its reverse. */
  lemma {:induction false} ReverseFront<T>(xs: seq<T>)
    requires xs != []
    ensures Reverse(xs)[0] == xs[|xs| - 1]
    decreases |xs|
  {
    if |xs| > 1 {
      ReverseFront(xs[1..]);
    }
  }

  /** `recv` called until it stops handing out items: the items in the
      order received, and what the call that handed out none reported. */
  function Drained<T>(st: State<T>): (r: (seq<T>, Received<T>))
    ensures r.0 == st.queue
    ensures r.1 == (if st.senders == 0 then Closed else WouldBlock)
    decreases |st.queue|
  {
    var (got, next) := Take(st);
    match got
    case Item(x) =>
      var rest := Drained(next);
      ([x] + rest.0, rest.1)
    case _ => ([], got)
  }

  /** The channel is last-in, first-out: draining what was sent into an
      empty channel hands the items back in reverse order, and Closed is
      reported only after the last of them. */
  lemma LastInFirstOut<T>(xs: seq<T>, senders: u32)
    ensures Drained(SendAll(State([], senders), xs)).0 == Reverse(xs)
    ensures Drained(SendAll(State([], senders), xs)).1 == (if senders == 0 then Closed else WouldBlock)
  {
    SendAllQueue(State([], senders), xs);
    assert Reverse(xs) + [] == Reverse(xs);
  }

  /** The first `recv` after a run of sends returns the last item sent. */
  lemma LatestFirst<T>(st: State<T>, xs: seq<T>)
    requires xs != []
    ensures Take(SendAll(st, xs)).0 == Item(xs[|xs| - 1])
  {
    SendAllQueue(st, xs);
    ReverseFront(xs);
  }

  /** A single send followed by `recv` returns the item sent and restores the state. */
  lemma SendThenTake<T>(st: State<T>, x: T)
    ensures Take(Pushed(st, x)) == (Item(x), st)
  {
  }

  /** `n` Sender copies. */
  function Copies<T>(st: State<T>, n: nat): State<T>
    decreases n
  {
    if n == 0 then st else Copied(Copies(st, n - 1))
  }

  /** `n` Sender destructions. */
  function Drops<T>(st: State<T>, n: nat): State<T>
    decreases n
  {
    if n == 0 then st else Drops(Dropped(st), n - 1)
  }

  /** Destroying as many Senders as were copied gives the count back,
      wrap-around included. */
  lemma {:induction false} CopiesThenDrops<T>(st: State<T>, n: nat)
    ensures Drops(Copies(st, n), n) == st
    decreases n
  {
    if n > 0 {
      var before := Copies(st, n - 1);
      assert Dropped(Copied(before)) == before;
      CopiesThenDrops(st, n - 1);
    }
  }

  /** The Sender `make_channel` returns is not counted: destroying it
      wraps the count to the largest `unsigned`, does not notify, and from
      then on an empty channel waits instead of reporting Closed. */
  lemma LastSenderNeverCloses<T>()
    ensures !Notifies(Opened<T>())
    ensures Dropped(Opened<T>()).senders == U32_LIMIT - 1
    ensures Take(Dropped(Opened<T>())).0 == WouldBlock
  {
  }

  // ---------------------------------------------------------------------
  // The objects

  /** The state shared by the Senders and the Receiver of one channel. */
  class Inner<T> {
    var queue: seq<T>
    var senders: u32

    function Snapshot(): State<T>
      reads this
    {
      State(queue, senders)
    }

    constructor ()
      ensures queue == [] && senders == 0
    {
      queue := [];
      senders := 0;
    }
  }

  class Sender<T> {
    var inner: Inner<T>

    /** The converting constructor: shares `inner` without counting itself. */
    constructor (inner: Inner<T>)
      ensures this.inner == inner
    {
      this.inner := inner;
    }

    /** The copy constructor: counts one more Sender of `other`'s channel. */
    constructor Copy(other: Sender<T>)
      modifies other.inner
      ensures inner == other.inner
      ensures inner.Snapshot() == Copied(old(other.inner.Snapshot()))
    {
      other.inner.senders := Incremented(other.inner.senders);
      inner := other.inner;
    }

    /** Copy assignment: counts one more Sender of `other`'s channel and
        shares it; the channel this Sender held before keeps its count. */
    method Assign(other: Sender<T>)
      modifies this, other.inner
      ensures inner == other.inner
      ensures inner.Snapshot() == Copied(old(other.inner.Snapshot()))
      ensures old(inner) != inner ==> old(inner).Snapshot() == old(inner.Snapshot())
    {
      other.inner.senders := Incremented(other.inner.senders);
      inner := other.inner;
    }

    /** The destructor: one Sender less, and a notification exactly when
        the count reaches 0. */
    method Drop() returns (notified: bool)
      modifies inner
      ensures inner.Snapshot() == Dropped(old(inner.Snapshot()))
      ensures notified == Notifies(old(inner.Snapshot()))
    {
      inner.senders := Decremented(inner.senders);
      notified := inner.senders == 0;
    }

    /** `send`, whether or not the Receiver still exists. */
    method Send(x: T)
      modifies inner
      ensures inner.Snapshot() == Pushed(old(inner.Snapshot()), x)
    {
      inner.queue := [x] + inner.queue;
    }
  }

  class Receiver<T> {
    const inner: Inner<T>

    constructor (inner: Inner<T>)
      ensures this.inner == inner
    {
      this.inner := inner;
    }

    /** One pass of `recv`'s loop: the result and the new state are those of `Take`. */
    method Recv() returns (r: Received<T>)
      modifies inner
      ensures (r, inner.Snapshot()) == Take(old(inner.Snapshot()))
    {
      if inner.queue != [] {
        r := Item(inner.queue[0]);
        inner.queue := inner.queue[1..];
      } else if inner.senders == 0 {
        r := Closed;
      } else {
        r := WouldBlock;
      }
    }

    /** `try_recv`: the result and the new state are those of `Poll`. */
    method TryRecv() returns (r: Polled)
      modifies inner
      ensures (r, inner.Snapshot()) == Poll(old(inner.Snapshot()))
    {
      if inner.queue != [] {
        inner.queue := inner.queue[1..];
        r := Removed;
      } else {
        r := Nothing;
      }
    }
  }

  /** `make_channel`, step by step: the returned Sender and Receiver share
      a fresh state whose queue is empty and whose count is 0. */
  method MakeChannel<T>() returns (sender: Sender<T>, receiver: Receiver<T>)
    ensures fresh(sender) && fresh(receiver) && fresh(sender.inner)
    ensures sender.inner == receiver.inner
    ensures sender.inner.Snapshot() == Opened()
  {
    var inner := new Inner<T>();
    var local := new Sender(inner);
    receiver := new Receiver(inner);
    sender := new Sender.Copy(local);
    var _ := local.Drop();
  }

  // ---------------------------------------------------------------------
  // The channel's own scenarios

  /** A value sent on a new channel is the value received. */
  method PingPong() returns (r: Received<int>)
    ensures r == Item(5)
  {
    var sender, receiver := MakeChannel<int>();
    sender.Send(5);
    r := receiver.Recv();
  }

  /** Moving the Sender into a scope and leaving it (one copy, one
      destruction) leaves the channel closed for the Receiver. */
  method SenderClose() returns (r: Received<int>)
    ensures r == Closed
  {
    var sender, receiver := MakeChannel<int>();
    var moved := new Sender.Copy(sender);
    var _ := moved.Drop();
    r := receiver.Recv();
  }

  /** Sending works after the Receiver has gone out of scope. */
  method ReceiverClose() returns (queued: seq<int>)
    ensures queued == [10]
  {
    var sender, receiver := MakeChannel<int>();
    sender.Send(10);
    queued := sender.inner.queue;
  }
}
