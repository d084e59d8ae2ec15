/** Submission and completion bookkeeping of the io_uring worker (worker/cqe_processor.rs and
    worker/internal_op_tracker.rs). A push fails only when the submission queue is full. */
module Submission {
  import opened Bytes
  import opened BufferPool

  /** What a connection handler asks the worker to do. */
  datatype Request =
    | SetCork(on: bool)
    | SendData(data: Octets)
    | SendZeroCopy(data: Octets)
    | CloseFd
    | ReadMultishot(fd: int, group: nat)
    | Cancel(fd: int, target: nat)

  /** What the tracker remembers of an operation in flight. For a zero-copy send `data` records
      what the slot held when it was handed over. */
  datatype OpKind =
    | Generic
    | PlainSend(data: Octets)
    | ZeroCopySend(slot: nat, data: Octets)
    | Closing
    | Multishot
    | Cancelling(target: nat)

  datatype Op = Op(fd: int, kind: OpKind)

  datatype Action =
    | Cork(on: bool)
    | Transmit(data: Octets, zeroCopy: bool)
    | Close
    | Receive(group: nat)
    | CancelOf(target: nat)

  datatype Entry = Entry(fd: int, action: Action, userData: nat)

  const FIRST_ID := 1_000_000_000
  const ID_SPACE := 0x1_0000_0000_0000_0000

  /** `queue` is the submission queue; `pushed` everything ever pushed to it; `acquired` and
      `released` the operations that took a registered buffer and that gave it back. */
  datatype Worker = Worker(
    pool: Option<Pool>,
    zeroCopy: bool,
    ops: map<nat, Op>,
    next: nat,
    queue: seq<Entry>,
    depth: nat,
    pushed: seq<Entry>,
    acquired: set<nat>,
    released: set<nat>)

  function NewWorker(pool: Option<Pool>, zeroCopy: bool, depth: nat): Worker {
    Worker(pool, zeroCopy, map[], FIRST_ID, [], depth, [], {}, {})
  }

  predicate PoolReady(w: Worker) { w.pool.Some? ==> PoolOk(w.pool.value) }

  function NextId(id: nat): nat { if id + 1 >= ID_SPACE then FIRST_ID else id + 1 }

  /** A new tracker entry and the submission carrying its number. */
  function Push(w: Worker, fd: int, kind: OpKind, action: Action): Worker {
    var e := Entry(fd, action, w.next);
    w.(ops := w.ops[w.next := Op(fd, kind)], next := NextId(w.next), queue := w.queue + [e], pushed := w.pushed + [e])
  }

  function PushZeroCopy(w: Worker, fd: int, data: Octets): Worker
    requires PoolReady(w)
  {
    var a := if w.zeroCopy && w.pool.Some? then Acquire(w.pool.value, data) else Acquired(Pool([], []), None);
    if a.id.Some? then
      Push(w.(pool := Some(a.pool), acquired := w.acquired + {w.next}), fd, ZeroCopySend(a.id.value, data), Transmit(data, true))
    else Push(w, fd, PlainSend(data), Transmit(data, false))
  }

  function SubmitOne(w: Worker, fd: int, r: Request): Worker
    requires PoolReady(w)
  {
    match r
    case SetCork(on) => Push(w, fd, Generic, Cork(on))
    case SendData(data) => Push(w, fd, PlainSend(data), Transmit(data, false))
    case SendZeroCopy(data) => PushZeroCopy(w, fd, data)
    case CloseFd => Push(w, fd, Closing, Close)
    case ReadMultishot(f, group) => if f == fd then Push(w, fd, Multishot, Receive(group)) else w
    case Cancel(f, target) => if f == fd then Push(w, fd, Cancelling(target), CancelOf(target)) else w
  }

  lemma SubmitOnePool(w: Worker, fd: int, r: Request)
    requires PoolReady(w)
    ensures PoolReady(SubmitOne(w, fd, r))
  {
  }

  datatype Outcome = Outcome(worker: Worker, rest: Option<seq<Request>>)

  /** `process_handler_blueprints`: stops at a full queue and hands the rest back. */
  function Submit(w: Worker, fd: int, rs: seq<Request>): Outcome
    requires PoolReady(w)
    decreases |rs|
  {
    if rs == [] then Outcome(w, None)
    else if |w.queue| >= w.depth then Outcome(w, Some(rs))
    else
      SubmitOnePool(w, fd, rs[0]);
      Submit(SubmitOne(w, fd, rs[0]), fd, rs[1..])
  }

  /** One completion. `notify` is the flag that a zero-copy buffer is no longer read, `ok` a
      non-negative result, `keep` whether a multishot read or a cancellation goes on. */
  function Complete(w: Worker, id: nat, notify: bool, ok: bool, keep: bool): Worker {
    if id !in w.ops then w
    else
      match w.ops[id].kind
      case ZeroCopySend(slot, _) =>
        if !notify && ok then w
        else
          w.(ops := w.ops - {id}, released := w.released + {id},
             pool := if w.pool.Some? then Some(Release(w.pool.value, slot)) else None)
      case Multishot => if keep then w else w.(ops := w.ops - {id})
      case Cancelling(_) => if keep then w else w.(ops := w.ops - {id})
      case _ => w.(ops := w.ops - {id})
  }

  /** The kernel takes entries off the submission queue. */
  function Drain(w: Worker, n: nat): Worker {
    w.(queue := if n <= |w.queue| then w.queue[n..] else [])
  }

  /** The worker as the source keeps it: the tracker, the queue and the buffers in one object. */
  class UringWorker {
    var pool: Option<Pool>
    const zeroCopy: bool
    var ops: map<nat, Op>
    var next: nat
    var queue: seq<Entry>
    const depth: nat
    ghost var pushed: seq<Entry>
    ghost var acquired: set<nat>
    ghost var released: set<nat>

    ghost function State(): Worker
      reads this
    {
      Worker(pool, zeroCopy, ops, next, queue, depth, pushed, acquired, released)
    }

    constructor (pool: Option<Pool>, zeroCopy: bool, depth: nat)
      ensures State() == NewWorker(pool, zeroCopy, depth)
    {
      this.pool, this.zeroCopy, this.depth := pool, zeroCopy, depth;
      ops, next, queue := map[], FIRST_ID, [];
      pushed, acquired, released := [], {}, {};
    }

    method PushEntry(fd: int, kind: OpKind, action: Action)
      modifies this`ops, this`next, this`queue, this`pushed
      ensures State() == Push(old(State()), fd, kind, action)
    {
      var id := next;
      next := NextId(next);
      ops := ops[id := Op(fd, kind)];
      var e := Entry(fd, action, id);
      queue := queue + [e];
      pushed := pushed + [e];
    }

    method PushSendZeroCopy(fd: int, data: Octets)
      requires PoolReady(State())
      modifies this
      ensures State() == PushZeroCopy(old(State()), fd, data)
    {
      if zeroCopy && pool.Some? {
        var a := Acquire(pool.value, data);
        if a.id.Some? {
          pool := Some(a.pool);
          acquired := acquired + {next};
          PushEntry(fd, ZeroCopySend(a.id.value, data), Transmit(data, true));
          return;
        }
      }
      PushEntry(fd, PlainSend(data), Transmit(data, false));
    }

    method PushRequest(fd: int, r: Request)
      requires PoolReady(State())
      modifies this
      ensures State() == SubmitOne(old(State()), fd, r)
    {
      match r {
        case SetCork(on) => PushEntry(fd, Generic, Cork(on));
        case SendData(data) => PushEntry(fd, PlainSend(data), Transmit(data, false));
        case SendZeroCopy(data) => PushSendZeroCopy(fd, data);
        case CloseFd => PushEntry(fd, Closing, Close);
        case ReadMultishot(f, group) =>
          if f == fd {
            PushEntry(fd, Multishot, Receive(group));
          }
        case Cancel(f, target) =>
          if f == fd {
            PushEntry(fd, Cancelling(target), CancelOf(target));
          }
      }
    }

    method ProcessHandlerBlueprints(fd: int, rs: seq<Request>) returns (rest: Option<seq<Request>>)
      requires PoolReady(State())
      modifies this
      ensures Outcome(State(), rest) == Submit(old(State()), fd, rs)
    {
      for i := 0 to |rs|
        invariant PoolReady(State())
        invariant Submit(State(), fd, rs[i..]) == Submit(old(State()), fd, rs)
      {
        if |queue| >= depth {
          return Some(rs[i..]);
        }
        SubmitOnePool(State(), fd, rs[i]);
        assert rs[i..][1..] == rs[i + 1..];
        PushRequest(fd, rs[i]);
      }
      return None;
    }

    method ProcessCqe(id: nat, notify: bool, ok: bool, keep: bool)
      modifies this
      ensures State() == Complete(old(State()), id, notify, ok, keep)
    {
      if id !in ops {
        return;
      }
      var kind := ops[id].kind;
      if kind.ZeroCopySend? && !notify && ok {
        return;
      }
      if (kind.Multishot? || kind.Cancelling?) && keep {
        return;
      }
      ops := ops - {id};
      if kind.ZeroCopySend? {
        released := released + {id};
        if pool.Some? {
          pool := Some(Release(pool.value, kind.slot));
        }
      }
    }
  }

  // --- Resumable submission ---

  /** What a request is for, and what a submission does, whichever way octets are sent. */
  datatype Task = DoCork(on: bool) | DoSend(data: Octets) | DoClose | DoReceive(group: nat) | DoCancel(target: nat)

  function TasksOf(fd: int, rs: seq<Request>): seq<Task> {
    if rs == [] then []
    else
      TasksOf(fd, rs[..|rs| - 1])
      + (match rs[|rs| - 1]
         case SetCork(on) => [DoCork(on)]
         case SendData(data) => [DoSend(data)]
         case SendZeroCopy(data) => [DoSend(data)]
         case CloseFd => [DoClose]
         case ReadMultishot(f, group) => if f == fd then [DoReceive(group)] else []
         case Cancel(f, target) => if f == fd then [DoCancel(target)] else [])
  }

  function TaskOf(e: Entry): Task {
    match e.action
    case Cork(on) => DoCork(on)
    case Transmit(data, _) => DoSend(data)
    case Close => DoClose
    case Receive(group) => DoReceive(group)
    case CancelOf(target) => DoCancel(target)
  }

  function DoneBy(es: seq<Entry>): seq<Task> {
    seq(|es|, i requires 0 <= i < |es| => TaskOf(es[i]))
  }

  /** Each entry has a number of its own, from `base` on, and is tracked for the connection. */
  predicate Numbered(added: seq<Entry>, fd: int, base: nat, ops: map<nat, Op>) {
    forall i :: 0 <= i < |added| ==>
      && added[i].fd == fd && added[i].userData == base + i
      && added[i].userData in ops && ops[added[i].userData].fd == fd
  }

  /** What is in flight stays so. */
  predicate Kept(before: map<nat, Op>, after: map<nat, Op>) {
    forall id :: id in before ==> id in after && after[id] == before[id]
  }

  function Added(w: Worker, after: Worker): seq<Entry> {
    if |w.pushed| <= |after.pushed| then after.pushed[|w.pushed|..] else []
  }

  /** `after` has pushed the tasks of the first `k` requests, in order, each under a number of its
      own that was free and is now tracked for this connection. */
  ghost predicate Image(w: Worker, after: Worker, fd: int, rs: seq<Request>, k: nat)
    requires k <= |rs|
  {
    && w.pushed <= after.pushed
    && DoneBy(Added(w, after)) == TasksOf(fd, rs[..k])
    && after.queue == w.queue + Added(w, after)
    && after.next == w.next + |Added(w, after)|
    && Numbered(Added(w, after), fd, w.next, after.ops)
    && Kept(w.ops, after.ops)
  }

  /** Numbers in use are below the next one, and there are enough left for `n` more. */
  predicate Fresh(w: Worker, n: nat) {
    && FIRST_ID <= w.next && w.next + n < ID_SPACE
    && (forall id :: id in w.ops ==> id < w.next)
    && (forall id :: id in w.acquired ==> id < w.next)
  }

  lemma DoneBySnoc(es: seq<Entry>, e: Entry)
    ensures DoneBy(es + [e]) == DoneBy(es) + [TaskOf(e)]
  {
  }

  lemma TasksSnoc(fd: int, rs: seq<Request>, k: nat)
    requires k < |rs|
    ensures TasksOf(fd, rs[..k + 1]) == TasksOf(fd, rs[..k]) + TasksOf(fd, [rs[k]])
  {
    assert rs[..k + 1][..k] == rs[..k];
    assert [rs[k]][..0] == [];
  }

  /** One request pushes its task, if it is for this connection. */
  lemma SubmitOneImage(w: Worker, fd: int, r: Request)
    requires PoolReady(w) && Fresh(w, 1)
    ensures var v := SubmitOne(w, fd, r);
            && (v == w || (&& |v.pushed| == |w.pushed| + 1
                           && (var e := v.pushed[|w.pushed|];
                               && v.pushed == w.pushed + [e] && v.queue == w.queue + [e]
                               && e.fd == fd && e.userData == w.next && v.next == w.next + 1
                               && w.next in v.ops && v.ops == w.ops[w.next := v.ops[w.next]] && v.ops[w.next].fd == fd
                               && TasksOf(fd, [r]) == [TaskOf(e)])))
            && (v == w ==> TasksOf(fd, [r]) == [])
            && v.depth == w.depth
  {
  }

  lemma SubmitOneFresh(w: Worker, fd: int, r: Request, n: nat)
    requires PoolReady(w) && Fresh(w, n + 1)
    ensures Fresh(SubmitOne(w, fd, r), n)
  {
  }

  lemma NumberedMore(added: seq<Entry>, e: Entry, fd: int, base: nat, ops: map<nat, Op>, op: Op)
    requires Numbered(added, fd, base, ops) && e.fd == fd && e.userData == base + |added| && op.fd == fd
    ensures Numbered(added + [e], fd, base, ops[e.userData := op])
  {
  }

  lemma AddedMore(w: Worker, u: Worker, v: Worker, e: Entry)
    requires w.pushed <= u.pushed && v.pushed == u.pushed + [e] && u.queue == w.queue + Added(w, u) && v.queue == u.queue + [e]
    ensures w.pushed <= v.pushed && Added(w, v) == Added(w, u) + [e] && v.queue == w.queue + Added(w, v)
  {
  }

  lemma ImageStep(w: Worker, u: Worker, fd: int, rs: seq<Request>, k: nat)
    requires PoolReady(u) && k < |rs| && Fresh(u, 1) && Image(w, u, fd, rs, k)
    requires forall id :: id in w.ops ==> id < w.next
    ensures Image(w, SubmitOne(u, fd, rs[k]), fd, rs, k + 1)
  {
    SubmitOneImage(u, fd, rs[k]);
    TasksSnoc(fd, rs, k);
    var v := SubmitOne(u, fd, rs[k]);
    if v != u {
      var e := v.pushed[|u.pushed|];
      AddedMore(w, u, v, e);
      DoneBySnoc(Added(w, u), e);
      NumberedMore(Added(w, u), e, fd, w.next, u.ops, v.ops[u.next]);
    }
  }

  /** Submission from the `k`-th request on. */
  lemma {:induction false} SubmitFrom(w: Worker, u: Worker, fd: int, rs: seq<Request>, k: nat)
    requires k <= |rs| && PoolReady(u) && Fresh(u, |rs| - k) && Image(w, u, fd, rs, k)
    requires forall id :: id in w.ops ==> id < w.next
    ensures var o := Submit(u, fd, rs[k..]);
            var left := if o.rest.Some? then |o.rest.value| else 0;
            && left <= |rs| - k && Image(w, o.worker, fd, rs, |rs| - left)
            && (o.rest.Some? ==> left > 0 && o.rest.value == rs[|rs| - left..] && |o.worker.queue| >= o.worker.depth)
            && PoolReady(o.worker) && Fresh(o.worker, left) && o.worker.depth == u.depth
    decreases |rs| - k
  {
    if k < |rs| && |u.queue| < u.depth {
      SubmitOnePool(u, fd, rs[k]);
      SubmitOneImage(u, fd, rs[k]);
      SubmitOneFresh(u, fd, rs[k], |rs| - k - 1);
      ImageStep(w, u, fd, rs, k);
      assert rs[k..][1..] == rs[k + 1..] && rs[k..][0] == rs[k];
      SubmitFrom(w, SubmitOne(u, fd, rs[k]), fd, rs, k + 1);
    }
  }

  /** What is handed back is the unprocessed end of the list, and what was pushed is the exact
      image of the rest. */
  lemma SubmitResumable(w: Worker, fd: int, rs: seq<Request>)
    requires PoolReady(w) && Fresh(w, |rs|)
    ensures var o := Submit(w, fd, rs);
            var left := if o.rest.Some? then |o.rest.value| else 0;
            && left <= |rs| && Image(w, o.worker, fd, rs, |rs| - left)
            && (o.rest.Some? ==> left > 0 && o.rest.value == rs[|rs| - left..] && |o.worker.queue| >= o.worker.depth)
            && PoolReady(o.worker) && Fresh(o.worker, left) && o.worker.depth == w.depth
  {
    assert rs[..0] == [] && w.pushed[|w.pushed|..] == [] && rs[0..] == rs;
    assert DoneBy([]) == TasksOf(fd, []);
    SubmitFrom(w, w, fd, rs, 0);
  }

  /** Try, let the kernel take some entries, and try again with what was handed back. */
  function Retry(w: Worker, fd: int, rs: seq<Request>, drains: seq<nat>): Outcome
    requires PoolReady(w) && Fresh(w, |rs|)
    decreases |drains|
  {
    SubmitResumable(w, fd, rs);
    var o := Submit(w, fd, rs);
    if o.rest.None? || drains == [] then o else Retry(Drain(o.worker, drains[0]), fd, o.rest.value, drains[1..])
  }

  lemma DoneByConcat(a: seq<Entry>, b: seq<Entry>)
    ensures DoneBy(a + b) == DoneBy(a) + DoneBy(b)
  {
  }

  lemma {:induction false} TasksConcat(fd: int, a: seq<Request>, b: seq<Request>)
    ensures TasksOf(fd, a + b) == TasksOf(fd, a) + TasksOf(fd, b)
  {
    if b == [] {
      assert a + b == a;
    } else {
      assert (a + b)[..|a + b| - 1] == a + b[..|b| - 1];
      TasksConcat(fd, a, b[..|b| - 1]);
    }
  }

  /** From `before` to `after` the tasks of all requests but `left`, their end, were pushed. */
  ghost predicate Delivered(fd: int, rs: seq<Request>, left: seq<Request>, before: seq<Entry>, after: seq<Entry>) {
    && |left| <= |rs| && left == rs[|rs| - |left|..]
    && before <= after
    && DoneBy(after[|before|..]) == TasksOf(fd, rs[..|rs| - |left|])
  }

  function Left(o: Outcome): seq<Request> { if o.rest.Some? then o.rest.value else [] }

  lemma SubmitDelivers(w: Worker, fd: int, rs: seq<Request>)
    requires PoolReady(w) && Fresh(w, |rs|)
    ensures var o := Submit(w, fd, rs); Delivered(fd, rs, Left(o), w.pushed, o.worker.pushed)
  {
    SubmitResumable(w, fd, rs);
  }

  lemma TwoAttempts(fd: int, rs: seq<Request>, rest: seq<Request>, left: seq<Request>,
                    a: seq<Entry>, b: seq<Entry>, c: seq<Entry>)
    requires Delivered(fd, rs, rest, a, b) && Delivered(fd, rest, left, b, c)
    ensures Delivered(fd, rs, left, a, c)
  {
    var k := |rs| - |rest|;
    assert rs[..|rs| - |left|] == rs[..k] + rest[..|rest| - |left|];
    TasksConcat(fd, rs[..k], rest[..|rest| - |left|]);
    assert c[|a|..] == b[|a|..] + c[|b|..];
    DoneByConcat(b[|a|..], c[|b|..]);
  }

  lemma RetryUnfolds(w: Worker, fd: int, rs: seq<Request>, drains: seq<nat>)
    requires PoolReady(w) && Fresh(w, |rs|)
    ensures var o := Submit(w, fd, rs);
            if o.rest.None? || drains == [] then Retry(w, fd, rs, drains) == o
            else
              var v := Drain(o.worker, drains[0]);
              && PoolReady(v) && Fresh(v, |o.rest.value|)
              && Retry(w, fd, rs, drains) == Retry(v, fd, o.rest.value, drains[1..])
              && v.pushed == o.worker.pushed
  {
    SubmitResumable(w, fd, rs);
  }

  /** Whatever the kernel takes in between, retrying submits every request for this connection
      exactly once and in order: all of them once it succeeds, else all but the end handed back. */
  lemma {:induction false} RetrySubmitsOnce(w: Worker, fd: int, rs: seq<Request>, drains: seq<nat>)
    requires PoolReady(w) && Fresh(w, |rs|)
    ensures var o := Retry(w, fd, rs, drains); Delivered(fd, rs, Left(o), w.pushed, o.worker.pushed)
    decreases |drains|
  {
    SubmitDelivers(w, fd, rs);
    RetryUnfolds(w, fd, rs, drains);
    var o := Submit(w, fd, rs);
    if o.rest.Some? && drains != [] {
      var rest := o.rest.value;
      var v := Drain(o.worker, drains[0]);
      RetrySubmitsOnce(v, fd, rest, drains[1..]);
      var o2 := Retry(v, fd, rest, drains[1..]);
      TwoAttempts(fd, rs, rest, Left(o2), w.pushed, o.worker.pushed, o2.worker.pushed);
    }
  }

  lemma SubmitAdvances(w: Worker, fd: int, rs: seq<Request>)
    requires PoolReady(w) && Fresh(w, |rs|) && rs != [] && |w.queue| < w.depth
    ensures var o := Submit(w, fd, rs);
            && (o.rest.Some? ==> |o.rest.value| < |rs|)
            && |o.worker.queue| <= o.worker.depth && o.worker.depth == w.depth
    decreases |rs|
  {
    SubmitOnePool(w, fd, rs[0]);
    SubmitOneImage(w, fd, rs[0]);
    SubmitOneFresh(w, fd, rs[0], |rs| - 1);
    var v := SubmitOne(w, fd, rs[0]);
    SubmitResumable(v, fd, rs[1..]);
    if rs[1..] != [] && |v.queue| < v.depth {
      SubmitAdvances(v, fd, rs[1..]);
    }
  }

  lemma {:induction false} RetryWithRoom(w: Worker, fd: int, rs: seq<Request>, drains: seq<nat>)
    requires PoolReady(w) && Fresh(w, |rs|) && |w.queue| < w.depth
    requires (forall i :: 0 <= i < |drains| ==> drains[i] > 0) && |drains| + 1 >= |rs|
    ensures Retry(w, fd, rs, drains).rest.None?
    decreases |drains|
  {
    if rs != [] {
      SubmitAdvances(w, fd, rs);
      RetryUnfolds(w, fd, rs, drains);
      var o := Submit(w, fd, rs);
      if o.rest.Some? && drains != [] {
        RetryWithRoom(Drain(o.worker, drains[0]), fd, o.rest.value, drains[1..]);
      }
    }
  }

  /** If every pause frees an entry of a queue that has any, at most one pause a request is needed. */
  lemma RetrySucceeds(w: Worker, fd: int, rs: seq<Request>, drains: seq<nat>)
    requires PoolReady(w) && Fresh(w, |rs|) && |w.queue| <= w.depth && w.depth > 0
    requires (forall i :: 0 <= i < |drains| ==> drains[i] > 0) && |drains| >= |rs|
    ensures Retry(w, fd, rs, drains).rest.None?
  {
    if |w.queue| < w.depth {
      RetryWithRoom(w, fd, rs, drains);
    } else if rs != [] {
      assert drains[0] > 0;
      RetryUnfolds(w, fd, rs, drains);
      RetryWithRoom(Drain(w, drains[0]), fd, rs, drains[1..]);
    }
  }

  // --- Zero-copy buffers over every run ---

  predicate IsZeroCopy(w: Worker, id: nat) { id in w.ops && w.ops[id].kind.ZeroCopySend? }

  function ZeroCopyIds(w: Worker): set<nat> { set id | id in w.ops && w.ops[id].kind.ZeroCopySend? }

  function SlotsHeld(w: Worker): set<nat> {
    set id | id in w.ops && w.ops[id].kind.ZeroCopySend? :: w.ops[id].kind.slot
  }

  /** Slots in kernel use are exactly those of tracked zero-copy sends, one send each, and hold what
      was to be sent; whoever took a buffer either still has it or gave it back, not both. */
  ghost predicate Joint(w: Worker) {
    && PoolReady(w)
    && (w.pool.None? ==> ZeroCopyIds(w) == {})
    && (w.pool.Some? ==> InKernel(w.pool.value) == SlotsHeld(w))
    && (forall i, j :: IsZeroCopy(w, i) && IsZeroCopy(w, j) && i != j ==> w.ops[i].kind.slot != w.ops[j].kind.slot)
    && (forall i :: IsZeroCopy(w, i) && w.pool.Some? && w.ops[i].kind.slot < |w.pool.value.slots| ==>
          w.ops[i].kind.data <= w.pool.value.slots[w.ops[i].kind.slot].data)
    && w.acquired == w.released + ZeroCopyIds(w)
    && w.released !! ZeroCopyIds(w)
  }

  lemma HeldSlot(w: Worker, id: nat)
    requires Joint(w) && IsZeroCopy(w, id)
    ensures w.pool.Some? && w.ops[id].kind.slot in InKernel(w.pool.value)
  {
    assert id in ZeroCopyIds(w);
    assert w.ops[id].kind.slot in SlotsHeld(w);
  }

  lemma SameSlots(w: Worker, v: Worker)
    requires forall i :: IsZeroCopy(v, i) <==> IsZeroCopy(w, i)
    requires forall i :: IsZeroCopy(w, i) && IsZeroCopy(v, i) ==> v.ops[i] == w.ops[i]
    ensures ZeroCopyIds(v) == ZeroCopyIds(w) && SlotsHeld(v) == SlotsHeld(w)
  {
  }

  lemma PushOtherJoint(w: Worker, fd: int, kind: OpKind, action: Action)
    requires Joint(w) && Fresh(w, 1) && !kind.ZeroCopySend?
    ensures Joint(Push(w, fd, kind, action))
  {
    SameSlots(w, Push(w, fd, kind, action));
  }

  lemma PushZeroCopyJoint(w: Worker, fd: int, data: Octets)
    requires Joint(w) && Fresh(w, 1)
    ensures Joint(PushZeroCopy(w, fd, data))
  {
    var a := if w.zeroCopy && w.pool.Some? then Acquire(w.pool.value, data) else Acquired(Pool([], []), None);
    if a.id.None? {
      PushOtherJoint(w, fd, PlainSend(data), Transmit(data, false));
    } else {
      AcquireOk(w.pool.value, data);
      var v := PushZeroCopy(w, fd, data);
      var id := a.id.value;
      assert ZeroCopyIds(v) == ZeroCopyIds(w) + {w.next};
      assert SlotsHeld(v) == SlotsHeld(w) + {id} by { SlotsAfter(w, v, id); }
      forall i | IsZeroCopy(v, i) && i != w.next ensures IsZeroCopy(w, i) && v.ops[i] == w.ops[i] && w.ops[i].kind.slot != id {
        HeldSlot(w, i);
      }
    }
  }

  lemma SlotsAfter(w: Worker, v: Worker, id: nat)
    requires w.next !in w.ops && w.next in v.ops && v.ops == w.ops[w.next := v.ops[w.next]]
    requires v.ops[w.next].kind.ZeroCopySend? && v.ops[w.next].kind.slot == id
    ensures SlotsHeld(v) == SlotsHeld(w) + {id}
  {
    forall x | x in SlotsHeld(v) ensures x in SlotsHeld(w) + {id} {
      var i :| i in v.ops && v.ops[i].kind.ZeroCopySend? && v.ops[i].kind.slot == x;
      if i != w.next {
        assert i in w.ops && w.ops[i] == v.ops[i];
      }
    }
    forall x | x in SlotsHeld(w) + {id} ensures x in SlotsHeld(v) {
      if x == id {
        assert v.ops[w.next].kind.slot == x;
      } else {
        var i :| i in w.ops && w.ops[i].kind.ZeroCopySend? && w.ops[i].kind.slot == x;
        assert i in v.ops && v.ops[i] == w.ops[i];
      }
    }
  }

  lemma SubmitOneJoint(w: Worker, fd: int, r: Request)
    requires Joint(w) && Fresh(w, 1)
    ensures Joint(SubmitOne(w, fd, r))
  {
    match r
    case SetCork(on) => PushOtherJoint(w, fd, Generic, Cork(on));
    case SendData(data) => PushOtherJoint(w, fd, PlainSend(data), Transmit(data, false));
    case SendZeroCopy(data) => PushZeroCopyJoint(w, fd, data);
    case CloseFd => PushOtherJoint(w, fd, Closing, Close);
    case ReadMultishot(f, group) => PushOtherJoint(w, fd, Multishot, Receive(group));
    case Cancel(f, target) => PushOtherJoint(w, fd, Cancelling(target), CancelOf(target));
  }

  lemma {:induction false} SubmitJoint(w: Worker, fd: int, rs: seq<Request>)
    requires Joint(w) && Fresh(w, |rs|)
    ensures Joint(Submit(w, fd, rs).worker)
    decreases |rs|
  {
    if rs != [] && |w.queue| < w.depth {
      SubmitOnePool(w, fd, rs[0]);
      SubmitOneJoint(w, fd, rs[0]);
      SubmitOneFresh(w, fd, rs[0], |rs| - 1);
      SubmitJoint(SubmitOne(w, fd, rs[0]), fd, rs[1..]);
    }
  }

  lemma RemoveOtherJoint(w: Worker, id: nat)
    requires Joint(w) && id in w.ops && !w.ops[id].kind.ZeroCopySend?
    ensures Joint(w.(ops := w.ops - {id}))
  {
    SameSlots(w, w.(ops := w.ops - {id}));
  }

  lemma SlotsWithout(w: Worker, v: Worker, id: nat)
    requires IsZeroCopy(w, id) && v.ops == w.ops - {id}
    requires forall i, j :: IsZeroCopy(w, i) && IsZeroCopy(w, j) && i != j ==> w.ops[i].kind.slot != w.ops[j].kind.slot
    ensures SlotsHeld(v) == SlotsHeld(w) - {w.ops[id].kind.slot}
  {
    var slot := w.ops[id].kind.slot;
    forall x | x in SlotsHeld(v) ensures x in SlotsHeld(w) - {slot} {
      var i :| i in v.ops && v.ops[i].kind.ZeroCopySend? && v.ops[i].kind.slot == x;
      assert IsZeroCopy(w, i) && w.ops[i] == v.ops[i];
    }
    forall x | x in SlotsHeld(w) - {slot} ensures x in SlotsHeld(v) {
      var i :| i in w.ops && w.ops[i].kind.ZeroCopySend? && w.ops[i].kind.slot == x;
      assert i in v.ops && v.ops[i] == w.ops[i];
    }
  }

  lemma FinishZeroCopyJoint(w: Worker, id: nat)
    requires Joint(w) && IsZeroCopy(w, id)
    ensures Joint(Complete(w, id, true, true, false)) && id in Complete(w, id, true, true, false).released
  {
    HeldSlot(w, id);
    var slot := w.ops[id].kind.slot;
    ReleaseOk(w.pool.value, slot);
    var v := Complete(w, id, true, true, false);
    assert ZeroCopyIds(v) == ZeroCopyIds(w) - {id};
    SlotsWithout(w, v, id);
    assert forall i :: IsZeroCopy(v, i) ==> IsZeroCopy(w, i) && v.ops[i] == w.ops[i];
  }

  /** A zero-copy send ends, and its slot is freed, exactly at its notification or its failure. */
  lemma CompleteJoint(w: Worker, id: nat, notify: bool, ok: bool, keep: bool)
    requires Joint(w)
    ensures var v := Complete(w, id, notify, ok, keep);
            && Joint(v)
            && (IsZeroCopy(w, id) ==> (id in v.released <==> notify || !ok))
            && (forall i :: IsZeroCopy(w, i) && i != id ==> IsZeroCopy(v, i) && v.ops[i] == w.ops[i])
  {
    if id in w.ops {
      if w.ops[id].kind.ZeroCopySend? {
        FinishZeroCopyJoint(w, id);
        assert id in ZeroCopyIds(w);
      } else {
        RemoveOtherJoint(w, id);
      }
    }
  }

  datatype Happening =
    | Submitted(fd: int, requests: seq<Request>)
    | Drained(entries: nat)
    | Completed(id: nat, notify: bool, ok: bool, keep: bool)

  function Work(h: Happening): nat { if h.Submitted? then |h.requests| else 0 }

  function Step(w: Worker, h: Happening): Worker
    requires PoolReady(w)
  {
    match h
    case Submitted(fd, rs) => Submit(w, fd, rs).worker
    case Drained(n) => Drain(w, n)
    case Completed(id, notify, ok, keep) => Complete(w, id, notify, ok, keep)
  }

  lemma SubmittedJoint(w: Worker, fd: int, rs: seq<Request>, n: nat)
    requires Joint(w) && Fresh(w, |rs| + n)
    ensures Joint(Submit(w, fd, rs).worker) && Fresh(Submit(w, fd, rs).worker, n)
  {
    SubmitJoint(w, fd, rs);
    SubmitLeaves(w, fd, rs, n);
  }

  lemma DrainedJoint(w: Worker, k: nat, n: nat)
    requires Joint(w) && Fresh(w, n)
    ensures Joint(Drain(w, k)) && Fresh(Drain(w, k), n)
  {
    SameSlots(w, Drain(w, k));
  }

  lemma CompletedFresh(w: Worker, id: nat, notify: bool, ok: bool, keep: bool, n: nat)
    requires Fresh(w, n)
    ensures Fresh(Complete(w, id, notify, ok, keep), n)
  {
  }

  lemma StepJoint(w: Worker, h: Happening, n: nat)
    requires Joint(w) && Fresh(w, Work(h) + n)
    ensures Joint(Step(w, h)) && Fresh(Step(w, h), n)
  {
    match h
    case Submitted(fd, rs) => SubmittedJoint(w, fd, rs, n);
    case Drained(k) => DrainedJoint(w, k, n);
    case Completed(id, notify, ok, keep) =>
      CompleteJoint(w, id, notify, ok, keep);
      CompletedFresh(w, id, notify, ok, keep, n);
  }

  lemma {:induction false} SubmitLeaves(w: Worker, fd: int, rs: seq<Request>, n: nat)
    requires PoolReady(w) && Fresh(w, |rs| + n)
    ensures Fresh(Submit(w, fd, rs).worker, n)
    decreases |rs|
  {
    if rs != [] && |w.queue| < w.depth {
      SubmitOnePool(w, fd, rs[0]);
      SubmitOneFresh(w, fd, rs[0], |rs| - 1 + n);
      SubmitLeaves(SubmitOne(w, fd, rs[0]), fd, rs[1..], n);
    }
  }

  function TotalWork(hs: seq<Happening>): nat {
    if hs == [] then 0 else Work(hs[0]) + TotalWork(hs[1..])
  }

  /** A run, as the states it goes through. */
  ghost predicate IsRun(ws: seq<Worker>, hs: seq<Happening>) {
    && |ws| == |hs| + 1
    && forall i :: 0 <= i < |hs| ==> PoolReady(ws[i]) && ws[i + 1] == Step(ws[i], hs[i])
  }

  lemma {:induction false} JointHolds(ws: seq<Worker>, hs: seq<Happening>, n: nat)
    requires IsRun(ws, hs) && Joint(ws[0]) && Fresh(ws[0], TotalWork(hs)) && n <= |hs|
    ensures Joint(ws[n])
    decreases n
  {
    if n > 0 {
      assert ws[1] == Step(ws[0], hs[0]);
      StepJoint(ws[0], hs[0], TotalWork(hs[1..]));
      forall i | 0 <= i < |hs[1..]| ensures PoolReady(ws[1..][i]) && ws[1..][i + 1] == Step(ws[1..][i], hs[1..][i]) {
        assert ws[i + 2] == Step(ws[i + 1], hs[i + 1]);
      }
      JointHolds(ws[1..], hs[1..], n - 1);
    }
  }

  lemma StartJoint(pool: Option<Pool>, zeroCopy: bool, depth: nat)
    requires pool.Some? ==> PoolOk(pool.value) && InKernel(pool.value) == {}
    ensures Joint(NewWorker(pool, zeroCopy, depth))
  {
  }

  lemma NewPoolIdle(count: nat, capacity: nat)
    ensures InKernel(NewPool(count, capacity)) == {}
  {
  }

  /** Over every run of a worker with at most 65536 buffers, and fewer requests than there are
      numbers, the joint invariant holds in every state; and as long as a zero-copy send is
      tracked, its slot holds what was handed over. */
  lemma ZeroCopyInvariant(count: nat, capacity: nat, zeroCopy: bool, depth: nat, ws: seq<Worker>, hs: seq<Happening>, n: nat)
    requires count <= ID_LIMIT && n <= |hs|
    requires IsRun(ws, hs) && ws[0] == NewWorker(Some(NewPool(count, capacity)), zeroCopy, depth)
    requires FIRST_ID + TotalWork(hs) < ID_SPACE
    ensures Joint(ws[n])
    ensures forall id :: IsZeroCopy(ws[n], id) ==>
              && ws[n].pool.Some? && ws[n].ops[id].kind.slot < |ws[n].pool.value.slots|
              && ws[n].ops[id].kind.data <= ws[n].pool.value.slots[ws[n].ops[id].kind.slot].data
  {
    NewPoolOkIff(count, capacity);
    NewPoolIdle(count, capacity);
    StartJoint(Some(NewPool(count, capacity)), zeroCopy, depth);
    JointHolds(ws, hs, n);
    forall id | IsZeroCopy(ws[n], id)
      ensures ws[n].pool.Some? && ws[n].ops[id].kind.slot < |ws[n].pool.value.slots|
    {
      HeldSlot(ws[n], id);
    }
  }
}
