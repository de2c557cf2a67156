/** The bounded FIFO of job ids each service shares between its request
    handlers and its worker (`queue.Queue(maxsize=1000)`). `unfinished`
    mirrors the queue's count of tasks put but not yet marked done. */
module TaskQueue {
  import opened Wrappers

  /** `maxsize` of every service's queue. */
  const Capacity: nat := 1000

  datatype Queue = Queue(items: seq<string>, unfinished: nat) {
    /** Every queued item is also an unfinished task. */
    predicate Valid() {
      |items| <= unfinished
    }

    /** `qsize()`. */
    function Size(): nat {
      |items|
    }

    /** `full()`: at or over the capacity. */
    predicate Full() {
      |items| >= Capacity
    }
  }

  /** A fresh queue. */
  const Empty: Queue := Queue([], 0)

  /** Raised by a non-blocking put on a full queue. */
  datatype QueueFull = QueueFull

  /** `put_nowait(id)`: append at the tail, or raise `queue.Full` when the
      queue is at capacity (the queue is then unchanged); a put never takes
      the queue over its capacity. */
  function Put(q: Queue, id: string): (r: Result<Queue, QueueFull>)
    ensures r.Failure? <==> q.Full()
    ensures r.Success? ==> r.value.items == q.items + [id]
    ensures r.Success? ==> r.value.unfinished == q.unfinished + 1
    ensures r.Success? ==> r.value.Size() <= Capacity
    ensures q.Valid() && r.Success? ==> r.value.Valid()
  {
    if q.Full() then Failure(QueueFull)
    else Success(Queue(q.items + [id], q.unfinished + 1))
  }

  /** What `put(id)` with its default `block=True` does in one atomic step:
      it appends when there is room and otherwise waits for the worker; it
      never raises `queue.Full`. */
  datatype BlockingPut = Enqueued(queue: Queue) | Waiting

  function PutBlocking(q: Queue, id: string): (r: BlockingPut)
    ensures r.Waiting? <==> q.Full()
    ensures r.Enqueued? ==> r.queue.items == q.items + [id]
    ensures r.Enqueued? ==> Put(q, id) == Success(r.queue)
  {
    if q.Full() then Waiting
    else Enqueued(Queue(q.items + [id], q.unfinished + 1))
  }

  /** `get()`: the head of the queue and the queue without it; `None` where
      the blocking call would wait. The task stays unfinished. */
  function Get(q: Queue): (r: Option<(string, Queue)>)
    ensures r.None? <==> q.items == []
    ensures r.Some? ==> [r.value.0] + r.value.1.items == q.items
    ensures r.Some? ==> r.value.1.unfinished == q.unfinished
  {
    if q.items == [] then None
    else Some((q.items[0], Queue(q.items[1..], q.unfinished)))
  }

  /** `task_done()`: one fewer unfinished task; the items are untouched. */
  function TaskDone(q: Queue): (r: Queue)
    requires q.unfinished > 0
    ensures r.items == q.items && r.unfinished + 1 == q.unfinished
  {
    Queue(q.items, q.unfinished - 1)
  }

  /** Get followed by task_done keeps the queue valid. */
  lemma GetThenTaskDoneValid(q: Queue)
    requires q.Valid() && q.items != []
    ensures Get(q).Some? && Get(q).value.1.unfinished > 0
    ensures TaskDone(Get(q).value.1).Valid()
  {
  }

  /** FIFO: ids put one after the other come out in the order they were
      put, behind whatever was already queued. */
  lemma PutThenGetIsFifo(q: Queue, a: string, b: string)
    requires |q.items| + 2 <= Capacity
    ensures Put(q, a).Success?
    ensures Put(Put(q, a).value, b).Success?
    ensures Put(Put(q, a).value, b).value.items == q.items + [a, b]
    ensures q.items == [] ==> Get(Put(Put(q, a).value, b).value).value.0 == a
  {
    var q1 := Put(q, a).value;
    var q2 := Put(q1, b).value;
    assert q2.items == (q.items + [a]) + [b];
  }}
