/**
 * The queue that feeds an async consumer from outside: items pushed as they
 * arrive, then closed or failed. The consumer sleeps when there is nothing for it.
 */
module PushQueue {
  import opened Wrappers

  /** `sleeping` is a consumer waiting on `wake`. */
  datatype Queue<T> = Queue(items: seq<T>, closed: bool, failure: Option<string>, sleeping: bool)

  /** What one turn of the consumer's loop comes to. */
  datatype Pulled<T> = Item(item: T) | Thrown(error: string) | Finished | Asleep

  function New<T>(): Queue<T> { Queue([], false, None, false) }

  function Push<T>(q: Queue<T>, item: T): Queue<T> { q.(items := q.items + [item], sleeping := false) }

  function Close<T>(q: Queue<T>): Queue<T> { q.(closed := true, sleeping := false) }

  function Fail<T>(q: Queue<T>, error: string): Queue<T> { q.(failure := Some(error), sleeping := false) }

  /** A failure comes first, whatever is still queued; closing is noticed last. */
  function Pull<T>(q: Queue<T>): (Queue<T>, Pulled<T>) {
    if q.failure.Some? then (q, Thrown(q.failure.value))
    else if q.items != [] then (q.(items := q.items[1..]), Item(q.items[0]))
    else if q.closed then (q, Finished)
    else (q.(sleeping := true), Asleep)
  }

  /** A sleeping consumer has nothing to wake up for. */
  ghost predicate Valid<T>(q: Queue<T>) {
    q.sleeping ==> q.items == [] && !q.closed && q.failure.None?
  }

  class PushQueue<T(==)> {
    var items: seq<T>
    var closed: bool
    var failure: Option<string>
    var sleeping: bool

    ghost function Contents(): Queue<T>
      reads this
    {
      Queue(items, closed, failure, sleeping)
    }

    constructor ()
      ensures Contents() == New<T>()
    {
      items, closed, failure, sleeping := [], false, None, false;
    }

    method PushItem(item: T)
      requires Valid(Contents())
      modifies this
      ensures Contents() == Push(old(Contents()), item) && Valid(Contents())
      ensures items == old(items) + [item] && !sleeping && closed == old(closed) && failure == old(failure)
    {
      items := items + [item];
      sleeping := false;
    }

    method CloseQueue()
      requires Valid(Contents())
      modifies this
      ensures Contents() == Close(old(Contents())) && Valid(Contents())
      ensures closed && !sleeping && items == old(items) && failure == old(failure)
    {
      closed := true;
      sleeping := false;
    }

    method FailQueue(error: string)
      requires Valid(Contents())
      modifies this
      ensures Contents() == Fail(old(Contents()), error) && Valid(Contents())
      ensures failure == Some(error) && !sleeping && items == old(items) && closed == old(closed)
    {
      failure := Some(error);
      sleeping := false;
    }

    /** One turn of the iterator's loop, up to its next yield, return, throw or wait. */
    method Turn() returns (pulled: Pulled<T>)
      requires Valid(Contents()) && !sleeping
      modifies this
      ensures (Contents(), pulled) == Pull(old(Contents())) && Valid(Contents())
      ensures closed == old(closed) && failure == old(failure)
      ensures pulled.Thrown? <==> failure.Some?
      ensures pulled.Thrown? ==> pulled.error == failure.value
      ensures pulled.Item? <==> failure.None? && old(items) != []
      ensures old(items) == (if pulled.Item? then [pulled.item] else []) + items
      ensures pulled.Finished? <==> failure.None? && old(items) == [] && closed
      ensures sleeping <==> pulled.Asleep?
    {
      if failure.Some? {
        return Thrown(failure.value);
      }
      if items != [] {
        pulled := Item(items[0]);
        items := items[1..];
        return;
      }
      if closed {
        return Finished;
      }
      sleeping := true;
      return Asleep;
    }
  }

  // ---------------------------------------------------------------- Any run of producer and consumer

  datatype Op<T> = PushOp(item: T) | CloseOp | FailOp(error: string) | PullOp

  /** The queue, and the items pushed and pulled since it was new. */
  datatype History<T> = History(q: Queue<T>, pushed: seq<T>, pulled: seq<T>)

  /** A sleeping consumer takes no turn. */
  function Do<T>(h: History<T>, op: Op<T>): History<T> {
    match op
    case PushOp(item) => h.(q := Push(h.q, item), pushed := h.pushed + [item])
    case CloseOp => h.(q := Close(h.q))
    case FailOp(error) => h.(q := Fail(h.q, error))
    case PullOp =>
      if h.q.sleeping then h
      else
        var (q, p) := Pull(h.q);
        h.(q := q, pulled := if p.Item? then h.pulled + [p.item] else h.pulled)
  }

  function DoAll<T>(h: History<T>, ops: seq<Op<T>>): History<T>
    decreases |ops|
  {
    if ops == [] then h else DoAll(Do(h, ops[0]), ops[1..])
  }

  ghost predicate Fifo<T>(h: History<T>) {
    Valid(h.q) && h.pulled + h.q.items == h.pushed
  }

  /**
   * First in, first out, and no wake-up lost: after any operations the consumer
   * has seen the first items pushed, in order; it sleeps only when it has seen
   * them all and nothing was closed or failed; and the iteration can only end
   * when it has seen them all.
   */
  lemma {:induction false} QueueIsFifo<T>(h: History<T>, ops: seq<Op<T>>)
    requires Fifo(h)
    ensures Fifo(DoAll(h, ops))
    ensures var h' := DoAll(h, ops);
            && h'.pulled <= h'.pushed
            && (h'.q.sleeping || Pull(h'.q).1.Finished? ==> h'.pulled == h'.pushed)
    decreases |ops|
  {
    if ops == [] {
      assert h.pulled == h.pushed[..|h.pulled|];
    } else {
      var h' := Do(h, ops[0]);
      assert h'.pulled + h'.q.items == h'.pushed by {
        match ops[0]
        case PushOp(item) => assert h.pulled + (h.q.items + [item]) == h.pushed + [item];
        case CloseOp =>
        case FailOp(_) =>
        case PullOp => assert h.q.items != [] ==> h.pulled + h.q.items == h.pulled + [h.q.items[0]] + h.q.items[1..];
      }
      QueueIsFifo(h', ops[1..]);
    }
  }
}
