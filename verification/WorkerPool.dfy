/** internal/engine/worker_pool.go, as called by one goroutine at a time. */
module WorkerPool {
  import opened Models
  import Process

  datatype EnqueueAnswer = Accepted | PoolClosed | TimedOut

  /** How processing one task goes: the endpoint's rate limit, whether the limiter's wait is aborted,
      whether the delivery panics, and what it reports otherwise. */
  datatype Course = Course(rateLimit: int, limiterAborts: bool, panics: bool, delivered: DeliveryResult)

  function ResultOf(c: Course): DeliveryResult {
    if (0 < c.rateLimit && c.limiterAborts) || c.panics then Process.NO_RESPONSE else c.delivered
  }

  class WorkerPool {
    const capacity: nat
    var queue: seq<Task>
    var closed: bool
    // every task ever accepted, every task a worker has taken, and every completion call, in order
    ghost var sent: seq<Task>
    ghost var taken: seq<Task>
    ghost var completed: seq<(Task, DeliveryResult)>

    /** A bounded FIFO: what was accepted has been taken or is still queued, in order. */
    ghost predicate Valid()
      reads this
    {
      0 < capacity && |queue| <= capacity && sent == taken + queue
    }

    constructor (capacity: nat)
      requires 0 < capacity
      ensures Valid() && this.capacity == capacity && queue == [] && !closed && sent == [] && taken == [] && completed == []
    {
      this.capacity := capacity;
      queue, closed, sent, taken, completed := [], false, [], [], [];
    }

    /** The closed check comes first. After it the send blocks until a worker makes room (`roomInTime`)
        or the context expires. */
    method Enqueue(task: Task, roomInTime: bool) returns (r: EnqueueAnswer)
      requires Valid()
      modifies this`queue, this`sent, this`taken
      ensures Valid()
      ensures r == if closed then PoolClosed else if roomInTime then Accepted else TimedOut
      ensures r.Accepted? && |old(queue)| < capacity ==> queue == old(queue) + [task] && taken == old(taken)
      ensures r.Accepted? && |old(queue)| == capacity ==>
                queue == old(queue)[1..] + [task] && taken == old(taken) + [old(queue)[0]]
      ensures r.Accepted? ==> sent == old(sent) + [task]
      ensures !r.Accepted? ==> sent == old(sent) && queue == old(queue) && taken == old(taken)
    {
      if closed {
        return PoolClosed;
      }
      if !roomInTime {
        return TimedOut;
      }
      if |queue| == capacity {
        taken, queue := taken + [queue[0]], queue[1..];
      }
      queue, sent := queue + [task], sent + [task];
      return Accepted;
    }

    /** Whatever happens to a task, the handler is called exactly once for it. */
    method ProcessTaskSafely(task: Task, c: Course)
      modifies this`completed
      ensures completed == old(completed) + [(task, ResultOf(c))]
      ensures var result := completed[|old(completed)|].1;
              if c.panics || (0 < c.rateLimit && c.limiterAborts) then !result.success && result.httpStatus.None?
              else result == c.delivered
    {
      if c.rateLimit > 0 && c.limiterAborts {
        completed := completed + [(task, Process.NO_RESPONSE)];
        return;
      }
      if c.panics {
        completed := completed + [(task, Process.NO_RESPONSE)];
        return;
      }
      completed := completed + [(task, c.delivered)];
    }

    method Close()
      requires Valid()
      modifies this`closed
      ensures Valid() && closed
    {
      closed := true;
    }

    /** One worker draining a closed queue: each queued task is completed once, in FIFO order, and
        the loop ends with the queue empty. */
    method WorkerLoop(courses: seq<Course>)
      requires Valid() && closed && |courses| == |queue|
      modifies this`queue, this`taken, this`completed
      ensures Valid() && queue == [] && taken == sent
      ensures |completed| == |old(completed)| + |old(queue)|
      ensures completed[..|old(completed)|] == old(completed)
      ensures forall k :: 0 <= k < |courses| ==> completed[|old(completed)| + k] == (old(queue)[k], ResultOf(courses[k]))
    {
      ghost var n := 0;
      var left := courses;
      while queue != []
        invariant Valid() && |left| == |queue| && n + |queue| == |old(queue)|
        invariant queue == old(queue)[n..] && left == courses[n..]
        invariant |completed| == |old(completed)| + n && completed[..|old(completed)|] == old(completed)
        invariant forall k :: 0 <= k < n ==> completed[|old(completed)| + k] == (old(queue)[k], ResultOf(courses[k]))
        decreases |queue|
      {
        var task, course := queue[0], left[0];
        taken, queue, left := taken + [task], queue[1..], left[1..];
        ProcessTaskSafely(task, course);
        n := n + 1;
      }
    }

    /** Shutdown that does not time out: nothing more is accepted, and every task ever accepted has been
        taken, those still queued completed in order. */
    method Shutdown(courses: seq<Course>)
      requires Valid() && |courses| == |queue|
      modifies this`closed, this`queue, this`taken, this`completed
      ensures Valid() && closed && queue == [] && taken == sent
      ensures |completed| == |old(completed)| + |old(queue)| && completed[..|old(completed)|] == old(completed)
      ensures forall k :: 0 <= k < |courses| ==> completed[|old(completed)| + k] == (old(queue)[k], ResultOf(courses[k]))
    {
      Close();
      WorkerLoop(courses);
    }
  }
}
