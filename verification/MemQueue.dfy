/** The in-memory job queue (model/job/mem_broker.go:18-77): `Enqueue` and the sender goroutine
    it spawns share a list and a flag under a mutex; the sender hands the jobs over a channel
    outside of the mutex. A step is one critical section or one handover, and runs interleave
    them in any way. The behaviour after `close` is not part of this model. */
module MemQueue {
  import opened Options

  /** Where a goroutine running `send` is: about to lock, with a job in hand, or returned. */
  datatype Sender<T> = Looping | Holding(job: T) | Returned

  datatype Queue<T> = Queue(
    list: seq<T>,
    run: bool,
    senders: seq<Sender<T>>,   // every goroutine ever started
    delivered: seq<T>,         // history: what went through the channel
    enqueued: seq<T>)          // history: what was given to Enqueue

  datatype Step<T> = Enqueue(job: T) | Lock(i: nat) | HandOver(i: nat)

  function Init<T>(): Queue<T> {
    Queue([], false, [], [], [])
  }

  predicate Enabled<T>(q: Queue<T>, step: Step<T>) {
    match step
    case Enqueue(_) => true
    case Lock(i) => i < |q.senders| && q.senders[i].Looping?
    case HandOver(i) => i < |q.senders| && q.senders[i].Holding?
  }

  function Apply<T>(q: Queue<T>, step: Step<T>): Queue<T>
    requires Enabled(q, step)
  {
    match step
    case Enqueue(job) =>
      q.(list := q.list + [job], enqueued := q.enqueued + [job], run := true,
         senders := if q.run then q.senders else q.senders + [Looping])
    case Lock(i) =>
      if q.list == [] || !q.run then q.(run := false, senders := q.senders[i := Returned])
      else q.(list := q.list[1..], senders := q.senders[i := Holding(q.list[0])])
    case HandOver(i) =>
      q.(delivered := q.delivered + [q.senders[i].job], senders := q.senders[i := Looping])
  }

  /** The sender in charge, when there is one. */
  predicate OnlyAlive<T>(q: Queue<T>, i: nat) {
    && i < |q.senders| && !q.senders[i].Returned?
    && forall j :: 0 <= j < |q.senders| && j != i ==> q.senders[j].Returned?
  }

  function InHand<T>(s: Sender<T>): seq<T> {
    if s.Holding? then [s.job] else []
  }

  ghost predicate Inv<T>(q: Queue<T>) {
    if q.run then
      exists i: nat :: OnlyAlive(q, i) && q.delivered + InHand(q.senders[i]) + q.list == q.enqueued
    else
      && (forall j :: 0 <= j < |q.senders| ==> q.senders[j].Returned?)
      && q.list == [] && q.delivered == q.enqueued
  }

  lemma EnqueueKeeps<T>(q: Queue<T>, job: T)
    requires Inv(q)
    ensures Inv(Apply(q, Enqueue(job)))
  {
    var q' := Apply(q, Enqueue(job));
    if q.run {
      var i: nat :| OnlyAlive(q, i) && q.delivered + InHand(q.senders[i]) + q.list == q.enqueued;
      assert OnlyAlive(q', i);
      assert q.delivered + InHand(q.senders[i]) + (q.list + [job]) == q.enqueued + [job];
    } else {
      assert OnlyAlive(q', |q.senders|);
      assert q.delivered + [] + (q.list + [job]) == q.enqueued + [job];
    }
  }

  lemma SenderKeeps<T>(q: Queue<T>, step: Step<T>)
    requires Inv(q) && Enabled(q, step) && !step.Enqueue?
    ensures Inv(Apply(q, step))
  {
    var q' := Apply(q, step);
    var i: nat :| OnlyAlive(q, i) && q.delivered + InHand(q.senders[i]) + q.list == q.enqueued;
    assert step.i == i;
    if q'.run {
      assert OnlyAlive(q', i);
      if step.Lock? {
        assert q.list == [q.list[0]] + q.list[1..];
        assert q.delivered + [q.list[0]] + q.list[1..] == q.delivered + [] + q.list;
      } else {
        assert (q.delivered + [q.senders[i].job]) + [] + q.list == q.enqueued;
      }
    } else {
      assert q.delivered + [] + [] == q.delivered;
    }
  }

  ghost predicate Runs<T>(q: Queue<T>, steps: seq<Step<T>>, q': Queue<T>)
    decreases |steps|
  {
    if steps == [] then q' == q else Enabled(q, steps[0]) && Runs(Apply(q, steps[0]), steps[1..], q')
  }

  lemma {:induction false} RunKeeps<T>(q: Queue<T>, steps: seq<Step<T>>, q': Queue<T>)
    requires Inv(q) && Runs(q, steps, q')
    ensures Inv(q')
    decreases |steps|
  {
    if steps != [] {
      if steps[0].Enqueue? {
        EnqueueKeeps(q, steps[0].job);
      } else {
        SenderKeeps(q, steps[0]);
      }
      RunKeeps(Apply(q, steps[0]), steps[1..], q');
    }
  }

  /** In every interleaving: at most one sender is alive; what it delivered, then the job it
      holds, then the list, is what was enqueued, in order; and without a sender nothing waits. */
  lemma NothingLostOrReordered<T>(steps: seq<Step<T>>, q: Queue<T>)
    requires Runs(Init(), steps, q)
    ensures forall i, j :: 0 <= i < j < |q.senders| ==> q.senders[i].Returned? || q.senders[j].Returned?
    ensures (forall i :: 0 <= i < |q.senders| ==> q.senders[i].Returned?) ==> q.list == [] && q.delivered == q.enqueued
    ensures forall i :: 0 <= i < |q.senders| && !q.senders[i].Returned? ==>
              q.delivered + InHand(q.senders[i]) + q.list == q.enqueued
  {
    RunKeeps(Init(), steps, q);
    if q.run {
      var i: nat :| OnlyAlive(q, i) && q.delivered + InHand(q.senders[i]) + q.list == q.enqueued;
    }
  }

  /** The jobs given to `Enqueue` in a run. */
  function Given<T>(steps: seq<Step<T>>): seq<T>
    decreases |steps|
  {
    if steps == [] then [] else if steps[0].Enqueue? then [steps[0].job] + Given(steps[1..]) else Given(steps[1..])
  }

  /** The jobs that the senders hand over in a run, each of them the one it holds. */
  function HandedOver<T>(q: Queue<T>, steps: seq<Step<T>>): seq<T>
    decreases |steps|
  {
    if steps == [] || !Enabled(q, steps[0]) then []
    else if steps[0].HandOver? then [q.senders[steps[0].i].job] + HandedOver(Apply(q, steps[0]), steps[1..])
    else HandedOver(Apply(q, steps[0]), steps[1..])
  }

  lemma {:induction false} HistoriesOfRun<T>(q: Queue<T>, steps: seq<Step<T>>, q': Queue<T>)
    requires Runs(q, steps, q')
    ensures q'.enqueued == q.enqueued + Given(steps) && q'.delivered == q.delivered + HandedOver(q, steps)
    decreases |steps|
  {
    if steps != [] {
      HistoriesOfRun(Apply(q, steps[0]), steps[1..], q');
    }
  }

  lemma DeliveredFirst<T>(q: Queue<T>)
    requires Inv(q)
    ensures q.delivered <= q.enqueued
    ensures (forall i :: 0 <= i < |q.senders| ==> q.senders[i].Returned?) ==> q.delivered == q.enqueued
  {
    if q.run {
      var i: nat :| OnlyAlive(q, i) && q.delivered + InHand(q.senders[i]) + q.list == q.enqueued;
      assert q.delivered + (InHand(q.senders[i]) + q.list) == q.enqueued;
    }
  }

  /** In every interleaving, the jobs handed over are the first ones that were enqueued, in order;
      all of them once no sender is alive. */
  lemma FirstInFirstOut<T>(steps: seq<Step<T>>, q: Queue<T>)
    requires Runs(Init(), steps, q)
    ensures HandedOver(Init(), steps) <= Given(steps)
    ensures (forall i :: 0 <= i < |q.senders| ==> q.senders[i].Returned?) ==> HandedOver(Init(), steps) == Given(steps)
  {
    HistoriesOfRun(Init(), steps, q);
    RunKeeps(Init(), steps, q);
    DeliveredFirst(q);
    assert [] + Given(steps) == Given(steps) && [] + HandedOver(Init(), steps) == HandedOver(Init(), steps);
  }

  /** A job in the queue is one handover per job before it away from delivery: the sender in
      charge, left alone, empties the list. */
  lemma {:induction false} SenderDrains<T>(q: Queue<T>, i: nat) returns (steps: seq<Step<T>>, q': Queue<T>)
    requires Inv(q) && OnlyAlive(q, i) && q.run && q.senders[i].Looping?
    ensures Runs(q, steps, q') && q'.delivered == q.enqueued && q'.list == [] && !q'.run
    decreases |q.list|
  {
    if q.list == [] {
      q' := Apply(q, Lock(i));
      steps := [Lock(i)];
      SenderKeeps(q, Lock(i));
      assert Runs(q', [], q');
    } else {
      var q1 := Apply(q, Lock(i));
      SenderKeeps(q, Lock(i));
      var q2 := Apply(q1, HandOver(i));
      SenderKeeps(q1, HandOver(i));
      var rest;
      rest, q' := SenderDrains(q2, i);
      steps := [Lock(i)] + ([HandOver(i)] + rest);
      assert ([HandOver(i)] + rest)[1..] == rest;
      assert Runs(q1, [HandOver(i)] + rest, q');
      assert steps[1..] == [HandOver(i)] + rest;
    }
  }

  /** The queue as the object it is: the critical sections change its list and its flag. */
  class SharedQueue<T> {
    var list: seq<T>
    var run: bool
    ghost var senders: seq<Sender<T>>
    ghost var delivered: seq<T>
    ghost var enqueued: seq<T>

    ghost function State(): Queue<T>
      reads this
    {
      Queue(list, run, senders, delivered, enqueued)
    }

    constructor ()
      ensures State() == Init() && Inv(State())
    {
      list, run, senders, delivered, enqueued := [], false, [], [], [];
    }

    /** `Enqueue`; `spawned` tells that a sender was started. */
    method Enqueue(job: T) returns (spawned: bool)
      requires Inv(State())
      modifies this
      ensures State() == Apply(old(State()), Step.Enqueue(job)) && Inv(State())
      ensures spawned == !old(run)
    {
      EnqueueKeeps(State(), job);
      list := list + [job];
      enqueued := enqueued + [job];
      spawned := !run;
      if !run {
        run := true;
        senders := senders + [Looping];
      }
    }

    /** The critical section of `send`: take the first job, or give up. */
    method Lock(ghost i: nat) returns (job: Option<T>)
      requires Inv(State()) && Enabled(State(), Step.Lock(i))
      modifies this
      ensures State() == Apply(old(State()), Step.Lock(i)) && Inv(State())
      ensures job.None? <==> senders[i].Returned?
      ensures job.Some? ==> senders[i] == Holding(job.value)
    {
      SenderKeeps(State(), Step.Lock(i));
      if list == [] || !run {
        run := false;
        senders := senders[i := Returned];
        return None;
      }
      job := Some(list[0]);
      senders := senders[i := Holding(list[0])];
      list := list[1..];
    }

    /** The job in hand goes through the channel. */
    ghost method HandOver(i: nat)
      requires Inv(State()) && Enabled(State(), Step.HandOver(i))
      modifies this
      ensures State() == Apply(old(State()), Step.HandOver(i)) && Inv(State())
    {
      SenderKeeps(State(), Step.HandOver(i));
      delivered := delivered + [senders[i].job];
      senders := senders[i := Looping];
    }
  }
}
