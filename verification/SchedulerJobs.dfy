/** What the jobs of webhooks carry, over whole runs of the protocol: the histories kept by its
    states are those of the calls and of the drains of the run, and a job carries the payloads
    that its poller took, whatever the other processes did in between. */
module SchedulerJobs {
  import opened RedisSets
  import opened SchedulerProtocol

  /** The payloads that the calls of a run give to the webhook k. */
  function Called(steps: seq<Step>, k: Key): seq<Payload>
    decreases |steps|
  {
    if steps == [] then []
    else if steps[0].Fire? && steps[0].key == k then [steps[0].payload] + Called(steps[1..], k)
    else Called(steps[1..], k)
  }

  /** The payloads that the successful drains of a run find in the list of k. */
  ghost function Taken(s: State, steps: seq<Step>, k: Key): seq<Payload>
    decreases |steps|
  {
    if steps == [] || !Enabled(s, steps[0]) then []
    else if steps[0].Drain? && s.Pc(steps[0].p).key == k && s.IsWebhook(k) then
      Get(s.lists, k) + Taken(Apply(s, steps[0]), steps[1..], k)
    else Taken(Apply(s, steps[0]), steps[1..], k)
  }

  lemma HistoriesKept(s: State, step: Step)
    requires Enabled(s, step) && !step.Fire? && !step.Drain?
    ensures Apply(s, step).fired == s.fired && Apply(s, step).drained == s.drained
  {
  }

  lemma FiredBy(s: State, step: Step, k: Key)
    requires Enabled(s, step)
    ensures Get(Apply(s, step).fired, k)
         == if step.Fire? && step.key == k then Get(s.fired, k) + [step.payload] else Get(s.fired, k)
  {
    if !step.Fire? && !step.Drain? {
      HistoriesKept(s, step);
    }
  }

  lemma DrainedBy(s: State, step: Step, k: Key)
    requires Enabled(s, step)
    ensures Get(Apply(s, step).drained, k)
         == if step.Drain? && s.Pc(step.p).key == k && s.IsWebhook(k) then Get(s.drained, k) + Get(s.lists, k)
            else Get(s.drained, k)
  {
    if !step.Fire? && !step.Drain? {
      HistoriesKept(s, step);
    }
  }

  lemma {:induction false} FiredAreCalled(s: State, steps: seq<Step>, s': State, k: Key)
    requires Runs(s, steps, s')
    ensures Get(s'.fired, k) == Get(s.fired, k) + Called(steps, k)
    decreases |steps|
  {
    if steps != [] {
      FiredBy(s, steps[0], k);
      FiredAreCalled(Apply(s, steps[0]), steps[1..], s', k);
    }
  }

  lemma {:induction false} DrainedAreTaken(s: State, steps: seq<Step>, s': State, k: Key)
    requires Runs(s, steps, s')
    ensures Get(s'.drained, k) == Get(s.drained, k) + Taken(s, steps, k)
    decreases |steps|
  {
    if steps != [] {
      DrainedBy(s, steps[0], k);
      DrainedAreTaken(Apply(s, steps[0]), steps[1..], s', k);
    }
  }

  /** In every interleaving, what the drains took, in the order of the drains, then what is still
      listed, are the payloads of the calls in the order of the calls. */
  lemma CallsConserved(steps: seq<Step>, s: State, k: Key)
    requires Runs(Init, steps, s) && s.IsWebhook(k)
    ensures Taken(Init, steps, k) + Get(s.lists, k) == Called(steps, k)
  {
    FiredAreCalled(Init, steps, s, k);
    DrainedAreTaken(Init, steps, s, k);
    PayloadsConserved(steps, s, k);
    assert Get(Init.fired, k) + Called(steps, k) == Called(steps, k);
    assert Get(Init.drained, k) + Taken(Init, steps, k) == Taken(Init, steps, k);
  }

  // ---------------------------------------------------------------- jobs

  /** The process that makes a step. */
  predicate IsOf(step: Step, p: Pid) {
    !step.Fire? && !step.FireEvent? && !step.CleanRedis? && step.p == p
  }

  lemma RedisStepOfOther(s: State, step: Step, p: Pid)
    requires Enabled(s, step) && RedisStep(step) && !IsOf(step, p)
    ensures Apply(s, step).Pc(p) == s.Pc(p)
  {
  }

  lemma OthersDoNotMove(s: State, step: Step, p: Pid)
    requires Enabled(s, step) && !IsOf(step, p)
    ensures Apply(s, step).Pc(p) == s.Pc(p)
  {
    if RedisStep(step) {
      RedisStepOfOther(s, step, p);
    }
  }

  /** Process p holds these payloads for a job of k: it took the whole list of k, or could not
      take it, and has done nothing since. */
  ghost predicate Holds(s: State, steps: seq<Step>, p: Pid, k: Key, payloads: seq<Payload>)
    decreases |steps|
  {
    && steps != [] && Enabled(s, steps[0])
    && (|| Holds(Apply(s, steps[0]), steps[1..], p, k, payloads)
        || (&& s.Pc(p) == Removed(k)
            && (|| (steps[0] == Drain(p) && payloads == if s.IsWebhook(k) then Get(s.lists, k) else [])
                || (steps[0] == DrainFails(p) && payloads == []))
            && forall i :: 0 < i < |steps| ==> !IsOf(steps[i], p)))
  }

  lemma BecomesDrained(s: State, step: Step, p: Pid, k: Key, payloads: seq<Payload>)
    requires Enabled(s, step) && Apply(s, step).Pc(p) == Drained(k, payloads) && IsOf(step, p)
    ensures s.Pc(p) == Removed(k)
    ensures || (step == Drain(p) && payloads == if s.IsWebhook(k) then Get(s.lists, k) else [])
            || (step == DrainFails(p) && payloads == [])
  {
  }

  /** When a process is about to push the job of a webhook, its payloads are those of the list when
      that process drained it. */
  lemma {:induction false} JobCarriesDrain(s: State, steps: seq<Step>, s': State, p: Pid, k: Key, payloads: seq<Payload>)
    requires Runs(s, steps, s') && s'.Pc(p) == Drained(k, payloads)
    ensures Holds(s, steps, p, k, payloads)
         || (s.Pc(p) == Drained(k, payloads) && forall i :: 0 <= i < |steps| ==> !IsOf(steps[i], p))
    decreases |steps|
  {
    if steps != [] {
      var s1 := Apply(s, steps[0]);
      JobCarriesDrain(s1, steps[1..], s', p, k, payloads);
      if !Holds(s1, steps[1..], p, k, payloads) {
        assert forall i :: 0 < i < |steps| ==> steps[i] == steps[1..][i - 1];
        if IsOf(steps[0], p) {
          BecomesDrained(s, steps[0], p, k, payloads);
        } else {
          OthersDoNotMove(s, steps[0], p);
        }
      }
    }
  }

  lemma JobOfRun(steps: seq<Step>, s: State, p: Pid, k: Key, payloads: seq<Payload>)
    requires Runs(Init, steps, s) && s.Pc(p) == Drained(k, payloads)
    ensures Holds(Init, steps, p, k, payloads)
  {
    JobCarriesDrain(Init, steps, s, p, k, payloads);
  }

  /** The job that the broker is given for a debounced trigger. */
  datatype Job = Job(key: Key, payloads: seq<Payload>)

  /** The debounced jobs that the broker is given in a run. */
  ghost function Given(s: State, steps: seq<Step>): seq<Job>
    decreases |steps|
  {
    if steps == [] || !Enabled(s, steps[0]) then []
    else if steps[0].PushDebounced? then
      [Job(s.Pc(steps[0].p).key, s.Pc(steps[0].p).payloads)] + Given(Apply(s, steps[0]), steps[1..])
    else Given(Apply(s, steps[0]), steps[1..])
  }
}
