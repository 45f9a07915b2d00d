/** The scheduler run by one process follows the protocol: each turn of its poll is a run of the
    steps of one poller, so what holds of all runs of the protocol holds of it. */
module SchedulerRefinement {
  import opened Text
  import opened Options
  import opened RedisSets
  import opened RedisScheduler
  import P = SchedulerProtocol
  import J = SchedulerJobs

  function KindOf(t: Trigger): P.Kind {
    match t
    case AtTrigger(_) => P.At
    case CronTrigger => P.Cron
    case WebhookTrigger => P.Webhook
    case EventTrigger => P.Event
    case ClientTrigger => P.Event
    case MalformedTrigger => P.Event
  }

  /** The state of the protocol has the same sets, documents and lists; the protocol remembers
      what a document was before it became malformed. */
  ghost predicate Represents(s: P.State, v: Shared) {
    && s.triggers == v.triggers && s.sched == v.sched && s.live == v.docs.Keys
    && (forall k :: k in v.docs ==> k in s.kinds && (v.docs[k].MalformedTrigger? || s.kinds[k] == KindOf(v.docs[k])))
    && SameLists(s.lists, v.lists)
  }

  /** An empty list does not exist in redis. */
  ghost predicate SameLists(a: map<Key, seq<string>>, b: map<Key, seq<string>>) {
    forall k :: P.Get(a, k) == P.Get(b, k)
  }

  lemma ListCleared(a: map<Key, seq<string>>, b: map<Key, seq<string>>, k: Key)
    requires SameLists(a, b)
    ensures SameLists(a[k := []], b - {k})
  {
    forall j ensures P.Get(a[k := []], j) == P.Get(b - {k}, j) {
      assert P.Get(a, j) == P.Get(b, j);
    }
  }

  lemma ListPushed(a: map<Key, seq<string>>, b: map<Key, seq<string>>, k: Key, payload: string)
    requires SameLists(a, b)
    ensures SameLists(a[k := P.Get(a, k) + [payload]], b[k := P.Get(b, k) + [payload]])
  {
    var a', b' := a[k := P.Get(a, k) + [payload]], b[k := P.Get(b, k) + [payload]];
    forall j ensures P.Get(a', j) == P.Get(b', j) {
      assert P.Get(a, j) == P.Get(b, j) && P.Get(a, k) == P.Get(b, k);
    }
  }

  /** A run of the process p, which ends where it can poll again; a safe one strands no list. */
  ghost predicate PollerRun(s: P.State, p: P.Pid, steps: seq<P.Step>, s': P.State, safe: bool) {
    && P.Runs(s, steps, s') && s'.Pc(p).Idle?
    && (safe ==> P.NeverStrands(s, steps))
    && forall i :: 0 <= i < |steps| ==> IsPollerStep(steps[i], p)
  }

  predicate IsPollerStep(step: P.Step, p: P.Pid) {
    || (step.Poll? && step.p == p) || step == P.Fetch(p) || step == P.FetchMalformed(p)
    || step == P.DrainFails(p) || (step.Push? && step.p == p)
    || step == P.ZRemSched(p) || step == P.Drain(p) || step == P.PushDebounced(p)
    || step == P.DeleteDoc(p) || step == P.Unlink(p) || (step.AddToRedis? && step.p == p) || step == P.Fail(p)
  }

  /** The steps that cannot strand a list, whatever the state. */
  predicate Harmless(s: P.State, step: P.Step) {
    && !step.DrainFails? && !step.CleanRedis?
    && (step.Fail? ==> !s.Pc(step.p).Removed?) && (step.ZRemSched? ==> !s.Pc(step.p).Malformed?)
  }

  lemma LastStep(s: P.State, p: P.Pid, step: P.Step, safe: bool)
    requires P.Enabled(s, step) && IsPollerStep(step, p) && (safe ==> Harmless(s, step))
    requires P.Apply(s, step).Pc(p).Idle?
    ensures PollerRun(s, p, [step], P.Apply(s, step), safe)
    ensures J.Given(s, [step]) == if step.PushDebounced? then [J.Job(s.Pc(p).key, s.Pc(p).payloads)] else []
  {
    assert J.Given(P.Apply(s, step), []) == [];
    assert P.Runs(P.Apply(s, step), [], P.Apply(s, step));
    assert P.NeverStrands(P.Apply(s, step), []);
  }

  lemma StepFirst(s: P.State, p: P.Pid, step: P.Step, steps: seq<P.Step>, s': P.State, safe: bool)
    requires P.Enabled(s, step) && IsPollerStep(step, p) && (safe ==> Harmless(s, step))
    requires PollerRun(P.Apply(s, step), p, steps, s', safe)
    ensures PollerRun(s, p, [step] + steps, s', safe)
    ensures !step.PushDebounced? ==> J.Given(s, [step] + steps) == J.Given(P.Apply(s, step), steps)
  {
    assert ([step] + steps)[1..] == steps;
  }

  /** What is left to do once the document has been looked for. */
  ghost predicate Fetching(s: P.State, p: P.Pid, k: Key, score: int, v: Shared) {
    && Represents(s, v)
    && s.Pc(p) == (if k in v.docs then P.Fetched(k, score) else P.Missing(k))
    && (k in v.docs ==> '/' in k && !v.docs[k].ClientTrigger? && !v.docs[k].MalformedTrigger?)
  }

  lemma DropRun(s: P.State, p: P.Pid, k: Key, v: Shared, safe: bool) returns (steps: seq<P.Step>, s': P.State)
    requires Represents(s, v)
    requires s.Pc(p) == P.Missing(k) || s.Pc(p) == P.Refused(k) || (s.Pc(p) == P.Malformed(k) && !safe)
    ensures PollerRun(s, p, steps, s', safe) && Represents(s', v.(sched := v.sched - {k}))
    ensures J.Given(s, steps) == []
  {
    steps, s' := [P.ZRemSched(p)], P.Apply(s, P.ZRemSched(p));
    LastStep(s, p, P.ZRemSched(p), safe);
  }

  lemma FailRun(s: P.State, p: P.Pid, v: Shared, safe: bool) returns (steps: seq<P.Step>, s': P.State)
    requires Represents(s, v) && !s.Pc(p).Removed?
    ensures PollerRun(s, p, steps, s', safe) && Represents(s', v)
    ensures J.Given(s, steps) == []
  {
    steps, s' := [P.Fail(p)], P.Apply(s, P.Fail(p));
    LastStep(s, p, P.Fail(p), safe);
  }

  predicate IsDebounced(v: Shared, k: Key) {
    k in v.docs && (v.docs[k].WebhookTrigger? || v.docs[k].EventTrigger?)
  }

  lemma LeaveRepresents(s: P.State, p: P.Pid, k: Key, score: int, v: Shared)
    requires Fetching(s, p, k, score, v) && IsDebounced(v, k)
    ensures P.Enabled(s, P.ZRemSched(p))
    ensures var s1 := P.Apply(s, P.ZRemSched(p));
            s1.Pc(p) == P.Removed(k) && Represents(s1, v.(sched := v.sched - {k}))
  {
  }

  lemma DrainRepresents(s: P.State, p: P.Pid, k: Key, v: Shared)
    requires Represents(s, v) && s.Pc(p) == P.Removed(k) && IsDebounced(v, k)
    ensures P.Enabled(s, P.Drain(p))
    ensures var s1 := P.Apply(s, P.Drain(p));
            s1.Pc(p) == P.Drained(k, if v.docs[k].WebhookTrigger? then P.Get(v.lists, k) else [])
            && Represents(s1, v.(lists := if v.docs[k].WebhookTrigger? then v.lists - {k} else v.lists))
  {
    assert s.IsWebhook(k) <==> v.docs[k].WebhookTrigger?;
    ListCleared(s.lists, v.lists, k);
  }

  lemma NoDrainRepresents(s: P.State, p: P.Pid, k: Key, v: Shared)
    requires Represents(s, v) && s.Pc(p) == P.Removed(k)
    ensures P.Enabled(s, P.DrainFails(p))
    ensures P.Apply(s, P.DrainFails(p)).Pc(p) == P.Drained(k, []) && Represents(P.Apply(s, P.DrainFails(p)), v)
  {
  }

  lemma DebouncedRun(s: P.State, p: P.Pid, k: Key, score: int, v: Shared) returns (steps: seq<P.Step>, s': P.State)
    requires Fetching(s, p, k, score, v) && IsDebounced(v, k)
    ensures PollerRun(s, p, steps, s', true)
    ensures Represents(s', v.(sched := v.sched - {k}, lists := if v.docs[k].WebhookTrigger? then v.lists - {k} else v.lists))
    ensures J.Given(s, steps) == [J.Job(k, if v.docs[k].WebhookTrigger? then P.Get(v.lists, k) else [])]
  {
    LeaveRepresents(s, p, k, score, v);
    var s1 := P.Apply(s, P.ZRemSched(p));
    DrainRepresents(s1, p, k, v.(sched := v.sched - {k}));
    var s2 := P.Apply(s1, P.Drain(p));
    s' := P.Apply(s2, P.PushDebounced(p));
    LastStep(s2, p, P.PushDebounced(p), true);
    StepFirst(s1, p, P.Drain(p), [P.PushDebounced(p)], s', true);
    StepFirst(s, p, P.ZRemSched(p), [P.Drain(p)] + [P.PushDebounced(p)], s', true);
    steps := [P.ZRemSched(p)] + ([P.Drain(p)] + [P.PushDebounced(p)]);
  }

  /** Without draining, which may strand the list. */
  lemma UndrainedRun(s: P.State, p: P.Pid, k: Key, score: int, v: Shared) returns (steps: seq<P.Step>, s': P.State)
    requires Fetching(s, p, k, score, v) && IsDebounced(v, k)
    ensures PollerRun(s, p, steps, s', false) && Represents(s', v.(sched := v.sched - {k}))
    ensures J.Given(s, steps) == [J.Job(k, [])]
  {
    LeaveRepresents(s, p, k, score, v);
    var s1 := P.Apply(s, P.ZRemSched(p));
    NoDrainRepresents(s1, p, k, v.(sched := v.sched - {k}));
    var s2 := P.Apply(s1, P.DrainFails(p));
    s' := P.Apply(s2, P.PushDebounced(p));
    LastStep(s2, p, P.PushDebounced(p), false);
    StepFirst(s1, p, P.DrainFails(p), [P.PushDebounced(p)], s', false);
    StepFirst(s, p, P.ZRemSched(p), [P.DrainFails(p)] + [P.PushDebounced(p)], s', false);
    steps := [P.ZRemSched(p)] + ([P.DrainFails(p)] + [P.PushDebounced(p)]);
  }

  lemma PushedAtRun(s: P.State, p: P.Pid, k: Key, score: int, v: Shared) returns (steps: seq<P.Step>, s': P.State)
    requires Fetching(s, p, k, score, v) && k in v.docs && v.docs[k].AtTrigger?
    ensures PollerRun(s, p, steps, s', true)
    ensures Represents(s', v.(triggers := v.triggers - {k}, sched := v.sched - {k}, docs := v.docs - {k}))
    ensures J.Given(s, steps) == []
  {
    var s1 := P.Apply(s, P.Push(p, false));
    var s2 := P.Apply(s1, P.DeleteDoc(p));
    s' := P.Apply(s2, P.Unlink(p));
    LastStep(s2, p, P.Unlink(p), true);
    StepFirst(s1, p, P.DeleteDoc(p), [P.Unlink(p)], s', true);
    StepFirst(s, p, P.Push(p, false), [P.DeleteDoc(p)] + [P.Unlink(p)], s', true);
    steps := [P.Push(p, false)] + ([P.DeleteDoc(p)] + [P.Unlink(p)]);
  }

  lemma PushedCronRun(s: P.State, p: P.Pid, k: Key, score: int, v: Shared, next: int)
    returns (steps: seq<P.Step>, s': P.State)
    requires Fetching(s, p, k, score, v) && k in v.docs && v.docs[k].CronTrigger?
    ensures PollerRun(s, p, steps, s', true)
    ensures Represents(s', v.(triggers := v.triggers[k := next], sched := v.sched - {k}))
    ensures J.Given(s, steps) == []
  {
    var s1 := P.Apply(s, P.Push(p, false));
    s' := P.Apply(s1, P.AddToRedis(p, next));
    LastStep(s1, p, P.AddToRedis(p, next), true);
    StepFirst(s, p, P.Push(p, false), [P.AddToRedis(p, next)], s', true);
    steps := [P.Push(p, false)] + [P.AddToRedis(p, next)];
  }

  lemma RefusedRun(s: P.State, p: P.Pid, k: Key, score: int, v: Shared) returns (steps: seq<P.Step>, s': P.State)
    requires Fetching(s, p, k, score, v) && k in v.docs && (v.docs[k].AtTrigger? || v.docs[k].CronTrigger?)
    ensures PollerRun(s, p, steps, s', true) && Represents(s', v.(sched := v.sched - {k}))
    ensures J.Given(s, steps) == []
  {
    var s1 := P.Apply(s, P.Push(p, true));
    var rest;
    rest, s' := DropRun(s1, p, k, v, true);
    StepFirst(s, p, P.Push(p, true), rest, s', true);
    steps := [P.Push(p, true)] + rest;
  }

  lemma TimedRun(s: P.State, p: P.Pid, k: Key, score: int, v: Shared, a: Answers, next: int)
    returns (steps: seq<P.Step>, s': P.State)
    requires Fetching(s, p, k, score, v) && k in v.docs && (v.docs[k].AtTrigger? || v.docs[k].CronTrigger?) && a.read
    ensures PollerRun(s, p, steps, s', true) && Represents(s', AfterHandle(v, k, a, next))
    ensures J.Given(s, steps) == []
  {
    if a.pushed == Pushed {
      if v.docs[k].AtTrigger? {
        steps, s' := PushedAtRun(s, p, k, score, v);
      } else {
        steps, s' := PushedCronRun(s, p, k, score, v, next);
      }
    } else if a.pushed == LimitReached || (v.docs[k].CronTrigger? && a.pushed != OtherError) {
      steps, s' := RefusedRun(s, p, k, score, v);
    } else {
      steps, s' := FailRun(s, p, v, true);
    }
  }

  /** A safe turn: the payloads of a webhook are drained, and the document is well formed. */
  predicate SafeTurn(v: Shared, k: Key, a: Answers) {
    a.read && k in v.docs ==> (v.docs[k].WebhookTrigger? ==> a.drained) && !v.docs[k].MalformedTrigger?
  }

  /** The debounced job of a turn: the payloads listed before it, if they could be drained. */
  function JobOfTurn(v: Shared, k: Key, a: Answers): seq<J.Job> {
    if a.read && IsDebounced(v, k) then
      [J.Job(k, if v.docs[k].WebhookTrigger? && a.drained then P.Get(v.lists, k) else [])]
    else []
  }

  lemma HandleRun(s: P.State, p: P.Pid, k: Key, score: int, v: Shared, a: Answers, next: int)
    returns (steps: seq<P.Step>, s': P.State)
    requires Fetching(s, p, k, score, v) && a.read
    ensures PollerRun(s, p, steps, s', SafeTurn(v, k, a)) && Represents(s', AfterHandle(v, k, a, next))
    ensures J.Given(s, steps) == JobOfTurn(v, k, a)
  {
    if k !in v.docs {
      steps, s' := DropRun(s, p, k, v, true);
    } else if IsDebounced(v, k) {
      if v.docs[k].EventTrigger? || a.drained {
        steps, s' := DebouncedRun(s, p, k, score, v);
      } else {
        steps, s' := UndrainedRun(s, p, k, score, v);
      }
    } else {
      steps, s' := TimedRun(s, p, k, score, v, a, next);
    }
  }

  ghost predicate JustPolled(s: P.State, p: P.Pid, r: Polled, v: Shared) {
    Represents(s, v) && s.Pc(p) == P.Got(r.key, r.score)
  }

  lemma PollRepresents(s: P.State, p: P.Pid, v: Shared, now: int, r: Polled)
    requires Represents(s, v) && Polls(v, now, r) && s.Pc(p).Idle?
    ensures P.Enabled(s, P.Poll(p, now, r))
    ensures JustPolled(P.Apply(s, P.Poll(p, now, r)), p, r, AfterPoll(v, now, r))
  {
    assert LuaPolls(s.triggers, s.sched, now, Some(r), AfterPoll(v, now, r).triggers, AfterPoll(v, now, r).sched);
  }

  lemma MalformedRun(s: P.State, p: P.Pid, r: Polled, v: Shared) returns (steps: seq<P.Step>, s': P.State)
    requires JustPolled(s, p, r, v)
    ensures PollerRun(s, p, steps, s', false) && Represents(s', v.(sched := v.sched - {r.key}))
    ensures J.Given(s, steps) == []
  {
    var s1 := P.Apply(s, P.FetchMalformed(p));
    var rest;
    rest, s' := DropRun(s1, p, r.key, v, false);
    StepFirst(s, p, P.FetchMalformed(p), rest, s', false);
    steps := [P.FetchMalformed(p)] + rest;
  }

  lemma AfterPollRun(s: P.State, p: P.Pid, v: Shared, r: Polled, a: Answers, next: int)
    returns (steps: seq<P.Step>, s': P.State)
    requires JustPolled(s, p, r, v) && ('/' in r.key || a.read)
    requires r.key in v.docs ==> '/' in r.key && !v.docs[r.key].ClientTrigger?
    ensures PollerRun(s, p, steps, s', SafeTurn(v, r.key, a))
    ensures Represents(s', AfterHandle(v, r.key, a, next))
    ensures J.Given(s, steps) == JobOfTurn(v, r.key, a)
  {
    if !a.read {
      steps, s' := FailRun(s, p, v, SafeTurn(v, r.key, a));
    } else if r.key in v.docs && v.docs[r.key].MalformedTrigger? {
      steps, s' := MalformedRun(s, p, r, v);
    } else {
      var s1 := P.Apply(s, P.Fetch(p));
      var rest;
      rest, s' := HandleRun(s1, p, r.key, r.score, v, a, next);
      StepFirst(s, p, P.Fetch(p), rest, s', SafeTurn(v, r.key, a));
      steps := [P.Fetch(p)] + rest;
    }
  }

  /** A turn of the poll, for a trigger other than a client one, which has no place in the sets:
      whatever it is answered, what `Scheduler.Turn` leaves is what some run of the protocol by
      this poller leaves. A key without a slash has no document and is not looked up. */
  lemma TurnIsRun(s: P.State, p: P.Pid, v: Shared, now: int, r: Polled, a: Answers, next: int)
    returns (steps: seq<P.Step>, s': P.State)
    requires Represents(s, v) && s.Pc(p).Idle? && Polls(v, now, r)
    requires r.key in v.docs ==> '/' in r.key && !v.docs[r.key].ClientTrigger?
    ensures PollerRun(s, p, steps, s', SafeTurn(v, r.key, a))
    ensures Represents(s', AfterHandle(AfterPoll(v, now, r), r.key, a, next))
    ensures J.Given(s, steps) ==
              if a.read && r.key in v.docs && v.docs[r.key].WebhookTrigger? && a.drained then
                [J.Job(r.key, P.Get(v.lists, r.key))]
              else if a.read && r.key in v.docs && (v.docs[r.key].WebhookTrigger? || v.docs[r.key].EventTrigger?) then
                [J.Job(r.key, [])]
              else []
  {
    PollRepresents(s, p, v, now, r);
    var s1, v1 := P.Apply(s, P.Poll(p, now, r)), AfterPoll(v, now, r);
    var answers := if '/' in r.key then a else a.(read := true);
    var rest;
    rest, s' := AfterPollRun(s1, p, v1, r, answers, next);
    assert SafeTurn(v, r.key, a) ==> SafeTurn(v1, r.key, answers);
    StepFirst(s, p, P.Poll(p, now, r), rest, s', SafeTurn(v, r.key, a));
    steps := [P.Poll(p, now, r)] + rest;
  }

  // ---------------------------------------------------------------- the clients

  /** A debounced call of a webhook, as `Scheduler.Fire` makes it, is one step. */
  lemma FireIsStep(s: P.State, v: Shared, k: Key, payload: string, score: int)
    requires Represents(s, v) && k in v.docs && v.docs[k].WebhookTrigger?
    ensures P.Enabled(s, P.Fire(k, payload, score))
    ensures Represents(P.Apply(s, P.Fire(k, payload, score)),
                       v.(lists := v.lists[k := P.Get(v.lists, k) + [payload]],
                          triggers := if k in v.triggers then v.triggers else v.triggers[k := score]))
  {
    ListPushed(s.lists, v.lists, k, payload);
  }

  predicate IsTimed(t: Trigger) {
    t.AtTrigger? || t.CronTrigger?
  }

  /** `Scheduler.AddToRedis` for a trigger whose document was just created is one step. */
  lemma AddIsStep(s: P.State, p: P.Pid, v: Shared, k: Key, score: int)
    requires Represents(s, v) && k in v.docs && !v.docs[k].MalformedTrigger? && s.Pc(p) == P.Adding([k])
    ensures P.Enabled(s, P.AddToRedis(p, score)) && P.Apply(s, P.AddToRedis(p, score)).Pc(p).Idle?
    ensures Represents(P.Apply(s, P.AddToRedis(p, score)),
                       if IsTimed(v.docs[k]) then v.(triggers := v.triggers[k := score], sched := v.sched - {k}) else v)
  {
  }

  /** `Scheduler.DeleteTrigger` is a deletion of the document, then of the key. */
  lemma DeleteIsRun(s: P.State, p: P.Pid, v: Shared, k: Key) returns (steps: seq<P.Step>, s': P.State)
    requires Represents(s, v) && s.Pc(p).Idle? && k in v.docs && !v.docs[k].MalformedTrigger?
    ensures P.Runs(s, steps, s') && s'.Pc(p).Idle?
    ensures var timed := IsTimed(v.docs[k]);
            Represents(s', Shared(if timed then v.triggers - {k} else v.triggers,
                                  if timed then v.sched - {k} else v.sched, v.docs - {k}, v.lists))
  {
    var s1 := P.Apply(s, P.Delete(p, k));
    if IsTimed(v.docs[k]) {
      s' := P.Apply(s1, P.Unlink(p));
      P.RunOf(s, P.Delete(p, k), s1);
      P.RunOf(s1, P.Unlink(p), s');
      P.RunsAppend(s, [P.Delete(p, k)], s1, [P.Unlink(p)], s');
      steps := [P.Delete(p, k)] + [P.Unlink(p)];
    } else {
      s' := s1;
      P.RunOf(s, P.Delete(p, k), s1);
      steps := [P.Delete(p, k)];
    }
  }
}
