/** The redis scheduling protocol with any number of processes (model/job/redis_scheduler.go).

    A run is a sequence of atomic steps of pollers and of clients, interleaved in any way; a
    process can crash, or give up on an error, between any two of its steps. One redis command,
    pipeline or script is one step, and so is one CouchDB request. The pipelines of the code are
    not MULTI transactions, so their atomicity is an assumption of this model; the scripts and
    the single commands are atomic in redis.

    Times are arbitrary: every poll has its own `now` and every rescheduling its own score. */
module SchedulerProtocol {
  import opened Options
  import opened RedisSets

  type Pid = nat
  type Payload = string

  datatype Kind = At | Cron | Webhook | Event

  /** Where a process is. */
  datatype Pc =
    | Idle
    | Got(key: Key, score: int)        // the script returned this key
    | Fetched(key: Key, score: int)    // its trigger document was read
    | Missing(key: Key)                // its document does not exist: about to ZREM scheduling
    | Malformed(key: Key)              // its document makes no trigger: about to ZREM scheduling
    | Refused(key: Key)                // the broker will never take it: about to ZREM scheduling
    | AtPushed(key: Key)               // job pushed: about to delete the document
    | CronPushed(key: Key, score: int) // job pushed: about to addToRedis
    | Unlinking(key: Key)              // document deleted: about to ZREM both sets
    | Removed(key: Key)                // debounced, out of scheduling: about to drain the payloads
    | Drained(key: Key, payloads: seq<Payload>) // about to push the debounced job
    | Adding(keys: seq<Key>)           // AddTrigger or RebuildRedis: about to addToRedis these
    | Updating(key: Key)               // UpdateCron: document updated, about to move it in redis
  {
    function Keys(): set<Key> {
      match this
      case Idle => {}
      case Adding(keys) => set k | k in keys
      case _ => {key}
    }
  }

  datatype State = State(
    triggers: ZSet,
    sched: ZSet,
    kinds: map<Key, Kind>,              // every trigger ever created; IDs are never reused
    live: set<Key>,                     // those whose document exists
    lists: map<Key, seq<Payload>>,
    procs: map<Pid, Pc>,
    fired: map<Key, seq<Payload>>,      // history: the payloads fired
    drained: map<Key, seq<Payload>>)    // history: the payloads taken off the lists for a job
  {
    function Pc(p: Pid): Pc {
      if p in procs then procs[p] else Idle
    }

    function At(p: Pid, pc: Pc): State {
      this.(procs := procs[p := pc])
    }

    predicate IsTimed(k: Key) {
      k in kinds && (kinds[k].At? || kinds[k].Cron?)
    }

    predicate IsWebhook(k: Key) {
      k in kinds && kinds[k].Webhook?
    }

    function ZAdd(k: Key, score: int): State {
      this.(triggers := triggers[k := score], sched := sched - {k})
    }
  }

  function Get(m: map<Key, seq<Payload>>, k: Key): seq<Payload> {
    if k in m then m[k] else []
  }

  const Init := State(map[], map[], map[], {}, map[], map[], map[], map[])

  datatype Step =
    | Poll(p: Pid, now: int, r: Polled)
    | Fetch(p: Pid)
    | FetchMalformed(p: Pid)
    | Push(p: Pid, refused: bool)       // of an @at or @cron job
    | ZRemSched(p: Pid)
    | Drain(p: Pid)
    | DrainFails(p: Pid)                // the pipeline fails, and the job is pushed without payloads
    | PushDebounced(p: Pid)
    | DeleteDoc(p: Pid)
    | Unlink(p: Pid)
    | AddToRedis(p: Pid, score: int)
    | Move(p: Pid, score: int)          // the pipeline of UpdateCron
    | Create(p: Pid, key: Key, kind: Kind)
    | Delete(p: Pid, key: Key)
    | Update(p: Pid, key: Key)
    | Rebuild(p: Pid, keys: seq<Key>)
    | Fire(key: Key, payload: Payload, score: int)
    | FireEvent(key: Key, score: int)
    | CleanRedis
    | Fail(p: Pid)                      // a crash, or an error return

  ghost predicate Enabled(s: State, step: Step) {
    match step
    case Poll(p, now, r) => s.Pc(p).Idle? && exists t, z :: LuaPolls(s.triggers, s.sched, now, Some(r), t, z)
    case Fetch(p) => s.Pc(p).Got?
    case FetchMalformed(p) => s.Pc(p).Got?
    case Push(p, refused) => s.Pc(p).Fetched? && s.IsTimed(s.Pc(p).key)
    case ZRemSched(p) =>
      || s.Pc(p).Missing? || s.Pc(p).Malformed? || s.Pc(p).Refused?
      || (s.Pc(p).Fetched? && !s.IsTimed(s.Pc(p).key))
    case Drain(p) => s.Pc(p).Removed?
    case DrainFails(p) => s.Pc(p).Removed?
    case PushDebounced(p) => s.Pc(p).Drained?
    case DeleteDoc(p) => s.Pc(p).AtPushed?
    case Unlink(p) => s.Pc(p).Unlinking?
    case AddToRedis(p, score) => s.Pc(p).CronPushed? || (s.Pc(p).Adding? && s.Pc(p).keys != [])
    case Move(p, score) => s.Pc(p).Updating?
    case Create(p, key, kind) => s.Pc(p).Idle? && key !in s.kinds
    case Delete(p, key) => s.Pc(p).Idle? && key in s.live
    case Update(p, key) => s.Pc(p).Idle? && key in s.live && key in s.kinds && s.kinds[key].Cron?
    case Rebuild(p, keys) => s.Pc(p).Idle? && forall k :: k in keys ==> k in s.live
    case Fire(key, payload, score) => s.IsWebhook(key)
    case FireEvent(key, score) => key in s.kinds && s.kinds[key].Event?
    case CleanRedis => true
    case Fail(p) => true
  }

  /** The script, when it polls r. */
  function AfterPoll(s: State, now: int, r: Polled): State {
    s.(triggers := PolledTriggers(s.triggers, s.sched, now, r), sched := PolledSched(s.sched, now, r))
  }

  function AfterFetch(s: State, p: Pid): State
    requires s.Pc(p).Got?
  {
    var Got(k, score) := s.Pc(p);
    s.At(p, if k in s.live then Fetched(k, score) else Missing(k))
  }

  function AfterPush(s: State, p: Pid, refused: bool): State
    requires s.Pc(p).Fetched? && s.IsTimed(s.Pc(p).key)
  {
    var Fetched(k, score) := s.Pc(p);
    s.At(p, if refused then Refused(k) else if s.kinds[k].At? then AtPushed(k) else CronPushed(k, score))
  }

  function AfterZRem(s: State, p: Pid): State
    requires s.Pc(p).Missing? || s.Pc(p).Malformed? || s.Pc(p).Refused? || s.Pc(p).Fetched?
  {
    var pc := s.Pc(p);
    s.(sched := s.sched - {pc.key}).At(p, if pc.Fetched? then Removed(pc.key) else Idle)
  }

  function AfterDrain(s: State, p: Pid): State
    requires s.Pc(p).Removed?
  {
    var k := s.Pc(p).key;
    if !s.IsWebhook(k) then s.At(p, Drained(k, [])) else
    var payloads := Get(s.lists, k);
    s.(lists := s.lists[k := []], drained := s.drained[k := Get(s.drained, k) + payloads])
     .At(p, Drained(k, payloads))
  }

  /** addToRedis: only @at and @cron triggers have a place in the sorted sets. */
  function AfterAdd(s: State, p: Pid, score: int): State
    requires s.Pc(p).CronPushed? || (s.Pc(p).Adding? && s.Pc(p).keys != [])
  {
    var pc := s.Pc(p);
    var k := if pc.CronPushed? then pc.key else pc.keys[0];
    var s' := if s.IsTimed(k) then s.ZAdd(k, score) else s;
    s'.At(p, if pc.CronPushed? || |pc.keys| == 1 then Idle else Adding(pc.keys[1..]))
  }

  function AfterDelete(s: State, p: Pid, k: Key): State {
    s.(live := s.live - {k}).At(p, if s.IsTimed(k) then Unlinking(k) else Idle)
  }

  function AfterFire(s: State, k: Key, payload: Payload, score: int): State {
    s.(lists := s.lists[k := Get(s.lists, k) + [payload]],
       fired := s.fired[k := Get(s.fired, k) + [payload]],
       triggers := if k in s.triggers then s.triggers else s.triggers[k := score])
  }

  ghost function Apply(s: State, step: Step): State
    requires Enabled(s, step)
  {
    match step
    case Poll(p, now, r) => AfterPoll(s, now, r).At(p, Got(r.key, r.score))
    case Fetch(p) => AfterFetch(s, p)
    case FetchMalformed(p) => s.At(p, Malformed(s.Pc(p).key))
    case Push(p, refused) => AfterPush(s, p, refused)
    case ZRemSched(p) => AfterZRem(s, p)
    case Drain(p) => AfterDrain(s, p)
    case DrainFails(p) => s.At(p, Drained(s.Pc(p).key, []))
    case PushDebounced(p) => s.At(p, Idle)
    case DeleteDoc(p) => AfterDelete(s, p, s.Pc(p).key)
    case Unlink(p) =>
      var k := s.Pc(p).key;
      s.(triggers := s.triggers - {k}, sched := s.sched - {k}).At(p, Idle)
    case AddToRedis(p, score) => AfterAdd(s, p, score)
    case Move(p, score) => s.ZAdd(s.Pc(p).key, score).At(p, Idle)
    case Create(p, key, kind) =>
      s.(kinds := s.kinds[key := kind], live := s.live + {key}).At(p, Adding([key]))
    case Delete(p, key) => AfterDelete(s, p, key)
    case Update(p, key) => s.At(p, Updating(key))
    case Rebuild(p, keys) => s.At(p, Adding(keys))
    case Fire(key, payload, score) => AfterFire(s, key, payload, score)
    case FireEvent(key, score) =>
      s.(triggers := if key in s.triggers then s.triggers else s.triggers[key := score])
    case CleanRedis => s.(triggers := map[], sched := map[])
    case Fail(p) => s.At(p, Idle)
  }

  /** The state after a run, each step being enabled when it is taken. */
  ghost predicate Runs(s: State, steps: seq<Step>, s': State)
    decreases |steps|
  {
    if steps == [] then s' == s
    else Enabled(s, steps[0]) && Runs(Apply(s, steps[0]), steps[1..], s')
  }

  // ---------------------------------------------------------------- invariant

  /** What is known of a process from where it is. */
  predicate PcOk(s: State, pc: Pc) {
    && (forall k :: k in pc.Keys() ==> k in s.kinds)
    && match pc
       case Missing(k) => k !in s.live
       case Refused(k) => s.IsTimed(k)
       case AtPushed(k) => s.IsTimed(k)
       case CronPushed(k, _) => s.IsTimed(k)
       case Unlinking(k) => s.IsTimed(k) && k !in s.live
       case Updating(k) => s.IsTimed(k)
       case Removed(k) => !s.IsTimed(k)
       case _ => true
  }

  predicate KeysOk(s: State) {
    && (forall k :: k in s.live ==> k in s.kinds)
    && (forall k :: k in s.triggers ==> k in s.kinds)
    && (forall k :: k in s.sched ==> k in s.kinds)
  }

  predicate PcsOk(s: State) {
    forall p :: p in s.procs ==> PcOk(s, s.procs[p])
  }

  /** An @at or @cron trigger is never in both sets. */
  predicate Exclusive(s: State) {
    forall k :: k in s.triggers && s.IsTimed(k) ==> k !in s.sched
  }

  /** The payloads drained, followed by those still listed, are those fired, in order. */
  predicate Conserved(s: State) {
    forall k :: k in s.kinds && s.IsWebhook(k) ==> Get(s.drained, k) + Get(s.lists, k) == Get(s.fired, k)
  }

  predicate NewKeysEmpty(s: State) {
    && (forall k :: k in s.lists ==> k in s.kinds)
    && (forall k :: k in s.fired ==> k in s.kinds)
    && (forall k :: k in s.drained ==> k in s.kinds)
  }

  predicate Inv(s: State) {
    KeysOk(s) && PcsOk(s) && Exclusive(s) && Conserved(s) && NewKeysEmpty(s)
  }

  /** A poll only returns a key of one of the sets. */
  lemma PolledKey(s: State, now: int, r: Polled)
    requires exists t, z :: LuaPolls(s.triggers, s.sched, now, Some(r), t, z)
    ensures if !NothingDue(s.sched, now - RETRY_AFTER) then r.key in s.sched else r.key in s.triggers
  {
  }

  // One lemma for each way a step changes the state.

  lemma AtKeeps(s: State, p: Pid, pc: Pc)
    requires Inv(s) && PcOk(s, pc)
    ensures Inv(s.At(p, pc))
  {
    var s' := s.At(p, pc);
    forall q | q in s'.procs ensures PcOk(s', s'.procs[q]) {
      if q != p {
        assert PcOk(s, s.procs[q]);
      }
    }
    assert forall k :: s'.IsTimed(k) == s.IsTimed(k) && s'.IsWebhook(k) == s.IsWebhook(k);
  }

  /** Members may leave the sets and move from the triggers to the scheduling set. */
  lemma SetsKeep(s: State, t: ZSet, z: ZSet)
    requires Inv(s)
    requires forall k :: k in t ==> k in s.kinds
    requires forall k :: k in z ==> k in s.kinds
    requires forall k :: k in t && s.IsTimed(k) ==> k !in z
    ensures Inv(s.(triggers := t, sched := z))
  {
    var s' := s.(triggers := t, sched := z);
    forall q | q in s'.procs ensures PcOk(s', s'.procs[q]) {
      assert PcOk(s, s.procs[q]);
    }
    assert forall k :: s'.IsTimed(k) == s.IsTimed(k) && s'.IsWebhook(k) == s.IsWebhook(k);
  }

  lemma CreateKeeps(s: State, k: Key, kind: Kind)
    requires Inv(s) && k !in s.kinds
    ensures Inv(s.(kinds := s.kinds[k := kind], live := s.live + {k}))
  {
    var s' := s.(kinds := s.kinds[k := kind], live := s.live + {k});
    forall q | q in s'.procs ensures PcOk(s', s'.procs[q]) {
      assert PcOk(s, s.procs[q]);
    }
    assert Get(s.drained, k) + Get(s.lists, k) == Get(s.fired, k);
    forall j | j in s'.kinds && s'.IsWebhook(j)
      ensures Get(s'.drained, j) + Get(s'.lists, j) == Get(s'.fired, j)
    {
      assert j != k ==> s.IsWebhook(j);
    }
  }

  lemma DeleteKeeps(s: State, k: Key)
    requires Inv(s)
    ensures Inv(s.(live := s.live - {k}))
  {
    var s' := s.(live := s.live - {k});
    forall q | q in s'.procs ensures PcOk(s', s'.procs[q]) {
      assert PcOk(s, s.procs[q]);
    }
    assert forall j :: s'.IsTimed(j) == s.IsTimed(j) && s'.IsWebhook(j) == s.IsWebhook(j);
  }

  lemma ZAddKeeps(s: State, k: Key, score: int)
    requires Inv(s) && k in s.kinds
    ensures Inv(s.ZAdd(k, score))
  {
    SetsKeep(s, s.triggers[k := score], s.sched - {k});
  }

  // One lemma for each kind of step.

  lemma PollKeeps(s: State, p: Pid, now: int, r: Polled)
    requires Inv(s) && Enabled(s, Poll(p, now, r))
    ensures Inv(Apply(s, Poll(p, now, r)))
  {
    PolledKey(s, now, r);
    var s' := AfterPoll(s, now, r);
    SetsKeep(s, s'.triggers, s'.sched);
    AtKeeps(s', p, Got(r.key, r.score));
  }

  lemma ZRemKeeps(s: State, p: Pid)
    requires Inv(s) && Enabled(s, ZRemSched(p))
    ensures Inv(Apply(s, ZRemSched(p)))
  {
    var pc := s.Pc(p);
    assert PcOk(s, s.procs[p]);
    SetsKeep(s, s.triggers, s.sched - {pc.key});
    AtKeeps(s.(sched := s.sched - {pc.key}), p, if pc.Fetched? then Removed(pc.key) else Idle);
  }

  lemma UnlinkKeeps(s: State, p: Pid)
    requires Inv(s) && Enabled(s, Unlink(p))
    ensures Inv(Apply(s, Unlink(p)))
  {
    var k := s.Pc(p).key;
    SetsKeep(s, s.triggers - {k}, s.sched - {k});
    AtKeeps(s.(triggers := s.triggers - {k}, sched := s.sched - {k}), p, Idle);
  }

  lemma DrainKeeps(s: State, p: Pid)
    requires Inv(s) && Enabled(s, Drain(p))
    ensures Inv(Apply(s, Drain(p)))
  {
    var k := s.Pc(p).key;
    assert PcOk(s, s.procs[p]);
    if s.IsWebhook(k) {
      var payloads, all := Get(s.lists, k), Get(s.drained, k) + Get(s.lists, k);
      FiredUnchanged(s, k, all);
      AtKeeps(s.(lists := s.lists[k := []], drained := s.drained[k := all]), p, Drained(k, payloads));
    } else {
      AtKeeps(s, p, Drained(k, []));
    }
  }

  /** Writing down the history that is already there. */
  lemma FiredUnchanged(s: State, k: Key, all: seq<Payload>)
    requires Inv(s) && s.IsWebhook(k) && Get(s.fired, k) == all
    requires all == Get(s.drained, k) + Get(s.lists, k)
    ensures Inv(s.(lists := s.lists[k := []], drained := s.drained[k := all]))
  {
    var s' := s.(lists := s.lists[k := []], drained := s.drained[k := all]);
    assert all + [] == all;
    forall q | q in s'.procs ensures PcOk(s', s'.procs[q]) {
      assert PcOk(s, s.procs[q]);
    }
    assert forall j :: s'.IsTimed(j) == s.IsTimed(j) && s'.IsWebhook(j) == s.IsWebhook(j);
  }

  lemma AddKeeps(s: State, p: Pid, score: int)
    requires Inv(s) && Enabled(s, AddToRedis(p, score))
    ensures Inv(Apply(s, AddToRedis(p, score)))
  {
    var pc := s.Pc(p);
    assert PcOk(s, s.procs[p]);
    var k := if pc.CronPushed? then pc.key else pc.keys[0];
    var rest := if pc.CronPushed? || |pc.keys| == 1 then Idle else Adding(pc.keys[1..]);
    assert k in pc.Keys() && rest.Keys() <= pc.Keys();
    if s.IsTimed(k) {
      ZAddKeeps(s, k, score);
      AtKeeps(s.ZAdd(k, score), p, rest);
    } else {
      AtKeeps(s, p, rest);
    }
  }

  lemma FireKeeps(s: State, k: Key, payload: Payload, score: int)
    requires Inv(s) && s.IsWebhook(k)
    ensures Inv(AfterFire(s, k, payload, score))
  {
    var s' := AfterFire(s, k, payload, score);
    assert Get(s.drained, k) + (Get(s.lists, k) + [payload]) == Get(s.fired, k) + [payload];
    SameProcs(s, s');
  }

  lemma SameProcs(s: State, s': State)
    requires PcsOk(s) && s'.procs == s.procs && s'.kinds == s.kinds && s'.live == s.live
    ensures PcsOk(s') && forall j :: s'.IsTimed(j) == s.IsTimed(j) && s'.IsWebhook(j) == s.IsWebhook(j)
  {
    forall q | q in s'.procs ensures PcOk(s', s'.procs[q]) {
      assert PcOk(s, s.procs[q]);
    }
  }

  lemma DeletionKeeps(s: State, p: Pid, k: Key)
    requires Inv(s) && k in s.kinds
    ensures Inv(AfterDelete(s, p, k))
  {
    DeleteKeeps(s, k);
    var s' := s.(live := s.live - {k});
    AtKeeps(s', p, if s.IsTimed(k) then Unlinking(k) else Idle);
  }

  lemma PollerStepKeeps(s: State, step: Step)
    requires Inv(s) && Enabled(s, step)
    requires step.Fetch? || step.Push? || step.PushDebounced? || step.DeleteDoc? || step.Move?
    ensures Inv(Apply(s, step))
  {
    var p := step.p;
    assert p in s.procs && PcOk(s, s.procs[p]);
    match step
    case Fetch(_) => AtKeeps(s, p, AfterFetch(s, p).Pc(p));
    case Push(_, refused) => AtKeeps(s, p, AfterPush(s, p, refused).Pc(p));
    case PushDebounced(_) => AtKeeps(s, p, Idle);
    case DeleteDoc(_) => DeletionKeeps(s, p, s.Pc(p).key);
    case Move(_, score) =>
      ZAddKeeps(s, s.Pc(p).key, score);
      AtKeeps(s.ZAdd(s.Pc(p).key, score), p, Idle);
  }

  lemma FailedRequestKeeps(s: State, step: Step)
    requires Inv(s) && Enabled(s, step) && (step.FetchMalformed? || step.DrainFails?)
    ensures Inv(Apply(s, step))
  {
    assert step.p in s.procs && PcOk(s, s.procs[step.p]);
    var k := s.Pc(step.p).key;
    AtKeeps(s, step.p, if step.DrainFails? then Drained(k, []) else Malformed(k));
  }

  lemma ClientStepKeeps(s: State, step: Step)
    requires Inv(s) && Enabled(s, step)
    requires step.Create? || step.Delete? || step.Update? || step.Rebuild? || step.FireEvent? || step.CleanRedis? || step.Fail?
    ensures Inv(Apply(s, step))
  {
    match step
    case Create(p, key, kind) =>
      CreateKeeps(s, key, kind);
      AtKeeps(s.(kinds := s.kinds[key := kind], live := s.live + {key}), p, Adding([key]));
    case Delete(p, key) => DeletionKeeps(s, p, key);
    case Update(p, key) => AtKeeps(s, p, Updating(key));
    case Rebuild(p, keys) => AtKeeps(s, p, Adding(keys));
    case FireEvent(key, score) => SetsKeep(s, Apply(s, step).triggers, s.sched);
    case CleanRedis => SetsKeep(s, map[], map[]);
    case Fail(p) => AtKeeps(s, p, Idle);
  }

  lemma StepKeeps(s: State, step: Step)
    requires Inv(s) && Enabled(s, step)
    ensures Inv(Apply(s, step))
  {
    match step
    case Poll(p, now, r) => PollKeeps(s, p, now, r);
    case ZRemSched(p) => ZRemKeeps(s, p);
    case Drain(p) => DrainKeeps(s, p);
    case Unlink(p) => UnlinkKeeps(s, p);
    case AddToRedis(p, score) => AddKeeps(s, p, score);
    case Fire(key, payload, score) => FireKeeps(s, key, payload, score);
    case Fetch(_) => PollerStepKeeps(s, step);
    case Push(_, _) => PollerStepKeeps(s, step);
    case PushDebounced(_) => PollerStepKeeps(s, step);
    case DeleteDoc(_) => PollerStepKeeps(s, step);
    case Move(_, _) => PollerStepKeeps(s, step);
    case FetchMalformed(_) => FailedRequestKeeps(s, step);
    case DrainFails(_) => FailedRequestKeeps(s, step);
    case _ => ClientStepKeeps(s, step);
  }

  /** Every state of every run keeps the invariant. */
  lemma {:induction false} RunKeeps(s: State, steps: seq<Step>, s': State)
    requires Inv(s) && Runs(s, steps, s')
    ensures Inv(s')
    decreases |steps|
  {
    if steps != [] {
      StepKeeps(s, steps[0]);
      RunKeeps(Apply(s, steps[0]), steps[1..], s');
    }
  }

  // ---------------------------------------------------------------- @at and @cron triggers

  /** The trigger is waiting or being executed, and not both. */
  predicate InOneSet(s: State, k: Key) {
    (k in s.triggers) != (k in s.sched)
  }

  /** The only steps that take a live trigger away on purpose: the broker refused it for good,
      its document makes no trigger, or an administrator emptied the sets. */
  predicate Drops(s: State, step: Step, k: Key) {
    step.CleanRedis? || (step.ZRemSched? && (s.Pc(step.p) == Refused(k) || s.Pc(step.p) == Malformed(k)))
  }

  ghost predicate NeverDrops(s: State, steps: seq<Step>, k: Key)
    decreases |steps|
  {
    steps == [] || (Enabled(s, steps[0]) && !Drops(s, steps[0], k) && NeverDrops(Apply(s, steps[0]), steps[1..], k))
  }

  /** The steps that touch a sorted set. */
  predicate TouchesSets(step: Step) {
    step.Poll? || step.ZRemSched? || step.Unlink? || step.AddToRedis? || step.Move?
    || step.Fire? || step.FireEvent? || step.CleanRedis?
  }

  lemma SetsUntouched(s: State, step: Step)
    requires Enabled(s, step) && !TouchesSets(step)
    ensures Apply(s, step).triggers == s.triggers && Apply(s, step).sched == s.sched
  {
  }

  lemma PollStaysInOneSet(s: State, p: Pid, now: int, r: Polled, k: Key)
    requires Enabled(s, Poll(p, now, r)) && Exclusive(s) && s.IsTimed(k) && InOneSet(s, k)
    ensures InOneSet(Apply(s, Poll(p, now, r)), k)
  {
    PolledKey(s, now, r);
  }

  lemma StaysInOneSet(s: State, step: Step, k: Key)
    requires Inv(s) && Enabled(s, step) && s.IsTimed(k) && InOneSet(s, k)
    requires !Drops(s, step, k)
    ensures k in Apply(s, step).live ==> InOneSet(Apply(s, step), k)
  {
    if step.Poll? {
      PollStaysInOneSet(s, step.p, step.now, step.r, k);
    } else if !TouchesSets(step) {
      SetsUntouched(s, step);
    } else if !step.Fire? && !step.FireEvent? {
      assert PcOk(s, s.procs[step.p]);
      CommandStaysInOneSet(s, step, k);
    }
  }

  lemma CommandStaysInOneSet(s: State, step: Step, k: Key)
    requires step.ZRemSched? || step.Unlink? || step.AddToRedis? || step.Move?
    requires Enabled(s, step) && PcOk(s, s.Pc(step.p)) && s.IsTimed(k) && InOneSet(s, k)
    requires !Drops(s, step, k)
    ensures k in Apply(s, step).live ==> InOneSet(Apply(s, step), k)
  {
    match step
    case ZRemSched(p) => assert s.Pc(p).key == k ==> s.Pc(p) == Missing(k);
    case Unlink(p) =>
    case AddToRedis(p, score) =>
    case Move(p, score) =>
  }

  /** A trigger ID is never reused: what is deleted stays deleted, and keeps its kind. */
  lemma StaysDeleted(s: State, step: Step, k: Key)
    requires Enabled(s, step) && k in s.kinds
    ensures k in Apply(s, step).kinds && Apply(s, step).kinds[k] == s.kinds[k]
    ensures k !in s.live ==> k !in Apply(s, step).live
  {
    if step.Create? {
      assert step.key != k;
    }
  }

  lemma {:induction false} RunStaysDeleted(s: State, steps: seq<Step>, s': State, k: Key)
    requires Runs(s, steps, s') && k in s.kinds
    ensures k in s'.kinds && s'.kinds[k] == s.kinds[k]
    ensures k !in s.live ==> k !in s'.live
    decreases |steps|
  {
    if steps != [] {
      StaysDeleted(s, steps[0], k);
      RunStaysDeleted(Apply(s, steps[0]), steps[1..], s', k);
    }
  }

  /** In every interleaving, with crashes anywhere, an @at or @cron trigger that is in one set
      is in exactly one set in every later state, until its document is deleted or it is
      dropped on purpose. */
  lemma {:induction false} StaysScheduled(s: State, steps: seq<Step>, s': State, k: Key)
    requires Inv(s) && Runs(s, steps, s') && s.IsTimed(k) && InOneSet(s, k)
    requires NeverDrops(s, steps, k)
    requires k in s'.live
    ensures InOneSet(s', k)
    decreases |steps|
  {
    if steps != [] {
      var s1 := Apply(s, steps[0]);
      StepKeeps(s, steps[0]);
      StaysDeleted(s, steps[0], k);
      RunStaysDeleted(s1, steps[1..], s', k);
      StaysInOneSet(s, steps[0], k);
      StaysScheduled(s1, steps[1..], s', k);
    }
  }

  /** Adding a trigger to redis puts it in one set, even after it was dropped. */
  lemma AddedIsScheduled(s: State, p: Pid, score: int)
    requires Inv(s) && Enabled(s, AddToRedis(p, score))
    ensures var k := if s.Pc(p).CronPushed? then s.Pc(p).key else s.Pc(p).keys[0];
            s.IsTimed(k) ==> InOneSet(Apply(s, AddToRedis(p, score)), k)
  {
  }

  /** From the start, no run ever has an @at or @cron trigger in both sets. */
  lemma NeverInBoth(steps: seq<Step>, s: State, k: Key)
    requires Runs(Init, steps, s) && s.IsTimed(k)
    ensures !(k in s.triggers && k in s.sched)
  {
    RunKeeps(Init, steps, s);
  }

  /** A key left in the scheduling set by a crash is polled again once ten seconds have passed:
      the poll then returns some key of that set, the oldest one first. */
  lemma CrashRecovery(s: State, p: Pid, k: Key, now: int)
    requires s.Pc(p).Idle? && k in s.sched && 0 <= s.sched[k] <= now - RETRY_AFTER
    ensures exists r :: Enabled(s, Poll(p, now, r)) && r.key in s.sched && r.score <= s.sched[k]
  {
    assert Due(s.sched, k, now - RETRY_AFTER);
    var first := FirstDueExists(s.sched, now - RETRY_AFTER);
    var r := Polled(first, s.sched[first]);
    assert LuaPolls(s.triggers, s.sched, now, Some(r), s.triggers, s.sched[first := now]);
    assert Enabled(s, Poll(p, now, r));
  }

  // ---------------------------------------------------------------- webhook payloads

  /** In every run, the payloads drained into debounced jobs followed by those still listed are
      exactly the payloads fired, in order. */
  lemma PayloadsConserved(steps: seq<Step>, s: State, k: Key)
    requires Runs(Init, steps, s) && s.IsWebhook(k)
    ensures Get(s.drained, k) + Get(s.lists, k) == Get(s.fired, k)
  {
    RunKeeps(Init, steps, s);
  }

  /** Someone will drain the list: the key is in a set, or a poller is about to drain. */
  predicate Awaited(s: State, k: Key) {
    k in s.triggers || k in s.sched || exists p :: p in s.procs && s.procs[p] == Removed(k)
  }

  /** A live webhook has payloads in its list. */
  predicate Waits(s: State, k: Key) {
    k in s.live && s.IsWebhook(k) && Get(s.lists, k) != []
  }

  ghost predicate AllAwaited(s: State) {
    forall k :: Waits(s, k) ==> Awaited(s, k)
  }

  predicate SomeRemoved(s: State, k: Key) {
    exists p :: p in s.procs && s.procs[p] == Removed(k)
  }

  predicate OtherRemoved(s: State, p: Pid, k: Key) {
    exists q :: q in s.procs && q != p && s.procs[q] == Removed(k)
  }

  /** The step takes away what would have drained the list of k. */
  predicate Loses(s: State, step: Step, k: Key) {
    if step.Fail? || step.DrainFails? then
      s.Pc(step.p) == Removed(k) && k !in s.triggers && k !in s.sched && !OtherRemoved(s, step.p, k)
    else if step.ZRemSched? then
      s.Pc(step.p) == Malformed(k) && k !in s.triggers && !SomeRemoved(s, k)
    else step.CleanRedis? && !SomeRemoved(s, k)
  }

  /** The steps that leave payloads behind: the only poller about to drain a list, whose key is
      in no set, dies or fails to drain; the document of a webhook turns out malformed; the sets
      are emptied. */
  ghost predicate Strands(s: State, step: Step) {
    exists k :: Waits(s, k) && Loses(s, step, k)
  }

  ghost predicate NeverStrands(s: State, steps: seq<Step>)
    decreases |steps|
  {
    steps == [] || (Enabled(s, steps[0]) && !Strands(s, steps[0]) && NeverStrands(Apply(s, steps[0]), steps[1..]))
  }

  /** At every state of the run. */
  ghost predicate AlwaysAwaited(s: State, steps: seq<Step>)
    decreases |steps|
  {
    AllAwaited(s) && (steps == [] || (Enabled(s, steps[0]) && AlwaysAwaited(Apply(s, steps[0]), steps[1..])))
  }

  predicate RedisStep(step: Step) {
    step.Poll? || step.ZRemSched? || step.Unlink? || step.Drain? || step.AddToRedis? || step.Move?
    || step.Fail? || step.DrainFails? || step.CleanRedis?
  }

  lemma AwaitedPoll(s: State, p: Pid, now: int, r: Polled, k: Key)
    requires Enabled(s, Poll(p, now, r)) && Awaited(s, k)
    ensures Awaited(Apply(s, Poll(p, now, r)), k)
  {
    PolledKey(s, now, r);
    StillRemoved(s, Apply(s, Poll(p, now, r)), p, k);
  }

  lemma AwaitedZRem(s: State, p: Pid, k: Key)
    requires Inv(s) && Enabled(s, ZRemSched(p))
    requires s.IsWebhook(k) && k in s.live && Awaited(s, k) && !Loses(s, ZRemSched(p), k)
    ensures Awaited(Apply(s, ZRemSched(p)), k)
  {
    var s' := Apply(s, ZRemSched(p));
    assert PcOk(s, s.procs[p]);
    StillRemoved(s, s', p, k);
    if s.Pc(p).key == k && s.Pc(p).Fetched? {
      assert s'.procs[p] == Removed(k);
    }
  }

  lemma AwaitedFailure(s: State, step: Step, k: Key)
    requires Enabled(s, step) && (step.Fail? || step.DrainFails?)
    requires Awaited(s, k) && !Loses(s, step, k)
    ensures Awaited(Apply(s, step), k)
  {
    var s' := Apply(s, step);
    if q :| q in s.procs && s.procs[q] == Removed(k) && q != step.p {
      assert q in s'.procs && s'.procs[q] == Removed(k);
    }
  }

  lemma AwaitedClean(s: State, k: Key)
    requires SomeRemoved(s, k)
    ensures Awaited(Apply(s, CleanRedis), k)
  {
    var q :| q in s.procs && s.procs[q] == Removed(k);
    assert Apply(s, CleanRedis).procs[q] == Removed(k);
  }

  lemma AwaitedAdd(s: State, p: Pid, score: int, k: Key)
    requires Enabled(s, AddToRedis(p, score)) && s.IsWebhook(k) && Awaited(s, k)
    ensures Awaited(AfterAdd(s, p, score), k)
  {
    StillRemoved(s, AfterAdd(s, p, score), p, k);
  }

  lemma AwaitedDrain(s: State, p: Pid, k: Key)
    requires s.Pc(p).Removed? && s.Pc(p).key != k && Awaited(s, k)
    ensures Awaited(AfterDrain(s, p), k)
  {
    StillRemoved(s, AfterDrain(s, p), p, k);
  }

  /** The other redis commands of a process concern an @at or @cron trigger. */
  lemma AwaitedInRedis(s: State, step: Step, k: Key)
    requires Enabled(s, step) && (step.Unlink? || step.Move?)
    requires PcOk(s, s.Pc(step.p))
    requires s.IsWebhook(k) && Awaited(s, k)
    ensures Awaited(Apply(s, step), k)
  {
    StillRemoved(s, Apply(s, step), step.p, k);
  }

  lemma AwaitedElsewhere(s: State, step: Step, k: Key)
    requires Enabled(s, step) && !RedisStep(step)
    requires Awaited(s, k)
    ensures Awaited(Apply(s, step), k)
  {
    if !step.Fire? && !step.FireEvent? {
      StillRemoved(s, Apply(s, step), step.p, k);
    }
  }

  lemma OneAwaited(s: State, step: Step, k: Key)
    requires Inv(s) && Enabled(s, step) && !Loses(s, step, k)
    requires s.IsWebhook(k) && k in s.live && Awaited(s, k)
    requires Get(Apply(s, step).lists, k) != []
    ensures Awaited(Apply(s, step), k)
  {
    if step.Poll? {
      AwaitedPoll(s, step.p, step.now, step.r, k);
    } else if step.ZRemSched? {
      AwaitedZRem(s, step.p, k);
    } else if step.AddToRedis? {
      AwaitedAdd(s, step.p, step.score, k);
    } else if step.Drain? {
      AwaitedDrain(s, step.p, k);
    } else if step.Fail? || step.DrainFails? {
      AwaitedFailure(s, step, k);
    } else if step.CleanRedis? {
      AwaitedClean(s, k);
    } else if RedisStep(step) {
      assert PcOk(s, s.procs[step.p]);
      AwaitedInRedis(s, step, k);
    } else {
      AwaitedElsewhere(s, step, k);
    }
  }

  lemma AwaitedStays(s: State, step: Step)
    requires Inv(s) && Enabled(s, step) && !Strands(s, step) && AllAwaited(s)
    ensures AllAwaited(Apply(s, step))
  {
    var s' := Apply(s, step);
    forall k | Waits(s', k) ensures Awaited(s', k) {
      if step.Fire? && step.key == k {
        assert k in s'.triggers;
      } else {
        ListsOnlyGrowByFire(s, step, k);
        assert Waits(s, k);
        OneAwaited(s, step, k);
      }
    }
  }

  /** What loses the last way to a list leaves it without any. */
  lemma LostIsNotAwaited(s: State, step: Step, k: Key)
    requires Enabled(s, step) && Waits(s, k) && Loses(s, step, k)
    ensures Waits(Apply(s, step), k) && !Awaited(Apply(s, step), k)
  {
    var s' := Apply(s, step);
    forall q | q in s'.procs ensures s'.procs[q] != Removed(k) {
    }
  }

  /** The condition is exact for every step. */
  lemma StrandsIff(s: State, step: Step)
    requires Inv(s) && Enabled(s, step) && AllAwaited(s)
    ensures AllAwaited(Apply(s, step)) <==> !Strands(s, step)
  {
    if k :| Waits(s, k) && Loses(s, step, k) {
      LostIsNotAwaited(s, step, k);
    } else {
      AwaitedStays(s, step);
    }
  }

  lemma ListsOnlyGrowByFire(s: State, step: Step, k: Key)
    requires k in s.lists ==> k in s.kinds
    requires Enabled(s, step) && !(step.Fire? && step.key == k)
    requires Waits(Apply(s, step), k)
    ensures Waits(s, k)
  {
    if step.Create? {
      CreateLists(s, step, k);
    } else if step.Drain? {
      DrainLists(s, step, k);
    } else if !step.Fire? {
      OnlyDrainAndFire(s, step);
    }
  }

  lemma CreateLists(s: State, step: Step, k: Key)
    requires step.Create? && Enabled(s, step) && (k in s.lists ==> k in s.kinds) && Waits(Apply(s, step), k)
    ensures Waits(s, k)
  {
    assert step.key != k;
  }

  lemma DrainLists(s: State, step: Step, k: Key)
    requires step.Drain? && Enabled(s, step) && Waits(Apply(s, step), k)
    ensures Waits(s, k)
  {
    assert Apply(s, step).kinds == s.kinds;
  }

  lemma OnlyDrainAndFire(s: State, step: Step)
    requires Enabled(s, step) && !step.Fire? && !step.Drain? && !step.Create?
    ensures Apply(s, step).lists == s.lists && Apply(s, step).kinds == s.kinds
    ensures Apply(s, step).live <= s.live
  {
  }

  /** In every run, a live webhook with listed payloads has at every moment its key in one of the
      sets, or a poller about to drain it, if and only if no step strands a list. */
  lemma {:induction false} ListsAwaited(s: State, steps: seq<Step>, s': State)
    requires Inv(s) && AllAwaited(s) && Runs(s, steps, s')
    ensures AlwaysAwaited(s, steps) <==> NeverStrands(s, steps)
    ensures NeverStrands(s, steps) ==> AllAwaited(s')
    decreases |steps|
  {
    if steps != [] {
      StepKeeps(s, steps[0]);
      StrandsIff(s, steps[0]);
      if !Strands(s, steps[0]) {
        ListsAwaited(Apply(s, steps[0]), steps[1..], s');
      } else {
        NotAlways(Apply(s, steps[0]), steps[1..]);
      }
    }
  }

  lemma NotAlways(s: State, steps: seq<Step>)
    requires !AllAwaited(s)
    ensures !AlwaysAwaited(s, steps)
  {
  }

  lemma {:induction false} RunsAppend(a: State, x: seq<Step>, b: State, y: seq<Step>, c: State)
    requires Runs(a, x, b) && Runs(b, y, c)
    ensures Runs(a, x + y, c)
    decreases |x|
  {
    if x == [] {
      assert x + y == y;
    } else {
      assert (x + y)[0] == x[0] && (x + y)[1..] == x[1..] + y;
      RunsAppend(Apply(a, x[0]), x[1..], b, y, c);
    }
  }

  lemma RunOf(s: State, step: Step, s': State)
    requires Enabled(s, step) && Apply(s, step) == s'
    ensures Runs(s, [step], s')
  {
    assert Runs(s', [], s');
  }

  /** A webhook called once, whose payload waits in its list. */
  function FiredOnce(k: Key, triggers: ZSet, sched: ZSet, pc: Pc): State {
    State(triggers, sched, map[k := Webhook], {k}, map[k := ["1"]], map[0 := pc], map[k := ["1"]], map[])
  }

  lemma CreateOne(k: Key, s2: State) returns (steps: seq<Step>)
    requires s2 == State(map[], map[], map[k := Webhook], {k}, map[], map[0 := Idle], map[], map[])
    ensures Runs(Init, steps, s2)
  {
    var s1 := Apply(Init, Create(0, k, Webhook));
    RunOf(Init, Create(0, k, Webhook), s1);
    RunOf(s1, AddToRedis(0, 0), s2);
    RunsAppend(Init, [Create(0, k, Webhook)], s1, [AddToRedis(0, 0)], s2);
    steps := [Create(0, k, Webhook)] + [AddToRedis(0, 0)];
  }

  lemma FireOnce(k: Key) returns (steps: seq<Step>)
    ensures Runs(Init, steps, FiredOnce(k, map[k := 5], map[], Idle))
  {
    var s2 := State(map[], map[], map[k := Webhook], {k}, map[], map[0 := Idle], map[], map[]);
    steps := CreateOne(k, s2);
    assert Get(s2.lists, k) + ["1"] == ["1"] && Get(s2.fired, k) + ["1"] == ["1"];
    RunOf(s2, Fire(k, "1", 5), FiredOnce(k, map[k := 5], map[], Idle));
    RunsAppend(Init, steps, s2, [Fire(k, "1", 5)], FiredOnce(k, map[k := 5], map[], Idle));
    steps := steps + [Fire(k, "1", 5)];
  }

  lemma PollIt(k: Key) returns (steps: seq<Step>)
    ensures Runs(FiredOnce(k, map[k := 5], map[], Idle), steps, FiredOnce(k, map[], map[k := 5], Fetched(k, 5)))
  {
    var s3, r := FiredOnce(k, map[k := 5], map[], Idle), Polled(k, 5);
    assert Due(s3.triggers, k, 5);
    assert LuaPolls(s3.triggers, s3.sched, 5, Some(r), s3.triggers - {k}, s3.sched[k := 5]);
    var s4 := FiredOnce(k, map[], map[k := 5], Got(k, 5));
    var s5 := FiredOnce(k, map[], map[k := 5], Fetched(k, 5));
    RunOf(s3, Poll(0, 5, r), s4);
    RunOf(s4, Fetch(0), s5);
    steps := [Poll(0, 5, r)] + [Fetch(0)];
    RunsAppend(s3, [Poll(0, 5, r)], s4, [Fetch(0)], s5);
  }

  lemma PollAndDie(k: Key) returns (steps: seq<Step>)
    ensures Runs(FiredOnce(k, map[k := 5], map[], Idle), steps, FiredOnce(k, map[], map[], Idle))
  {
    var first := PollIt(k);
    var s5 := FiredOnce(k, map[], map[k := 5], Fetched(k, 5));
    var s6 := FiredOnce(k, map[], map[], Removed(k));
    var s7 := FiredOnce(k, map[], map[], Idle);
    RunOf(s5, ZRemSched(0), s6);
    RunOf(s6, Fail(0), s7);
    RunsAppend(s5, [ZRemSched(0)], s6, [Fail(0)], s7);
    steps := first + ([ZRemSched(0)] + [Fail(0)]);
    RunsAppend(FiredOnce(k, map[k := 5], map[], Idle), first, s5, [ZRemSched(0)] + [Fail(0)], s7);
  }

  /** The exception is real: some run ends with a listed payload nobody is going to drain. */
  lemma StrandedPayload(k: Key)
    ensures exists steps, s :: Runs(Init, steps, s) && k in s.live && s.IsWebhook(k)
                               && Get(s.lists, k) == ["1"] && !Awaited(s, k)
  {
    var first := FireOnce(k);
    var second := PollAndDie(k);
    var s := FiredOnce(k, map[], map[], Idle);
    RunsAppend(Init, first, FiredOnce(k, map[k := 5], map[], Idle), second, s);
    assert Runs(Init, first + second, s) && !Awaited(s, k);
  }

  /** And it is repaired by the next call of the webhook. */
  lemma FireRepairs(s: State, k: Key, payload: Payload, score: int)
    requires s.IsWebhook(k)
    ensures Awaited(Apply(s, Fire(k, payload, score)), k)
  {
  }

  /** Only process p moved, and it was not about to drain k. */
  lemma StillRemoved(s: State, s': State, p: Pid, k: Key)
    requires s'.procs == s.procs[p := s'.Pc(p)] && s.Pc(p) != Removed(k)
    ensures (exists q :: q in s.procs && s.procs[q] == Removed(k)) ==>
              exists q :: q in s'.procs && s'.procs[q] == Removed(k)
  {
    if q :| q in s.procs && s.procs[q] == Removed(k) {
      assert q in s'.procs && s'.procs[q] == Removed(k);
    }
  }
}
