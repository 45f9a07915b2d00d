/** The redis scheduler run by one process (model/job/redis_scheduler.go): the sorted sets, the
    payload lists and the trigger documents are fields changed in place, as redis and CouchDB
    change them. The cron library, the wall clock and the broker are functions fixed at
    construction: of the cron library only Next(t) > t is known, of the clock that it never
    goes back, of the broker nothing. */
module RedisScheduler {
  import opened Text
  import opened Options
  import opened RedisSets
  import opened Sums

  /** Scores are Unix seconds, the clock has nanoseconds. */
  const NS := 1_000_000_000

  datatype Trigger =
    | AtTrigger(at: int) | CronTrigger | WebhookTrigger | EventTrigger | ClientTrigger
    | MalformedTrigger   // a document that no trigger can be made of

  datatype PushResult = Pushed | UnknownWorker | LimitReached | OtherError

  /** A job given to the broker, with the recorded time of its trigger. */
  datatype Job = Job(key: Key, trigger: Trigger, score: int, payload: Option<string>)

  datatype PollError = NoError | InvalidKey | LookupFailed | NotFoundTrigger | BadDocument | PushFailed | NotImplemented

  /** What the handling of a polled trigger is answered: whether its document could be read, and
      its payloads drained, and the broker's answer. */
  datatype Answers = Answers(read: bool, drained: bool, pushed: PushResult)

  datatype Outcome = Continue | Stop(err: PollError)

  function DueWeight(now: int, hi: int): (Key, int) -> nat {
    (k, s) => if 0 <= s <= hi && s <= now then now - s + 1 else 0
  }

  predicate SameBut(k: Key, a: ZSet, b: ZSet) {
    && (forall j :: j in a && j != k ==> j in b && a[j] == b[j])
    && (forall j :: j in b && j != k ==> j in a)
  }

  /** How much work PollScheduler(now) may still have: it decreases at every turn. */
  ghost function Work(triggers: ZSet, sched: ZSet, now: int): nat {
    Total(triggers, DueWeight(now, now)) + Total(sched, DueWeight(now, now - RETRY_AFTER))
  }

  /** A polled key that leaves the scheduling set, and comes back among the triggers only with
      a later score, leaves less work. */
  lemma WorkDecreases(triggers: ZSet, sched: ZSet, now: int, r: Polled, t1: ZSet, s1: ZSet, t2: ZSet, s2: ZSet)
    requires LuaPolls(triggers, sched, now, Some(r), t1, s1)
    requires s2 == s1 - {r.key}
    requires t2 == t1 || t2 == t1 - {r.key} || (r.key in t2 && t2[r.key] > r.score && t2 == t1[r.key := t2[r.key]])
    ensures Work(t2, s2, now) < Work(triggers, sched, now)
  {
    var k := r.key;
    var w, v := DueWeight(now, now), DueWeight(now, now - RETRY_AFTER);
    assert s2 == sched - {k};
    TotalAbsent(triggers, k, w);
    TotalAbsent(sched, k, v);
    if t2 != t1 && t2 != t1 - {k} {
      TotalUpdate(t1, k, t2[k], w);
      assert t1 - {k} == triggers - {k};
    }
    assert (t1 - {k}) == triggers - {k};
    if !NothingDue(sched, now - RETRY_AFTER) {
      TotalRemove(sched, k, v);
    } else {
      TotalRemove(triggers, k, w);
    }
  }

  ghost predicate Polls(v: Shared, now: int, r: Polled) {
    LuaPolls(v.triggers, v.sched, now, Some(r), AfterPoll(v, now, r).triggers, AfterPoll(v, now, r).sched)
  }

  lemma HandleSets(v: Shared, k: Key, a: Answers, next: int)
    ensures var after := AfterHandle(v, k, a, next);
            && (after.sched == v.sched || after.sched == v.sched - {k})
            && (after.triggers == v.triggers || after.triggers == v.triggers - {k} || after.triggers == v.triggers[k := next])
  {
  }

  lemma PollSets(v: Shared, now: int, r: Polled)
    ensures var after := AfterPoll(v, now, r);
            && (after.triggers == v.triggers || after.triggers == v.triggers - {r.key})
            && (after.sched == v.sched[r.key := now] || after.sched == v.sched[r.key := r.score])
  {
  }

  /** A turn only changes the sets for the key that was polled. */
  lemma TurnSets(v: Shared, now: int, r: Polled, a: Answers, next: int)
    ensures var after := AfterHandle(AfterPoll(v, now, r), r.key, a, next);
            SameBut(r.key, after.triggers, v.triggers) && SameBut(r.key, after.sched, v.sched)
  {
    PollSets(v, now, r);
    var polled := AfterPoll(v, now, r);
    HandleSets(polled, r.key, a, next);
    SameButTwice(r.key, AfterHandle(polled, r.key, a, next).triggers, polled.triggers, v.triggers);
    SameButTwice(r.key, AfterHandle(polled, r.key, a, next).sched, polled.sched, v.sched);
  }

  lemma SameButTwice(k: Key, a: ZSet, b: ZSet, c: ZSet)
    requires SameBut(k, a, b) && SameBut(k, b, c)
    ensures SameBut(k, a, c)
  {
  }

  lemma TurnWork(v: Shared, now: int, r: Polled, a: Answers, next: int)
    requires Polls(v, now, r) && HandledAs(r.key, v.docs, a).Continue?
    requires v.docs[r.key].CronTrigger? && a.pushed == Pushed ==> next > r.score
    ensures var after := AfterHandle(AfterPoll(v, now, r), r.key, a, next);
            r.key !in after.sched && Work(after.triggers, after.sched, now) < Work(v.triggers, v.sched, now)
  {
    var polled := AfterPoll(v, now, r);
    var after := AfterHandle(polled, r.key, a, next);
    WorkDecreases(v.triggers, v.sched, now, r, polled.triggers, polled.sched, after.triggers, after.sched);
  }

  /** Two runs of one cron trigger. */
  predicate SameCron(a: Job, b: Job) {
    a.trigger.CronTrigger? && b.trigger.CronTrigger? && a.key == b.key
  }

  /** The payload of a debounced job: all the listed payloads of a webhook, in order. */
  function DebouncedPayload(trigger: Trigger, lists: map<Key, seq<string>>, key: Key): Option<string> {
    if trigger.WebhookTrigger? then
      Some("{\"payloads\":[" + Join(if key in lists then lists[key] else [], ",") + "]}")
    else None
  }

  /** What becomes of a polled trigger: an error stops the poll, but a cron trigger that the
      broker will never take does not. */
  function HandledAs(key: Key, docs: map<Key, Trigger>, a: Answers): Outcome {
    if '/' !in key then Stop(InvalidKey)
    else if !a.read then Stop(LookupFailed)
    else if key !in docs then Stop(NotFoundTrigger)
    else if docs[key].MalformedTrigger? then Stop(BadDocument)
    else if docs[key].ClientTrigger? then Stop(NotImplemented)
    else if a.pushed == Pushed || (docs[key].CronTrigger? && a.pushed != OtherError) then Continue
    else Stop(PushFailed)
  }

  /** The state shared by all the processes. */
  datatype Shared = Shared(triggers: ZSet, sched: ZSet, docs: map<Key, Trigger>, lists: map<Key, seq<string>>)

  /** What the script changes when it polls r. */
  function AfterPoll(v: Shared, now: int, r: Polled): Shared {
    v.(triggers := PolledTriggers(v.triggers, v.sched, now, r), sched := PolledSched(v.sched, now, r))
  }

  /** What handling a polled key changes, from the answers and the next time of a cron trigger. */
  function AfterHandle(v: Shared, k: Key, a: Answers, next: int): Shared {
    var removed := v.(sched := v.sched - {k});
    var pushed := a.pushed;
    if '/' !in k then removed
    else if !a.read then v
    else if k !in v.docs then removed
    else
      match v.docs[k]
      case MalformedTrigger => removed
      case EventTrigger => removed
      case WebhookTrigger => if a.drained then removed.(lists := v.lists - {k}) else removed
      case ClientTrigger => v
      case AtTrigger(_) =>
        if pushed == Pushed then removed.(triggers := v.triggers - {k}, docs := v.docs - {k})
        else if pushed == LimitReached then removed else v
      case CronTrigger =>
        if pushed == Pushed then removed.(triggers := v.triggers[k := next])
        else if pushed == OtherError then v else removed
  }

  /** A payload that could not be drained is not sent, but the job is. */
  function PayloadOf(trigger: Trigger, lists: map<Key, seq<string>>, key: Key, drained: bool): Option<string> {
    if drained then DebouncedPayload(trigger, lists, key) else None
  }

  /** Which polled keys are left in the scheduling set, to be polled again ten seconds later: those
      whose document could not be read, those of a client trigger, and the @at and @cron triggers
      that the broker failed to take but might take another time. */
  lemma PolledAgainIff(v: Shared, k: Key, a: Answers, next: int)
    requires k in v.sched
    ensures k in AfterHandle(v, k, a, next).sched <==>
              '/' in k && (!a.read || (k in v.docs &&
                (|| v.docs[k].ClientTrigger?
                 || (v.docs[k].AtTrigger? && a.pushed != Pushed && a.pushed != LimitReached)
                 || (v.docs[k].CronTrigger? && a.pushed == OtherError))))
  {
  }

  /** An @at trigger is deleted when its job was taken, and only then; a cron trigger is given its
      next time when its job was taken, and only then; a list is emptied only for its job. */
  lemma ConsumedIff(v: Shared, k: Key, a: Answers, next: int)
    requires '/' in k && a.read && k in v.docs
    ensures var after := AfterHandle(v, k, a, next);
            && after.docs == (if v.docs[k].AtTrigger? && a.pushed == Pushed then v.docs - {k} else v.docs)
            && after.triggers == (if a.pushed == Pushed && v.docs[k].AtTrigger? then v.triggers - {k}
                                  else if a.pushed == Pushed && v.docs[k].CronTrigger? then v.triggers[k := next]
                                  else v.triggers)
            && after.lists == (if v.docs[k].WebhookTrigger? && a.drained then v.lists - {k} else v.lists)
  {
  }

  /** The poll goes on after a job that was taken, and after a cron trigger that never will be. */
  lemma GoesOnIff(k: Key, docs: map<Key, Trigger>, a: Answers)
    ensures HandledAs(k, docs, a).Continue? <==>
              && '/' in k && a.read && k in docs && !docs[k].MalformedTrigger? && !docs[k].ClientTrigger?
              && (a.pushed == Pushed || (docs[k].CronTrigger? && (a.pushed == UnknownWorker || a.pushed == LimitReached)))
  {
  }

  class Scheduler {
    const next: (Key, int) -> int       // the cron schedule of a trigger: nanoseconds to seconds
    const clock: nat -> int             // the successive readings of time.Now()
    const broker: nat -> PushResult     // the successive answers of PushJob
    const couch: nat -> bool            // whether the successive reads of documents succeed
    const redis: nat -> bool            // whether the successive drains of payloads succeed

    var triggers: ZSet
    var sched: ZSet
    var docs: map<Key, Trigger>
    var lists: map<Key, seq<string>>
    var jobs: seq<Job>
    var tick: nat
    var attempts: nat
    var lookups: nat
    var drains: nat

    constructor (next: (Key, int) -> int, clock: nat -> int, broker: nat -> PushResult, couch: nat -> bool, redis: nat -> bool)
      ensures this.next == next && this.clock == clock && this.broker == broker
      ensures this.couch == couch && this.redis == redis
      ensures triggers == map[] && sched == map[] && docs == map[] && lists == map[] && jobs == []
    {
      this.next, this.clock, this.broker, this.couch, this.redis := next, clock, broker, couch, redis;
      triggers, sched, docs, lists, jobs := map[], map[], map[], map[], [];
      tick, attempts, lookups, drains := 0, 0, 0, 0;
    }

    ghost predicate Valid() {
      && (forall k, t :: next(k, t) * NS > t)
      && (forall i: nat, j: nat :: i <= j ==> clock(i) <= clock(j))
    }

    ghost function View(): Shared
      reads this
    {
      Shared(triggers, sched, docs, lists)
    }

    /** The answers to come. */
    ghost function Coming(): Answers
      reads this
    {
      Answers(couch(lookups), redis(drains), broker(attempts))
    }

    ghost function TimeOf(k: Key): int
      reads this
    {
      if k in triggers then triggers[k] else 0
    }

    method Now() returns (t: int)
      modifies this`tick
      ensures t == clock(old(tick)) && tick == old(tick) + 1
    {
      t := clock(tick);
      tick := tick + 1;
    }

    method LuaPoll(now: int) returns (r: Option<Polled>)
      modifies this`triggers, this`sched
      ensures LuaPolls(old(triggers), old(sched), now, r, triggers, sched)
      ensures r.Some? ==> View() == AfterPoll(old(View()), now, r.value)
    {
      var retry := now - RETRY_AFTER;
      if !NothingDue(sched, retry) {
        ghost var found := FirstDueExists(sched, retry);
        var k :| k in sched && FirstDue(sched, k, retry);
        r := Some(Polled(k, sched[k]));
        sched := sched[k := now];
        return;
      }
      if !NothingDue(triggers, now) {
        ghost var found := FirstDueExists(triggers, now);
        var k :| k in triggers && FirstDue(triggers, k, now);
        r := Some(Polled(k, triggers[k]));
        sched := sched[k := triggers[k]];
        triggers := triggers - {k};
        return;
      }
      r := None;
    }

    method PushJob(key: Key, trigger: Trigger, score: int, payload: Option<string>) returns (r: PushResult)
      modifies this`jobs, this`attempts
      ensures r == broker(old(attempts)) && attempts == old(attempts) + 1
      ensures jobs == if r == Pushed then old(jobs) + [Job(key, trigger, score, payload)] else old(jobs)
    {
      r := broker(attempts);
      attempts := attempts + 1;
      if r == Pushed {
        jobs := jobs + [Job(key, trigger, score, payload)];
      }
    }

    /** `addToRedis`: a cron trigger gets a time after the previous one and not in the past. */
    method AddToRedis(key: Key, trigger: Trigger, prev: int)
      requires Valid()
      modifies this`triggers, this`sched, this`tick
      ensures trigger.AtTrigger? || trigger.CronTrigger? ==>
                key in triggers && triggers == old(triggers)[key := triggers[key]] && sched == old(sched) - {key}
      ensures trigger.AtTrigger? ==> triggers[key] == trigger.at
      ensures trigger.CronTrigger? ==>
                triggers[key] * NS > prev && triggers[key] * NS >= clock(old(tick)) && tick == old(tick) + 1
      ensures trigger.CronTrigger? ==>
                triggers[key] == if next(key, prev) * NS >= clock(old(tick)) then next(key, prev) else next(key, clock(old(tick)))
      ensures !(trigger.AtTrigger? || trigger.CronTrigger?) ==> triggers == old(triggers) && sched == old(sched)
      ensures !trigger.CronTrigger? ==> tick == old(tick)
    {
      var timestamp: int;
      match trigger {
        case EventTrigger => return;      // kept in a hash of its own
        case WebhookTrigger => return;
        case ClientTrigger => return;
        case MalformedTrigger => return;
        case AtTrigger(at) => timestamp := at;
        case CronTrigger =>
          timestamp := next(key, prev);
          var now := Now();
          if timestamp * NS < now {
            timestamp := next(key, now);
          }
          assert next(key, prev) * NS > prev && next(key, now) * NS > now;
      }
      triggers := triggers[key := timestamp];
      sched := sched - {key};
    }

    method DeleteTrigger(key: Key, trigger: Trigger)
      modifies this`docs, this`triggers, this`sched
      ensures docs == old(docs) - {key}
      ensures var timed := trigger.AtTrigger? || trigger.CronTrigger?;
              && triggers == (if timed then old(triggers) - {key} else old(triggers))
              && sched == (if timed then old(sched) - {key} else old(sched))
    {
      docs := docs - {key};
      if trigger.AtTrigger? || trigger.CronTrigger? {
        triggers := triggers - {key};
        sched := sched - {key};
      }
    }

    /** `fire`: a debounced webhook lists its payload and is due in `debounce` nanoseconds, unless
        a time was already set; otherwise the job is pushed at once. */
    method Fire(key: Key, payload: string, debounce: Option<int>)
      modifies this
      ensures debounce.Some? ==>
                && lists == old(lists)[key := (if key in old(lists) then old(lists)[key] else []) + [payload]]
                && triggers == (if key in old(triggers) then old(triggers)
                                else old(triggers)[key := (clock(old(tick)) + debounce.value) / NS])
                && jobs == old(jobs)
      ensures debounce.None? ==> lists == old(lists) && triggers == old(triggers)
      ensures debounce.None? ==>
                jobs == if broker(old(attempts)) == Pushed then old(jobs) + [Job(key, WebhookTrigger, 0, Some(payload))]
                        else old(jobs)
      ensures sched == old(sched) && docs == old(docs)
    {
      if debounce.None? {
        var r := PushJob(key, WebhookTrigger, 0, Some(payload));
        return;
      }
      var t := Now();
      lists := lists[key := (if key in lists then lists[key] else []) + [payload]];
      if key !in triggers {
        triggers := triggers[key := (t + debounce.value) / NS];
      }
    }

    /** The handling of a debounced trigger: leave the scheduling set, drain the payloads, push. */
    method Debounced(key: Key, trigger: Trigger, score: int) returns (o: Outcome)
      requires trigger.WebhookTrigger? || trigger.EventTrigger?
      modifies this`sched, this`lists, this`jobs, this`attempts, this`drains
      ensures sched == old(sched) - {key}
      ensures lists == if trigger.WebhookTrigger? && redis(old(drains)) then old(lists) - {key} else old(lists)
      ensures o == if broker(old(attempts)) == Pushed then Continue else Stop(PushFailed)
      ensures o.Stop? ==> jobs == old(jobs)
      ensures o.Continue? && trigger.WebhookTrigger? && redis(old(drains)) ==>
                jobs == old(jobs) + [Job(key, trigger, score,
                          Some("{\"payloads\":[" + Join(if key in old(lists) then old(lists)[key] else [], ",") + "]}"))]
      ensures o.Continue? && !(trigger.WebhookTrigger? && redis(old(drains))) ==>
                jobs == old(jobs) + [Job(key, trigger, score, None)]
    {
      sched := sched - {key};
      var payload: Option<string> := None;
      if trigger.WebhookTrigger? {
        if redis(drains) {
          payload := DebouncedPayload(trigger, lists, key);
          lists := lists - {key};
        }
        drains := drains + 1;
      }
      var r := PushJob(key, trigger, score, payload);
      o := if r == Pushed then Continue else Stop(PushFailed);
    }

    /** An @at trigger is pushed once, then deleted with its document. */
    method At(key: Key, trigger: Trigger, score: int) returns (o: Outcome)
      requires trigger.AtTrigger?
      modifies this`triggers, this`sched, this`docs, this`jobs, this`attempts
      ensures o == if broker(old(attempts)) == Pushed then Continue else Stop(PushFailed)
      ensures o.Continue? ==> triggers == old(triggers) - {key} && docs == old(docs) - {key}
      ensures o.Stop? ==> triggers == old(triggers) && docs == old(docs)
      ensures sched == if o.Continue? || broker(old(attempts)) == LimitReached then old(sched) - {key} else old(sched)
      ensures jobs == old(jobs) + if o.Continue? then [Job(key, trigger, score, None)] else []
    {
      var r := PushJob(key, trigger, score, None);
      if r != Pushed {
        if r == LimitReached {
          sched := sched - {key};
        }
        return Stop(PushFailed);
      }
      DeleteTrigger(key, trigger);
      o := Continue;
    }

    /** A @cron trigger is pushed and put back with its next time; one the broker will never
        accept is dropped, as it may block the others. */
    method Cron(key: Key, score: int) returns (o: Outcome)
      requires Valid()
      modifies this`triggers, this`sched, this`jobs, this`attempts, this`tick
      ensures tick >= old(tick)
      ensures o == if broker(old(attempts)) == OtherError then Stop(PushFailed) else Continue
      ensures sched == if o.Continue? then old(sched) - {key} else old(sched)
      ensures broker(old(attempts)) == Pushed <==> jobs != old(jobs)
      ensures || (jobs == old(jobs) && triggers == old(triggers))
              || (&& jobs == old(jobs) + [Job(key, CronTrigger, score, None)] && o.Continue?
                  && key in triggers && triggers == old(triggers)[key := triggers[key]]
                  && triggers[key] > score && triggers[key] * NS >= clock(old(tick)))
    {
      var r := PushJob(key, CronTrigger, score, None);
      match r {
        case UnknownWorker => sched := sched - {key}; return Continue;
        case LimitReached => sched := sched - {key}; return Continue;
        case OtherError => return Stop(PushFailed);
        case Pushed =>
          AddToRedis(key, CronTrigger, score * NS);
          o := Continue;
      }
    }

    /** What a trigger that was found gets. */
    method Execute(key: Key, score: int) returns (o: Outcome)
      requires Valid() && '/' in key && key in docs
      modifies this
      ensures tick >= old(tick) && o != Stop(NoError)
      ensures o == HandledAs(key, old(docs), old(Coming()).(read := true))
      ensures View() == AfterHandle(old(View()), key, old(Coming()).(read := true), TimeOf(key))
      ensures jobs == if o.Continue? && broker(old(attempts)) == Pushed
                      then old(jobs) + [Job(key, old(docs)[key], score,
                                            PayloadOf(old(docs)[key], old(lists), key, redis(old(drains))))]
                      else old(jobs)
      ensures old(docs)[key].WebhookTrigger? && redis(old(drains)) && broker(old(attempts)) == Pushed ==>
                jobs == old(jobs) + [Job(key, WebhookTrigger, score,
                          Some("{\"payloads\":[" + Join(if key in old(lists) then old(lists)[key] else [], ",") + "]}"))]
      ensures jobs != old(jobs) && !(old(docs)[key].WebhookTrigger? && redis(old(drains))) ==>
                jobs == old(jobs) + [Job(key, old(docs)[key], score, None)]
      ensures o.Continue? && broker(old(attempts)) == Pushed && old(docs)[key].CronTrigger? ==>
                key in triggers && triggers[key] > score && triggers[key] * NS >= clock(old(tick))
    {
      match docs[key] {
        case MalformedTrigger => sched := sched - {key}; o := Stop(BadDocument);
        case EventTrigger => o := Debounced(key, docs[key], score);
        case WebhookTrigger => o := Debounced(key, docs[key], score);
        case AtTrigger(at) => o := At(key, docs[key], score);
        case CronTrigger => o := Cron(key, score);
        case ClientTrigger => o := Stop(NotImplemented);
      }
    }

    /** The body of the loop of `PollScheduler`, for the key and score the script returned. */
    method Handle(key: Key, score: int) returns (o: Outcome)
      requires Valid()
      modifies this
      ensures tick >= old(tick) && o != Stop(NoError)
      ensures o == HandledAs(key, old(docs), old(Coming()))
      ensures View() == AfterHandle(old(View()), key, old(Coming()), TimeOf(key))
      ensures jobs == if o.Continue? && broker(old(attempts)) == Pushed
                      then old(jobs) + [Job(key, old(docs)[key], score,
                                            PayloadOf(old(docs)[key], old(lists), key, redis(old(drains))))]
                      else old(jobs)
      ensures '/' in key && couch(old(lookups)) && key in old(docs) && old(docs)[key].WebhookTrigger?
              && redis(old(drains)) && broker(old(attempts)) == Pushed ==>
                jobs == old(jobs) + [Job(key, WebhookTrigger, score,
                          Some("{\"payloads\":[" + Join(if key in old(lists) then old(lists)[key] else [], ",") + "]}"))]
      ensures jobs != old(jobs) ==> key in old(docs)
      ensures jobs != old(jobs) && !(old(docs)[key].WebhookTrigger? && redis(old(drains))) ==>
                jobs == old(jobs) + [Job(key, old(docs)[key], score, None)]
      ensures o.Continue? && broker(old(attempts)) == Pushed && old(docs)[key].CronTrigger? ==>
                key in triggers && triggers[key] > score && triggers[key] * NS >= clock(old(tick))
    {
      if |SplitN2(key, '/')| != 2 {
        sched := sched - {key};
        return Stop(InvalidKey);
      }
      lookups := lookups + 1;
      if !couch(lookups - 1) {
        return Stop(LookupFailed);
      }
      if key !in docs {
        sched := sched - {key};
        return Stop(NotFoundTrigger);
      }
      o := Execute(key, score);
    }

    /** One turn of the loop of `PollScheduler`. */
    method Turn(now: int) returns (polled: Option<Polled>, o: Outcome)
      requires Valid()
      modifies this
      ensures tick >= old(tick)
      ensures polled.None? ==> NothingDue(sched, now - RETRY_AFTER) && NothingDue(triggers, now)
      ensures polled.None? ==> o == Stop(NoError) && jobs == old(jobs)
      ensures polled.None? ==> triggers == old(triggers) && sched == old(sched)
      ensures polled.Some? ==> o != Stop(NoError) && TurnOf(polled.value, now, old(triggers), old(sched), old(jobs), old(tick))
      ensures polled.Some? ==>
                View() == AfterHandle(AfterPoll(old(View()), now, polled.value), polled.value.key,
                                      old(Coming()), TimeOf(polled.value.key))
      ensures polled.Some? ==> Polls(old(View()), now, polled.value)
      ensures polled.Some? && '/' in polled.value.key && polled.value.key in old(docs)
              && old(docs)[polled.value.key].WebhookTrigger?
              && couch(old(lookups)) && redis(old(drains)) && broker(old(attempts)) == Pushed ==>
                jobs == old(jobs) + [Job(polled.value.key, WebhookTrigger, polled.value.score,
                          Some("{\"payloads\":["
                               + Join(if polled.value.key in old(lists) then old(lists)[polled.value.key] else [], ",") + "]}"))]
      ensures jobs != old(jobs) ==> polled.Some? && polled.value.key in old(docs)
      ensures jobs != old(jobs) && !(old(docs)[polled.value.key].WebhookTrigger? && redis(old(drains))) ==>
                jobs == old(jobs) + [Job(polled.value.key, old(docs)[polled.value.key], polled.value.score, None)]
      ensures polled.Some? && o.Continue? ==>
                polled.value.key !in sched && Work(triggers, sched, now) < Work(old(triggers), old(sched), now)
    {
      ghost var before := View();
      polled := LuaPoll(now);
      if polled.None? {
        return polled, Stop(NoError);
      }
      ghost var answers := Coming();
      o := Handle(polled.value.key, polled.value.score);
      ghost var next := TimeOf(polled.value.key);
      TurnSets(before, now, polled.value, answers, next);
      if o.Continue? {
        TurnWork(before, now, polled.value, answers, next);
      }
    }

    /** What a turn that polled `r` did: nothing to the other keys; at most one job, for that
        key and with its recorded score; a cron job only together with a later time. */
    ghost predicate TurnOf(r: Polled, now: int, wasTriggers: ZSet, wasSched: ZSet, wasJobs: seq<Job>, wasTick: nat)
      reads this
    {
      var k := r.key;
      && 0 <= r.score <= now
      && (if k in wasSched then true else k in wasTriggers && r.score == wasTriggers[k])
      && SameBut(k, triggers, wasTriggers) && SameBut(k, sched, wasSched)
      && (|| (jobs == wasJobs && (k in triggers ==> k in wasTriggers && triggers[k] == wasTriggers[k]))
          || (|jobs| == |wasJobs| + 1 && wasJobs == jobs[..|wasJobs|] && var job := jobs[|wasJobs|];
              job.key == k && job.score == r.score
                && (if job.trigger.CronTrigger? then
                      k in triggers && triggers[k] > r.score && triggers[k] * NS >= clock(wasTick) && k !in sched
                    else k in triggers ==> k in wasTriggers && triggers[k] == wasTriggers[k])))
    }

    /** The jobs pushed since a moment when there were `from` of them and the clock showed
        `started`: none before its time; a cron trigger is back with a later time, not in the
        past; and only a slot of this very second can run twice. */
    ghost predicate PolledJobs(from: nat, now: int, started: int)
      reads this
    {
      && from <= |jobs|
      && (forall i :: from <= i < |jobs| ==> 0 <= jobs[i].score <= now)
      && (forall i :: from <= i < |jobs| && jobs[i].trigger.CronTrigger? && jobs[i].key in triggers ==>
            triggers[jobs[i].key] > jobs[i].score && triggers[jobs[i].key] * NS >= started)
      && (started >= now * NS ==>
            forall i, j :: from <= i < j < |jobs| && SameCron(jobs[i], jobs[j]) ==> jobs[j].score == now)
    }

    ghost predicate NotScheduling(from: nat)
      reads this
    {
      forall i :: from <= i < |jobs| && jobs[i].trigger.CronTrigger? ==> jobs[i].key !in sched
    }

    /** `PollScheduler`: it terminates, and without error only when nothing is due any more. */
    method PollScheduler(now: int) returns (err: PollError)
      requires Valid()
      modifies this
      ensures old(jobs) <= jobs
      ensures PolledJobs(|old(jobs)|, now, clock(old(tick)))
      ensures err == NoError ==> NothingDue(sched, now - RETRY_AFTER) && NothingDue(triggers, now)
    {
      ghost var from, started := |jobs|, clock(tick);
      while true
        invariant tick >= old(tick)
        invariant old(jobs) <= jobs
        invariant PolledJobs(from, now, started) && NotScheduling(from)
        decreases Work(triggers, sched, now)
      {
        ghost var wasTriggers, wasSched, wasJobs, wasTick := triggers, sched, jobs, tick;
        var polled, o := Turn(now);
        if polled.Some? {
          TurnKeeps(polled.value, now, wasTriggers, wasSched, wasJobs, wasTick, from, started);
        }
        if o.Stop? {
          return o.err;
        }
      }
    }

    lemma TurnKeeps(r: Polled, now: int, wasTriggers: ZSet, wasSched: ZSet, wasJobs: seq<Job>, wasTick: nat,
                    from: nat, started: int)
      requires TurnOf(r, now, wasTriggers, wasSched, wasJobs, wasTick)
      requires from <= |wasJobs| && clock(wasTick) >= started
      requires forall i :: from <= i < |wasJobs| ==> 0 <= wasJobs[i].score <= now
      requires forall i :: from <= i < |wasJobs| && wasJobs[i].trigger.CronTrigger? ==> wasJobs[i].key !in wasSched
      requires forall i :: from <= i < |wasJobs| && wasJobs[i].trigger.CronTrigger? && wasJobs[i].key in wasTriggers ==>
                 wasTriggers[wasJobs[i].key] > wasJobs[i].score && wasTriggers[wasJobs[i].key] * NS >= started
      requires started >= now * NS ==>
                 forall i, j :: from <= i < j < |wasJobs| && SameCron(wasJobs[i], wasJobs[j]) ==> wasJobs[j].score == now
      ensures wasJobs <= jobs
      ensures PolledJobs(from, now, started)
      ensures r.key !in sched ==> NotScheduling(from)
    {
    }
  }
}
