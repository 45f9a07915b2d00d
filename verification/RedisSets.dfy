/** The two sorted sets of the redis scheduler and the Lua script that polls them
    (model/job/redis_scheduler.go:41-53). A sorted set is a map from members to scores; the
    first member of a range of scores is the one with the lowest score, ties being broken by
    the order of the members. */
module RedisSets {
  import opened Options
  import opened Text

  type Key = string
  type ZSet = map<Key, int>

  /** A trigger is retried after this many seconds in the scheduling set. */
  const RETRY_AFTER := 10

  predicate Due(z: ZSet, k: Key, hi: int) {
    k in z && 0 <= z[k] <= hi
  }

  /** What `ZRANGEBYSCORE z 0 hi LIMIT 0 1` returns. */
  predicate FirstDue(z: ZSet, k: Key, hi: int) {
    && Due(z, k, hi)
    && forall j :: j in z && Due(z, j, hi) ==> z[k] < z[j] || (z[k] == z[j] && AtMost(k, j))
  }

  predicate NothingDue(z: ZSet, hi: int) {
    forall j :: j in z ==> !Due(z, j, hi)
  }

  /** The member and the score the script returns: the score before any change. */
  datatype Polled = Polled(key: Key, score: int)

  /** The sets after the script, when it polls r. */
  function PolledTriggers(triggers: ZSet, sched: ZSet, now: int, r: Polled): ZSet {
    if !NothingDue(sched, now - RETRY_AFTER) then triggers else triggers - {r.key}
  }

  function PolledSched(sched: ZSet, now: int, r: Polled): ZSet {
    sched[r.key := if !NothingDue(sched, now - RETRY_AFTER) then now else r.score]
  }

  /** What one run of the script may do, from the sets before to the sets after. */
  ghost predicate LuaPolls(triggers: ZSet, sched: ZSet, now: int,
                           result: Option<Polled>, triggers': ZSet, sched': ZSet)
  {
    match result
    case None =>
      && NothingDue(sched, now - RETRY_AFTER) && NothingDue(triggers, now)
      && triggers' == triggers && sched' == sched
    case Some(Polled(k, score)) =>
      if !NothingDue(sched, now - RETRY_AFTER) then
        && FirstDue(sched, k, now - RETRY_AFTER) && score == sched[k]
        && triggers' == triggers && sched' == sched[k := now]
      else
        && FirstDue(triggers, k, now) && score == triggers[k]
        && triggers' == triggers - {k} && sched' == sched[k := score]
  }

  lemma {:induction false} FirstDueExists(z: ZSet, hi: int) returns (k: Key)
    requires !NothingDue(z, hi)
    ensures FirstDue(z, k, hi)
    decreases |z|
  {
    var d :| d in z && Due(z, d, hi);
    var rest := z - {d};
    if NothingDue(rest, hi) {
      k := d;
      forall j | j in z && Due(z, j, hi) ensures j == d {
        if j != d {
          assert j in rest && Due(rest, j, hi);
        }
      }
    } else {
      assert |rest| < |z| by { assert z == rest[d := z[d]]; assert rest.Keys == z.Keys - {d}; }
      var e := FirstDueExists(rest, hi);
      k := BetterOf(z, d, e);
      FirstOfRest(z, hi, d, e, k);
    }
  }

  function BetterOf(z: ZSet, d: Key, e: Key): Key
    requires d in z && e in z
  {
    if z[d] < z[e] || (z[d] == z[e] && AtMost(d, e)) then d else e
  }

  lemma FirstOfRest(z: ZSet, hi: int, d: Key, e: Key, k: Key)
    requires d in z && Due(z, d, hi) && FirstDue(z - {d}, e, hi) && k == BetterOf(z, d, e)
    ensures FirstDue(z, k, hi)
  {
    LessTotal(d, e);
    forall j | j in z && Due(z, j, hi) ensures z[k] < z[j] || (z[k] == z[j] && AtMost(k, j)) {
      if j != d {
        assert j in z - {d} && Due(z - {d}, j, hi);
        if z[k] == z[e] == z[j] && k == d && d != e && e != j {
          LessTransitive(d, e, j);
        }
      }
    }
  }

  /** What the script answers, in the times of the sets: a key that has been in the scheduling set
      for ten seconds, the oldest first, and if there is none a key that is due, the first one
      first; keys with the same time come in their own order. */
  lemma ScriptPolls(triggers: ZSet, sched: ZSet, now: int, result: Option<Polled>, triggers': ZSet, sched': ZSet)
    requires LuaPolls(triggers, sched, now, result, triggers', sched')
    ensures result.None? <==> && (forall j :: j in sched ==> !(0 <= sched[j] <= now - 10))
                              && (forall j :: j in triggers ==> !(0 <= triggers[j] <= now))
    ensures result.Some? && (exists j :: j in sched && 0 <= sched[j] <= now - 10) ==>
              var k := result.value.key;
              && k in sched && result.value.score == sched[k] && 0 <= sched[k] <= now - 10
              && (forall j :: j in sched && 0 <= sched[j] <= now - 10 ==>
                    sched[k] < sched[j] || (sched[k] == sched[j] && (k == j || Less(k, j))))
              && triggers' == triggers && sched' == sched[k := now]
    ensures result.Some? && !(exists j :: j in sched && 0 <= sched[j] <= now - 10) ==>
              var k := result.value.key;
              && k in triggers && result.value.score == triggers[k] && 0 <= triggers[k] <= now
              && (forall j :: j in triggers && 0 <= triggers[j] <= now ==>
                    triggers[k] < triggers[j] || (triggers[k] == triggers[j] && (k == j || Less(k, j))))
              && triggers' == triggers - {k} && sched' == sched[k := triggers[k]]
  {
    assert NothingDue(sched, now - 10) <==> forall j :: j in sched ==> !(0 <= sched[j] <= now - 10);
    assert NothingDue(triggers, now) <==> forall j :: j in triggers ==> !(0 <= triggers[j] <= now);
  }

  /** The script finds something exactly when something is due in one of the sets. */
  lemma LuaAlwaysAnswers(triggers: ZSet, sched: ZSet, now: int)
    returns (result: Option<Polled>, triggers': ZSet, sched': ZSet)
    ensures LuaPolls(triggers, sched, now, result, triggers', sched')
  {
    if !NothingDue(sched, now - RETRY_AFTER) {
      var k := FirstDueExists(sched, now - RETRY_AFTER);
      return Some(Polled(k, sched[k])), triggers, sched[k := now];
    }
    if !NothingDue(triggers, now) {
      var k := FirstDueExists(triggers, now);
      return Some(Polled(k, triggers[k])), triggers - {k}, sched[k := triggers[k]];
    }
    return None, triggers, sched;
  }
}

/** Sums over the entries of a finite map, whatever the order they are visited in. */
module Sums {

  ghost function Total<K, V>(m: map<K, V>, w: (K, V) -> nat): nat
    decreases |m|
  {
    if m == map[] then 0 else
    var k :| k in m;
    assert (m - {k}).Keys == m.Keys - {k};
    w(k, m[k]) + Total(m - {k}, w)
  }

  lemma {:induction false} TotalRemove<K, V>(m: map<K, V>, k: K, w: (K, V) -> nat)
    requires k in m
    ensures Total(m, w) == w(k, m[k]) + Total(m - {k}, w)
    decreases |m|
  {
    var j :| j in m && Total(m, w) == w(j, m[j]) + Total(m - {j}, w);
    if j != k {
      assert (m - {j}).Keys == m.Keys - {j};
      TotalRemove(m - {j}, k, w);
      assert (m - {k}).Keys == m.Keys - {k};
      TotalRemove(m - {k}, j, w);
      assert m - {j} - {k} == m - {k} - {j};
    }
  }

  lemma TotalUpdate<K, V>(m: map<K, V>, k: K, v: V, w: (K, V) -> nat)
    ensures Total(m[k := v], w) == w(k, v) + Total(m - {k}, w)
  {
    TotalRemove(m[k := v], k, w);
    assert m[k := v] - {k} == m - {k};
  }

  lemma TotalAbsent<K, V>(m: map<K, V>, k: K, w: (K, V) -> nat)
    ensures Total(m - {k}, w) <= Total(m, w)
    ensures k !in m ==> m - {k} == m
  {
    if k in m {
      TotalRemove(m, k, w);
    } else {
      assert m - {k} == m;
    }
  }
}
