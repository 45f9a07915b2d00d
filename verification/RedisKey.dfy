/** The member of the sorted sets that stands for a trigger (model/job/redis_scheduler.go:80-86),
    and how the poller reads it (lines 288-299). */
module RedisKey {
  import opened Options
  import opened Text
  import opened Numbers

  /** The database prefix of an instance, its CouchDB cluster, and the ID of a trigger. */
  datatype Owner = Owner(prefix: string, cluster: int, id: string)

  function RedisKey(t: Owner): string {
    (if t.cluster > 0 then t.prefix + ['%'] + Itoa(t.cluster) else t.prefix) + ['/'] + t.id
  }

  /** `cluster, _ = strconv.Atoi(s)`: zero for what is not a number, the nearest bound for a
      number that is too large. */
  function LooseAtoi(s: string): int {
    if Atoi(s).Some? then Atoi(s).value
    else if Unsigned(s) == "" || !AllDigits(Unsigned(s)) then 0
    else if s[0] == '-' then -MAX_INT64 - 1
    else MAX_INT64
  }

  function ReadKey(key: string): Option<Owner> {
    var parts := SplitN2(key, '/');
    if |parts| != 2 then None else
    var names := SplitN2(parts[0], '%');
    Some(Owner(names[0], if |names| > 1 then LooseAtoi(names[1]) else 0, parts[1]))
  }

  lemma NoSlash(n: nat)
    ensures '/' !in Itoa(n)
  {
    assert !IsDigit('/');
  }

  /** The poller finds the trigger that was scheduled exactly when its prefix has none of the two
      separators; the ID may have some. */
  lemma RoundTripIff(t: Owner)
    requires 0 <= t.cluster <= MAX_INT64
    ensures ReadKey(RedisKey(t)) == Some(t) <==> '/' !in t.prefix && '%' !in t.prefix
  {
    var name := if t.cluster > 0 then t.prefix + ['%'] + Itoa(t.cluster) else t.prefix;
    var key := RedisKey(t);
    assert key == name + ['/'] + t.id;
    assert '/' in key;
    if '/' !in t.prefix {
      NoSlash(t.cluster);
      SplitOfGlued(name, '/', t.id);
      if '%' !in t.prefix && t.cluster > 0 {
        SplitOfGlued(t.prefix, '%', Itoa(t.cluster));
        AtoiOfItoa(t.cluster);
      }
    } else if ReadKey(key) == Some(t) {
      SameTail(SplitN2(key, '/')[0], name, '/', t.id);
    }
  }

  lemma SameTail(a: string, b: string, sep: char, tail: string)
    requires a + [sep] + tail == b + [sep] + tail
    ensures a == b
  {
    assert |a| == |b|;
    assert a == (a + [sep] + tail)[..|a|] == (b + [sep] + tail)[..|b|] == b;
  }
}
