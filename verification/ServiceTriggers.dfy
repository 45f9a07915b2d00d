/** The service triggers of a webapp (model/app/webapp.go:487-632): installing, updating and
    deleting an app creates and deletes the triggers of its services, by comparing the services
    of the stored manifest with those of the new one.

    Trigger IDs are numbers, 0 standing for the empty ID; the scheduler hands out new ones. The
    services of a manifest are values, and the stored manifest is what `oldServices` holds.
    Which services get a trigger is a parameter of the results, `needs`; the rule of
    `CreateServiceTrigger` is NeedsTrigger. */
module ServiceTriggers {
  import opened Options
  import opened Text

  datatype Service = Service(kind: string, file: string, debounce: string, options: string, triggerID: nat)

  type Services = map<string, Service>

  const NEVER := "@at 2000-01-01T00:00:00.000Z"

  /** `CreateServiceTrigger` creates no trigger for services called programmatically. */
  predicate NeedsTrigger(s: Service) {
    && (exists i :: 0 <= i < |SplitN2(s.options, ' ')[0]| && !IsSpace(SplitN2(s.options, ' ')[0][i]))
    && s.options != NEVER
  }

  // ---------------------------------------------------------------- what a diff must do

  predicate Unchanged(a: Service, b: Service) {
    b.file == a.file && b.kind == a.kind && b.options == a.options && b.debounce == a.debounce
  }

  predicate Kept(before: Services, after: Services, n: string) {
    n in before && n in after && Unchanged(before[n], after[n])
  }

  /** The non-empty trigger IDs of a manifest. */
  function IDs(services: Services): set<nat> {
    set n | n in services && services[n].triggerID != 0 :: services[n].triggerID
  }

  predicate DistinctIDs(services: Services) {
    forall m, n :: m in services && n in services && m != n && services[m].triggerID != 0 ==>
                   services[m].triggerID != services[n].triggerID
  }

  /** The IDs of the stored services that are removed or changed. */
  function ObsoleteIDs(before: Services, after: Services): set<nat> {
    set n | n in before && !Kept(before, after, n) && before[n].triggerID != 0 :: before[n].triggerID
  }

  /** The services a new trigger is created for. */
  predicate Creates(needs: Service -> bool, before: Services, after: Services, n: string) {
    n in after && !Kept(before, after, n) && needs(after[n])
  }

  /** Each of the names has an ID of the range, and no two the same. */
  ghost predicate NewIDs(services: Services, names: set<string>, first: nat, next: nat) {
    && (forall n :: n in names ==> n in services && first <= services[n].triggerID < next)
    && (forall m, n :: m in names && n in names && m != n ==> services[m].triggerID != services[n].triggerID)
  }

  /** The services after a diff: the kept ones as they were stored, the others as in the new
      manifest, except that those given a trigger have a new ID. */
  ghost predicate Diffed(needs: Service -> bool, before: Services, after: Services,
                         result: Services, first: nat, next: nat)
  {
    && first <= next && result.Keys == after.Keys
    && (forall n :: n in after && Kept(before, after, n) ==> result[n] == before[n])
    && (forall n :: n in after && !Kept(before, after, n) ==>
          result[n] == after[n].(triggerID := if needs(after[n]) then result[n].triggerID else after[n].triggerID))
    && NewIDs(result, CreatedNames(needs, before, after), first, next)
  }

  function CreatedNames(needs: Service -> bool, before: Services, after: Services): set<string> {
    set n | n in after && Creates(needs, before, after, n)
  }

  function IDsOf(services: Services, names: set<string>): set<nat> {
    set n | n in names && n in services :: services[n].triggerID
  }

  // ---------------------------------------------------------------- the code

  /** The loop of `diffServices` over the stored services. */
  method CompareStored(before: Services, after: Services)
    returns (services: Services, deleted: set<string>, created: set<string>)
    ensures services.Keys == after.Keys
    ensures forall n :: n in after ==> services[n] == if Kept(before, after, n) then before[n] else after[n]
    ensures forall n :: n in deleted <==> n in before && !Kept(before, after, n)
    ensures forall n :: n in created <==> n in after && !Kept(before, after, n)
  {
    services, deleted, created := after, {}, {};
    var clone, left := after.Keys, before.Keys;
    while left != {}
      invariant left <= before.Keys && services.Keys == after.Keys
      invariant forall n :: n in clone <==> n in after && (n in left || n !in before)
      invariant forall n :: n in after ==>
                  services[n] == if n !in left && Kept(before, after, n) then before[n] else after[n]
      invariant forall n :: n in deleted <==> n in before && n !in left && !Kept(before, after, n)
      invariant forall n :: n in created <==> n in before && n !in left && n in after && !Kept(before, after, n)
      decreases |left|
    {
      var name :| name in left;
      if name !in after {
        deleted := deleted + {name};
      } else {
        clone := clone - {name};
        if !Unchanged(before[name], after[name]) {
          deleted, created := deleted + {name}, created + {name};
        } else {
          services := services[name := before[name]];
        }
      }
      left := left - {name};
    }
    created := created + clone;
  }

  function Wanting(needs: Service -> bool, services: Services, names: set<string>): set<string> {
    set n | n in names && n in services && needs(services[n])
  }

  /** The named services have got new triggers, and nothing else has changed. */
  ghost predicate Granted(compared: Services, services: Services, names: set<string>,
                          first: nat, next: nat, was: set<nat>, live: set<nat>)
  {
    && first <= next && services.Keys == compared.Keys && names <= compared.Keys
    && (forall n :: n in compared && n !in names ==> services[n] == compared[n])
    && (forall n :: n in names ==> services[n] == compared[n].(triggerID := services[n].triggerID))
    && NewIDs(services, names, first, next)
    && live == was + IDsOf(services, names)
  }

  lemma GrantOne(compared: Services, services: Services, names: set<string>, name: string,
                 first: nat, id: nat, was: set<nat>, live: set<nat>)
    requires Granted(compared, services, names, first, id, was, live) && name in compared && name !in names
    ensures Granted(compared, services[name := compared[name].(triggerID := id)], names + {name},
                    first, id + 1, was, live + {id})
  {
    var after := services[name := compared[name].(triggerID := id)];
    assert forall n :: n in names ==> after[n] == services[n];
    assert IDsOf(after, names + {name}) == IDsOf(services, names) + {after[name].triggerID};
  }

  /** The trigger store of the scheduler and the stored manifest of one app. */
  class App {
    const needs: Service -> bool       // the rule of CreateServiceTrigger
    const accepted: Service -> bool    // whether the scheduler accepts the trigger of a service
    const removable: nat -> bool       // whether it deletes a trigger, or knows that it is gone
    var live: set<nat>                 // the triggers created for this app that still exist
    var nextID: nat
    var manifest: Option<Services>     // the services of the stored manifest

    constructor (accepted: Service -> bool, removable: nat -> bool)
      ensures needs == NeedsTrigger && this.accepted == accepted && this.removable == removable
      ensures live == {} && manifest == None && nextID == 1
    {
      needs, this.accepted, this.removable := NeedsTrigger, accepted, removable;
      live, nextID, manifest := {}, 1, None;
    }

    /** A trigger that no longer exists is not an error; another error stops everything. */
    method DeleteTriggers(services: Services, names: set<string>) returns (ok: bool)
      requires names <= services.Keys
      modifies this`live
      ensures ok <==> forall n :: n in names && services[n].triggerID != 0 ==> removable(services[n].triggerID)
      ensures ok ==>
                live == old(live) - (set n | n in names && services[n].triggerID != 0 :: services[n].triggerID)
    {
      var left := names;
      while left != {}
        invariant left <= names
        invariant forall n :: n in names - left && services[n].triggerID != 0 ==> removable(services[n].triggerID)
        invariant live == old(live) - (set n | n in names - left && services[n].triggerID != 0 :: services[n].triggerID)
        decreases |left|
      {
        var name :| name in left;
        if services[name].triggerID != 0 {
          if !removable(services[name].triggerID) {
            return false;
          }
          live := live - {services[name].triggerID};
        }
        assert names - (left - {name}) == names - left + {name};
        left := left - {name};
      }
      assert names - {} == names;
      ok := true;
    }

    /** `CreateServiceTrigger` and the scheduler's `AddTrigger` for one more service. */
    method Grant(compared: Services, services: Services, ghost done: set<string>, name: string,
                 ghost first: nat, ghost was: set<nat>)
      returns (granted: Services)
      requires Granted(compared, services, done, first, nextID, was, live) && name in compared && name !in done
      modifies this`live, this`nextID
      ensures nextID == old(nextID) + 1
      ensures Granted(compared, granted, done + {name}, first, nextID, was, live)
    {
      GrantOne(compared, services, done, name, first, nextID, was, live);
      granted := services[name := compared[name].(triggerID := nextID)];
      live := live + {nextID};
      nextID := nextID + 1;
    }

    /** A trigger the scheduler refuses stops everything. */
    method CreateTriggers(compared: Services, names: set<string>) returns (ok: bool, services: Services)
      requires names <= compared.Keys && nextID > 0
      modifies this`live, this`nextID
      ensures old(nextID) <= nextID
      ensures ok <==> forall n :: n in Wanting(needs, compared, names) ==> accepted(compared[n])
      ensures ok ==> Granted(compared, services, Wanting(needs, compared, names), old(nextID), nextID, old(live), live)
    {
      services, ok := compared, true;
      var left := names;
      ghost var wanting, done := Wanting(needs, compared, names), {};
      assert Granted(compared, services, {}, nextID, nextID, live, live);
      while left != {}
        invariant left <= names && old(nextID) <= nextID
        invariant forall n :: n in done <==> n in wanting && n !in left
        invariant forall n :: n in done ==> accepted(compared[n])
        invariant Granted(compared, services, done, old(nextID), nextID, old(live), live)
        decreases |left|
      {
        var name :| name in left;
        if needs(compared[name]) {
          assert name in wanting;
          if !accepted(compared[name]) {
            ok := false;
            return;
          }
          services := Grant(compared, services, done, name, old(nextID), old(live));
          done := done + {name};
        }
        left := left - {name};
      }
      assert done == wanting;
    }

    predicate Removable(before: Services, after: Services) {
      forall n :: n in before && !Kept(before, after, n) && before[n].triggerID != 0 ==> removable(before[n].triggerID)
    }

    predicate Accepted(before: Services, after: Services) {
      forall n :: n in after && Creates(needs, before, after, n) ==> accepted(after[n])
    }

    /** `diffServices`: compare, delete, create. */
    method DiffServices(before: Services, after: Services) returns (ok: bool, services: Services)
      requires nextID > 0
      modifies this`live, this`nextID
      ensures nextID > 0
      ensures ok <==> Removable(before, after) && Accepted(before, after)
      ensures ok ==> Diffed(needs, before, after, services, old(nextID), nextID)
      ensures ok ==> live == old(live) - ObsoleteIDs(before, after) + IDsOf(services, CreatedNames(needs, before, after))
    {
      var compared, deleted, created := CompareStored(before, after);
      ok := DeleteTriggers(before, deleted);
      if !ok {
        return false, compared;
      }
      assert (set n | n in deleted && before[n].triggerID != 0 :: before[n].triggerID) == ObsoleteIDs(before, after);
      ok, services := CreateTriggers(compared, created);
      assert Wanting(needs, compared, created) == CreatedNames(needs, before, after);
    }

    ghost function View(): AppState
      reads this
    {
      AppState(live, nextID, manifest)
    }

    /** `Create`, whose second write of the manifest, with the IDs of the new triggers, may fail
        without anyone being told. */
    method Create(m: Services, written: bool) returns (ok: bool)
      requires nextID > 0 && manifest.None?
      modifies this
      ensures ok <==> Accepted(map[], m)
      ensures ok ==> Step(needs, old(View()), Install(m, written), View())
      ensures !ok ==> manifest == Some(m)
    {
      manifest := Some(m);
      ok := true;
      var services := m;
      if |m| > 0 {
        ok, services := DiffServices(map[], m);
        if ok && written {
          manifest := Some(services);
        }
      }
      assert ObsoleteIDs(map[], m) == {};
      assert ok ==> DiffStep(needs, old(View()), map[], m, services, View());
    }

    /** `Update`: a failed write is an error. */
    method Update(m: Services, written: bool) returns (ok: bool)
      requires nextID > 0 && manifest.Some?
      modifies this
      ensures ok <==> Removable(old(manifest).value, m) && Accepted(old(manifest).value, m) && written
      ensures ok ==> Step(needs, old(View()), Op.Update(m), View())
      ensures !ok ==> manifest == old(manifest)
    {
      var services;
      ok, services := DiffServices(manifest.value, m);
      if ok && written {
        manifest := Some(services);
        assert DiffStep(needs, old(View()), old(manifest).value, m, services, View());
      }
      ok := ok && written;
    }

    /** `Delete`. */
    method Delete(written: bool) returns (ok: bool)
      requires nextID > 0 && manifest.Some?
      modifies this
      ensures ok <==> Removable(old(manifest).value, map[]) && written
      ensures ok ==> Step(needs, old(View()), Op.Delete, View())
      ensures !ok ==> manifest == old(manifest)
    {
      var services;
      ok, services := DiffServices(manifest.value, map[]);
      assert CreatedNames(needs, old(manifest.value), map[]) == {};
      if ok && written {
        manifest := None;
      }
      ok := ok && written;
    }
  }

  // ---------------------------------------------------------------- runs

  datatype AppState = AppState(live: set<nat>, next: nat, manifest: Option<Services>)

  /** The operations that succeed; and a trigger that disappears by itself, because it was of
      the @at kind and fired, or because someone deleted it. */
  datatype Op = Install(m: Services, written: bool) | Update(m: Services) | Delete | Vanish(id: nat)

  /** The effect of a diff on the triggers; `result` is the services it leaves in memory. */
  ghost predicate DiffStep(needs: Service -> bool, s: AppState, before: Services, m: Services, result: Services, s': AppState) {
    && Diffed(needs, before, m, result, s.next, s'.next)
    && s'.live == s.live - ObsoleteIDs(before, m) + IDsOf(result, CreatedNames(needs, before, m))
  }

  ghost predicate Step(needs: Service -> bool, s: AppState, op: Op, s': AppState) {
    match op
    case Install(m, written) =>
      && s.manifest.None? && s'.manifest.Some?
      && (if written then DiffStep(needs, s, map[], m, s'.manifest.value, s')
          else s'.manifest.value == m && exists result: Services :: DiffStep(needs, s, map[], m, result, s'))
    case Update(m) =>
      s.manifest.Some? && s'.manifest.Some? && DiffStep(needs, s, s.manifest.value, m, s'.manifest.value, s')
    case Delete =>
      && s.manifest.Some? && s'.manifest.None? && s'.next >= s.next
      && s'.live == s.live - ObsoleteIDs(s.manifest.value, map[])
    case Vanish(id) => id in s.live && s' == s.(live := s.live - {id})
  }

  /** The services that get no trigger and are not kept declare no trigger ID. */
  predicate NoForeignID(needs: Service -> bool, before: Services, m: Services) {
    forall n :: n in m && !Kept(before, m, n) && !needs(m[n]) ==> m[n].triggerID == 0
  }

  function Stored(s: AppState): Services {
    if s.manifest.Some? then s.manifest.value else map[]
  }

  /** The live triggers are exactly the IDs of the stored manifest, all distinct, and those that
      no manifest names, except for those that disappeared by themselves. */
  ghost predicate Sound(s: AppState, gone: set<nat>, orphans: set<nat>) {
    && s.next > 0 && (forall id :: id in gone ==> id < s.next) && (forall id :: id in orphans ==> id < s.next)
    && DistinctIDs(Stored(s)) && (forall id :: id in IDs(Stored(s)) ==> id < s.next && id !in orphans)
    && s.live == IDs(Stored(s)) + orphans - gone
  }

  /** The IDs of the manifest after a diff: those kept and those created. */
  lemma IDsAfterDiff(needs: Service -> bool, before: Services, after: Services, result: Services, first: nat, next: nat)
    requires Diffed(needs, before, after, result, first, next) && first > 0
    requires DistinctIDs(before) && NoForeignID(needs, before, after)
    ensures IDs(result) == IDs(before) - ObsoleteIDs(before, after) + IDsOf(result, CreatedNames(needs, before, after))
  {
    var created := CreatedNames(needs, before, after);
    forall id | id in IDs(result)
      ensures id in IDs(before) - ObsoleteIDs(before, after) + IDsOf(result, created)
    {
      var n :| n in result && result[n].triggerID != 0 && id == result[n].triggerID;
      if Kept(before, after, n) {
        assert id in IDs(before);
      } else {
        assert n in created;
      }
    }
    forall id | id in IDs(before) && id !in ObsoleteIDs(before, after) ensures id in IDs(result) {
      var n :| n in before && before[n].triggerID != 0 && id == before[n].triggerID;
      assert Kept(before, after, n);
      assert result[n] == before[n];
    }
    forall id | id in IDsOf(result, created) ensures id in IDs(result) {
      var n :| n in created && n in result && id == result[n].triggerID;
    }
  }

  lemma DistinctAfterDiff(needs: Service -> bool, before: Services, after: Services, result: Services, first: nat, next: nat)
    requires Diffed(needs, before, after, result, first, next) && first > 0
    requires DistinctIDs(before) && NoForeignID(needs, before, after)
    requires forall id :: id in IDs(before) ==> id < first
    ensures DistinctIDs(result) && forall id :: id in IDs(result) ==> id < next
  {
    forall n | n in result && result[n].triggerID != 0
      ensures if Kept(before, after, n) then n in before && result[n] == before[n] && result[n].triggerID < first
              else n in CreatedNames(needs, before, after) && first <= result[n].triggerID < next
    {
      if Kept(before, after, n) {
        assert before[n].triggerID in IDs(before);
      }
    }
  }

  lemma CreatedAreNew(needs: Service -> bool, before: Services, after: Services, result: Services, first: nat, next: nat, id: nat)
    requires Diffed(needs, before, after, result, first, next)
    requires id in IDsOf(result, CreatedNames(needs, before, after))
    ensures first <= id < next
  {
  }

  lemma DiffKeeps(needs: Service -> bool, s: AppState, m: Services, s': AppState, gone: set<nat>, orphans: set<nat>)
    requires s'.manifest.Some? && DiffStep(needs, s, Stored(s), m, s'.manifest.value, s')
    requires NoForeignID(needs, Stored(s), m) && Sound(s, gone, orphans)
    ensures Sound(s', gone, orphans)
  {
    var before, result := Stored(s), s'.manifest.value;
    IDsAfterDiff(needs, before, m, result, s.next, s'.next);
    DistinctAfterDiff(needs, before, m, result, s.next, s'.next);
    var created := IDsOf(result, CreatedNames(needs, before, m));
    forall id | id in created ensures s.next <= id < s'.next {
      CreatedAreNew(needs, before, m, result, s.next, s'.next, id);
    }
    ObsoleteAreIDs(before, m);
    LiveAfterDiff(IDs(before), ObsoleteIDs(before, m), created, gone, orphans);
  }

  lemma ObsoleteAreIDs(before: Services, m: Services)
    ensures ObsoleteIDs(before, m) <= IDs(before)
  {
  }

  lemma LiveAfterDiff(ids: set<nat>, obsolete: set<nat>, created: set<nat>, gone: set<nat>, orphans: set<nat>)
    requires obsolete <= ids && created !! gone && created !! orphans && ids !! orphans
    ensures ids + orphans - gone - obsolete + created == (ids - obsolete + created) + orphans - gone
  {
  }

  /** An install whose last write is lost: its triggers are orphans. */
  lemma LostKeeps(needs: Service -> bool, s: AppState, m: Services, result: Services, s': AppState,
                  gone: set<nat>, orphans: set<nat>)
    requires s.manifest.None? && s'.manifest == Some(m) && DiffStep(needs, s, map[], m, result, s')
    requires IDs(m) == {} && Sound(s, gone, orphans)
    ensures Sound(s', gone, orphans + (s'.live - s.live))
  {
    var created := IDsOf(result, CreatedNames(needs, map[], m));
    forall id | id in created ensures s.next <= id < s'.next {
      CreatedAreNew(needs, map[], m, result, s.next, s'.next, id);
    }
    assert ObsoleteIDs(map[], m) == {} && IDs(map[]) == {};
    forall id | id in created ensures id !in s.live {
      assert id in s.live ==> id in orphans;
    }
    assert s'.live == s.live + created && s'.live - s.live == created;
    NoIDs(m);
  }

  lemma NoIDs(m: Services)
    requires IDs(m) == {}
    ensures forall n :: n in m ==> m[n].triggerID == 0
  {
    forall n | n in m && m[n].triggerID != 0 ensures m[n].triggerID in IDs(m) {
    }
  }

  function GoneAfter(gone: set<nat>, op: Op): set<nat> {
    if op.Vanish? then gone + {op.id} else gone
  }

  /** The triggers created by an install whose last write is lost are named by no manifest. */
  function OrphansAfter(orphans: set<nat>, s: AppState, op: Op, s': AppState): set<nat> {
    if op.Install? && !op.written then orphans + (s'.live - s.live) else orphans
  }

  /** What a manifest may declare in each operation. */
  ghost predicate GoodOp(needs: Service -> bool, s: AppState, op: Op) {
    match op
    case Install(m, written) => if written then NoForeignID(needs, map[], m) else IDs(m) == {}
    case Update(m) => NoForeignID(needs, Stored(s), m)
    case Delete => true
    case Vanish(_) => true
  }

  lemma StepKeeps(needs: Service -> bool, s: AppState, op: Op, s': AppState, gone: set<nat>, orphans: set<nat>)
    requires Sound(s, gone, orphans) && Step(needs, s, op, s') && GoodOp(needs, s, op)
    ensures Sound(s', GoneAfter(gone, op), OrphansAfter(orphans, s, op, s'))
  {
    match op
    case Install(m, written) =>
      if written {
        DiffKeeps(needs, s, m, s', gone, orphans);
      } else {
        var result: Services :| DiffStep(needs, s, map[], m, result, s');
        LostKeeps(needs, s, m, result, s', gone, orphans);
      }
    case Update(m) => DiffKeeps(needs, s, m, s', gone, orphans);
    case Delete =>
      assert ObsoleteIDs(s.manifest.value, map[]) == IDs(s.manifest.value);
    case Vanish(id) =>
      assert id in IDs(Stored(s)) || id in orphans;
  }

  /** The states a run goes through, from an app that is not installed. */
  ghost predicate Runs(needs: Service -> bool, ops: seq<Op>, states: seq<AppState>) {
    && |states| == |ops| + 1 && states[0] == AppState({}, 1, None)
    && forall i :: 0 <= i < |ops| ==> Step(needs, states[i], ops[i], states[i + 1])
  }

  function Gone(ops: seq<Op>): set<nat> {
    if ops == [] then {} else GoneAfter(Gone(ops[..|ops| - 1]), ops[|ops| - 1])
  }

  function Orphans(ops: seq<Op>, states: seq<AppState>): set<nat>
    requires |states| == |ops| + 1
    decreases |ops|
  {
    if ops == [] then {} else
    var n := |ops| - 1;
    OrphansAfter(Orphans(ops[..n], states[..n + 1]), states[n], ops[n], states[n + 1])
  }

  lemma {:induction false} RunKeeps(needs: Service -> bool, ops: seq<Op>, states: seq<AppState>)
    requires Runs(needs, ops, states)
    requires forall i :: 0 <= i < |ops| ==> GoodOp(needs, states[i], ops[i])
    ensures Sound(states[|ops|], Gone(ops), Orphans(ops, states))
    decreases |ops|
  {
    if ops != [] {
      var n := |ops| - 1;
      RunKeeps(needs, ops[..n], states[..n + 1]);
      StepKeeps(needs, states[n], ops[n], states[n + 1], Gone(ops[..n]), Orphans(ops[..n], states[..n + 1]));
    } else {
      assert IDs(map[]) == {};
    }
  }

  /** Over any run of installs, updates and deletions that succeed, the IDs of the current manifest
      are distinct, and they are exactly the live service triggers, less those that disappeared by
      themselves, if and only if no trigger of an install whose last write was lost is left. */
  lemma LiveTriggersExact(needs: Service -> bool, ops: seq<Op>, states: seq<AppState>)
    requires Runs(needs, ops, states)
    requires forall i :: 0 <= i < |ops| ==> GoodOp(needs, states[i], ops[i])
    ensures var s := states[|ops|];
            && DistinctIDs(Stored(s))
            && (s.live == IDs(Stored(s)) - Gone(ops) <==> Orphans(ops, states) <= Gone(ops))
  {
    RunKeeps(needs, ops, states);
    var s, gone, orphans := states[|ops|], Gone(ops), Orphans(ops, states);
    forall id | id in orphans && id !in gone ensures id in s.live && id !in IDs(Stored(s)) {
    }
  }

  /** Without lost writes there is no such trigger. */
  lemma {:induction false} NoOrphans(ops: seq<Op>, states: seq<AppState>)
    requires |states| == |ops| + 1 && forall i :: 0 <= i < |ops| && ops[i].Install? ==> ops[i].written
    ensures Orphans(ops, states) == {}
    decreases |ops|
  {
    if ops != [] {
      NoOrphans(ops[..|ops| - 1], states[..|ops|]);
    }
  }

  /** The last write of an install can be lost without harm exactly when no service of the
      manifest gets a trigger. */
  lemma LostWriteIff(needs: Service -> bool, s: AppState, m: Services, s': AppState)
    requires Sound(s, {}, {}) && Step(needs, s, Install(m, false), s') && IDs(m) == {}
    ensures s'.live == IDs(Stored(s')) <==> CreatedNames(needs, map[], m) == {}
  {
    var result: Services :| DiffStep(needs, s, map[], m, result, s');
    var names := CreatedNames(needs, map[], m);
    assert ObsoleteIDs(map[], m) == {} && IDs(map[]) == {};
    assert s'.live == IDsOf(result, names);
    if n :| n in names {
      assert result[n].triggerID in IDsOf(result, names);
    }
  }

  const DAILY := Service("node", "daily.js", "", "@every 24h", 0)

  /** Which services get a trigger, in their options: a first word, before any space, that is not
      blank, and not the date in the past of the services called by programs only. */
  lemma NeedsTriggerIff(s: Service)
    ensures NeedsTrigger(s) <==>
              && s.options != "@at 2000-01-01T00:00:00.000Z"
              && exists i :: 0 <= i < |s.options| && !IsSpace(s.options[i]) && ' ' !in s.options[..i]
  {
    var w := SplitN2(s.options, ' ')[0];
    assert |w| <= |s.options| && forall i :: 0 <= i < |w| ==> w[i] == s.options[i] && ' ' !in s.options[..i];
    if i :| 0 <= i < |w| && !IsSpace(w[i]) {
      assert !IsSpace(s.options[i]) && ' ' !in s.options[..i];
    }
    assert IsSpace(' ') && (|w| < |s.options| ==> s.options[|w|] == ' ');
    assert forall i :: |w| < i < |s.options| ==> s.options[..i][|w|] == ' ';
  }

  lemma StartsWithType(s: Service)
    requires s.options != "" && !IsSpace(s.options[0]) && s.options != NEVER
    ensures NeedsTrigger(s)
  {
    var parts := SplitN2(s.options, ' ');
    assert parts[0] != "" && parts[0][0] == s.options[0];
  }

  /** An install of one service, whose last write is lost: its trigger lives, and the next diff
      does not know about it. */
  lemma LostWrite() returns (s: AppState)
    ensures Step(NeedsTrigger, AppState({}, 1, None), Install(map["daily" := DAILY], false), s)
    ensures s.live == {1} && IDs(Stored(s)) == {}
  {
    assert |DAILY.options| != |NEVER| && DAILY.options[0] == '@';
    StartsWithType(DAILY);
    s := LostWriteOf(NeedsTrigger);
  }

  lemma LostWriteOf(needs: Service -> bool) returns (s: AppState)
    requires needs(DAILY)
    ensures Step(needs, AppState({}, 1, None), Install(map["daily" := DAILY], false), s)
    ensures s.live == {1} && IDs(Stored(s)) == {}
  {
    var m := map["daily" := DAILY];
    var result := map["daily" := DAILY.(triggerID := 1)];
    s := AppState({1}, 2, Some(m));
    assert CreatedNames(needs, map[], m) == {"daily"};
    assert IDsOf(result, {"daily"}) == {1} && ObsoleteIDs(map[], m) == {};
    assert DiffStep(needs, AppState({}, 1, None), map[], m, result, s);
  }

  // ---------------------------------------------------------------- one service at a time

  /** A service that an update changes, in its file, its kind, its options or its debounce, loses its
      trigger; it has a new one if it still needs one, and is as the new manifest declares it. */
  lemma ChangedGetsNewTrigger(needs: Service -> bool, s: AppState, m: Services, s': AppState, n: string,
                              gone: set<nat>, orphans: set<nat>)
    requires Sound(s, gone, orphans) && Step(needs, s, Op.Update(m), s')
    requires n in Stored(s) && n in m
    requires m[n].file != Stored(s)[n].file || m[n].kind != Stored(s)[n].kind
             || m[n].options != Stored(s)[n].options || m[n].debounce != Stored(s)[n].debounce
    ensures Stored(s)[n].triggerID != 0 ==> Stored(s)[n].triggerID !in s'.live
    ensures n in Stored(s') && Stored(s')[n] == m[n].(triggerID := Stored(s')[n].triggerID)
    ensures needs(m[n]) ==> s.next <= Stored(s')[n].triggerID < s'.next && Stored(s')[n].triggerID in s'.live
    ensures !needs(m[n]) ==> Stored(s')[n] == m[n]
  {
    if Stored(s)[n].triggerID != 0 {
      ObsoleteIsDeleted(needs, s, m, s', n, gone, orphans);
    }
    CreatedIsLive(needs, s, m, s', n);
  }

  /** A service that changes in none of these is as it was stored, and its trigger lives on. */
  lemma SameKeepsTrigger(needs: Service -> bool, s: AppState, m: Services, s': AppState, n: string,
                         gone: set<nat>, orphans: set<nat>)
    requires Sound(s, gone, orphans) && Step(needs, s, Op.Update(m), s')
    requires n in Stored(s) && n in m
    requires m[n].file == Stored(s)[n].file && m[n].kind == Stored(s)[n].kind
             && m[n].options == Stored(s)[n].options && m[n].debounce == Stored(s)[n].debounce
    ensures n in Stored(s') && Stored(s')[n] == Stored(s)[n]
    ensures Stored(s)[n].triggerID in s.live && Stored(s)[n].triggerID != 0 ==> Stored(s)[n].triggerID in s'.live
  {
    assert Stored(s)[n].triggerID != 0 ==> Stored(s)[n].triggerID !in ObsoleteIDs(Stored(s), m);
  }

  /** A service that an update, or the deletion of the app, removes loses its trigger. */
  lemma RemovedLosesTrigger(needs: Service -> bool, s: AppState, op: Op, s': AppState, n: string,
                            gone: set<nat>, orphans: set<nat>)
    requires Sound(s, gone, orphans) && Step(needs, s, op, s') && n in Stored(s) && Stored(s)[n].triggerID != 0
    requires op.Delete? || (op.Update? && n !in op.m)
    ensures Stored(s)[n].triggerID !in s'.live && n !in Stored(s')
  {
    if op.Update? {
      ObsoleteIsDeleted(needs, s, op.m, s', n, gone, orphans);
    } else {
      assert Stored(s)[n].triggerID in ObsoleteIDs(Stored(s), map[]);
    }
  }

  /** A service that an update adds gets a trigger if it needs one. */
  lemma AddedGetsTrigger(needs: Service -> bool, s: AppState, m: Services, s': AppState, n: string)
    requires Step(needs, s, Op.Update(m), s') && n in m && n !in Stored(s)
    ensures n in Stored(s') && Stored(s')[n] == m[n].(triggerID := Stored(s')[n].triggerID)
    ensures needs(m[n]) ==> s.next <= Stored(s')[n].triggerID < s'.next && Stored(s')[n].triggerID in s'.live
    ensures !needs(m[n]) ==> Stored(s')[n] == m[n]
  {
    CreatedIsLive(needs, s, m, s', n);
  }

  lemma ObsoleteIsDeleted(needs: Service -> bool, s: AppState, m: Services, s': AppState, n: string,
                          gone: set<nat>, orphans: set<nat>)
    requires Sound(s, gone, orphans) && Step(needs, s, Op.Update(m), s')
    requires n in Stored(s) && !Kept(Stored(s), m, n) && Stored(s)[n].triggerID != 0
    ensures Stored(s)[n].triggerID !in s'.live
  {
    var id := Stored(s)[n].triggerID;
    assert id in IDs(Stored(s)) && id in ObsoleteIDs(Stored(s), m);
    if id in IDsOf(Stored(s'), CreatedNames(needs, Stored(s), m)) {
      CreatedAreNew(needs, Stored(s), m, Stored(s'), s.next, s'.next, id);
    }
  }

  lemma CreatedIsLive(needs: Service -> bool, s: AppState, m: Services, s': AppState, n: string)
    requires Step(needs, s, Op.Update(m), s') && n in m && !Kept(Stored(s), m, n)
    ensures n in Stored(s') && Stored(s')[n] == m[n].(triggerID := Stored(s')[n].triggerID)
    ensures needs(m[n]) ==> s.next <= Stored(s')[n].triggerID < s'.next && Stored(s')[n].triggerID in s'.live
    ensures !needs(m[n]) ==> Stored(s')[n] == m[n]
  {
    if needs(m[n]) {
      assert n in CreatedNames(needs, Stored(s), m);
      assert Stored(s')[n].triggerID in IDsOf(Stored(s'), CreatedNames(needs, Stored(s), m));
    }
  }

  /** A service that does not change keeps its trigger. */
  lemma UnchangedKeepsTrigger(needs: Service -> bool, s: AppState, m: Services, s': AppState, n: string)
    requires Step(needs, s, Op.Update(m), s') && Kept(s.manifest.value, m, n)
    ensures n in s'.manifest.value && s'.manifest.value[n].triggerID == s.manifest.value[n].triggerID
  {
  }

  /** The condition on manifests is the exact one: after an install or an update, the live triggers
      are the distinct IDs of the manifest exactly when it declares no ID for a service that is
      neither kept nor given a trigger. */
  lemma ForeignIDIff(needs: Service -> bool, s: AppState, m: Services, s': AppState, orphans: set<nat>)
    requires Sound(s, {}, orphans) && s'.manifest.Some? && DiffStep(needs, s, Stored(s), m, s'.manifest.value, s')
    ensures Sound(s', {}, orphans) <==> NoForeignID(needs, Stored(s), m)
  {
    if NoForeignID(needs, Stored(s), m) {
      DiffKeeps(needs, s, m, s', {}, orphans);
    } else {
      var n :| n in m && !Kept(Stored(s), m, n) && !needs(m[n]) && m[n].triggerID != 0;
      ForeignIDBreaks(needs, s, m, s', orphans, n);
    }
  }

  lemma ForeignIDBreaks(needs: Service -> bool, s: AppState, m: Services, s': AppState, orphans: set<nat>, n: string)
    requires Sound(s, {}, orphans) && s'.manifest.Some? && DiffStep(needs, s, Stored(s), m, s'.manifest.value, s')
    requires n in m && !Kept(Stored(s), m, n) && !needs(m[n]) && m[n].triggerID != 0
    ensures !Sound(s', {}, orphans)
  {
    var before, result, id := Stored(s), s'.manifest.value, m[n].triggerID;
    assert result[n] == m[n];
    assert id in IDs(result);
    if id in s'.live {
      if id in IDsOf(result, CreatedNames(needs, before, m)) {
        var k :| k in CreatedNames(needs, before, m) && k in result && result[k].triggerID == id;
        assert k != n && !DistinctIDs(result);
      } else if id in IDs(before) {
        var k :| k in before && before[k].triggerID != 0 && before[k].triggerID == id;
        assert Kept(before, m, k) && result[k] == before[k];
        assert k != n && !DistinctIDs(result);
      } else {
        assert id in orphans;
      }
    }
  }
}
