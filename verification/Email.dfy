/** The email of the owner of an instance (model/instance/service.go:102-132, model/instance/email.go):
    it is looked up and then written under a lock on the email, and CouchDB refuses the write of
    a document whose revision is not the stored one.

    Emails are already normalised here, and an instance is known by its domain. Revisions are
    numbers, never used twice. */
module Email {
  import opened Options

  datatype Doc = Doc(email: string, org: bool, rev: nat)

  type Table = map<string, Doc>

  // ---------------------------------------------------------------- the lookup

  predicate HasEmail(store: Table, d: string, email: string) {
    d in store && store[d].email == email
  }

  /** The answer of `FindByEmail`: at most two of the instances with the email, and all of them
      when there are fewer. */
  ghost predicate FoundByEmail(store: Table, email: string, rows: seq<string>) {
    && |rows| <= 2
    && (forall i :: 0 <= i < |rows| ==> HasEmail(store, rows[i], email))
    && (|rows| == 2 ==> rows[0] != rows[1])
    && (|rows| < 2 ==> forall d :: HasEmail(store, d, email) ==> d in rows)
  }

  predicate Refuses(rows: seq<string>, domain: string) {
    exists i :: 0 <= i < |rows| && rows[i] != domain
  }

  ghost predicate Taken(store: Table, domain: string, email: string) {
    exists d :: d != domain && HasEmail(store, d, email)
  }

  /** Two rows are enough: they show another instance exactly when there is one. */
  lemma TwoRowsSuffice(store: Table, email: string, rows: seq<string>, domain: string)
    requires FoundByEmail(store, email, rows)
    ensures Refuses(rows, domain) <==> Taken(store, domain, email)
  {
    if Taken(store, domain, email) {
      var d :| d != domain && HasEmail(store, d, email);
      if |rows| < 2 {
        var i :| 0 <= i < |rows| && rows[i] == d;
      } else {
        assert rows[0] != domain || rows[1] != domain;
      }
    }
  }

  /** With one row, a store where two instances have the email can hide one behind the other. */
  lemma OneRowHides(store: Table, email: string, domain: string, other: string)
    requires HasEmail(store, domain, email) && HasEmail(store, other, email) && domain != other
    ensures Taken(store, domain, email) && !Refuses([domain], domain)
  {
  }

  // ---------------------------------------------------------------- a call by itself

  /** A copy of an instance, as `inst` is in the code. */
  class Instance {
    const domain: string
    const org: bool
    var email: string
    var rev: nat

    constructor (domain: string, org: bool, email: string, rev: nat)
      ensures this.domain == domain && this.org == org && this.email == email && this.rev == rev
    {
      this.domain, this.org, this.email, this.rev := domain, org, email, rev;
    }
  }

  datatype Result = Done | EmailTaken | Conflict

  class Service {
    var store: Table
    var nextRev: nat

    constructor ()
      ensures store == map[]
    {
      store, nextRev := map[], 0;
    }

    method FindByEmail(email: string) returns (rows: seq<string>)
      ensures FoundByEmail(store, email, rows)
    {
      rows := [];
      var left := store.Keys;
      while left != {} && |rows| < 2
        invariant |rows| <= 2 && left <= store.Keys
        invariant forall i :: 0 <= i < |rows| ==> HasEmail(store, rows[i], email) && rows[i] !in left
        invariant |rows| == 2 ==> rows[0] != rows[1]
        invariant forall d :: HasEmail(store, d, email) && d !in left ==> d in rows
        decreases |left|
      {
        var d :| d in left;
        left := left - {d};
        if store[d].email == email {
          rows := rows + [d];
        }
      }
    }

    /** `couchdb.UpdateDoc` on the copy. */
    method Update(inst: Instance) returns (r: Result)
      modifies this, inst
      ensures var current := inst.domain in old(store) && old(store)[inst.domain].rev == old(inst.rev);
              && (r == if current then Done else Conflict)
              && inst.email == old(inst.email)
              && (store == if current then old(store)[inst.domain := Doc(inst.email, inst.org, inst.rev)] else old(store))
              && (current ==> inst.rev == old(nextRev) && nextRev == old(nextRev) + 1) && (!current ==> inst.rev == old(inst.rev))
    {
      if inst.domain !in store || store[inst.domain].rev != inst.rev {
        return Conflict;
      }
      inst.rev := nextRev;
      nextRev := nextRev + 1;
      store := store[inst.domain := Doc(inst.email, inst.org, inst.rev)];
      r := Done;
    }

    /** `SetEmail` while no other call runs: refused exactly when another instance has the email. */
    method SetEmail(inst: Instance, email: string) returns (r: Result)
      modifies this, inst
      ensures inst.org || email == "" || email == old(inst.email) ==>
                r == Done && store == old(store) && inst.email == old(inst.email)
      ensures !inst.org && email != "" && email != old(inst.email) ==>
                && (r == EmailTaken <==> Taken(old(store), inst.domain, email))
                && (r == EmailTaken ==> store == old(store) && inst.email == old(inst.email))
                && (r == Conflict ==> store == old(store))
                && (r == Done ==> store == old(store)[inst.domain := Doc(email, false, inst.rev)])
      ensures !inst.org && email != "" && email != old(inst.email) && !Taken(old(store), inst.domain, email) ==>
                && inst.email == email
                && (r == Done <==> inst.domain in old(store) && old(store)[inst.domain].rev == old(inst.rev))
                && (r == Conflict <==> inst.domain !in old(store) || old(store)[inst.domain].rev != old(inst.rev))
                && (r == Done ==> inst.rev == old(nextRev) && nextRev == old(nextRev) + 1)
    {
      if inst.org || email == "" || email == inst.email {
        return Done;
      }
      var rows := FindByEmail(email);
      TwoRowsSuffice(store, email, rows, inst.domain);
      if i :| 0 <= i < |rows| && rows[i] != inst.domain {
        return EmailTaken;
      }
      inst.email := email;
      r := Update(inst);
    }
  }

  // ---------------------------------------------------------------- calls that interleave

  datatype Copy = Copy(domain: string, email: string, org: bool, rev: nat)

  /** What a caller is at: without a copy, with one, waiting for the lock, holding it, or having
      found that no other instance has the email and about to write. */
  datatype Proc = Idle | Holding(c: Copy) | Waiting(c: Copy, email: string)
                | Locked(c: Copy, email: string) | Checked(c: Copy, email: string)

  type ProcID = nat

  datatype State = State(store: Table, nextRev: nat, locks: map<string, ProcID>, callers: map<ProcID, Proc>) {
    function Proc(p: ProcID): Proc {
      if p in callers then callers[p] else Idle
    }
  }

  /** The steps of callers. Besides SetEmail: loading an instance, saving it after changing
      something else, forgetting it, creating and deleting instances. A caller may also stop, or
      see its request fail, at any time; its copy is then lost and its lock released. */
  datatype Action = Load(d: string) | Save | Begin(email: string) | Acquire | Check(rows: seq<string>) | Write
                  | Stop | Create(d: string, org: bool) | Remove(d: string)

  function With(s: State, p: ProcID, x: Proc): State {
    s.(callers := s.callers[p := x])
  }

  function Unlock(s: State, email: string): State {
    s.(locks := s.locks - {email})
  }

  predicate Current(s: State, c: Copy) {
    c.domain in s.store && s.store[c.domain].rev == c.rev
  }

  /** UpdateDoc for the caller p: written when the copy is current, refused otherwise. */
  function Written(s: State, p: ProcID, c: Copy): State {
    if !Current(s, c) then With(s, p, Holding(c)) else
    With(s, p, Holding(c.(rev := s.nextRev)))
      .(store := s.store[c.domain := Doc(c.email, c.org, s.nextRev)], nextRev := s.nextRev + 1)
  }

  ghost predicate Step(s: State, p: ProcID, a: Action, s': State) {
    match a
    case Load(d) =>
      && s.Proc(p).Idle? && d in s.store
      && s' == With(s, p, Holding(Copy(d, s.store[d].email, s.store[d].org, s.store[d].rev)))
    case Save => s.Proc(p).Holding? && s' == Written(s, p, s.Proc(p).c)
    case Begin(email) =>
      && s.Proc(p).Holding?
      && var c := s.Proc(p).c;
         s' == if c.org || email == "" || email == c.email then s else With(s, p, Waiting(c, email))
    case Acquire =>
      && s.Proc(p).Waiting? && s.Proc(p).email !in s.locks
      && s' == With(s, p, Locked(s.Proc(p).c, s.Proc(p).email)).(locks := s.locks[s.Proc(p).email := p])
    case Check(rows) =>
      && s.Proc(p).Locked? && FoundByEmail(s.store, s.Proc(p).email, rows)
      && var c, email := s.Proc(p).c, s.Proc(p).email;
         s' == if Refuses(rows, c.domain) then Unlock(With(s, p, Holding(c)), email)
               else With(s, p, Checked(c.(email := email), email))
    case Write =>
      && s.Proc(p).Checked?
      && s' == Unlock(Written(s, p, s.Proc(p).c), s.Proc(p).email)
    case Stop =>
      s' == if s.Proc(p).Locked? || s.Proc(p).Checked? then Unlock(With(s, p, Idle), s.Proc(p).email)
            else With(s, p, Idle)
    case Create(d, org) =>
      d !in s.store && s' == s.(store := s.store[d := Doc("", org, s.nextRev)], nextRev := s.nextRev + 1)
    case Remove(d) => s' == s.(store := s.store - {d})
  }

  /** No two instances have the same email. */
  ghost predicate Unique(store: Table) {
    forall d, e :: d in store && e in store && d != e && store[d].email != "" ==> store[d].email != store[e].email
  }

  ghost predicate OrgsWithout(store: Table) {
    forall d :: d in store && store[d].org ==> store[d].email == ""
  }

  predicate InLock(x: Proc) {
    x.Locked? || x.Checked?
  }

  /** A copy that is still current says what is stored. */
  predicate Reflects(s: State, c: Copy) {
    Current(s, c) ==> s.store[c.domain].email == c.email && s.store[c.domain].org == c.org
  }

  /** What is true of a caller wherever it is. */
  ghost predicate ProcOK(s: State, x: Proc) {
    && (!x.Idle? ==> x.c.rev < s.nextRev)
    && (x.Holding? || x.Waiting? || x.Locked? ==> Reflects(s, x.c))
    && (x.Waiting? || x.Locked? || x.Checked? ==> !x.c.org && x.email != "")
    && (x.Checked? ==> x.c.email == x.email && !Taken(s.store, x.c.domain, x.email))
    && (x.Checked? && Current(s, x.c) ==> !s.store[x.c.domain].org)
  }

  ghost predicate LocksOK(s: State) {
    forall p :: InLock(s.Proc(p)) ==> s.Proc(p).email in s.locks && s.locks[s.Proc(p).email] == p
  }

  ghost predicate Inv(s: State) {
    && Unique(s.store) && OrgsWithout(s.store) && LocksOK(s)
    && (forall d :: d in s.store ==> s.store[d].rev < s.nextRev)
    && (forall p :: ProcOK(s, s.Proc(p)))
  }

  /** A change of the document d to an email that is not locked by the caller keeps what is true
      of the caller. */
  lemma WriteElsewhere(s: State, x: Proc, s': State, d: string, doc: Doc)
    requires ProcOK(s, x) && doc.rev == s.nextRev && s'.nextRev == s.nextRev + 1
    requires s'.store == s.store[d := doc]
    requires x.Checked? ==> doc.email != x.email || d == x.c.domain
    ensures ProcOK(s', x)
  {
    if x.Checked? && Taken(s'.store, x.c.domain, x.email) {
      var e :| e != x.c.domain && HasEmail(s'.store, e, x.email);
      assert HasEmail(s.store, e, x.email);
    }
  }

  lemma SaveKeeps(s: State, p: ProcID, s': State)
    requires Inv(s) && Step(s, p, Save, s')
    ensures Inv(s')
  {
    var c := s.Proc(p).c;
    assert ProcOK(s, s.Proc(p));
    if Current(s, c) {
      forall q ensures ProcOK(s', s'.Proc(q)) {
        if q != p {
          assert ProcOK(s, s.Proc(q));
          if s.Proc(q).Checked? && s.Proc(q).email == c.email {
            assert c.domain != s.Proc(q).c.domain ==> !HasEmail(s.store, c.domain, c.email);
          }
          WriteElsewhere(s, s.Proc(q), s', c.domain, Doc(c.email, c.org, s.nextRev));
        }
      }
    }
    KeepsLocks(s, p, s');
  }

  lemma KeepsLocks(s: State, p: ProcID, s': State)
    requires LocksOK(s) && s'.locks == s.locks
    requires InLock(s'.Proc(p)) ==> InLock(s.Proc(p)) && s'.Proc(p).email == s.Proc(p).email
    requires forall q :: q != p ==> s'.Proc(q) == s.Proc(q)
    ensures LocksOK(s')
  {
    forall q | InLock(s'.Proc(q)) ensures s'.Proc(q).email in s'.locks && s'.locks[s'.Proc(q).email] == q {
      assert InLock(s.Proc(q));
    }
  }

  lemma WriteKeeps(s: State, p: ProcID, s': State)
    requires Inv(s) && Step(s, p, Write, s')
    ensures Inv(s')
  {
    var c, email := s.Proc(p).c, s.Proc(p).email;
    assert ProcOK(s, s.Proc(p));
    if Current(s, c) {
      forall q ensures ProcOK(s', s'.Proc(q)) {
        if q != p {
          assert ProcOK(s, s.Proc(q));
          assert InLock(s.Proc(q)) ==> s.Proc(q).email != email;
          WriteElsewhere(s, s.Proc(q), s', c.domain, Doc(c.email, c.org, s.nextRev));
        }
      }
      UniqueAfterWrite(s.store, c.domain, Doc(c.email, c.org, s.nextRev));
    }
    ReleaseKeepsLocks(s, p, s', email);
  }

  lemma UniqueAfterWrite(store: Table, domain: string, doc: Doc)
    requires Unique(store) && !Taken(store, domain, doc.email)
    ensures Unique(store[domain := doc])
  {
    forall d | d in store && d != domain ensures store[d].email != doc.email {
      assert !HasEmail(store, d, doc.email);
    }
  }

  lemma ReleaseKeepsLocks(s: State, p: ProcID, s': State, email: string)
    requires LocksOK(s) && InLock(s.Proc(p)) && s.Proc(p).email == email
    requires s'.locks == s.locks - {email} && !InLock(s'.Proc(p))
    requires forall q :: q != p ==> s'.Proc(q) == s.Proc(q)
    ensures LocksOK(s')
  {
    forall q | InLock(s'.Proc(q)) ensures s'.Proc(q).email in s'.locks && s'.locks[s'.Proc(q).email] == q {
      assert q != p && InLock(s.Proc(q));
    }
  }

  lemma CheckKeeps(s: State, p: ProcID, rows: seq<string>, s': State)
    requires Inv(s) && Step(s, p, Check(rows), s')
    ensures Inv(s')
  {
    var c, email := s.Proc(p).c, s.Proc(p).email;
    assert ProcOK(s, s.Proc(p));
    TwoRowsSuffice(s.store, email, rows, c.domain);
    forall q ensures ProcOK(s', s'.Proc(q)) {
      assert ProcOK(s, s.Proc(q));
    }
    if Refuses(rows, c.domain) {
      ReleaseKeepsLocks(s, p, s', email);
    } else {
      KeepsLocks(s, p, s');
    }
  }

  lemma RemoveKeeps(s: State, p: ProcID, d: string, s': State)
    requires Inv(s) && Step(s, p, Remove(d), s')
    ensures Inv(s')
  {
    forall q ensures ProcOK(s', s'.Proc(q)) {
      var x := s.Proc(q);
      assert ProcOK(s, x);
      if x.Checked? && Taken(s'.store, x.c.domain, x.email) {
        var e :| e != x.c.domain && HasEmail(s'.store, e, x.email);
        assert HasEmail(s.store, e, x.email);
      }
    }
    KeepsLocks(s, p, s');
  }

  lemma CreateKeeps(s: State, p: ProcID, d: string, org: bool, s': State)
    requires Inv(s) && Step(s, p, Create(d, org), s')
    ensures Inv(s')
  {
    forall q ensures ProcOK(s', s'.Proc(q)) {
      assert ProcOK(s, s.Proc(q));
      WriteElsewhere(s, s.Proc(q), s', d, Doc("", org, s.nextRev));
    }
    KeepsLocks(s, p, s');
  }

  lemma StopKeeps(s: State, p: ProcID, s': State)
    requires Inv(s) && Step(s, p, Stop, s')
    ensures Inv(s')
  {
    forall q ensures ProcOK(s', s'.Proc(q)) {
      assert ProcOK(s, s.Proc(q));
    }
    if InLock(s.Proc(p)) {
      ReleaseKeepsLocks(s, p, s', s.Proc(p).email);
    } else {
      KeepsLocks(s, p, s');
    }
  }

  /** The steps before the check, which change neither documents nor other callers. */
  lemma PrepareKeeps(s: State, p: ProcID, a: Action, s': State)
    requires Inv(s) && Step(s, p, a, s') && (a.Load? || a.Begin? || a.Acquire?)
    ensures Inv(s')
  {
    assert ProcOK(s, s.Proc(p));
    forall q ensures ProcOK(s', s'.Proc(q)) {
      assert ProcOK(s, s.Proc(q));
    }
    forall q | InLock(s'.Proc(q)) ensures s'.Proc(q).email in s'.locks && s'.locks[s'.Proc(q).email] == q {
      if q != p {
        assert InLock(s.Proc(q));
      }
    }
  }

  lemma StepKeeps(s: State, p: ProcID, a: Action, s': State)
    requires Inv(s) && Step(s, p, a, s')
    ensures Inv(s')
  {
    match a
    case Load(_) => PrepareKeeps(s, p, a, s');
    case Save => SaveKeeps(s, p, s');
    case Begin(_) => PrepareKeeps(s, p, a, s');
    case Acquire => PrepareKeeps(s, p, a, s');
    case Check(rows) => CheckKeeps(s, p, rows, s');
    case Write => WriteKeeps(s, p, s');
    case Stop => StopKeeps(s, p, s');
    case Create(d, org) => CreateKeeps(s, p, d, org, s');
    case Remove(d) => RemoveKeeps(s, p, d, s');
  }

  ghost predicate Initial(s: State) {
    s.store == map[] && s.locks == map[] && s.callers == map[]
  }

  /** A run: each state follows from the one before by a step of some caller. */
  ghost predicate Path(states: seq<State>, who: seq<ProcID>, actions: seq<Action>) {
    && |states| == |who| + 1 == |actions| + 1
    && forall i :: 0 <= i < |who| ==> Step(states[i], who[i], actions[i], states[i + 1])
  }

  /** In every interleaving of the callers, no two instances share an email, and organization
      instances have none. */
  lemma {:induction false} EmailsStayUnique(states: seq<State>, who: seq<ProcID>, actions: seq<Action>, n: nat)
    requires Path(states, who, actions) && Initial(states[0]) && n < |states|
    ensures Inv(states[n]) && Unique(states[n].store) && OrgsWithout(states[n].store)
  {
    if n > 0 {
      EmailsStayUnique(states, who, actions, n - 1);
      StepKeeps(states[n - 1], who[n - 1], actions[n - 1], states[n]);
    }
  }

  /** A write that happens gives the instance the email that was asked for. */
  lemma WriteTakes(s: State, p: ProcID, s': State)
    requires Inv(s) && Step(s, p, Write, s') && Current(s, s.Proc(p).c)
    ensures var d, email := s.Proc(p).c.domain, s.Proc(p).email;
            HasEmail(s'.store, d, email) && !Taken(s'.store, d, email)
  {
    assert ProcOK(s, s.Proc(p));
    WriteKeeps(s, p, s');
  }

  // ---------------------------------------------------------------- a copy kept after a failure

  /** When the request of the write fails without a conflict, the copy has the new email and a
      revision that may be current, and the lock is released: what a caller that goes on with its
      copy has. */
  function Kept(s: State, p: ProcID): State
    requires s.Proc(p).Checked?
  {
    Unlock(With(s, p, Holding(s.Proc(p).c)), s.Proc(p).email)
  }

  /** The state without the copy of p: the other callers see no difference. */
  function Hide(s: State, p: ProcID): State {
    With(s, p, Idle)
  }

  lemma KeptHidden(s: State, p: ProcID)
    requires Inv(s) && s.Proc(p).Checked?
    ensures Inv(Hide(Kept(s, p), p))
  {
    var t := Hide(Kept(s, p), p);
    assert ProcOK(s, s.Proc(p));
    forall q ensures ProcOK(t, t.Proc(q)) {
      assert ProcOK(s, s.Proc(q));
    }
    ReleaseKeepsLocks(s, p, t, s.Proc(p).email);
  }

  lemma HideWith(s: State, p: ProcID, q: ProcID, x: Proc)
    requires p != q
    ensures Hide(With(s, q, x), p) == With(Hide(s, p), q, x)
  {
    assert s.callers[q := x][p := Idle] == s.callers[p := Idle][q := x];
  }

  /** A step of another caller is one without the copy. */
  lemma HiddenStep(s: State, p: ProcID, q: ProcID, a: Action, s': State)
    requires p != q && Step(s, q, a, s')
    ensures Step(Hide(s, p), q, a, Hide(s', p)) && s'.Proc(p) == s.Proc(p)
  {
    var x := s'.Proc(q);
    HideWith(s, p, q, x);
    assert Hide(s, p).Proc(q) == s.Proc(q);
    if a.Save? || a.Write? {
      HideWith(s, p, q, Holding(s.Proc(q).c));
      HideWith(s, p, q, Holding(s.Proc(q).c.(rev := s.nextRev)));
    }
  }

  lemma {:induction false} HiddenPath(states: seq<State>, who: seq<ProcID>, actions: seq<Action>, p: ProcID, n: nat)
    requires Path(states, who, actions) && n < |states| && p !in who && Inv(Hide(states[0], p))
    ensures Inv(Hide(states[n], p)) && states[n].Proc(p) == states[0].Proc(p)
  {
    if n > 0 {
      HiddenPath(states, who, actions, p, n - 1);
      HiddenStep(states[n - 1], p, who[n - 1], actions[n - 1], states[n]);
      StepKeeps(Hide(states[n - 1], p), who[n - 1], actions[n - 1], Hide(states[n], p));
    }
  }

  /** The step writes the document of an instance: a save or a write that is not refused. */
  predicate Puts(s: State, p: ProcID, a: Action, d: string) {
    && ((a.Save? && s.Proc(p).Holding?) || (a.Write? && s.Proc(p).Checked?))
    && s.Proc(p).c.domain == d && Current(s, s.Proc(p).c)
  }

  /** The document of the instance has been written, or removed, in the first n steps. */
  predicate Rewritten(states: seq<State>, who: seq<ProcID>, actions: seq<Action>, n: nat, d: string)
    requires |states| == |who| + 1 == |actions| + 1 && n < |states|
  {
    exists i :: 0 <= i < n && (Puts(states[i], who[i], actions[i], d) || actions[i] == Remove(d))
  }

  /** In the first n steps, the instance was given the email by a write of SetEmail, and has
      neither been given another one nor been removed since. */
  predicate Took(states: seq<State>, who: seq<ProcID>, actions: seq<Action>, n: nat, d: string, email: string)
    requires |states| == |who| + 1 == |actions| + 1 && n < |states|
  {
    n > 0 &&
    if actions[n - 1].Write? && Puts(states[n - 1], who[n - 1], actions[n - 1], d) then states[n - 1].Proc(who[n - 1]).email == email
    else actions[n - 1] != Remove(d) && Took(states, who, actions, n - 1, d, email)
  }

  /** What a step of another caller does to who has the email. */
  lemma EmailStep(s: State, q: ProcID, a: Action, s': State, d: string, email: string)
    requires Inv(s) && Step(s, q, a, s') && email != ""
    ensures HasEmail(s'.store, d, email) <==>
              if a.Write? && Puts(s, q, a, d) then s.Proc(q).email == email
              else a != Remove(d) && HasEmail(s.store, d, email)
  {
    assert ProcOK(s, s.Proc(q));
  }

  lemma {:induction false} TookIff(states: seq<State>, who: seq<ProcID>, actions: seq<Action>, p: ProcID, n: nat,
                                   d: string, email: string)
    requires Path(states, who, actions) && n < |states| && p !in who && Inv(Hide(states[0], p)) && email != ""
    requires !HasEmail(states[0].store, d, email)
    ensures HasEmail(states[n].store, d, email) <==> Took(states, who, actions, n, d, email)
  {
    if n > 0 {
      TookIff(states, who, actions, p, n - 1, d, email);
      HiddenPath(states, who, actions, p, n - 1);
      HiddenStep(states[n - 1], p, who[n - 1], actions[n - 1], states[n]);
      EmailStep(Hide(states[n - 1], p), who[n - 1], actions[n - 1], Hide(states[n], p), d, email);
      assert Puts(Hide(states[n - 1], p), who[n - 1], actions[n - 1], d) == Puts(states[n - 1], who[n - 1], actions[n - 1], d);
    }
  }

  /** What a step of another caller does to a copy. */
  lemma CopyStep(s: State, q: ProcID, a: Action, s': State, c: Copy)
    requires Inv(s) && Step(s, q, a, s') && c.rev < s.nextRev
    ensures c.rev < s'.nextRev
    ensures Current(s', c) <==> Current(s, c) && !Puts(s, q, a, c.domain) && a != Remove(c.domain)
  {
    assert ProcOK(s, s.Proc(q));
  }

  lemma {:induction false} CurrentIff(states: seq<State>, who: seq<ProcID>, actions: seq<Action>, p: ProcID, n: nat, c: Copy)
    requires Path(states, who, actions) && n < |states| && p !in who && Inv(Hide(states[0], p))
    requires c.rev < states[0].nextRev
    ensures c.rev < states[n].nextRev
    ensures Current(states[n], c) <==> Current(states[0], c) && !Rewritten(states, who, actions, n, c.domain)
  {
    if n > 0 {
      CurrentIff(states, who, actions, p, n - 1, c);
      HiddenPath(states, who, actions, p, n - 1);
      HiddenStep(states[n - 1], p, who[n - 1], actions[n - 1], states[n]);
      CopyStep(Hide(states[n - 1], p), who[n - 1], actions[n - 1], Hide(states[n], p), c);
      assert Puts(Hide(states[n - 1], p), who[n - 1], actions[n - 1], c.domain)
          == Puts(states[n - 1], who[n - 1], actions[n - 1], c.domain);
      assert Rewritten(states, who, actions, n, c.domain)
        <==> Rewritten(states, who, actions, n - 1, c.domain)
             || Puts(states[n - 1], who[n - 1], actions[n - 1], c.domain) || actions[n - 1] == Remove(c.domain);
    }
  }

  ghost predicate OtherTook(states: seq<State>, who: seq<ProcID>, actions: seq<Action>, domain: string, email: string)
    requires |states| == |who| + 1 == |actions| + 1
  {
    exists d :: d != domain && Took(states, who, actions, |who|, d, email)
  }

  /** From the failure on, after any steps of the other callers, saving the kept copy keeps the
      emails unique if and only if it was already stale, or its document has been rewritten since,
      or no other instance took the email in between. */
  lemma KeptCopyIff(s: State, p: ProcID, states: seq<State>, who: seq<ProcID>, actions: seq<Action>, s': State)
    requires Inv(s) && s.Proc(p).Checked? && Path(states, who, actions) && p !in who && states[0] == Kept(s, p)
    requires Step(states[|who|], p, Save, s')
    ensures var c, email := s.Proc(p).c, s.Proc(p).email;
            Unique(s'.store) <==>
              || !Current(s, c) || Rewritten(states, who, actions, |who|, c.domain)
              || !OtherTook(states, who, actions, c.domain, email)
  {
    var c, email, n := s.Proc(p).c, s.Proc(p).email, |who|;
    assert ProcOK(s, s.Proc(p));
    KeptHidden(s, p);
    HiddenPath(states, who, actions, p, n);
    CurrentIff(states, who, actions, p, n, c);
    assert Current(states[0], c) == Current(s, c);
    TakenIff(s, p, states, who, actions);
    SavedUnique(states[n], p, s');
  }

  lemma TakenIff(s: State, p: ProcID, states: seq<State>, who: seq<ProcID>, actions: seq<Action>)
    requires Inv(s) && s.Proc(p).Checked? && Path(states, who, actions) && p !in who && states[0] == Kept(s, p)
    ensures var c, email := s.Proc(p).c, s.Proc(p).email;
            Taken(states[|who|].store, c.domain, email) <==> OtherTook(states, who, actions, c.domain, email)
  {
    var c, email := s.Proc(p).c, s.Proc(p).email;
    assert ProcOK(s, s.Proc(p));
    KeptHidden(s, p);
    forall d | d != c.domain
      ensures HasEmail(states[|who|].store, d, email) <==> Took(states, who, actions, |who|, d, email)
    {
      assert !HasEmail(s.store, d, email);
      TookIff(states, who, actions, p, |who|, d, email);
    }
    if d :| d != c.domain && HasEmail(states[|who|].store, d, email) {
      assert Took(states, who, actions, |who|, d, email);
    }
  }

  /** A write of one document keeps the emails unique unless another instance has the email. */
  lemma SavedUnique(s: State, p: ProcID, s': State)
    requires Unique(s.store) && Step(s, p, Save, s') && s.Proc(p).c.email != ""
    ensures var c := s.Proc(p).c;
            Unique(s'.store) <==> !Current(s, c) || !Taken(s.store, c.domain, c.email)
  {
    var c := s.Proc(p).c;
    if Current(s, c) && Taken(s.store, c.domain, c.email) {
      var d :| d != c.domain && HasEmail(s.store, d, c.email);
      assert s'.store[d].email == s'.store[c.domain].email;
    } else if Current(s, c) {
      UniqueAfterWrite(s.store, c.domain, Doc(c.email, c.org, s.nextRev));
    }
  }

  // ---------------------------------------------------------------- a run that breaks

  lemma Extend(states: seq<State>, who: seq<ProcID>, actions: seq<Action>, p: ProcID, a: Action, s': State)
    requires Path(states, who, actions) && Step(states[|who|], p, a, s')
    ensures Path(states + [s'], who + [p], actions + [a])
  {
  }

  /** Two instances without email, and two callers that want the same one for them. */
  lemma TwoInstances() returns (states: seq<State>, who: seq<ProcID>, actions: seq<Action>)
    ensures Path(states, who, actions) && Initial(states[0])
    ensures var s := states[|who|];
            && s.store == map["a" := Doc("", false, 0), "b" := Doc("", false, 1)] && s.locks == map[]
            && s.Proc(0) == Holding(Copy("a", "", false, 0)) && s.Proc(1) == Holding(Copy("b", "", false, 1))
  {
    var s0 := State(map[], 0, map[], map[]);
    var s1 := s0.(store := map["a" := Doc("", false, 0)], nextRev := 1);
    var s2 := s1.(store := map["a" := Doc("", false, 0), "b" := Doc("", false, 1)], nextRev := 2);
    var s3 := With(s2, 0, Holding(Copy("a", "", false, 0)));
    var s4 := With(s3, 1, Holding(Copy("b", "", false, 1)));
    assert s1.store["b" := Doc("", false, 1)] == s2.store && s0.store["a" := Doc("", false, 0)] == s1.store;
    Extend([s0], [], [], 0, Create("a", false), s1);
    Extend([s0] + [s1], [] + [0], [] + [Create("a", false)], 0, Create("b", false), s2);
    states, who, actions := [s0] + [s1] + [s2], [] + [0] + [0], [] + [Create("a", false)] + [Create("b", false)];
    Extend(states, who, actions, 0, Load("a"), s3);
    states, who, actions := states + [s3], who + [0], actions + [Load("a")];
    Extend(states, who, actions, 1, Load("b"), s4);
    states, who, actions := states + [s4], who + [1], actions + [Load("b")];
  }

  /** One of them has the lock and has found nobody, the other one waits. */
  ghost predicate Race(s: State) {
    && s.store == map["a" := Doc("", false, 0), "b" := Doc("", false, 1)] && s.locks == map["x" := 0]
    && s.Proc(0) == Checked(Copy("a", "x", false, 0), "x") && s.Proc(1) == Waiting(Copy("b", "", false, 1), "x")
  }

  lemma ReachRace() returns (states: seq<State>, who: seq<ProcID>, actions: seq<Action>)
    ensures Path(states, who, actions) && Initial(states[0]) && Race(states[|who|])
  {
    states, who, actions := TwoInstances();
    var s := states[|who|];
    var a, b := Copy("a", "", false, 0), Copy("b", "", false, 1);
    var s1 := With(s, 0, Waiting(a, "x"));
    var s2 := With(s1, 1, Waiting(b, "x"));
    var s3 := With(s2, 0, Locked(a, "x")).(locks := s2.locks["x" := 0]);
    var s4 := With(s3, 0, Checked(a.(email := "x"), "x"));
    Extend(states, who, actions, 0, Begin("x"), s1);
    states, who, actions := states + [s1], who + [0], actions + [Begin("x")];
    Extend(states, who, actions, 1, Begin("x"), s2);
    states, who, actions := states + [s2], who + [1], actions + [Begin("x")];
    Extend(states, who, actions, 0, Acquire, s3);
    states, who, actions := states + [s3], who + [0], actions + [Acquire];
    assert FoundByEmail(s3.store, "x", []);
    Extend(states, who, actions, 0, Check([]), s4);
    states, who, actions := states + [s4], who + [0], actions + [Check([])];
    assert map["x" := 0] == s2.locks["x" := 0];
  }

  /** From there, the write of the first one fails and its copy is kept; the other one takes the
      email; and saving the copy gives it to both. */
  lemma KeptCopyBreaks(s: State) returns (states: seq<State>, who: seq<ProcID>, actions: seq<Action>, s': State)
    requires Race(s)
    ensures Path(states, who, actions) && 0 !in who && states[0] == Kept(s, 0)
    ensures Step(states[|who|], 0, Save, s') && !Unique(s'.store)
  {
    var a, b, kept := Copy("a", "x", false, 0), Copy("b", "", false, 1), Kept(s, 0);
    assert kept.locks == map[] && kept.Proc(1) == Waiting(b, "x") && kept.Proc(0) == Holding(a);
    var s1 := With(kept, 1, Locked(b, "x")).(locks := kept.locks["x" := 1]);
    var s2 := With(s1, 1, Checked(b.(email := "x"), "x"));
    var s3 := Unlock(Written(s2, 1, b.(email := "x")), "x");
    assert FoundByEmail(s1.store, "x", []);
    Extend([kept], [], [], 1, Acquire, s1);
    Extend([kept] + [s1], [] + [1], [] + [Acquire], 1, Check([]), s2);
    states, who, actions := [kept] + [s1] + [s2], [] + [1] + [1], [] + [Acquire] + [Check([])];
    Extend(states, who, actions, 1, Write, s3);
    states, who, actions := states + [s3], who + [1], actions + [Write];
    assert Current(s3, a) && s3.Proc(0) == Holding(a);
    s' := Written(s3, 0, a);
    assert s'.store["a"].email == s'.store["b"].email == "x";
  }
}
