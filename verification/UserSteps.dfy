/** User requests that interleave, one step for each database statement: a handler reads its target or its
    organization, counts, and then writes, an update column by column. */
module UserSteps {
  import opened Text
  import opened Telemetry
  import opened Users

  /** What a request has done so far: read its target (or, for a create, the organization), passed its checks,
      or started UpdateUser, with these columns left to set. */
  datatype Phase =
    | Fetched(target: Option<User>)
    | Checked
    | Updating(newRole: Option<Role>, newExport: Option<bool>, newStatus: Option<Status>)

  datatype Pending = Pending(q: Request, phase: Phase)

  datatype State = State(t: Tables, busy: map<nat, Pending>)

  /** Fail is a statement that errs, at any point of a request. */
  datatype Step = Start(i: nat, q: Request) | Next(i: nat) | Fail(i: nat)

  /** GetUser, or GetOrganization. */
  function Fetch(t: Tables, q: Request): Option<Phase> {
    if q.Create? then (if q.org in t.limits then Some(Fetched(None)) else None)
    else if Has(t, q.org, q.id) then Some(Fetched(Some(t.users[q.id])))
    else None
  }

  /** The checks, with the counts as they are now and the target as it was read. */
  predicate Passes(t: Tables, q: Request, target: Option<User>) {
    match q
    case Create(org, _, _, _, _) => org in t.limits && |Members(t, org)| < t.limits[org]
    case Patch(org, actor, id, newRole, _, newStatus) =>
      && target.Some?
      && (Demotes(target.value, newRole) || Disables(target.value, newStatus) ==> |Admins(t, org)| > 1)
      && (actor == id ==>
            (newStatus == None || newStatus.value == Active) && (newRole == None || newRole.value == OrgAdmin))
    case Delete(org, actor, id) =>
      target.Some? && (IsActiveAdmin(target.value) ==> |Admins(t, org)| > 1) && actor != id
  }

  /** The one column a statement of UpdateUser sets, as a patch. */
  function Part(q: Request, newRole: Option<Role>, newExport: Option<bool>, newStatus: Option<Status>): Request
    requires q.Patch?
  {
    q.(newRole := newRole, newExport := newExport, newStatus := newStatus)
  }

  /** The next statement of a request: its effect, and where the request then is, unless it has ended. */
  function Advance(t: Tables, p: Pending): (Tables, Option<Phase>) {
    match p.phase
    case Fetched(target) => (t, if Passes(t, p.q, target) then Some(Checked) else None)
    case Checked =>
      if !p.q.Patch? then (Commit(t, p.q).0, None)
      else if Has(t, p.q.org, p.q.id) then (t, Some(Updating(p.q.newRole, p.q.newExport, p.q.newStatus)))
      else (t, None)
    case Updating(r, x, u) =>
      if !p.q.Patch? then (t, None)
      else if r.Some? then (Commit(t, Part(p.q, r, None, None)).0, Some(Updating(None, x, u)))
      else if x.Some? then (Commit(t, Part(p.q, None, x, None)).0, Some(Updating(None, None, u)))
      else if u.Some? then (Commit(t, Part(p.q, None, None, u)).0, Some(Updating(None, None, None)))
      else (t, None)
  }

  predicate Enabled(s: State, e: Step) {
    match e
    case Start(i, q) => i !in s.busy && Fetch(s.t, q).Some?
    case Next(i) => i in s.busy
    case Fail(i) => i in s.busy
  }

  function Apply(s: State, e: Step): State
    requires Enabled(s, e)
  {
    match e
    case Start(i, q) => s.(busy := s.busy[i := Pending(q, Fetch(s.t, q).value)])
    case Next(i) =>
      var (t, phase) := Advance(s.t, s.busy[i]);
      State(t, if phase.Some? then s.busy[i := s.busy[i].(phase := phase.value)] else s.busy - {i})
    case Fail(i) => s.(busy := s.busy - {i})
  }

  predicate Valid(t: Tables, run: seq<Step>)
    decreases |run|, 0
  {
    run == [] || (Valid(t, run[..|run| - 1]) && Enabled(After(t, run[..|run| - 1]), run[|run| - 1]))
  }

  function After(t: Tables, run: seq<Step>): State
    requires Valid(t, run)
    decreases |run|, 1
  {
    if run == [] then State(t, map[]) else Apply(After(t, run[..|run| - 1]), run[|run| - 1])
  }

  lemma Extends(t: Tables, run: seq<Step>, s: State, e: Step)
    requires Valid(t, run) && After(t, run) == s && Enabled(s, e)
    ensures Valid(t, run + [e]) && After(t, run + [e]) == Apply(s, e)
  {
    hide Enabled, Apply;
    assert (run + [e])[..|run|] == run;
  }

  lemma StartsEmpty(t: Tables)
    ensures Valid(t, []) && After(t, []) == State(t, map[])
  {
  }

  /* ---------- one request alone ---------- */

  lemma PassesAlone(t: Tables, q: Request)
    requires Fetch(t, q).Some?
    ensures Passes(t, q, Fetch(t, q).value.target) <==> Verdict(t, q) == Done
  {
    hide Members, Admins;
  }

  /** The statements of UpdateUser together. */
  lemma PartsCompose(t: Tables, q: Request, r: Option<Role>, x: Option<bool>, u: Option<Status>)
    requires q.Patch? && Has(t, q.org, q.id)
    ensures var t1 := Commit(t, Part(q, r, None, None)).0;
            Has(t1, q.org, q.id) && Commit(t1, Part(q, None, x, u)).0 == Commit(t, Part(q, r, x, u)).0
    ensures var t2 := Commit(t, Part(q, None, x, None)).0;
            Has(t2, q.org, q.id) && Commit(t2, Part(q, None, None, u)).0 == Commit(t, Part(q, None, x, u)).0
    ensures Commit(t, Part(q, None, None, None)).0 == t
    ensures var t3 := Commit(t, Part(q, None, None, u)).0;
            Has(t3, q.org, q.id) && Commit(t3, Part(q, None, None, None)).0 == t3
  {
    var a := t.users[q.id := Patched(t.users[q.id], None, None, None)];
    assert a == t.users;
    var b := Commit(t, Part(q, r, None, None)).0.users;
    assert b[q.id := Patched(b[q.id], None, x, u)] == t.users[q.id := Patched(t.users[q.id], r, x, u)];
    var c := Commit(t, Part(q, None, x, None)).0.users;
    assert c[q.id := Patched(c[q.id], None, None, u)] == t.users[q.id := Patched(t.users[q.id], None, x, u)];
    var d := Commit(t, Part(q, None, None, u)).0.users;
    assert d[q.id := Patched(d[q.id], None, None, None)] == d;
  }

  lemma {:induction false} UpdateRuns(t0: Tables, run: seq<Step>, s: State, i: nat) returns (longer: seq<Step>)
    requires Valid(t0, run) && After(t0, run) == s && i in s.busy && s.busy[i].phase.Updating? && s.busy[i].q.Patch?
    requires Has(s.t, s.busy[i].q.org, s.busy[i].q.id)
    ensures Valid(t0, longer)
    ensures var p := s.busy[i];
            After(t0, longer) == State(Commit(s.t,
                Part(p.q, p.phase.newRole, p.phase.newExport, p.phase.newStatus)).0, s.busy - {i})
    decreases s.busy[i].phase.newRole.Some?, s.busy[i].phase.newExport.Some?, s.busy[i].phase.newStatus.Some?
  {
    hide Valid, After, Commit, Has;
    var p := s.busy[i];
    var r, x, u := p.phase.newRole, p.phase.newExport, p.phase.newStatus;
    Extends(t0, run, s, Next(i));
    var t := Apply(s, Next(i));
    longer := run + [Next(i)];
    PartsCompose(s.t, p.q, r, x, u);
    if r.Some? || x.Some? || u.Some? {
      assert t.busy - {i} == s.busy - {i};
      longer := UpdateRuns(t0, longer, t, i);
    }
  }

  /** A request whose steps run without others between them does what Handle says. */
  lemma SoloRuns(t0: Tables, run: seq<Step>, s: State, i: nat, q: Request) returns (longer: seq<Step>)
    requires Valid(t0, run) && After(t0, run) == s && i !in s.busy
    ensures Valid(t0, longer) && After(t0, longer) == State(Handle(s.t, q).0, s.busy)
  {
    hide Valid, After, Commit, Passes, Verdict;
    longer := run;
    if Fetch(s.t, q) == None {
      NotFetched(s.t, q);
    } else {
      PassesAlone(s.t, q);
      Extends(t0, run, s, Start(i, q));
      var a := Apply(s, Start(i, q));
      longer := run + [Start(i, q)];
      Extends(t0, longer, a, Next(i));
      var b := Apply(a, Next(i));
      longer := longer + [Next(i)];
      assert a.busy - {i} == s.busy;
      if Verdict(s.t, q) == Done {
        Extends(t0, longer, b, Next(i));
        var c := Apply(b, Next(i));
        longer := longer + [Next(i)];
        assert b.busy - {i} == s.busy;
        if q.Patch? {
          assert c.busy - {i} == s.busy;
          longer := UpdateRuns(t0, longer, c, i);
          assert Part(q, q.newRole, q.newExport, q.newStatus) == q;
        }
      }
    }
  }

  lemma NotFetched(t: Tables, q: Request)
    requires Fetch(t, q) == None
    ensures Verdict(t, q) != Done
  {
  }

  /* ---------- what one statement writes ---------- */

  /** A request that could take an administrator away, whatever its target is when it is checked. */
  predicate MayRemove(q: Request) {
    q.Delete? || (q.Patch? && ((q.newRole.Some? && q.newRole.value != OrgAdmin)
        || (q.newStatus.Some? && q.newStatus.value != Active)))
  }

  /** UpdateUser sets nothing that was not asked for. */
  predicate Sound(p: Pending) {
    p.phase.Updating? ==>
      && p.q.Patch? && (p.phase.newRole.Some? ==> p.phase.newRole == p.q.newRole)
      && (p.phase.newExport.Some? ==> p.phase.newExport == p.q.newExport)
      && (p.phase.newStatus.Some? ==> p.phase.newStatus == p.q.newStatus)
  }

  predicate AllSound(s: State) { forall i :: i in s.busy ==> Sound(s.busy[i]) }

  lemma SoundStep(s: State, e: Step)
    requires AllSound(s) && Enabled(s, e)
    ensures AllSound(Apply(s, e))
  {
    hide Commit, Passes, Has, Sound;
    var t := Apply(s, e);
    forall i | i in t.busy ensures Sound(t.busy[i]) {
      if i in s.busy {
        assert Sound(s.busy[i]);
        if e.Next? && i == e.i { SoundNext(s.t, s.busy[i]); }
      } else {
        SoundStart(t.busy[i]);
      }
    }
  }

  lemma SoundNext(t: Tables, p: Pending)
    requires Sound(p) && Advance(t, p).1.Some?
    ensures Sound(p.(phase := Advance(t, p).1.value))
  {
    hide Commit, Passes, Has;
  }

  lemma SoundStart(p: Pending)
    requires p.phase.Fetched?
    ensures Sound(p)
  {
  }

  /** A step of a request writes nothing, or commits a part of the request. */
  lemma Writes(t: Tables, p: Pending) returns (w: Request)
    requires Sound(p)
    ensures Advance(t, p).0 == t || Advance(t, p).0 == Commit(t, w).0
    ensures w.org == p.q.org && w.id == p.q.id && (MayRemove(w) ==> MayRemove(p.q))
    ensures w.Create? ==> p.q.Create? && (p.phase.Checked? || Advance(t, p).0 == t)
  {
    hide Commit, Passes;
    w := p.q;
    if p.phase.Updating? {
      w := if p.phase.newRole.Some? then Part(p.q, p.phase.newRole, None, None)
           else if p.phase.newExport.Some? then Part(p.q, None, p.phase.newExport, None)
           else Part(p.q, None, None, p.phase.newStatus);
    }
  }

  /* ---------- the user limit ---------- */

  predicate IsCreating(p: Pending, org: Uuid) { p.q.Create? && p.q.org == org && p.phase.Checked? }

  /** The creates of an organization that have counted its users and not yet written. */
  function Creating(s: State, org: Uuid): set<nat> { set i | i in s.busy && IsCreating(s.busy[i], org) }

  /** At no time are there more than k of them. */
  predicate AtMost(t: Tables, run: seq<Step>, org: Uuid, k: nat)
    requires Valid(t, run)
  {
    |Creating(After(t, run), org)| <= k && (run == [] || AtMost(t, run[..|run| - 1], org, k))
  }

  predicate Bounded(s: State, org: Uuid, k: nat) {
    org in s.t.limits && |Members(s.t, org)| + |Creating(s, org)| < s.t.limits[org] + k
  }

  lemma CreatingHas(s: State, i: nat, org: Uuid)
    ensures i in Creating(s, org) <==> i in s.busy && IsCreating(s.busy[i], org)
  {
  }

  /** States that agree but for request i. */
  lemma CreatingSize(s: State, t: State, i: nat, org: Uuid)
    requires s.busy - {i} == t.busy - {i}
    ensures |Creating(t, org)| - (if i in t.busy && IsCreating(t.busy[i], org) then 1 else 0)
         == |Creating(s, org)| - (if i in s.busy && IsCreating(s.busy[i], org) then 1 else 0)
  {
    hide Creating, IsCreating;
    SizeWithoutNat(Creating(s, org), i);
    SizeWithoutNat(Creating(t, org), i);
    BusyApart(s, t, i, org);
    CreatingHas(s, i, org);
    CreatingHas(t, i, org);
  }

  lemma BusyApart(s: State, t: State, i: nat, org: Uuid)
    requires s.busy - {i} == t.busy - {i}
    ensures Creating(s, org) - {i} == Creating(t, org) - {i}
  {
    hide Creating, IsCreating;
    forall j ensures j in Creating(s, org) - {i} <==> j in Creating(t, org) - {i} {
      if j >= 0 {
        CreatingHas(s, j, org);
        CreatingHas(t, j, org);
        assert j != i ==> (j in s.busy <==> j in s.busy - {i}) && (j in t.busy <==> j in t.busy - {i});
      }
    }
  }

  lemma SizeWithoutNat(a: set<nat>, x: nat)
    ensures |a - {x}| == |a| - if x in a then 1 else 0
  {
    if x in a { assert a == (a - {x}) + {x}; } else { assert a - {x} == a; }
  }

  lemma StepBusy(s: State, e: Step)
    requires Enabled(s, e)
    ensures s.busy - {e.i} == Apply(s, e).busy - {e.i}
  {
    hide Commit, Passes, Fetch;
  }

  lemma BoundedStep(s: State, e: Step, org: Uuid, k: nat)
    requires Bounded(s, org, k) && AllSound(s) && Enabled(s, e) && |Creating(Apply(s, e), org)| <= k
    ensures Bounded(Apply(s, e), org, k) && Apply(s, e).t.limits == s.t.limits
  {
    hide Members, Creating, Commit;
    StepBusy(s, e);
    CreatingSize(s, Apply(s, e), e.i, org);
    if e.Next? {
      var w := Writes(s.t, s.busy[e.i]);
      CommitSizes(s.t, w, org);
      CommitSets(s.t, w, org);
    }
  }

  lemma {:induction false} BoundedRun(t: Tables, run: seq<Step>, org: Uuid, k: nat)
    requires Valid(t, run) && WithinLimit(t, org) && k >= 1 && AtMost(t, run, org, k)
    ensures Bounded(After(t, run), org, k) && AllSound(After(t, run)) && After(t, run).t.limits == t.limits
  {
    hide Bounded, Apply, Enabled, AllSound;
    if run == [] {
      StartBounded(t, org, k);
    } else {
      var front := run[..|run| - 1];
      BoundedRun(t, front, org, k);
      SoundStep(After(t, front), run[|run| - 1]);
      BoundedStep(After(t, front), run[|run| - 1], org, k);
    }
  }

  lemma StartBounded(t: Tables, org: Uuid, k: nat)
    requires WithinLimit(t, org) && k >= 1
    ensures Bounded(State(t, map[]), org, k) && AllSound(State(t, map[]))
  {
  }

  /** Requests of all kinds interleave statement by statement, and at most k creates of an organization are
      between their count and their insert at once: its users never exceed the limit by k or more. */
  lemma OvershootBound(t: Tables, run: seq<Step>, org: Uuid, k: nat)
    requires Valid(t, run) && WithinLimit(t, org) && k >= 1 && AtMost(t, run, org, k)
    ensures |Members(After(t, run).t, org)| <= t.limits[org] + k - 1
  {
    hide Members, Creating;
    BoundedRun(t, run, org, k);
  }

  /* ---------- the bound is reached ---------- */

  predicate FreshCreates(t: Tables, qs: seq<Request>, org: Uuid) {
    && (forall i :: 0 <= i < |qs| ==>
          qs[i].Create? && qs[i].org == org && qs[i].id !in t.users && !Taken(t, qs[i].email))
    && (forall i, j :: 0 <= i < j < |qs| ==> qs[i].id != qs[j].id && qs[i].email != qs[j].email)
  }

  lemma CreateCommits(t: Tables, q: Request)
    requires q.Create? && q.id !in t.users && !Taken(t, q.email)
    ensures Commit(t, q).0.users == t.users[q.id := User(q.org, q.email, q.role, q.canExport, Active)]
  {
    hide Taken;
  }

  lemma TakenNext(t: Tables, t': Tables, id: Uuid, u: User, email: string)
    requires t'.users == t.users[id := u] && id !in t.users && !Taken(t, email) && u.email != email
    ensures !Taken(t', email)
  {
    forall x | x in t'.users ensures t'.users[x].email != email { if x != id { assert x in t.users; } }
  }

  lemma NextCreate(t: Tables, qs: seq<Request>, org: Uuid)
    requires qs != [] && FreshCreates(t, qs, org)
    ensures var t' := Commit(t, qs[0]).0;
            && FreshCreates(t', qs[1..], org) && |Members(t', org)| == |Members(t, org)| + 1
  {
    hide Commit, Taken, IsUuid;
    var t', q := Commit(t, qs[0]).0, qs[0];
    CreateCommits(t, q);
    assert Members(t', org) == Members(t, org) + {q.id};
    forall i | 1 <= i < |qs| ensures !Taken(t', qs[i].email) && qs[i].id !in t'.users {
      assert q.email != qs[i].email;
      TakenNext(t, t', q.id, t'.users[q.id], qs[i].email);
    }
  }

  function Numbered(qs: seq<Request>, lo: nat): map<nat, Pending>
    requires lo <= |qs|
  {
    map i: nat | lo <= i < |qs| :: Pending(qs[i], Checked)
  }

  lemma {:induction false} AllChecked(t: Tables, qs: seq<Request>, org: Uuid) returns (run: seq<Step>)
    requires org in t.limits && |Members(t, org)| < t.limits[org] && FreshCreates(t, qs, org)
    ensures Valid(t, run) && After(t, run) == State(t, Numbered(qs, 0))
  {
    hide Members, Taken, Valid, After;
    if qs == [] {
      run := [];
      StartsEmpty(t);
      assert Numbered(qs, 0) == map[];
    } else {
      var n := |qs| - 1;
      run := AllChecked(t, qs[..n], org);
      var s := State(t, Numbered(qs[..n], 0));
      Extends(t, run, s, Start(n, qs[n]));
      run := run + [Start(n, qs[n])];
      var u := s.(busy := s.busy[n := Pending(qs[n], Fetched(None))]);
      assert After(t, run) == u;
      Extends(t, run, u, Next(n));
      run := run + [Next(n)];
      assert u.busy[n := Pending(qs[n], Checked)] == Numbered(qs, 0);
    }
  }

  lemma {:induction false} AllFinished(t0: Tables, run: seq<Step>, t: Tables, all: seq<Request>, lo: nat, org: Uuid)
    returns (longer: seq<Step>)
    requires Valid(t0, run) && lo <= |all| && After(t0, run) == State(t, Numbered(all, lo))
    requires FreshCreates(t, all[lo..], org)
    ensures Valid(t0, longer) && |Members(After(t0, longer).t, org)| == |Members(t, org)| + |all| - lo
    decreases |all| - lo
  {
    hide Members, Valid, After, Commit, Taken;
    longer := run;
    if lo < |all| {
      NextCreate(t, all[lo..], org);
      assert all[lo] == all[lo..][0];
      Extends(t0, run, State(t, Numbered(all, lo)), Next(lo));
      assert Numbered(all, lo) - {lo} == Numbered(all, lo + 1);
      assert all[lo..][1..] == all[lo + 1..];
      longer := AllFinished(t0, run + [Next(lo)], Commit(t, all[lo]).0, all, lo + 1, org);
    }
  }

  /** k creates that all count before any writes take an organization one short of its limit to k - 1 over it. */
  lemma OvershootReached(t: Tables, qs: seq<Request>, org: Uuid) returns (run: seq<Step>)
    requires org in t.limits && |Members(t, org)| + 1 == t.limits[org] && FreshCreates(t, qs, org)
    ensures Valid(t, run) && |Members(After(t, run).t, org)| == t.limits[org] + |qs| - 1
  {
    hide Members, FreshCreates, Valid, After;
    run := AllChecked(t, qs, org);
    assert qs[0..] == qs;
    run := AllFinished(t, run, t, qs, 0, org);
  }

  /* ---------- the last administrator ---------- */

  /** The requests under way, from the read of their target to their last statement, that could take an
      administrator of the organization away. */
  function Removing(s: State, org: Uuid): (r: set<nat>)
    ensures r <= s.busy.Keys
  {
    set i | i in s.busy && s.busy[i].q.org == org && MayRemove(s.busy[i].q)
  }

  predicate OneRemoval(s: State, org: Uuid) { forall i, j :: i in Removing(s, org) && j in Removing(s, org) ==> i == j }

  /** At every moment at most one such request is under way. */
  predicate RemovalsApart(t: Tables, run: seq<Step>, org: Uuid)
    requires Valid(t, run)
  {
    OneRemoval(After(t, run), org) && (run == [] || RemovalsApart(t, run[..|run| - 1], org))
  }

  /** A removal has yet to be counted against its target, or leaves someone besides its target. */
  predicate Safe(t: Tables, p: Pending) {
    (p.phase.Fetched? && p.phase.target.Some? && IsActiveAdmin(p.phase.target.value))
        || Admins(t, p.q.org) - {p.q.id} != {}
  }

  predicate Guarded(s: State, org: Uuid) {
    Admins(s.t, org) != {} && forall i :: i in Removing(s, org) ==> Safe(s.t, s.busy[i])
  }

  lemma Others(a: set<Uuid>, x: Uuid)
    requires |a| >= 2 || (x !in a && a != {})
    ensures a - {x} != {}
  {
    SizeWithout(a, x);
  }

  /** Every other request keeps every administrator. */
  lemma KeepsAdmins(t: Tables, q: Request, org: Uuid)
    requires !MayRemove(q) || q.org != org
    ensures Admins(t, org) <= Admins(Commit(t, q).0, org)
  {
    hide Commit, Admins;
    var t' := Commit(t, q).0;
    CommitSets(t, q, org);
    if q.org == org && q.id in Admins(t, org) { KeepsTarget(t, q); }
    forall id | id in Admins(t, org) ensures id in Admins(t', org) {
      if id != q.id { assert id in Admins(t, org) - {q.id}; }
    }
  }

  lemma KeepsTarget(t: Tables, q: Request)
    requires !MayRemove(q) && q.id in Admins(t, q.org)
    ensures q.id in Admins(Commit(t, q).0, q.org)
  {
    hide Taken;
  }

  lemma RemovingHas(s: State, i: nat, org: Uuid)
    ensures i in Removing(s, org) <==> i in s.busy && s.busy[i].q.org == org && MayRemove(s.busy[i].q)
  {
    hide MayRemove;
  }

  /** The target as it was read is as it is, so a removal is safe when it starts. */
  lemma SafeStart(t: Tables, q: Request)
    requires MayRemove(q) && Fetch(t, q).Some? && Admins(t, q.org) != {}
    ensures Safe(t, Pending(q, Fetch(t, q).value))
  {
    if q.id !in Admins(t, q.org) {
      hide Admins;
      Others(Admins(t, q.org), q.id);
    }
  }

  /** A removal that is counted against an active administrator leaves another. */
  lemma SafePasses(t: Tables, q: Request, target: Option<User>)
    requires MayRemove(q) && Passes(t, q, target) && target.Some? && IsActiveAdmin(target.value)
    ensures Admins(t, q.org) - {q.id} != {}
  {
    hide Admins;
    Others(Admins(t, q.org), q.id);
  }

  /** A removal's own step. */
  lemma OwnStep(t: Tables, p: Pending)
    requires Sound(p) && MayRemove(p.q) && Safe(t, p) && Admins(t, p.q.org) != {}
    ensures var (t', phase) := Advance(t, p);
            Admins(t', p.q.org) != {} && (phase.Some? ==> Safe(t', p.(phase := phase.value)))
  {
    hide Admins, Commit, MayRemove, Passes, Has;
    if p.phase.Fetched? {
      if Passes(t, p.q, p.phase.target) && p.phase.target.Some? && IsActiveAdmin(p.phase.target.value) {
        SafePasses(t, p.q, p.phase.target);
      }
    } else {
      var w := Writes(t, p);
      CommitSets(t, w, p.q.org);
    }
  }

  /** Any other request's step keeps every administrator. */
  lemma OtherStep(t: Tables, p: Pending, org: Uuid)
    requires Sound(p) && (!MayRemove(p.q) || p.q.org != org)
    ensures Admins(t, org) <= Admins(Advance(t, p).0, org)
  {
    hide Admins, Commit, MayRemove, Passes, Has, Advance;
    var w := Writes(t, p);
    KeepsAdmins(t, w, org);
  }

  lemma SafeGrows(t: Tables, t': Tables, p: Pending)
    requires Safe(t, p) && Admins(t, p.q.org) <= Admins(t', p.q.org)
    ensures Safe(t', p)
  {
    hide Admins;
    if Admins(t, p.q.org) - {p.q.id} != {} {
      var x :| x in Admins(t, p.q.org) - {p.q.id};
      assert x in Admins(t', p.q.org) - {p.q.id};
    }
  }

  lemma GuardedStep(s: State, e: Step, org: Uuid)
    requires Guarded(s, org) && AllSound(s) && Enabled(s, e) && OneRemoval(s, org)
    ensures Guarded(Apply(s, e), org)
  {
    hide Advance, Admins, MayRemove, Removing, Safe, Fetch;
    var u := Apply(s, e);
    assert e.i in s.busy ==> Sound(s.busy[e.i]);
    RemovingHas(s, e.i, org);
    if e.Next? {
      if e.i in Removing(s, org) { OwnStep(s.t, s.busy[e.i]); } else { OtherStep(s.t, s.busy[e.i], org); }
    }
    forall i | i in Removing(u, org) ensures Safe(u.t, u.busy[i]) {
      RemovingHas(u, i, org);
      RemovingHas(s, i, org);
      if e.Start? && i == e.i {
        SafeStart(s.t, e.q);
      } else if e.Next? && i != e.i {
        SafeGrows(s.t, u.t, s.busy[i]);
      }
    }
    if e.Next? && e.i !in Removing(s, org) {
      var x :| x in Admins(s.t, org);
      assert x in Admins(u.t, org);
    }
  }

  lemma {:induction false} GuardedRun(t: Tables, run: seq<Step>, org: Uuid)
    requires Valid(t, run) && RemovalsApart(t, run, org) && Admins(t, org) != {}
    ensures Guarded(After(t, run), org) && AllSound(After(t, run))
  {
    hide Guarded, OneRemoval, Apply, Enabled, Admins, AllSound;
    if run == [] {
      StartGuarded(t, org);
    } else {
      var front := run[..|run| - 1];
      GuardedRun(t, front, org);
      SoundStep(After(t, front), run[|run| - 1]);
      GuardedStep(After(t, front), run[|run| - 1], org);
    }
  }

  lemma StartGuarded(t: Tables, org: Uuid)
    requires Admins(t, org) != {}
    ensures Guarded(State(t, map[]), org) && AllSound(State(t, map[]))
  {
    hide Admins;
  }

  /** Requests of all kinds interleave statement by statement, and any may fail half way, but of those that
      demote, disable or delete a user of the organization at most one is under way at a time, from the read
      of its target to its last statement: once the organization has an active administrator it keeps one.
      Neither part of the condition can go: see LastAdminsRace and StaleTarget. */
  lemma AdminKept(t: Tables, run: seq<Step>, org: Uuid)
    requires Valid(t, run) && RemovalsApart(t, run, org) && Admins(t, org) != {}
    ensures Admins(After(t, run).t, org) != {}
  {
    hide Admins, Removing, Safe;
    GuardedRun(t, run, org);
  }

  /* ---------- where it goes wrong ---------- */

  /** Two administrators who demote each other at once leave the organization without one. */
  lemma LastAdminsRace(t: Tables, org: Uuid, a: Uuid, b: Uuid) returns (run: seq<Step>)
    requires a != b && Admins(t, org) == {a, b}
    ensures Valid(t, run) && Admins(After(t, run).t, org) == {}
  {
    hide Valid, After, Taken, Commit, IsUuid;
    assert a in Admins(t, org) && b in Admins(t, org);
    var p, q := Patch(org, a, b, Some(OrgUser), None, None), Patch(org, b, a, Some(OrgUser), None, None);
    var x, y := Fetched(Some(t.users[b])), Fetched(Some(t.users[a]));
    var set_ := Updating(Some(OrgUser), None, None);
    StartsEmpty(t);
    TwoOf(a, b);
    Extends(t, [], State(t, map[]), Start(0, p));
    run := [] + [Start(0, p)];
    Extends(t, run, State(t, map[0 := Pending(p, x)]), Start(1, q));
    run := run + [Start(1, q)];
    Extends(t, run, State(t, map[0 := Pending(p, x), 1 := Pending(q, y)]), Next(0));
    run := run + [Next(0)];
    Extends(t, run, State(t, map[0 := Pending(p, Checked), 1 := Pending(q, y)]), Next(1));
    run := run + [Next(1)];
    Extends(t, run, State(t, map[0 := Pending(p, Checked), 1 := Pending(q, Checked)]), Next(0));
    run := run + [Next(0)];
    Extends(t, run, State(t, map[0 := Pending(p, set_), 1 := Pending(q, Checked)]), Next(1));
    run := run + [Next(1)];
    var s := State(t, map[0 := Pending(p, set_), 1 := Pending(q, set_)]);
    assert After(t, run) == s;
    Extends(t, run, s, Next(0));
    run := run + [Next(0)];
    var u := Apply(s, Next(0));
    assert Part(p, Some(OrgUser), None, None) == p && Part(q, Some(OrgUser), None, None) == q;
    Extends(t, run, u, Next(1));
    run := run + [Next(1)];
    BothDemoted(t, org, a, b);
  }

  lemma BothDemoted(t: Tables, org: Uuid, a: Uuid, b: Uuid)
    requires a != b && Admins(t, org) == {a, b}
    ensures var t1 := Commit(t, Patch(org, a, b, Some(OrgUser), None, None)).0;
            Admins(Commit(t1, Patch(org, b, a, Some(OrgUser), None, None)).0, org) == {}
  {
    assert a in Admins(t, org) && b in Admins(t, org);
    var t1 := Commit(t, Patch(org, a, b, Some(OrgUser), None, None)).0;
    var t2 := Commit(t1, Patch(org, b, a, Some(OrgUser), None, None)).0;
    forall id ensures id !in Admins(t2, org) {
      assert id in Admins(t, org) <==> id == a || id == b;
    }
  }

  lemma TwoOf(a: Uuid, b: Uuid)
    requires a != b
    ensures |{a, b}| == 2
  {
  }

  /** The removals of an organization that are past their checks. */
  function PastChecks(s: State, org: Uuid): set<nat> {
    set i | i in Removing(s, org) && i in s.busy && !s.busy[i].phase.Fetched?
  }

  /** At every moment at most one removal is between its count and its last statement. */
  predicate WritesApart(t: Tables, run: seq<Step>, org: Uuid)
    requires Valid(t, run)
  {
    && (forall i, j :: i in PastChecks(After(t, run), org) && j in PastChecks(After(t, run), org) ==> i == j)
    && (run == [] || WritesApart(t, run[..|run| - 1], org))
  }

  /** Only the request with this number, if any, is a removal past its checks. */
  predicate OnlyPast(s: State, org: Uuid, n: nat) {
    forall i :: i in s.busy && i != n && s.busy[i].q.org == org && MayRemove(s.busy[i].q) ==> s.busy[i].phase.Fetched?
  }

  lemma Goes(t: Tables, run: seq<Step>, s: State, e: Step, u: State, org: Uuid, n: nat)
    requires Valid(t, run) && After(t, run) == s && WritesApart(t, run, org)
    requires Enabled(s, e) && Apply(s, e) == u && OnlyPast(u, org, n)
    ensures Valid(t, run + [e]) && After(t, run + [e]) == u && WritesApart(t, run + [e], org)
  {
    hide Enabled, Apply, MayRemove;
    Extends(t, run, s, e);
    assert (run + [e])[..|run|] == run;
  }

  lemma NothingPast(t: Tables, org: Uuid)
    ensures Valid(t, []) && After(t, []) == State(t, map[]) && WritesApart(t, [], org)
  {
  }

  /** What the tables are once x has been promoted and y deleted. */
  lemma Promoted(t: Tables, org: Uuid, x: Uuid, y: Uuid)
    requires x != y && Admins(t, org) == {y} && Has(t, org, x) && t.users[x].status == Active
    ensures var t1 := Commit(t, Patch(org, y, x, Some(OrgAdmin), None, None)).0;
            var t2 := Commit(t1, Delete(org, x, y)).0;
            && Has(t1, org, x) && Has(t1, org, y) && Admins(t1, org) == {x, y} && IsActiveAdmin(t1.users[y])
            && Has(t2, org, x) && Admins(Commit(t2, Delete(org, y, x)).0, org) == {}
  {
    assert y in Admins(t, org);
    var t1 := Commit(t, Patch(org, y, x, Some(OrgAdmin), None, None)).0;
    var t2 := Commit(t1, Delete(org, x, y)).0;
    var t3 := Commit(t2, Delete(org, y, x)).0;
    forall id ensures id in Admins(t1, org) <==> id == x || id == y { assert id in Admins(t, org) <==> id == y; }
    forall id ensures id !in Admins(t3, org) { assert id in Admins(t, org) <==> id == y; }
  }

  /** It is not enough that no two removals are between their count and their writes. While a delete of x,
      read as an ordinary user, waits for its check, y promotes x and x deletes y; the delete goes on without a
      count and takes the only administrator away. */
  lemma StaleTarget(t: Tables, org: Uuid, x: Uuid, y: Uuid) returns (run: seq<Step>)
    requires x != y && Admins(t, org) == {y} && Has(t, org, x) && t.users[x].status == Active
        && t.users[x].role == OrgUser
    ensures Valid(t, run) && WritesApart(t, run, org) && Admins(After(t, run).t, org) == {}
  {
    hide Valid, After, WritesApart, Commit, Taken;
    var d, p, e := Delete(org, y, x), Patch(org, y, x, Some(OrgAdmin), None, None), Delete(org, x, y);
    assert y in Admins(t, org);
    var wait := Pending(d, Fetched(Some(t.users[x])));
    NothingPast(t, org);
    Goes(t, [], State(t, map[]), Start(0, d), State(t, map[0 := wait]), org, 0);
    run := [] + [Start(0, d)];
    run := Promotes(t, run, t, org, x, wait, p);
    Promoted(t, org, x, y);
    var t1 := Commit(t, p).0;
    TwoOf(x, y);
    run := Deletes(t, run, t1, org, wait, e);
    var t2 := Commit(t1, e).0;
    Goes(t, run, State(t2, map[0 := wait]), Next(0), State(t2, map[0 := Pending(d, Checked)]), org, 0);
    run := run + [Next(0)];
    assert map[0 := Pending(d, Checked)] - {0} == map[];
    Goes(t, run, State(t2, map[0 := Pending(d, Checked)]), Next(0), State(Commit(t2, d).0, map[]), org, 0);
    run := run + [Next(0)];
  }

  lemma Promotes(t0: Tables, run: seq<Step>, t: Tables, org: Uuid, x: Uuid, wait: Pending, p: Request)
    returns (longer: seq<Step>)
    requires Valid(t0, run) && After(t0, run) == State(t, map[0 := wait]) && WritesApart(t0, run, org)
    requires Has(t, org, x) && wait.phase.Fetched? && p.Patch?
        && p == Patch(org, p.actor, x, Some(OrgAdmin), None, None)
    ensures Valid(t0, longer) && After(t0, longer) == State(Commit(t, p).0, map[0 := wait])
        && WritesApart(t0, longer, org)
  {
    hide Valid, After, WritesApart, Commit, Taken, IsUuid;
    var a := Fetched(Some(t.users[x]));
    Goes(t0, run, State(t, map[0 := wait]), Start(1, p), State(t, map[0 := wait, 1 := Pending(p, a)]), org, 1);
    longer := run + [Start(1, p)];
    Goes(t0, longer, State(t, map[0 := wait, 1 := Pending(p, a)]), Next(1),
        State(t, map[0 := wait, 1 := Pending(p, Checked)]), org, 1);
    longer := PromoteWrites(t0, longer + [Next(1)], t, org, x, wait, p);
  }

  lemma PromoteWrites(t0: Tables, run: seq<Step>, t: Tables, org: Uuid, x: Uuid, wait: Pending, p: Request)
    returns (longer: seq<Step>)
    requires Valid(t0, run) && After(t0, run) == State(t, map[0 := wait, 1 := Pending(p, Checked)])
        && WritesApart(t0, run, org)
    requires Has(t, org, x) && wait.phase.Fetched? && p.Patch?
        && p == Patch(org, p.actor, x, Some(OrgAdmin), None, None)
    ensures Valid(t0, longer) && After(t0, longer) == State(Commit(t, p).0, map[0 := wait])
        && WritesApart(t0, longer, org)
  {
    hide Valid, After, WritesApart, Commit, Taken, IsUuid;
    var b, none := Updating(Some(OrgAdmin), None, None), Updating(None, None, None);
    Goes(t0, run, State(t, map[0 := wait, 1 := Pending(p, Checked)]), Next(1),
        State(t, map[0 := wait, 1 := Pending(p, b)]), org, 1);
    longer := run + [Next(1)];
    var u := Commit(t, p).0;
    assert Part(p, Some(OrgAdmin), None, None) == p;
    Goes(t0, longer, State(t, map[0 := wait, 1 := Pending(p, b)]), Next(1),
        State(u, map[0 := wait, 1 := Pending(p, none)]), org, 1);
    longer := longer + [Next(1)];
    assert map[0 := wait, 1 := Pending(p, none)] - {1} == map[0 := wait];
    Goes(t0, longer, State(u, map[0 := wait, 1 := Pending(p, none)]), Next(1), State(u, map[0 := wait]), org, 1);
    longer := longer + [Next(1)];
  }

  lemma Deletes(t0: Tables, run: seq<Step>, t: Tables, org: Uuid, wait: Pending, e: Request) returns (longer: seq<Step>)
    requires Valid(t0, run) && After(t0, run) == State(t, map[0 := wait]) && WritesApart(t0, run, org)
    requires wait.phase.Fetched? && e.Delete? && e.org == org && e.actor != e.id && Has(t, org, e.id)
        && |Admins(t, org)| > 1
    ensures Valid(t0, longer) && After(t0, longer) == State(Commit(t, e).0, map[0 := wait])
        && WritesApart(t0, longer, org)
  {
    hide Valid, After, WritesApart, Commit, Taken, Admins;
    var a := Fetched(Some(t.users[e.id]));
    Goes(t0, run, State(t, map[0 := wait]), Start(1, e), State(t, map[0 := wait, 1 := Pending(e, a)]), org, 1);
    longer := run + [Start(1, e)];
    Goes(t0, longer, State(t, map[0 := wait, 1 := Pending(e, a)]), Next(1),
        State(t, map[0 := wait, 1 := Pending(e, Checked)]), org, 1);
    longer := longer + [Next(1)];
    assert map[0 := wait, 1 := Pending(e, Checked)] - {1} == map[0 := wait];
    Goes(t0, longer, State(t, map[0 := wait, 1 := Pending(e, Checked)]), Next(1),
        State(Commit(t, e).0, map[0 := wait]), org, 1);
    longer := longer + [Next(1)];
  }
}
