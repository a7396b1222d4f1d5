/** User administration of the organizations: the user limit and the last active administrator. */
module Users {
  import opened Text
  import opened Telemetry

  datatype Role = OrgAdmin | OrgUser
  datatype Status = Active | Disabled

  datatype User = User(org: Uuid, email: string, role: Role, canExport: bool, status: Status)

  /** The user limit of each organization, and the users by id. */
  datatype Tables = Tables(limits: map<Uuid, nat>, users: map<Uuid, User>)

  datatype Outcome = Done | NotFound | LimitReached | Conflict | LastAdmin | Forbidden | Internal

  /** A request that passed parsing, from a user of the organization. A create names the id the database will give. */
  datatype Request =
    | Create(org: Uuid, id: Uuid, email: string, role: Role, canExport: bool)
    | Patch(org: Uuid, actor: Uuid, id: Uuid, newRole: Option<Role>, newExport: Option<bool>, newStatus: Option<Status>)
    | Delete(org: Uuid, actor: Uuid, id: Uuid)

  function Members(t: Tables, org: Uuid): set<Uuid> { set id | id in t.users && t.users[id].org == org }

  predicate IsActiveAdmin(u: User) { u.role == OrgAdmin && u.status == Active }

  function Admins(t: Tables, org: Uuid): set<Uuid> {
    set id | id in t.users && t.users[id].org == org && IsActiveAdmin(t.users[id])
  }

  predicate Has(t: Tables, org: Uuid, id: Uuid) { id in t.users && t.users[id].org == org }

  predicate Taken(t: Tables, email: string) { exists id :: id in t.users && t.users[id].email == email }

  predicate Demotes(u: User, r: Option<Role>) { r.Some? && r.value != OrgAdmin && IsActiveAdmin(u) }

  predicate Disables(u: User, s: Option<Status>) { s.Some? && s.value != Active && IsActiveAdmin(u) }

  function Or<T>(o: Option<T>, d: T): T { if o.Some? then o.value else d }

  /** The checks a handler makes before it writes. */
  function Verdict(t: Tables, q: Request): Outcome {
    match q
    case Create(org, id, email, role, canExport) =>
      if org !in t.limits then Internal
      else if |Members(t, org)| >= t.limits[org] then LimitReached
      else Done
    case Patch(org, actor, id, newRole, newExport, newStatus) =>
      if !Has(t, org, id) then NotFound
      else
        var u := t.users[id];
        if (Demotes(u, newRole) || Disables(u, newStatus)) && |Admins(t, org)| <= 1 then LastAdmin
        else if actor == id && newStatus.Some? && newStatus.value != Active then Forbidden
        else if actor == id && newRole.Some? && newRole.value != OrgAdmin then Forbidden
        else Done
    case Delete(org, actor, id) =>
      if !Has(t, org, id) then NotFound
      else if IsActiveAdmin(t.users[id]) && |Admins(t, org)| <= 1 then LastAdmin
      else if actor == id then Forbidden
      else Done
  }

  function Patched(u: User, newRole: Option<Role>, newExport: Option<bool>, newStatus: Option<Status>): User {
    User(u.org, u.email, Or(newRole, u.role), Or(newExport, u.canExport), Or(newStatus, u.status))
  }

  /** The write, which has checks of its own. */
  function Commit(t: Tables, q: Request): (Tables, Outcome) {
    match q
    case Create(org, id, email, role, canExport) =>
      if Taken(t, email) || id in t.users then (t, Conflict)
      else (t.(users := t.users[id := User(org, email, role, canExport, Active)]), Done)
    case Patch(org, actor, id, newRole, newExport, newStatus) =>
      if !Has(t, org, id) then (t, NotFound)
      else (t.(users := t.users[id := Patched(t.users[id], newRole, newExport, newStatus)]), Done)
    case Delete(org, actor, id) =>
      if !Has(t, org, id) then (t, NotFound) else (t.(users := t.users - {id}), Done)
  }

  /** A request that runs alone. */
  function Handle(t: Tables, q: Request): (Tables, Outcome) {
    if Verdict(t, q) == Done then Commit(t, q) else (t, Verdict(t, q))
  }

  /* ---------- what a request does, in terms of the table ---------- */

  /** Only this user changes. */
  predicate OthersSame(t: Tables, t': Tables, id: Uuid) {
    && t'.limits == t.limits
    && (forall x :: x in t.users && x != id ==> x in t'.users && t'.users[x] == t.users[x])
    && forall x :: x in t'.users && x != id ==> x in t.users
  }

  /** Some user of the organization besides this one is an active administrator. */
  predicate AnotherAdmin(t: Tables, org: Uuid, id: Uuid) {
    exists x :: x in t.users && x != id && t.users[x].org == org && t.users[x].role == OrgAdmin
        && t.users[x].status == Active
  }

  lemma OnlyAdmin(t: Tables, org: Uuid, id: Uuid)
    requires id in Admins(t, org)
    ensures |Admins(t, org)| <= 1 <==> !AnotherAdmin(t, org, id)
  {
    var a := Admins(t, org);
    SizeWithout(a, id);
    if AnotherAdmin(t, org, id) {
      var x :| x in t.users && x != id && t.users[x].org == org && t.users[x].role == OrgAdmin
        && t.users[x].status == Active;
      assert x in a - {id};
    } else {
      assert a - {id} == {};
    }
  }

  /** A create is refused at the limit and for a taken email or id; else it adds an active user with the values
      asked for. */
  lemma CreateExact(t: Tables, org: Uuid, id: Uuid, email: string, role: Role, canExport: bool)
    ensures var (t', r) := Handle(t, Create(org, id, email, role, canExport));
            var full := org in t.limits && |set x | x in t.users && t.users[x].org == org| >= t.limits[org];
            var taken := id in t.users || exists x :: x in t.users && t.users[x].email == email;
            && r == (if org !in t.limits then Internal else if full then LimitReached else if taken then Conflict
                else Done)
            && (r != Done ==> t' == t)
            && (r == Done ==>
                  && OthersSame(t, t', id) && id in t'.users && t'.users[id].org == org && t'.users[id].email == email
                  && t'.users[id].role == role && t'.users[id].canExport == canExport && t'.users[id].status == Active)
  {
    assert (set x | x in t.users && t.users[x].org == org) == Members(t, org);
  }

  /** A patch is refused when it would take the last administrator, and then when it is of oneself and would
      demote or disable; else each column asked for gets its value and every other one keeps it. */
  lemma PatchExact(t: Tables, org: Uuid, actor: Uuid, id: Uuid, newRole: Option<Role>, newExport: Option<bool>,
          newStatus: Option<Status>)
    ensures var (t', r) := Handle(t, Patch(org, actor, id, newRole, newExport, newStatus));
            var here := id in t.users && t.users[id].org == org;
            var loses := newRole == Some(OrgUser) || newStatus == Some(Disabled);
            var last := here && loses && t.users[id].role == OrgAdmin && t.users[id].status == Active
                        && !AnotherAdmin(t, org, id);
            && r == (if !here then NotFound else if last then LastAdmin else if actor == id && loses then Forbidden
                else Done)
            && (r != Done ==> t' == t)
            && (r == Done ==>
                  && OthersSame(t, t', id) && id in t'.users
                  && t'.users[id].org == t.users[id].org && t'.users[id].email == t.users[id].email
                  && t'.users[id].role == (if newRole.Some? then newRole.value else t.users[id].role)
                  && t'.users[id].canExport == (if newExport.Some? then newExport.value else t.users[id].canExport)
                  && t'.users[id].status == if newStatus.Some? then newStatus.value else t.users[id].status)
  {
    hide Admins, AnotherAdmin;
    if Has(t, org, id) && IsActiveAdmin(t.users[id]) {
      AdminHas(t, org, id);
      OnlyAdmin(t, org, id);
    }
  }

  lemma AdminHas(t: Tables, org: Uuid, id: Uuid)
    ensures id in Admins(t, org) <==> Has(t, org, id) && IsActiveAdmin(t.users[id])
  {
  }

  /** A delete is refused when it would take the last administrator, and then when it is of oneself. */
  lemma DeleteExact(t: Tables, org: Uuid, actor: Uuid, id: Uuid)
    ensures var (t', r) := Handle(t, Delete(org, actor, id));
            var here := id in t.users && t.users[id].org == org;
            var last := here && t.users[id].role == OrgAdmin && t.users[id].status == Active
                && !AnotherAdmin(t, org, id);
            && r == (if !here then NotFound else if last then LastAdmin else if actor == id then Forbidden else Done)
            && (r != Done ==> t' == t)
            && (r == Done ==> OthersSame(t, t', id) && id !in t'.users)
  {
    hide Admins, AnotherAdmin;
    if Has(t, org, id) && IsActiveAdmin(t.users[id]) {
      AdminHas(t, org, id);
      OnlyAdmin(t, org, id);
    }
  }

  /* ---------- the handlers ---------- */

  class Directory {
    var limits: map<Uuid, nat>
    var users: map<Uuid, User>

    function Contents(): Tables
      reads this
    {
      Tables(limits, users)
    }

    constructor (limits: map<Uuid, nat>)
      ensures Contents() == Tables(limits, map[])
    {
      this.limits := limits;
      users := map[];
    }

    /** newId is the id the database gives. */
    method CreateUser(org: Uuid, newId: Uuid, email: string, role: Role, canExport: bool) returns (r: Outcome)
      modifies this`users
      ensures (Contents(), r) == Handle(old(Contents()), Create(org, newId, email, role, canExport))
    {
      if org !in limits { return Internal; }
      var n := CountUsers(org);
      if n >= limits[org] { return LimitReached; }
      if Taken(Contents(), email) || newId in users { return Conflict; }
      users := users[newId := User(org, email, role, canExport, Active)];
      r := Done;
    }

    method CountUsers(org: Uuid) returns (n: nat)
      ensures n == |Members(Contents(), org)|
    {
      n := |Members(Contents(), org)|;
    }

    method CountActiveAdmins(org: Uuid) returns (n: nat)
      ensures n == |Admins(Contents(), org)|
    {
      n := |Admins(Contents(), org)|;
    }

    /** Whether an active administrator may go. */
    method GuardLastAdmin(org: Uuid) returns (err: bool)
      ensures err <==> |Admins(Contents(), org)| <= 1
    {
      var n := CountActiveAdmins(org);
      err := n <= 1;
    }

    method PatchUser(org: Uuid, actor: Uuid, id: Uuid, newRole: Option<Role>, newExport: Option<bool>,
            newStatus: Option<Status>) returns (r: Outcome)
      modifies this`users
      ensures (Contents(), r) == Handle(old(Contents()), Patch(org, actor, id, newRole, newExport, newStatus))
    {
      if id !in users || users[id].org != org { return NotFound; }
      var target := users[id];
      var demote := newRole != None && newRole.value != OrgAdmin && target.role == OrgAdmin && target.status == Active;
      var disable := newStatus != None && newStatus.value != Active && target.role == OrgAdmin
          && target.status == Active;
      if demote || disable {
        var err := GuardLastAdmin(org);
        if err { return LastAdmin; }
      }
      if actor == id {
        if newStatus != None && newStatus.value != Active { return Forbidden; }
        if newRole != None && newRole.value != OrgAdmin { return Forbidden; }
      }
      r := UpdateUser(org, id, newRole, newExport, newStatus);
    }

    /** One statement for each column that changes. */
    method UpdateUser(org: Uuid, id: Uuid, newRole: Option<Role>, newExport: Option<bool>,
            newStatus: Option<Status>) returns (r: Outcome)
      modifies this`users
      ensures (Contents(), r) == Commit(old(Contents()), Patch(org, id, id, newRole, newExport, newStatus))
    {
      if id !in users || users[id].org != org { return NotFound; }
      if newRole != None { users := users[id := users[id].(role := newRole.value)]; }
      if newExport != None { users := users[id := users[id].(canExport := newExport.value)]; }
      if newStatus != None { users := users[id := users[id].(status := newStatus.value)]; }
      assert users == old(users)[id := Patched(old(users)[id], newRole, newExport, newStatus)];
      r := Done;
    }

    method DeleteUser(org: Uuid, actor: Uuid, id: Uuid) returns (r: Outcome)
      modifies this`users
      ensures (Contents(), r) == Handle(old(Contents()), Delete(org, actor, id))
    {
      if id !in users || users[id].org != org { return NotFound; }
      if users[id].role == OrgAdmin && users[id].status == Active {
        var err := GuardLastAdmin(org);
        if err { return LastAdmin; }
      }
      if actor == id { return Forbidden; }
      users := users - {id};
      r := Done;
    }
  }

  /* ---------- requests one at a time ---------- */

  lemma CommitOthers(t: Tables, q: Request, id: Uuid)
    requires id != q.id
    ensures id in Commit(t, q).0.users <==> id in t.users
    ensures id in t.users ==> Commit(t, q).0.users[id] == t.users[id]
  {
    hide Taken;
  }

  lemma CommitSelf(t: Tables, q: Request)
    ensures var t' := Commit(t, q).0;
            && t'.limits == t.limits
            && (q.id in t'.users && t'.users[q.id].org != q.org ==> q.id in t.users && t.users[q.id] == t'.users[q.id])
            && (q.id in t.users && t.users[q.id].org != q.org ==> q.id in t'.users && t'.users[q.id] == t.users[q.id])
            && (q.id in t'.users && q.id !in t.users ==> q.Create?)
            && (q.id in t'.users && q.id in t.users ==> t'.users[q.id].org == t.users[q.id].org)
  {
    hide Taken;
  }

  predicate AgreeAt(t: Tables, t': Tables, id: Uuid) {
    (id in t'.users <==> id in t.users) && (id in t.users ==> t'.users[id] == t.users[id])
  }

  lemma MembersApart(t: Tables, t': Tables, x: Uuid, org: Uuid)
    requires forall id: Uuid :: id != x ==> AgreeAt(t, t', id)
    ensures Members(t', org) - {x} == Members(t, org) - {x}
  {
    forall id: Uuid ensures id in Members(t', org) - {x} <==> id in Members(t, org) - {x} {
      if id != x { assert AgreeAt(t, t', id); }
    }
  }

  lemma AdminsApart(t: Tables, t': Tables, x: Uuid, org: Uuid)
    requires forall id: Uuid :: id != x ==> AgreeAt(t, t', id)
    ensures Admins(t', org) - {x} == Admins(t, org) - {x}
  {
    forall id: Uuid ensures id in Admins(t', org) - {x} <==> id in Admins(t, org) - {x} {
      if id != x { assert AgreeAt(t, t', id); }
    }
  }

  lemma SameButOne(a: set<Uuid>, b: set<Uuid>, x: Uuid)
    requires a - {x} == b - {x} && (x in a <==> x in b)
    ensures a == b
  {
    forall y ensures y in a <==> y in b { assert y in a - {x} <==> y in b - {x}; }
  }

  /** The organization's members and active administrators after one write. */
  lemma CommitSets(t: Tables, q: Request, org: Uuid)
    ensures var t' := Commit(t, q).0;
            && t'.limits == t.limits
            && Members(t', org) - {q.id} == Members(t, org) - {q.id}
            && Admins(t', org) - {q.id} == Admins(t, org) - {q.id}
            && (org != q.org ==> Members(t', org) == Members(t, org) && Admins(t', org) == Admins(t, org))
            && (q.id in Members(t', org) && q.id !in Members(t, org) ==> q.Create?)
  {
    hide Commit, AgreeAt, IsActiveAdmin;
    var t' := Commit(t, q).0;
    CommitSelf(t, q);
    forall id: Uuid | id != q.id ensures AgreeAt(t, t', id) { CommitAgrees(t, q, id); }
    MembersApart(t, t', q.id, org);
    AdminsApart(t, t', q.id, org);
    if org != q.org {
      SameButOne(Members(t', org), Members(t, org), q.id);
      SameButOne(Admins(t', org), Admins(t, org), q.id);
    }
  }

  lemma CommitAgrees(t: Tables, q: Request, id: Uuid)
    requires id != q.id
    ensures AgreeAt(t, Commit(t, q).0, id)
  {
    hide Commit;
    CommitOthers(t, q, id);
  }

  lemma SizeWithout(a: set<Uuid>, x: Uuid)
    ensures |a - {x}| == |a| - if x in a then 1 else 0
  {
    if x in a { assert a == (a - {x}) + {x}; } else { assert a - {x} == a; }
  }

  lemma CommitSizes(t: Tables, q: Request, org: Uuid)
    ensures var t' := Commit(t, q).0;
            && |Members(t', org)| <= |Members(t, org)| + (if q.Create? && q.org == org then 1 else 0)
            && |Admins(t', org)| >= |Admins(t, org)| - (if q.id in Admins(t, org) && q.id !in Admins(t', org)
                then 1 else 0)
  {
    hide Commit, Members, Admins;
    var t' := Commit(t, q).0;
    CommitSets(t, q, org);
    SizeWithout(Members(t, org), q.id);
    SizeWithout(Members(t', org), q.id);
    SizeWithout(Admins(t, org), q.id);
    SizeWithout(Admins(t', org), q.id);
  }

  /** Only a write that was checked against the last administrator takes one away. */
  lemma GuardedLoss(t: Tables, q: Request, org: Uuid)
    requires Verdict(t, q) == Done && q.id in Admins(t, org) && q.id !in Admins(Commit(t, q).0, org)
    ensures |Admins(t, org)| >= 2
  {
    hide Taken;
  }

  predicate WithinLimit(t: Tables, org: Uuid) { org in t.limits && |Members(t, org)| <= t.limits[org] }

  lemma HandleKeeps(t: Tables, q: Request, org: Uuid)
    ensures WithinLimit(t, org) ==> WithinLimit(Handle(t, q).0, org)
    ensures |Admins(t, org)| >= 1 ==> |Admins(Handle(t, q).0, org)| >= 1
  {
    hide Commit, Members, Admins;
    CommitSets(t, q, org);
    CommitSizes(t, q, org);
    if Verdict(t, q) == Done && q.id in Admins(t, org) && q.id !in Admins(Commit(t, q).0, org) {
      GuardedLoss(t, q, org);
    }
  }

  function Served(t: Tables, qs: seq<Request>): Tables {
    if qs == [] then t else Handle(Served(t, qs[..|qs| - 1]), qs[|qs| - 1]).0
  }

  /** Whatever users ask for, one request at a time: an organization never goes over its limit, and once
      it has an active administrator it keeps one. */
  lemma {:induction false} OneAtATime(t: Tables, qs: seq<Request>, org: Uuid)
    ensures WithinLimit(t, org) ==> WithinLimit(Served(t, qs), org)
    ensures |Admins(t, org)| >= 1 ==> |Admins(Served(t, qs), org)| >= 1
  {
    hide Handle, WithinLimit, Admins;
    if qs != [] {
      OneAtATime(t, qs[..|qs| - 1], org);
      HandleKeeps(Served(t, qs[..|qs| - 1]), qs[|qs| - 1], org);
    }
  }

  /** Also between the statements of one update there is an active administrator. */
  lemma BetweenStatements(t: Tables, q: Request, part: Request, org: Uuid)
    requires q.Patch? && Verdict(t, q) == Done && |Admins(t, org)| >= 1
    requires part == q.(newExport := None, newStatus := None) || part == q.(newStatus := None)
    ensures |Admins(Commit(t, part).0, org)| >= 1
  {
    hide Commit, Members, Admins;
    CommitSizes(t, part, org);
    if part.id in Admins(t, org) && part.id !in Admins(Commit(t, part).0, org) { PartGuarded(t, q, part, org); }
  }

  lemma PartGuarded(t: Tables, q: Request, part: Request, org: Uuid)
    requires q.Patch? && Verdict(t, q) == Done
    requires part == q.(newExport := None, newStatus := None) || part == q.(newStatus := None)
    requires q.id in Admins(t, org) && q.id !in Admins(Commit(t, part).0, org)
    ensures |Admins(t, org)| >= 2
  {
  }

  /** The last-administrator refusal is exact: it is given just when the write would take the organization
      from an active administrator to none. */
  lemma GuardExact(t: Tables, q: Request)
    requires !q.Create? && Has(t, q.org, q.id)
    ensures Verdict(t, q) == LastAdmin <==> Admins(t, q.org) != {} && Admins(Commit(t, q).0, q.org) == {}
  {
    hide Commit, Admins;
    var t', org := Commit(t, q).0, q.org;
    CommitSets(t, q, org);
    SizeWithout(Admins(t, org), q.id);
    SizeWithout(Admins(t', org), q.id);
    AdminAfter(t, q);
    EmptySize(Admins(t, org));
    EmptySize(Admins(t', org));
  }

  lemma EmptySize(a: set<Uuid>)
    ensures |a| == 0 <==> a == {}
  {
  }

  /** Whether the target of a request is an active administrator before and after it. */
  lemma AdminAfter(t: Tables, q: Request)
    requires !q.Create? && Has(t, q.org, q.id)
    ensures q.id in Admins(t, q.org) <==> IsActiveAdmin(t.users[q.id])
    ensures q.Delete? ==> q.id !in Admins(Commit(t, q).0, q.org)
    ensures q.Patch? && q.id in Admins(t, q.org) ==>
              (q.id in Admins(Commit(t, q).0, q.org) <==>
                  !Demotes(t.users[q.id], q.newRole) && !Disables(t.users[q.id], q.newStatus))
  {
  }

  /** The limit refusal is exact: it is given just when one more user would be over the limit. */
  lemma LimitExact(t: Tables, q: Request)
    requires q.Create? && q.org in t.limits && q.id !in t.users && !Taken(t, q.email)
    ensures Verdict(t, q) == LimitReached <==> |Members(Commit(t, q).0, q.org)| > t.limits[q.org]
    ensures Verdict(t, q) == LimitReached || Handle(t, q).1 == Done
  {
    hide Taken;
    assert Members(Commit(t, q).0, q.org) == Members(t, q.org) + {q.id};
  }

  /** No one takes their own access away: whatever an active administrator asks about itself, it is one afterwards. */
  lemma SelfKept(t: Tables, q: Request)
    requires !q.Create? && q.actor == q.id && Has(t, q.org, q.id)
    ensures var u := Handle(t, q).0.users;
            && q.id in u && (t.users[q.id].status == Active ==> u[q.id].status == Active)
            && (t.users[q.id].role == OrgAdmin ==> u[q.id].role == OrgAdmin)
  {
    hide Members, Admins, Taken;
  }

  /** A request changes no user of another organization. */
  lemma OtherTenants(t: Tables, q: Request, id: Uuid)
    requires id in t.users && t.users[id].org != q.org
    ensures id in Handle(t, q).0.users && Handle(t, q).0.users[id] == t.users[id]
  {
    hide Taken, Members, Admins;
  }
}
