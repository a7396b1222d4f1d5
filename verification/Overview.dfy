/** The operator's overview: devices, users and places of every organization, counted in one pass over
    each table with maps. The reference is counting each group on its own. */
module Overview {
  import opened Text
  import opened Telemetry

  datatype User = User(id: Uuid, org: Uuid, email: string)
  datatype Location = Location(id: Uuid, org: Uuid, name: string)
  datatype SubLocation = SubLocation(id: Uuid, org: Uuid, location: Uuid, name: string)
  datatype Device = Device(id: Uuid, org: Uuid, sub: Option<Uuid>)
  datatype Organization = Organization(id: Uuid, name: string, limit: nat, status: string)

  datatype SubView = SubView(id: Uuid, name: string, devices: nat)
  datatype LocView = LocView(id: Uuid, name: string, devices: nat, subs: seq<SubView>)
  datatype OrgView = OrgView(org: Organization, userCount: nat, devices: nat, unassigned: nat,
                             users: seq<User>, locations: seq<LocView>)

  /* ---------- counting one group ---------- */

  function UsersOf(users: seq<User>, org: Uuid): seq<User> {
    if users == [] then []
    else UsersOf(users[..|users| - 1], org) + if users[|users| - 1].org == org then [users[|users| - 1]] else []
  }

  function LocsOf(locs: seq<Location>, org: Uuid): (r: seq<Location>)
    ensures forall l :: l in r <==> l in locs && l.org == org
  {
    if locs == [] then []
    else
      var n := |locs| - 1;
      assert locs == locs[..n] + [locs[n]];
      LocsOf(locs[..n], org) + if locs[n].org == org then [locs[n]] else []
  }

  function SubsOf(subs: seq<SubLocation>, loc: Uuid): (r: seq<SubLocation>)
    ensures forall s :: s in r <==> s in subs && s.location == loc
  {
    if subs == [] then []
    else
      var n := |subs| - 1;
      assert subs == subs[..n] + [subs[n]];
      SubsOf(subs[..n], loc) + if subs[n].location == loc then [subs[n]] else []
  }

  /** r holds the entries of xs at these positions, which are all that keep accepts, each once and in order. */
  ghost predicate Picks<T>(r: seq<T>, xs: seq<T>, keep: T -> bool, at: seq<int>) {
    && |at| == |r| && (forall j, k :: 0 <= j < k < |at| ==> at[j] < at[k])
    && (forall i :: i in at <==> 0 <= i < |xs| && keep(xs[i]))
    && forall k :: 0 <= k < |at| ==> 0 <= at[k] < |xs| && r[k] == xs[at[k]]
  }

  lemma PicksNext<T>(r: seq<T>, xs: seq<T>, keep: T -> bool, at: seq<int>)
    requires xs != [] && Picks(r, xs[..|xs| - 1], keep, at)
    ensures var x := xs[|xs| - 1];
            if keep(x) then Picks(r + [x], xs, keep, at + [|xs| - 1]) else Picks(r + [], xs, keep, at)
  {
    var n := |xs| - 1;
    assert forall k :: 0 <= k < |at| ==> at[k] in at;
    forall i ensures i in at <==> 0 <= i < n && keep(xs[i]) {
      if 0 <= i < n { assert xs[..n][i] == xs[i]; }
    }
    assert forall k :: 0 <= k < |at| ==> xs[..n][at[k]] == xs[at[k]];
    if keep(xs[n]) { PickLast(r, xs, keep, at); } else { assert r + [] == r; }
  }

  lemma PickLast<T>(r: seq<T>, xs: seq<T>, keep: T -> bool, at: seq<int>)
    requires xs != [] && keep(xs[|xs| - 1]) && |at| == |r| && (forall j, k :: 0 <= j < k < |at| ==> at[j] < at[k])
    requires forall i :: i in at <==> 0 <= i < |xs| - 1 && keep(xs[i])
    requires forall k :: 0 <= k < |at| ==> 0 <= at[k] < |xs| - 1 && r[k] == xs[at[k]]
    ensures Picks(r + [xs[|xs| - 1]], xs, keep, at + [|xs| - 1])
  {
    var n := |xs| - 1;
    var more := at + [n];
    forall i ensures i in more <==> 0 <= i < |xs| && keep(xs[i]) { assert i in more <==> i in at || i == n; }
  }

  lemma {:induction false} AscendingCount(at: seq<int>)
    requires forall j, k :: 0 <= j < k < |at| ==> at[j] < at[k]
    ensures |set i | i in at| == |at|
  {
    if at != [] {
      var front, last := at[..|at| - 1], at[|at| - 1];
      AscendingCount(front);
      assert at == front + [last];
      assert (set i | i in at) == (set i | i in front) + {last};
    }
  }

  lemma {:induction false} UsersPicked(users: seq<User>, org: Uuid) returns (at: seq<int>)
    ensures Picks(UsersOf(users, org), users, (u: User) => u.org == org, at)
  {
    if users == [] {
      at := [];
    } else {
      at := UsersPicked(users[..|users| - 1], org);
      PicksNext(UsersOf(users[..|users| - 1], org), users, (u: User) => u.org == org, at);
      if users[|users| - 1].org == org { at := at + [|users| - 1]; }
    }
  }

  lemma {:induction false} LocsPicked(locs: seq<Location>, org: Uuid) returns (at: seq<int>)
    ensures Picks(LocsOf(locs, org), locs, (l: Location) => l.org == org, at)
  {
    if locs == [] {
      at := [];
    } else {
      at := LocsPicked(locs[..|locs| - 1], org);
      PicksNext(LocsOf(locs[..|locs| - 1], org), locs, (l: Location) => l.org == org, at);
      if locs[|locs| - 1].org == org { at := at + [|locs| - 1]; }
    }
  }

  lemma {:induction false} SubsPicked(subs: seq<SubLocation>, loc: Uuid) returns (at: seq<int>)
    ensures Picks(SubsOf(subs, loc), subs, (s: SubLocation) => s.location == loc, at)
  {
    if subs == [] {
      at := [];
    } else {
      at := SubsPicked(subs[..|subs| - 1], loc);
      PicksNext(SubsOf(subs[..|subs| - 1], loc), subs, (s: SubLocation) => s.location == loc, at);
      if subs[|subs| - 1].location == loc { at := at + [|subs| - 1]; }
    }
  }

  /** The positions of an organization's devices. */
  function InOrg(ds: seq<Device>, org: Uuid): set<int> { set i | 0 <= i < |ds| && ds[i].org == org }

  function Loose(ds: seq<Device>,
          org: Uuid): set<int> { set i | 0 <= i < |ds| && ds[i].org == org && ds[i].sub == None }

  function InSub(ds: seq<Device>, sub: Uuid): set<int> { set i | 0 <= i < |ds| && ds[i].sub == Some(sub) }

  /** The devices in some sub-location of a location. */
  function InLocation(ds: seq<Device>, subs: seq<SubLocation>, loc: Uuid): set<int> {
    set i | 0 <= i < |ds| && ds[i].sub.Some? && exists s :: s in subs && s.id == ds[i].sub.value && s.location == loc
  }

  /* ---------- maps as the program uses them ---------- */

  function Group<T>(m: map<Uuid, seq<T>>, k: Uuid): seq<T> { if k in m then m[k] else [] }

  function Tally(m: map<Uuid, nat>, k: Uuid): nat { if k in m then m[k] else 0 }

  predicate ByName<T>(xs: seq<T>, name: T -> string) {
    forall i, j :: 0 <= i < j < |xs| ==> !Less(name(xs[j]), name(xs[i]))
  }

  /** sort.Slice by name; the order of equal names is left open. */
  method SortByName<T>(xs: seq<T>, name: T -> string) returns (r: seq<T>)
    ensures multiset(r) == multiset(xs) && ByName(r, name)
  {
    hide Less;
    r := [];
    for i := 0 to |xs|
      invariant multiset(r) == multiset(xs[..i]) && ByName(r, name)
    {
      var k := |r|;
      while k > 0 && Less(name(xs[i]), name(r[k - 1]))
        invariant 0 <= k <= |r|
        invariant forall j :: k <= j < |r| ==> Less(name(xs[i]), name(r[j]))
      {
        k := k - 1;
      }
      Inserted(r, k, xs[i], name);
      assert r == r[..k] + r[k..];
      assert xs[..i + 1] == xs[..i] + [xs[i]];
      r := r[..k] + [xs[i]] + r[k..];
    }
    assert xs[..|xs|] == xs;
  }

  lemma Inserted<T>(r: seq<T>, k: nat, x: T, name: T -> string)
    requires ByName(r, name) && k <= |r|
    requires forall j :: k <= j < |r| ==> Less(name(x), name(r[j]))
    requires k > 0 ==> !Less(name(x), name(r[k - 1]))
    ensures ByName(r[..k] + [x] + r[k..], name)
  {
    hide Less;
    var s := r[..k] + [x] + r[k..];
    forall i, j | 0 <= i < j < |s| ensures !Less(name(s[j]), name(s[i])) {
      if i == k {
        assert s[j] == r[j - 1];
        LessTotal(name(x), name(r[j - 1]));
      } else if j == k {
        NotLess(name(x), name(r[k - 1]), name(r[i]));
        assert i < k - 1 ==> !Less(name(r[k - 1]), name(r[i]));
      } else {
        assert s[i] == r[if i < k then i else i - 1] && s[j] == r[if j < k then j else j - 1];
      }
    }
  }

  lemma NotLess(a: string, b: string, c: string)
    ensures !Less(a, b) && !Less(b, c) ==> !Less(a, c)
  {
    hide Less;
    LessTotal(a, b);
    LessTotal(b, c);
    if Less(b, a) && Less(a, c) { LessTransitive(b, a, c); }
  }

  /* ---------- what is shown ---------- */

  predicate SubShown(v: SubView, s: SubLocation, ds: seq<Device>) {
    v.id == s.id && v.name == s.name && v.devices == |InSub(ds, s.id)|
  }

  function SubTotal(views: seq<SubView>): nat {
    if views == [] then 0 else SubTotal(views[..|views| - 1]) + views[|views| - 1].devices
  }

  /** The sub-locations of one location, by name, each with its devices. */
  ghost predicate LocShown(v: LocView, l: Location, subs: seq<SubLocation>, ds: seq<Device>) {
    && v.id == l.id && v.name == l.name
    && v.devices == SubTotal(v.subs)
    && exists order: seq<SubLocation> :: SubsShown(v.subs, order, SubsOf(subs, l.id), ds)
  }

  ghost predicate SubsShown(views: seq<SubView>, order: seq<SubLocation>, own: seq<SubLocation>, ds: seq<Device>) {
    && multiset(order) == multiset(own) && ByName(order, (s: SubLocation) => s.name)
    && |views| == |order|
    && forall i :: 0 <= i < |order| ==> SubShown(views[i], order[i], ds)
  }

  /** The users of the organization, each row of the table once, in the order of the table. */
  ghost predicate UsersShown(shown: seq<User>, users: seq<User>, org: Uuid) {
    exists at: seq<int> ::
      && |at| == |shown| && (forall j, k :: 0 <= j < k < |at| ==> at[j] < at[k])
      && (forall i :: i in at <==> 0 <= i < |users| && users[i].org == org)
      && forall k :: 0 <= k < |at| ==> 0 <= at[k] < |users| && shown[k] == users[at[k]]
  }

  lemma UsersAre(users: seq<User>, org: Uuid)
    ensures UsersShown(UsersOf(users, org), users, org)
    ensures |UsersOf(users, org)| == |set i | 0 <= i < |users| && users[i].org == org|
  {
    hide UsersOf, Picks;
    var at := UsersPicked(users, org);
    UsersAt(UsersOf(users, org), users, org, at);
    AscendingCount(at);
    assert (set i | 0 <= i < |users| && users[i].org == org) == set i | i in at;
  }

  lemma UsersAt(r: seq<User>, users: seq<User>, org: Uuid, at: seq<int>)
    requires Picks(r, users, (u: User) => u.org == org, at)
    ensures |at| == |r| && forall j, k :: 0 <= j < k < |at| ==> at[j] < at[k]
    ensures forall i :: i in at <==> 0 <= i < |users| && users[i].org == org
    ensures forall k :: 0 <= k < |at| ==> 0 <= at[k] < |users| && r[k] == users[at[k]]
  {
  }

  ghost predicate OrgShown(v: OrgView, o: Organization, users: seq<User>, locs: seq<Location>,
          subs: seq<SubLocation>, ds: seq<Device>) {
    && v.org == o
    && v.userCount == |set i | 0 <= i < |users| && users[i].org == o.id|
    && v.devices == |InOrg(ds, o.id)|
    && v.unassigned == |Loose(ds, o.id)|
    && UsersShown(v.users, users, o.id)
    && exists order: seq<Location> :: LocsShown(v.locations, order, LocsOf(locs, o.id), subs, ds)
  }

  ghost predicate LocsShown(views: seq<LocView>, order: seq<Location>, own: seq<Location>,
          subs: seq<SubLocation>, ds: seq<Device>) {
    && multiset(order) == multiset(own) && ByName(order, (l: Location) => l.name)
    && |views| == |order|
    && forall i :: 0 <= i < |order| ==> LocShown(views[i], order[i], subs, ds)
  }

  /* ---------- the program ---------- */

  ghost predicate OrgTally(m: map<Uuid, nat>, ds: seq<Device>) { forall o: Uuid :: Tally(m, o) == |InOrg(ds, o)| }

  ghost predicate LooseTally(m: map<Uuid, nat>, ds: seq<Device>) { forall o: Uuid :: Tally(m, o) == |Loose(ds, o)| }

  ghost predicate SubTally(m: map<Uuid, nat>, ds: seq<Device>) { forall s: Uuid :: Tally(m, s) == |InSub(ds, s)| }

  lemma OneMore(a: set<int>, b: set<int>, i: int, grows: bool)
    requires i !in a && b == a + if grows then {i} else {}
    ensures |b| == |a| + if grows then 1 else 0
  {
  }

  lemma InOrgNext(ds: seq<Device>, i: nat, o: Uuid)
    requires i < |ds|
    ensures |InOrg(ds[..i + 1], o)| == |InOrg(ds[..i], o)| + if ds[i].org == o then 1 else 0
  {
    OneMore(InOrg(ds[..i], o), InOrg(ds[..i + 1], o), i, ds[i].org == o);
  }

  lemma LooseOneNext(ds: seq<Device>, i: nat, o: Uuid)
    requires i < |ds|
    ensures |Loose(ds[..i + 1], o)| == |Loose(ds[..i], o)| + if ds[i].org == o && ds[i].sub == None then 1 else 0
  {
    OneMore(Loose(ds[..i], o), Loose(ds[..i + 1], o), i, ds[i].org == o && ds[i].sub == None);
  }

  lemma InSubNext(ds: seq<Device>, i: nat, s: Uuid)
    requires i < |ds|
    ensures |InSub(ds[..i + 1], s)| == |InSub(ds[..i], s)| + if ds[i].sub == Some(s) then 1 else 0
  {
    OneMore(InSub(ds[..i], s), InSub(ds[..i + 1], s), i, ds[i].sub == Some(s));
  }

  lemma OrgNext(m: map<Uuid, nat>, ds: seq<Device>, i: nat)
    requires i < |ds| && OrgTally(m, ds[..i])
    ensures OrgTally(m[ds[i].org := Tally(m, ds[i].org) + 1], ds[..i + 1])
  {
    hide InOrg;
    var m' := m[ds[i].org := Tally(m, ds[i].org) + 1];
    forall o: Uuid ensures Tally(m', o) == |InOrg(ds[..i + 1], o)| { InOrgNext(ds, i, o); }
  }

  lemma LooseNext(m: map<Uuid, nat>, ds: seq<Device>, i: nat)
    requires i < |ds| && LooseTally(m, ds[..i])
    ensures LooseTally(if ds[i].sub == None then m[ds[i].org := Tally(m, ds[i].org) + 1] else m, ds[..i + 1])
  {
    hide Loose;
    var m' := if ds[i].sub == None then m[ds[i].org := Tally(m, ds[i].org) + 1] else m;
    forall o: Uuid ensures Tally(m', o) == |Loose(ds[..i + 1], o)| { LooseOneNext(ds, i, o); }
  }

  lemma SubNext(m: map<Uuid, nat>, ds: seq<Device>, i: nat)
    requires i < |ds| && SubTally(m, ds[..i])
    ensures SubTally(if ds[i].sub.Some? then m[ds[i].sub.value := Tally(m, ds[i].sub.value) + 1] else m, ds[..i + 1])
  {
    hide InSub;
    var m' := if ds[i].sub.Some? then m[ds[i].sub.value := Tally(m, ds[i].sub.value) + 1] else m;
    forall s: Uuid ensures Tally(m', s) == |InSub(ds[..i + 1], s)| { InSubNext(ds, i, s); }
  }

  lemma NoDevices()
    ensures OrgTally(map[], []) && LooseTally(map[], []) && SubTally(map[], [])
  {
  }

  method CountDevices(ds: seq<Device>) returns (inOrg: map<Uuid, nat>, loose: map<Uuid, nat>, inSub: map<Uuid, nat>)
    ensures OrgTally(inOrg, ds) && LooseTally(loose, ds) && SubTally(inSub, ds)
  {
    hide OrgTally, LooseTally, SubTally, Tally;
    inOrg, loose, inSub := map[], map[], map[];
    NoDevices();
    for i := 0 to |ds|
      invariant OrgTally(inOrg, ds[..i]) && LooseTally(loose, ds[..i]) && SubTally(inSub, ds[..i])
    {
      var d := ds[i];
      OrgNext(inOrg, ds, i);
      LooseNext(loose, ds, i);
      SubNext(inSub, ds, i);
      inOrg := inOrg[d.org := Tally(inOrg, d.org) + 1];
      if d.sub == None {
        loose := loose[d.org := Tally(loose, d.org) + 1];
        continue;
      }
      inSub := inSub[d.sub.value := Tally(inSub, d.sub.value) + 1];
    }
    assert ds[..|ds|] == ds;
  }

  method GroupUsers(users: seq<User>) returns (m: map<Uuid, seq<User>>)
    ensures forall o: Uuid :: Group(m, o) == UsersOf(users, o)
  {
    m := map[];
    for i := 0 to |users|
      invariant forall o: Uuid :: Group(m, o) == UsersOf(users[..i], o)
    {
      assert users[..i + 1][..i] == users[..i];
      m := m[users[i].org := Group(m, users[i].org) + [users[i]]];
    }
    assert users[..|users|] == users;
  }

  method GroupLocations(locs: seq<Location>) returns (m: map<Uuid, seq<Location>>)
    ensures forall o: Uuid :: Group(m, o) == LocsOf(locs, o)
  {
    m := map[];
    for i := 0 to |locs|
      invariant forall o: Uuid :: Group(m, o) == LocsOf(locs[..i], o)
    {
      assert locs[..i + 1][..i] == locs[..i];
      m := m[locs[i].org := Group(m, locs[i].org) + [locs[i]]];
    }
    assert locs[..|locs|] == locs;
  }

  method GroupSubLocations(subs: seq<SubLocation>) returns (m: map<Uuid, seq<SubLocation>>)
    ensures forall l: Uuid :: Group(m, l) == SubsOf(subs, l)
  {
    m := map[];
    for i := 0 to |subs|
      invariant forall l: Uuid :: Group(m, l) == SubsOf(subs[..i], l)
    {
      assert subs[..i + 1][..i] == subs[..i];
      m := m[subs[i].location := Group(m, subs[i].location) + [subs[i]]];
    }
    assert subs[..|subs|] == subs;
  }

  /** One location of the overview. */
  method ShowLocation(l: Location, subs: seq<SubLocation>, ds: seq<Device>, byLoc: map<Uuid, seq<SubLocation>>,
          inSub: map<Uuid, nat>)
    returns (v: LocView)
    requires Group(byLoc, l.id) == SubsOf(subs, l.id) && SubTally(inSub, ds)
    ensures LocShown(v, l, subs, ds)
  {
    hide SubsOf, InSub, ByName, Group, Tally;
    var children := SortByName(Group(byLoc, l.id), (s: SubLocation) => s.name);
    var views: seq<SubView>, count := [], 0;
    for i := 0 to |children|
      invariant |views| == i && count == SubTotal(views)
      invariant forall j :: 0 <= j < i ==> SubShown(views[j], children[j], ds)
    {
      var n := Tally(inSub, children[i].id);
      count := count + n;
      var next := views + [SubView(children[i].id, children[i].name, n)];
      assert next[..i] == views;
      views := next;
    }
    v := LocView(l.id, l.name, count, views);
    assert SubsShown(v.subs, children, SubsOf(subs, l.id), ds);
  }

  method ShowLocations(own: seq<Location>, subs: seq<SubLocation>, ds: seq<Device>, byLoc: map<Uuid,
          seq<SubLocation>>, inSub: map<Uuid, nat>)
    returns (views: seq<LocView>, ghost order: seq<Location>)
    requires (forall l: Uuid :: Group(byLoc, l) == SubsOf(subs, l)) && SubTally(inSub, ds)
    ensures LocsShown(views, order, own, subs, ds)
  {
    hide LocShown, SubsOf, InSub, ByName, Group, Tally;
    var sorted := SortByName(own, (l: Location) => l.name);
    views := [];
    for i := 0 to |sorted|
      invariant |views| == i && forall j :: 0 <= j < i ==> LocShown(views[j], sorted[j], subs, ds)
    {
      var v := ShowLocation(sorted[i], subs, ds, byLoc, inSub);
      views := views + [v];
    }
    order := sorted;
  }

  /** One entry for each organization, in order, every number and list being that of its own group. */
  method OrganizationOverviewList(orgs: seq<Organization>, users: seq<User>, locs: seq<Location>,
          subs: seq<SubLocation>, ds: seq<Device>)
    returns (out: seq<OrgView>)
    ensures |out| == |orgs| && forall i :: 0 <= i < |orgs| ==> OrgShown(out[i], orgs[i], users, locs, subs, ds)
  {
    hide LocsShown, UsersShown, UsersOf, LocsOf, SubsOf, InOrg, Loose, InSub;
    var byOrg := GroupUsers(users);
    var locsByOrg := GroupLocations(locs);
    var subsByLoc := GroupSubLocations(subs);
    var inOrg, loose, inSub := CountDevices(ds);
    out := [];
    for i := 0 to |orgs|
      invariant |out| == i && forall j :: 0 <= j < i ==> OrgShown(out[j], orgs[j], users, locs, subs, ds)
    {
      var o := orgs[i];
      var views, order := ShowLocations(Group(locsByOrg, o.id), subs, ds, subsByLoc, inSub);
      var own := Group(byOrg, o.id);
      UsersAre(users, o.id);
      var v := OrgView(o, |own|, Tally(inOrg, o.id), Tally(loose, o.id), own, views);
      assert LocsShown(v.locations, order, LocsOf(locs, o.id), subs, ds);
      out := out + [v];
    }
  }

  /* ---------- the counts add up ---------- */

  predicate DistinctIds(ids: seq<Uuid>) { forall i, j :: 0 <= i < j < |ids| ==> ids[i] != ids[j] }

  function OrgIds(xs: seq<Organization>): (r: seq<Uuid>)
    ensures |r| == |xs| && forall i :: 0 <= i < |r| ==> r[i] == xs[i].id
  {
    seq(|xs|, i requires 0 <= i < |xs| => xs[i].id)
  }

  function LocIds(xs: seq<Location>): (r: seq<Uuid>)
    ensures |r| == |xs| && forall i :: 0 <= i < |r| ==> r[i] == xs[i].id
  {
    seq(|xs|, i requires 0 <= i < |xs| => xs[i].id)
  }

  function SubIds(xs: seq<SubLocation>): (r: seq<Uuid>)
    ensures |r| == |xs| && forall i :: 0 <= i < |r| ==> r[i] == xs[i].id
  {
    seq(|xs|, i requires 0 <= i < |xs| => xs[i].id)
  }

  /** Ids are unique, and a device, its sub-location and that one's location are of one organization. */
  ghost predicate Consistent(orgs: seq<Organization>, locs: seq<Location>, subs: seq<SubLocation>, ds: seq<Device>) {
    && DistinctIds(OrgIds(orgs)) && DistinctIds(LocIds(locs)) && DistinctIds(SubIds(subs))
    && (forall i :: 0 <= i < |ds| ==> ds[i].org in OrgIds(orgs))
    && (forall i :: 0 <= i < |ds| && ds[i].sub.Some? ==>
          exists s, l :: s in subs && l in locs && s.id == ds[i].sub.value && s.location == l.id && l.org == ds[i].org)
  }

  /** Sets of positions, one for each id of a list. */
  type Cells = Uuid -> set<int>

  function CellTotal(cells: Cells, ids: seq<Uuid>): nat {
    if ids == [] then 0 else CellTotal(cells, ids[..|ids| - 1]) + |cells(ids[|ids| - 1])|
  }

  /** Some cell of the list has position i. */
  ghost predicate Covered(cells: Cells, ids: seq<Uuid>, i: int) { exists k :: 0 <= k < |ids| && i in cells(ids[k]) }

  lemma CoveredNext(cells: Cells, front: seq<Uuid>, last: Uuid, i: int)
    ensures Covered(cells, front + [last], i) <==> Covered(cells, front, i) || i in cells(last)
  {
    var ids := front + [last];
    if Covered(cells, front, i) {
      var k :| 0 <= k < |front| && i in cells(front[k]);
      assert ids[k] == front[k];
    }
    if i in cells(last) { assert ids[|front|] == last; }
    if Covered(cells, ids, i) {
      var k :| 0 <= k < |ids| && i in cells(ids[k]);
      assert k < |front| ==> front[k] == ids[k];
    }
  }

  lemma CoveredApart(cells: Cells, front: seq<Uuid>, last: Uuid, i: int)
    requires (forall a, b: Uuid :: a != b ==> cells(a) !! cells(b)) && last !in front && Covered(cells, front, i)
    ensures i !in cells(last)
  {
    var k :| 0 <= k < |front| && i in cells(front[k]);
    assert cells(front[k]) !! cells(last);
  }

  /** Disjoint cells that make up a whole add up to it. */
  lemma {:induction false} CellsAddUp(cells: Cells, ids: seq<Uuid>, whole: set<int>)
    requires DistinctIds(ids)
    requires forall a, b: Uuid :: a != b ==> cells(a) !! cells(b)
    requires forall i :: i in whole <==> Covered(cells, ids, i)
    ensures CellTotal(cells, ids) == |whole|
  {
    if ids == [] {
      forall i ensures i !in whole { assert i in whole <==> Covered(cells, ids, i); }
    } else {
      var front, last := ids[..|ids| - 1], ids[|ids| - 1];
      var rest := whole - cells(last);
      assert front + [last] == ids;
      forall i ensures (i in rest <==> Covered(cells, front, i)) && (i in cells(last) ==> i in whole) {
        hide Covered;
        CoveredNext(cells, front, last, i);
        assert i in whole <==> Covered(cells, ids, i);
        if Covered(cells, front, i) { CoveredApart(cells, front, last, i); }
      }
      forall i | i in cells(last) ensures i in whole {
        hide Covered;
        CoveredNext(cells, front, last, i);
      }
      CellsAddUp(cells, front, rest);
      assert whole == rest + cells(last);
    }
  }

  predicate Apart<T(==)>(xs: seq<T>) { forall i, j :: 0 <= i < j < |xs| ==> xs[i] != xs[j] }

  lemma ApartNext<T>(xs: seq<T>, x: T)
    requires Apart(xs) && x !in xs
    ensures Apart(xs + [x])
  {
  }

  lemma {:induction false} DistinctMembers<T>(xs: seq<T>, x: T)
    requires Apart(xs)
    ensures multiset(xs)[x] <= 1
  {
    if xs != [] {
      var front := xs[..|xs| - 1];
      assert xs == front + [xs[|xs| - 1]];
      DistinctMembers(front, x);
    }
  }

  lemma TwiceIn<T>(xs: seq<T>, i: nat, j: nat)
    requires i < j < |xs| && xs[i] == xs[j]
    ensures multiset(xs)[xs[i]] >= 2
  {
    assert xs == xs[..j] + xs[j..];
    assert xs[i] == xs[..j][i] && xs[j] == xs[j..][0];
    assert xs[i] in multiset(xs[..j]) && xs[i] in multiset(xs[j..]);
  }

  /** A rearrangement of a list without repetition has none either. */
  lemma StillDistinct<T>(xs: seq<T>, ys: seq<T>)
    requires multiset(xs) == multiset(ys) && Apart(xs)
    ensures Apart(ys)
    ensures forall x :: x in xs <==> x in ys
  {
    forall i, j | 0 <= i < j < |ys| ensures ys[i] != ys[j] {
      DistinctMembers(xs, ys[i]);
      if ys[i] == ys[j] { TwiceIn(ys, i, j); }
    }
    forall x ensures x in xs <==> x in ys { assert x in multiset(xs) <==> x in multiset(ys); }
  }

  lemma {:induction false} SubsApart(subs: seq<SubLocation>, loc: Uuid)
    requires DistinctIds(SubIds(subs))
    ensures Apart(SubsOf(subs, loc))
  {
    hide Apart;
    if subs == [] {
      NoneApart<SubLocation>();
    } else {
      var n := |subs| - 1;
      assert SubIds(subs[..n]) == SubIds(subs)[..n];
      SubsApart(subs[..n], loc);
      assert subs[n] !in subs[..n] by { LastApart(SubIds(subs)); }
      var front := SubsOf(subs[..n], loc);
      ApartNext(front, subs[n]);
      assert front + [] == front;
    }
  }

  lemma NoneApart<T>()
    ensures Apart<T>([])
  {
  }

  lemma LastApart(ids: seq<Uuid>)
    requires DistinctIds(ids) && ids != []
    ensures forall i :: 0 <= i < |ids| - 1 ==> ids[i] != ids[|ids| - 1]
  {
  }

  lemma {:induction false} LocsApart(locs: seq<Location>, org: Uuid)
    requires DistinctIds(LocIds(locs))
    ensures Apart(LocsOf(locs, org))
  {
    hide Apart;
    if locs == [] {
      NoneApart<Location>();
    } else {
      var n := |locs| - 1;
      assert LocIds(locs[..n]) == LocIds(locs)[..n];
      LocsApart(locs[..n], org);
      assert locs[n] !in locs[..n] by { LastApart(LocIds(locs)); }
      var front := LocsOf(locs[..n], org);
      ApartNext(front, locs[n]);
      assert front + [] == front;
    }
  }

  lemma SubById(subs: seq<SubLocation>, a: SubLocation, b: SubLocation)
    requires DistinctIds(SubIds(subs)) && a in subs && b in subs && a.id == b.id
    ensures a == b
  {
    var i :| 0 <= i < |subs| && subs[i] == a;
    var j :| 0 <= j < |subs| && subs[j] == b;
    assert SubIds(subs)[i] == SubIds(subs)[j];
  }

  lemma LocById(locs: seq<Location>, a: Location, b: Location)
    requires DistinctIds(LocIds(locs)) && a in locs && b in locs && a.id == b.id
    ensures a == b
  {
    var i :| 0 <= i < |locs| && locs[i] == a;
    var j :| 0 <= j < |locs| && locs[j] == b;
    assert LocIds(locs)[i] == LocIds(locs)[j];
  }

  lemma OrderIds(subs: seq<SubLocation>, loc: Uuid, order: seq<SubLocation>)
    requires DistinctIds(SubIds(subs)) && multiset(order) == multiset(SubsOf(subs, loc))
    ensures DistinctIds(SubIds(order)) && forall s :: s in order <==> s in subs && s.location == loc
  {
    hide SubsOf;
    SubsApart(subs, loc);
    StillDistinct(SubsOf(subs, loc), order);
    forall i, j | 0 <= i < j < |order| ensures order[i].id != order[j].id {
      if order[i].id == order[j].id { SubById(subs, order[i], order[j]); }
    }
  }

  lemma OrderLocIds(locs: seq<Location>, org: Uuid, order: seq<Location>)
    requires DistinctIds(LocIds(locs)) && multiset(order) == multiset(LocsOf(locs, org))
    ensures DistinctIds(LocIds(order)) && forall l :: l in order <==> l in locs && l.org == org
  {
    hide LocsOf;
    LocsApart(locs, org);
    StillDistinct(LocsOf(locs, org), order);
    forall i, j | 0 <= i < j < |order| ensures order[i].id != order[j].id {
      if order[i].id == order[j].id { LocById(locs, order[i], order[j]); }
    }
  }

  lemma {:induction false} SubTotalCells(views: seq<SubView>, ids: seq<Uuid>, cells: Cells)
    requires |views| == |ids| && forall i :: 0 <= i < |ids| ==> views[i].devices == |cells(ids[i])|
    ensures SubTotal(views) == CellTotal(cells, ids)
  {
    if views != [] { SubTotalCells(views[..|views| - 1], ids[..|ids| - 1], cells); }
  }

  lemma SubsCover(ds: seq<Device>, subs: seq<SubLocation>, order: seq<SubLocation>, loc: Uuid, i: int, cells: Cells)
    requires (forall s :: s in order <==> s in subs && s.location == loc) && forall s :: cells(s) == InSub(ds, s)
    ensures Covered(cells, SubIds(order), i) <==> i in InLocation(ds, subs, loc)
  {
    var ids := SubIds(order);
    if i in InLocation(ds, subs, loc) {
      var s :| s in subs && s.id == ds[i].sub.value && s.location == loc;
      assert s in order;
      var k :| 0 <= k < |order| && order[k] == s;
      assert i in cells(ids[k]);
    }
    if Covered(cells, ids, i) {
      var k :| 0 <= k < |ids| && i in cells(ids[k]);
      assert order[k] in order;
    }
  }

  lemma SubsAddUp(views: seq<SubView>, order: seq<SubLocation>, subs: seq<SubLocation>, loc: Uuid, ds: seq<Device>)
    requires SubsShown(views, order, SubsOf(subs, loc), ds) && DistinctIds(SubIds(subs))
    ensures SubTotal(views) == |InLocation(ds, subs, loc)|
  {
    hide SubsOf, ByName, DistinctIds, CellTotal, SubTotal, InLocation, Covered, InSub;
    OrderIds(subs, loc, order);
    var cells, ids := (s: Uuid) => InSub(ds, s), SubIds(order);
    SubTotalCells(views, ids, cells);
    var whole := InLocation(ds, subs, loc);
    forall i ensures i in whole <==> Covered(cells, ids, i) { SubsCover(ds, subs, order, loc, i, cells); }
    forall a, b: Uuid | a != b ensures cells(a) !! cells(b) { SubLocationsApart(ds, a, b); }
    CellsAddUp(cells, ids, whole);
  }

  lemma SubLocationsApart(ds: seq<Device>, a: Uuid, b: Uuid)
    requires a != b
    ensures InSub(ds, a) !! InSub(ds, b)
  {
  }

  /** A location's count is the number of devices in any of its sub-locations. */
  lemma LocationCount(v: LocView, l: Location, subs: seq<SubLocation>, ds: seq<Device>)
    requires LocShown(v, l, subs, ds) && DistinctIds(SubIds(subs))
    ensures v.devices == |InLocation(ds, subs, l.id)|
  {
    hide SubsOf, SubsShown, DistinctIds, SubTotal, InLocation;
    var order :| SubsShown(v.subs, order, SubsOf(subs, l.id), ds);
    SubsAddUp(v.subs, order, subs, l.id, ds);
  }

  function LocTotal(views: seq<LocView>): nat {
    if views == [] then 0 else LocTotal(views[..|views| - 1]) + views[|views| - 1].devices
  }

  lemma {:induction false} LocTotalCells(views: seq<LocView>, ids: seq<Uuid>, cells: Cells)
    requires |views| == |ids| && forall i :: 0 <= i < |ids| ==> views[i].devices == |cells(ids[i])|
    ensures LocTotal(views) == CellTotal(cells, ids)
  {
    if views != [] { LocTotalCells(views[..|views| - 1], ids[..|ids| - 1], cells); }
  }

  lemma LocationsApart(ds: seq<Device>, subs: seq<SubLocation>, a: Uuid, b: Uuid)
    requires DistinctIds(SubIds(subs)) && a != b
    ensures InLocation(ds, subs, a) !! InLocation(ds, subs, b)
  {
    forall i | i in InLocation(ds, subs, a) ensures i !in InLocation(ds, subs, b) {
      var s :| s in subs && s.id == ds[i].sub.value && s.location == a;
      forall t | t in subs && t.id == ds[i].sub.value ensures t == s { SubById(subs, s, t); }
    }
  }

  /** A placed device of the organization is in one of the organization's locations, and only such are. */
  lemma PlacedWhere(orgs: seq<Organization>, locs: seq<Location>, subs: seq<SubLocation>, ds: seq<Device>,
          org: Uuid, i: int)
    requires Consistent(orgs, locs, subs, ds)
    ensures i in InOrg(ds, org) - Loose(ds, org) <==>
        exists l :: l in locs && l.org == org && i in InLocation(ds, subs, l.id)
  {
    hide DistinctIds;
    if i in InOrg(ds, org) - Loose(ds, org) {
      var s, l :| s in subs && l in locs && s.id == ds[i].sub.value && s.location == l.id && l.org == ds[i].org;
      assert i in InLocation(ds, subs, l.id);
    }
    if exists l :: l in locs && l.org == org && i in InLocation(ds, subs, l.id) {
      var l :| l in locs && l.org == org && i in InLocation(ds, subs, l.id);
      var s :| s in subs && s.id == ds[i].sub.value && s.location == l.id;
      var s', l' :| s' in subs && l' in locs && s'.id == ds[i].sub.value && s'.location == l'.id && l'.org == ds[i].org;
      SubById(subs, s, s');
      LocById(locs, l, l');
    }
  }

  /** Each organization's devices are its unassigned ones and those its locations show. */
  lemma OrganizationCount(v: OrgView, o: Organization, orgs: seq<Organization>, users: seq<User>,
          locs: seq<Location>, subs: seq<SubLocation>, ds: seq<Device>)
    requires OrgShown(v, o, users, locs, subs, ds) && Consistent(orgs, locs, subs, ds)
    ensures v.devices == v.unassigned + LocTotal(v.locations)
  {
    hide LocShown, LocsOf, ByName, UsersShown, InOrg, Loose, InLocation, DistinctIds, CellTotal, LocTotal;
    var order :| LocsShown(v.locations, order, LocsOf(locs, o.id), subs, ds);
    OrderLocIds(locs, o.id, order);
    var cells, ids := (l: Uuid) => InLocation(ds, subs, l), LocIds(order);
    forall i | 0 <= i < |order| ensures v.locations[i].devices == |cells(ids[i])| {
      LocationCount(v.locations[i], order[i], subs, ds);
    }
    LocTotalCells(v.locations, ids, cells);
    var whole := InOrg(ds, o.id) - Loose(ds, o.id);
    forall i ensures i in whole <==> Covered(cells, ids, i) {
      PlacedWhere(orgs, locs, subs, ds, o.id, i);
      OrderCovers(ds, subs, locs, order, o.id, i, cells);
    }
    forall a, b: Uuid | a != b ensures cells(a) !! cells(b) { LocationsApart(ds, subs, a, b); }
    CellsAddUp(cells, ids, whole);
    LooseInside(ds, o.id);
  }

  lemma LooseInside(ds: seq<Device>, org: Uuid)
    ensures Loose(ds, org) <= InOrg(ds, org) && |InOrg(ds, org)| == |Loose(ds, org)| + |InOrg(ds, org) - Loose(ds, org)|
  {
    assert InOrg(ds, org) == Loose(ds, org) + (InOrg(ds, org) - Loose(ds, org));
  }

  lemma OrderCovers(ds: seq<Device>, subs: seq<SubLocation>, locs: seq<Location>, order: seq<Location>,
          org: Uuid, i: int, cells: Cells)
    requires (forall l :: l in order <==> l in locs && l.org == org) && forall l :: cells(l) == InLocation(ds, subs, l)
    ensures Covered(cells, LocIds(order), i) <==>
            exists l :: l in locs && l.org == org && i in InLocation(ds, subs, l.id)
  {
    hide InLocation;
    var ids := LocIds(order);
    if Covered(cells, ids, i) {
      var k :| 0 <= k < |ids| && i in cells(ids[k]);
      assert order[k] in order && i in InLocation(ds, subs, order[k].id);
    }
    if exists l :: l in locs && l.org == org && i in InLocation(ds, subs, l.id) {
      var l :| l in locs && l.org == org && i in InLocation(ds, subs, l.id);
      assert l in order;
      var k :| 0 <= k < |order| && order[k] == l;
      assert i in cells(ids[k]);
    }
  }

  function OrgTotal(views: seq<OrgView>): nat {
    if views == [] then 0 else OrgTotal(views[..|views| - 1]) + views[|views| - 1].devices
  }

  lemma {:induction false} OrgTotalCells(views: seq<OrgView>, ids: seq<Uuid>, cells: Cells)
    requires |views| == |ids| && forall i :: 0 <= i < |ids| ==> views[i].devices == |cells(ids[i])|
    ensures OrgTotal(views) == CellTotal(cells, ids)
  {
    if views != [] { OrgTotalCells(views[..|views| - 1], ids[..|ids| - 1], cells); }
  }

  function Upto(n: nat): (r: set<int>)
    ensures |r| == n && forall i :: i in r <==> 0 <= i < n
  {
    if n == 0 then {} else Upto(n - 1) + {n - 1}
  }

  /** The organizations' counts add up to the number of devices. */
  lemma EveryDeviceCounted(out: seq<OrgView>, orgs: seq<Organization>, users: seq<User>, locs: seq<Location>,
          subs: seq<SubLocation>, ds: seq<Device>)
    requires |out| == |orgs| && forall i :: 0 <= i < |orgs| ==> OrgShown(out[i], orgs[i], users, locs, subs, ds)
    requires Consistent(orgs, locs, subs, ds)
    ensures OrgTotal(out) == |ds|
  {
    hide LocsShown, LocsOf, UsersShown, DistinctIds, CellTotal, OrgTotal;
    var cells, ids := (o: Uuid) => InOrg(ds, o), OrgIds(orgs);
    OrgTotalCells(out, ids, cells);
    var whole := Upto(|ds|);
    forall i ensures i in whole <==> Covered(cells, ids, i) {
      if i in whole {
        var k :| 0 <= k < |ids| && ids[k] == ds[i].org;
        assert i in cells(ids[k]);
      }
    }
    CellsAddUp(cells, ids, whole);
  }
}
