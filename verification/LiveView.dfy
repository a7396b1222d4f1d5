/** What a dashboard shows: the fold of the frames it was sent. It equals the store when no two handlers are
    at work on one device and no reading is stored where a snapshot misses it, and can lag behind otherwise. */
module LiveView {
  import opened Text
  import opened Telemetry
  import opened StateStore
  import opened LiveFeed
  import opened LiveRuns

  function FromList(rs: seq<Reading>): map<Uuid, Reading> {
    if rs == [] then map[] else var r := rs[|rs| - 1]; FromList(rs[..|rs| - 1])[r.device := r]
  }

  /** A snapshot replaces the readings, an update sets one. */
  function View(frames: seq<Frame>): map<Uuid, Reading> {
    if frames == [] then map[]
    else
      var front := frames[..|frames| - 1];
      match frames[|frames| - 1]
      case AuthOk => View(front)
      case Reply(_) => View(front)
      case Snapshot(rs) => FromList(rs)
      case Update(r) => View(front)[r.device := r]
  }

  lemma ViewNext(frames: seq<Frame>, f: Frame)
    ensures View(frames + [f]) ==
            if f.AuthOk? || f.Reply? then View(frames) else if f.Snapshot? then FromList(f.readings)
                else View(frames)[f.reading.device := f.reading]
  {
    assert (frames + [f])[..|frames|] == frames;
  }

  /* ---------- one handler at a time, and none that a snapshot misses ---------- */

  /** The client's snapshot has been read, or its device list lacks this device. */
  predicate Misses(cl: Client, g: Ingest) {
    cl.org == g.org && (cl.phase.Sending? || (cl.phase.Fetching? && g.reading.device !in cl.phase.ids))
  }

  /** No two handlers are at work on one device, and none sets the store while a client of its organization
      has read but not written its snapshot, or is about to read one that leaves the device out. All other
      steps of handlers, Broadcast included, may fall anywhere inside a client's snapshot. */
  predicate Serial(s: State, e: Step) {
    && (e.Arrive? ==> forall i :: i in s.ingests ==> s.ingests[i].reading.device != e.reading.device)
    && (e.Set? && e.i in s.ingests ==> forall c :: c in s.clients ==> !Misses(s.clients[c], s.ingests[e.i]))
  }

  predicate SerialRun(run: seq<Step>)
    requires Valid(run)
  {
    run == [] || (SerialRun(run[..|run| - 1]) && Serial(After(run[..|run| - 1]), run[|run| - 1]))
  }

  /** A device of the organization that has a reading. */
  predicate Mine(s: State, org: Uuid, d: Uuid) { d in s.store && d in s.devices && s.devices[d] == org }

  predicate Pending(s: State, c: nat, d: Uuid) {
    exists i :: i in s.ingests && s.ingests[i].reading.device == d && Owes(s.ingests[i], c)
  }

  ghost predicate ListOk(s: State, org: Uuid, ids: seq<Uuid>) {
    && (forall d :: Mine(s, org, d) ==> d in ids)
    && (forall d :: d in ids ==> d in s.devices && s.devices[d] == org)
  }

  ghost predicate SnapshotOk(s: State, org: Uuid, rs: seq<Reading>) {
    && (forall d :: Mine(s, org, d) ==> s.store[d] in rs)
    && (forall r :: r in rs ==> Mine(s, org, r.device) && s.store[r.device] == r)
  }

  ghost predicate ViewOk(s: State, c: nat)
    requires c in s.clients
  {
    var cl := s.clients[c];
    var v := View(cl.sent);
    && (forall d :: d in v ==> Mine(s, cl.org, d))
    && (forall d :: Mine(s, cl.org, d) ==> Pending(s, c, d) || (d in v && v[d] == s.store[d]))
  }

  ghost predicate ClientOk(s: State, c: nat)
    requires c in s.clients
  {
    var p := s.clients[c].phase;
    && (p.Fetching? ==> ListOk(s, s.clients[c].org, p.ids))
    && (p.Sending? ==> SnapshotOk(s, s.clients[c].org, p.readings))
    && (p.Live? ==> ViewOk(s, c))
  }

  /** No two handlers are at work on one device. */
  predicate OneEach(ingests: map<nat, Ingest>) {
    forall i, j :: i in ingests && j in ingests && ingests[i].reading.device == ingests[j].reading.device ==> i == j
  }

  predicate HasStored(s: State, i: nat)
    requires i in s.ingests
  {
    var r := s.ingests[i].reading;
    !s.ingests[i].stage.Looked? ==> r.device in s.store && s.store[r.device] == r
  }

  predicate Alone(s: State) { OneEach(s.ingests) && forall i :: i in s.ingests ==> HasStored(s, i) }

  ghost predicate Shown(s: State) { Alone(s) && forall c :: Plain(s, c) ==> ClientOk(s, c) }

  lemma OneEachStep(s: State, e: Step)
    requires OneEach(s.ingests) && Enabled(s, e) && Serial(s, e)
    ensures OneEach(Apply(s, e).ingests)
  {
    hide Readings, Broadcasting, Elements, IsNumber, IsUuid, Misses, Receives, Written;
    IngestsAfter(s, e);
  }

  /** A step adds the reading of an arrival to the handlers' readings, and takes or replaces none. */
  lemma IngestsAfter(s: State, e: Step)
    requires Enabled(s, e)
    ensures forall i :: i in Apply(s, e).ingests && !(e.Arrive? && i == e.i) ==>
              i in s.ingests && Apply(s, e).ingests[i].reading == s.ingests[i].reading
    ensures e.Arrive? ==> Apply(s, e).ingests[e.i].reading == e.reading && e.i !in s.ingests
  {
    hide Readings, Broadcasting, Elements, IsNumber, IsUuid, Receives, Written;
  }

  lemma AloneStep(s: State, e: Step)
    requires Known(s) && Alone(s) && Enabled(s, e) && Serial(s, e)
    ensures Alone(Apply(s, e))
  {
    hide Known, Serial, OneEach, HasStored, Enabled, Apply;
    OneEachStep(s, e);
    forall i | i in Apply(s, e).ingests ensures HasStored(Apply(s, e), i) { StoredStep(s, e, i); }
  }

  lemma DevicesDiffer(ingests: map<nat, Ingest>, i: nat, j: nat)
    requires OneEach(ingests) && i in ingests && j in ingests && i != j
    ensures ingests[i].reading.device != ingests[j].reading.device
  {
  }

  lemma StoredStep(s: State, e: Step, i: nat)
    requires Alone(s) && Enabled(s, e) && i in Apply(s, e).ingests
    ensures HasStored(Apply(s, e), i)
  {
    hide OneEach, Readings, Broadcasting, Elements, IsNumber, IsUuid, Receives, Written;
    if i in s.ingests {
      assert HasStored(s, i);
      if e.Set? && i != e.i { DevicesDiffer(s.ingests, i, e.i); }
    }
  }

  lemma {:induction false} FromListShows(s: State, org: Uuid, rs: seq<Reading>)
    requires forall r :: r in rs ==> Mine(s, org, r.device) && s.store[r.device] == r
    ensures forall d :: d in FromList(rs) ==> Mine(s, org, d) && FromList(rs)[d] == s.store[d]
    ensures forall r :: r in rs ==> r.device in FromList(rs)
  {
    if rs != [] {
      var front, last := rs[..|rs| - 1], rs[|rs| - 1];
      assert rs == front + [last];
      FromListShows(s, org, front);
    }
  }

  /** A handler of another device still owes what it owed. */
  lemma PendingOther(s: State, t: State, i: nat, c: nat, d: Uuid)
    requires i in s.ingests && s.ingests[i].reading.device != d
    requires forall j :: j in s.ingests && j != i ==> j in t.ingests && t.ingests[j] == s.ingests[j]
    ensures Pending(s, c, d) ==> Pending(t, c, d)
  {
    hide Owes;
    if Pending(s, c, d) {
      var j :| j in s.ingests && s.ingests[j].reading.device == d && Owes(s.ingests[j], c);
      assert t.ingests[j].reading.device == d && Owes(t.ingests[j], c);
    }
  }

  lemma PendingOwn(s: State, i: nat, c: nat)
    requires Alone(s) && i in s.ingests
    ensures Pending(s, c, s.ingests[i].reading.device) <==> Owes(s.ingests[i], c)
  {
    hide Owes;
  }

  /** What one live client needs of one device. */
  ghost predicate Current(s: State, c: nat, d: Uuid)
    requires c in s.clients
  {
    var v := View(s.clients[c].sent);
    && (d in v ==> Mine(s, s.clients[c].org, d))
    && (Mine(s, s.clients[c].org, d) ==> Pending(s, c, d) || (d in v && v[d] == s.store[d]))
  }

  /** The device a handler is at work on, seen by one live client. */
  lemma OwnShows(s: State, e: Step, c: nat)
    requires Known(s) && Alone(s) && Enabled(s, e) && (e.Set? || e.Begin? || e.Cast? || e.End?)
    requires Alone(Apply(s, e)) && Plain(s, c) && Current(s, c, s.ingests[e.i].reading.device)
    ensures c in Apply(s, e).clients && Current(Apply(s, e), c, s.ingests[e.i].reading.device)
  {
    hide View, Known, Pending, Alone, IsNumber, IsUuid;
    var t := Apply(s, e);
    var g := s.ingests[e.i];
    KnownFacts(s, e.i, c);
    if e.Cast? {
      ViewNext(s.clients[c].sent, Update(g.reading));
      StoredReading(s, e.i);
    }
    PendingOwn(s, e.i, c);
    if e.i in t.ingests { PendingOwn(t, e.i, c); }
  }

  lemma StoredReading(s: State, i: nat)
    requires Alone(s) && i in s.ingests && !s.ingests[i].stage.Looked?
    ensures var r := s.ingests[i].reading; r.device in s.store && s.store[r.device] == r
  {
    hide OneEach;
    assert HasStored(s, i);
  }

  /** Any other device. */
  lemma OtherShows(s: State, e: Step, c: nat, d: Uuid)
    requires Enabled(s, e) && (e.Set? || e.Begin? || e.Cast? || e.End?)
    requires c in s.clients && Current(s, c, d) && d != s.ingests[e.i].reading.device
    ensures c in Apply(s, e).clients && Current(Apply(s, e), c, d)
  {
    hide View, Pending, Receives, IsNumber, IsUuid;
    if e.Cast? { ViewNext(s.clients[c].sent, Update(s.ingests[e.i].reading)); }
    PendingOther(s, Apply(s, e), e.i, c, d);
  }

  /** A handler's step, seen by one live client. */
  lemma IngestShows(s: State, e: Step, c: nat)
    requires Known(s) && Alone(s) && Enabled(s, e) && (e.Set? || e.Begin? || e.Cast? || e.End?)
    requires Alone(Apply(s, e)) && Plain(s, c) && s.clients[c].phase.Live? && ViewOk(s, c)
    ensures Plain(Apply(s, e), c) && ViewOk(Apply(s, e), c)
  {
    hide Known, Alone, Current, ViewOk, Receives, Written;
    ViewIsCurrent(s, c);
    forall d: Uuid ensures Current(Apply(s, e), c, d) {
      assert Current(s, c, d);
      if d == s.ingests[e.i].reading.device { OwnShows(s, e, c); } else { OtherShows(s, e, c, d); }
    }
    KeepsPhase(s, e, c);
    ViewIsCurrent(Apply(s, e), c);
  }

  lemma KeepsPhase(s: State, e: Step, c: nat)
    requires Enabled(s, e) && (e.Set? || e.Begin? || e.Cast? || e.End?) && Plain(s, c)
    ensures Plain(Apply(s, e), c)
  {
  }

  lemma ViewIsCurrent(s: State, c: nat)
    requires c in s.clients
    ensures ViewOk(s, c) <==> forall d: Uuid :: Current(s, c, d)
  {
    hide View, Pending;
    if forall d: Uuid :: Current(s, c, d) {
      var cl := s.clients[c];
      forall d | d in View(cl.sent) ensures Mine(s, cl.org, d) { assert Current(s, c, d); }
      forall d: Uuid | Mine(s, cl.org, d)
        ensures Pending(s, c, d) || (d in View(cl.sent) && View(cl.sent)[d] == s.store[d])
      {
        assert Current(s, c, d);
      }
    }
  }

  lemma SendShows(s: State, c: nat)
    requires Known(s) && c in s.clients && s.clients[c].phase.Sending?
    requires SnapshotOk(s, s.clients[c].org, s.clients[c].phase.readings)
    ensures ViewOk(Apply(s, Send(c)), c)
  {
    var t, cl := Apply(s, Send(c)), s.clients[c];
    ViewNext(cl.sent, Snapshot(cl.phase.readings));
    FromListShows(s, cl.org, cl.phase.readings);
    forall d | Mine(t, cl.org, d) ensures d in View(t.clients[c].sent) && View(t.clients[c].sent)[d] == t.store[d] {
      assert Mine(s, cl.org, d) && s.store[d] in cl.phase.readings;
    }
  }

  /** Steps that change neither the store, the handlers nor the organizations of known devices. */
  lemma StillShown(s: State, t: State, c: nat)
    requires Known(s) && c in s.clients && c in t.clients && s.clients[c] == t.clients[c] && ClientOk(s, c)
    requires s.store == t.store && forall d :: d in s.devices ==> d in t.devices && t.devices[d] == s.devices[d]
    requires forall d :: Pending(s, c, d) ==> Pending(t, c, d)
    ensures ClientOk(t, c)
  {
    hide View, Pending;
    var org := s.clients[c].org;
    forall d ensures Mine(s, org, d) <==> Mine(t, org, d) { if d in s.store { KnownDevice(s, d); } }
  }

  lemma PendingKept(s: State, t: State, c: nat)
    requires forall i :: i in s.ingests ==> i in t.ingests && t.ingests[i] == s.ingests[i]
    ensures forall d :: Pending(s, c, d) ==> Pending(t, c, d)
  {
    forall d | Pending(s, c, d) ensures Pending(t, c, d) {
      var i :| i in s.ingests && s.ingests[i].reading.device == d && Owes(s.ingests[i], c);
      assert t.ingests[i].reading.device == d && Owes(t.ingests[i], c);
    }
  }

  lemma ListShows(s: State, c: nat, ids: seq<Uuid>)
    requires Enabled(s, List(c, ids))
    ensures ListOk(s, s.clients[c].org, ids)
  {
    forall d ensures d in ids <==> d in DevicesOf(s.devices, s.clients[c].org) {
      assert d in ids <==> d in Elements(ids);
    }
  }

  lemma FetchShows(s: State, org: Uuid, ids: seq<Uuid>)
    requires Known(s) && ListOk(s, org, ids)
    ensures SnapshotOk(s, org, Readings(s.store, ids))
  {
  }

  /** A handler's step leaves a list or a snapshot that is under way as good as it was. */
  lemma SnapshotUndisturbed(s: State, e: Step, c: nat)
    requires Known(s) && Enabled(s, e) && Serial(s, e) && (e.Set? || e.Begin? || e.Cast? || e.End?)
    requires Plain(s, c) && ClientOk(s, c) && !s.clients[c].phase.Live?
    ensures c in Apply(s, e).clients && ClientOk(Apply(s, e), c)
  {
    hide Known, Alone, Pending, Elements, Owes, ViewOk, Receives, IsNumber, IsUuid;
    var t, org := Apply(s, e), s.clients[c].org;
    KnownFacts(s, e.i, c);
    if e.Set? {
      var d := s.ingests[e.i].reading.device;
      forall x | x != d ensures Mine(t, org, x) <==> Mine(s, org, x) {}
      if org == s.ingests[e.i].org { assert !Misses(s.clients[c], s.ingests[e.i]); }
    } else {
      forall x ensures Mine(t, org, x) <==> Mine(s, org, x) {}
    }
  }

  lemma ShownStep(s: State, e: Step)
    requires Known(s) && Shown(s) && Enabled(s, e) && Serial(s, e)
    ensures Shown(Apply(s, e))
  {
    hide Known, Alone, ViewOk, ListOk, SnapshotOk, Broadcasting, Readings, Pending, Elements, Owes, IsNumber, IsUuid;
    var t := Apply(s, e);
    AloneStep(s, e);
    forall c | Plain(t, c) ensures ClientOk(t, c) {
      if c in s.clients && s.clients[c] == t.clients[c] && !(e.Set? || e.Begin? || e.Cast? || e.End?) {
        PendingKept(s, t, c);
        StillShown(s, t, c);
      } else if e.Set? || e.Begin? || e.Cast? || e.End? {
        assert Plain(s, c) && ClientOk(s, c);
        if s.clients[c].phase.Live? { IngestShows(s, e, c); } else { SnapshotUndisturbed(s, e, c); }
      } else if e.List? {
        ListShows(s, c, e.ids);
        ListKept(s, t, s.clients[c].org, e.ids);
      } else if e.Fetch? {
        assert ClientOk(s, c);
        FetchShows(s, s.clients[c].org, s.clients[c].phase.ids);
        SnapshotKept(s, t, s.clients[c].org, t.clients[c].phase.readings);
      } else if e.Answer? {
        assert ClientOk(s, c);
        AnswerShows(s, c, e.f);
      } else if e.Send? {
        assert ClientOk(s, c);
        SendShows(s, c);
      }
    }
  }

  /** A reply changes nothing that is shown. */
  lemma AnswerShows(s: State, c: nat, f: Frame)
    requires Enabled(s, Answer(c, f)) && ViewOk(s, c)
    ensures ViewOk(Apply(s, Answer(c, f)), c)
  {
    hide View, IsNumber, IsUuid, Owes;
    var t, org := Apply(s, Answer(c, f)), s.clients[c].org;
    ViewNext(s.clients[c].sent, f);
    forall d ensures Mine(t, org, d) <==> Mine(s, org, d) {}
    forall d ensures Pending(t, c, d) <==> Pending(s, c, d) {}
  }

  lemma ListKept(s: State, t: State, org: Uuid, ids: seq<Uuid>)
    requires s.store == t.store && s.devices == t.devices && ListOk(s, org, ids)
    ensures ListOk(t, org, ids)
  {
    assert forall d :: Mine(t, org, d) ==> Mine(s, org, d);
  }

  lemma SnapshotKept(s: State, t: State, org: Uuid, rs: seq<Reading>)
    requires s.store == t.store && s.devices == t.devices && SnapshotOk(s, org, rs)
    ensures SnapshotOk(t, org, rs)
  {
    assert forall d :: Mine(t, org, d) <==> Mine(s, org, d);
  }

  lemma {:induction false} RunShown(run: seq<Step>)
    requires Valid(run) && SerialRun(run)
    ensures Shown(After(run))
  {
    hide Known, NoGap, Shown, Enabled, Apply, Serial;
    if run == [] {
      InitShown();
    } else {
      var front := run[..|run| - 1];
      RunShown(front);
      RunHasNoGap(front);
      ShownStep(After(front), run[|run| - 1]);
    }
  }

  lemma InitShown()
    ensures Shown(INIT)
  {
  }

  /** In every such run, once no handler is at work a live unfiltered client shows exactly the store
      restricted to its organization. Each of the three conditions is needed: see TwoHandlers,
      StaleSnapshot and LateDevice. */
  lemma ViewIsStore(run: seq<Step>, c: nat)
    requires Valid(run) && SerialRun(run) && After(run).ingests == map[]
    requires Plain(After(run), c) && After(run).clients[c].phase.Live?
    ensures var s := After(run);
            View(s.clients[c].sent) == map d | d in s.store && d in DevicesOf(s.devices, s.clients[c].org) :: s.store[d]
  {
    hide Valid, SerialRun, After, Alone;
    RunShown(run);
    var s := After(run);
    assert ClientOk(s, c);
    var v := View(s.clients[c].sent);
    forall d ensures d in v <==> Mine(s, s.clients[c].org, d) { assert !Pending(s, c, d); }
  }

  /* ---------- without those conditions ---------- */

  /** A handler that runs from start to end while there is one client. */
  lemma Handled(run: seq<Step>, s: State, cl: Client, r: Reading) returns (longer: seq<Step>)
    requires Valid(run) && After(run) == s && s.ingests == map[] && s.clients == map[0 := cl] && r.device in s.devices
    ensures Valid(longer) && After(longer) == s.(store := s.store[r.device := r],
              clients := map[0 := if Receives(cl, s.devices[r.device], r) then Written(cl, Update(r)) else cl])
  {
    hide Valid, After, Receives, Written;
    longer := HandlerRuns(run, s, 0, r);
  }

  /** One device, one client just registered. */
  lemma Joined(d: Uuid, org: Uuid) returns (run: seq<Step>)
    ensures Valid(run)
    ensures After(run) == State(map[d := org], map[], map[], map[0 := Client(org, Greeting, None, false, [])])
  {
    hide Valid, After;
    StartsEmpty();
    Extends([], INIT, CreateDevice(d, org));
    run := [] + [CreateDevice(d, org)];
    var a := State(map[d := org], map[], map[], map[]);
    assert After(run) == a;
    Extends(run, a, Register(0, org, []));
    run := run + [Register(0, org, [])];
  }

  /** auth_ok need not come first: the client is registered before it is written. */
  lemma ReadingBeforeAuthOk(r: Reading, org: Uuid) returns (run: seq<Step>)
    ensures Valid(run) && After(run).clients.Keys == {0} && After(run).clients[0].sent == [Update(r)]
    ensures After(run).clients[0].phase.Greeting?
  {
    hide Valid, After;
    run := Joined(r.device, org);
    var s := State(map[r.device := org], map[], map[], map[0 := Client(org, Greeting, None, false, [])]);
    run := Handled(run, s, s.clients[0], r);
    assert [] + [Update(r)] == [Update(r)];
  }

  lemma Lagging(d: Uuid, org: Uuid, cl: Client, devices: map<Uuid, Uuid>, store: map<Uuid, Reading>,
          run: seq<Step>, ids: seq<Uuid>) returns (longer: seq<Step>)
    requires Valid(run) && cl == Client(org, Greeting, None, false, cl.sent)
    requires After(run) == State(devices, store, map[], map[0 := cl]) && Elements(ids) == DevicesOf(devices, org)
    ensures Valid(longer)
    ensures After(longer) == State(devices, store, map[],
        map[0 := Client(org, Fetching(ids), None, false, cl.sent + [AuthOk])])
  {
    hide Valid, After, Readings, Elements;
    Extends(run, After(run), Greet(0));
    longer := run + [Greet(0)];
    var s := State(devices, store, map[], map[0 := Client(org, Listing, None, false, cl.sent + [AuthOk])]);
    assert After(longer) == s;
    Extends(longer, s, List(0, ids));
    longer := longer + [List(0, ids)];
  }

  /** The last frame a client gets can be older than the store: a snapshot read early may be written
      after a newer reading. No handler is left to correct it. */
  lemma StaleSnapshot(old_: Reading, new_: Reading, org: Uuid) returns (run: seq<Step>)
    requires old_.device == new_.device
    ensures Valid(run) && After(run).ingests == map[] && Plain(After(run), 0) && After(run).clients[0].phase.Live?
    ensures View(After(run).clients[0].sent) == map[old_.device := old_] && After(run).store == map[old_.device := new_]
  {
    hide Valid, After, Elements, View, FromList, Receives, DevicesOf, Broadcasting, IsNumber, IsUuid;
    var d := old_.device;
    var devices := map[d := org];
    var cl := Client(org, Greeting, None, false, []);
    run := Joined(d, org);
    run := Handled(run, State(devices, map[], map[], map[0 := cl]), cl, old_);
    var sent := if Receives(cl, org, old_) then [Update(old_)] else [];
    var cl1 := cl.(sent := sent);
    assert Written(cl, Update(old_)).sent == [Update(old_)];
    OneDevice(d, org);
    run := Lagging(d, org, cl1, devices, map[d := old_], run, [d]);
    var cl2 := Client(org, Fetching([d]), None, false, sent + [AuthOk]);
    var s2 := State(devices, map[d := old_], map[], map[0 := cl2]);
    Extends(run, s2, Fetch(0));
    run := run + [Fetch(0)];
    OneReading(map[d := old_], d);
    var cl3 := cl2.(phase := Sending([old_]));
    var s3 := State(devices, map[d := old_], map[], map[0 := cl3]);
    assert After(run) == s3;
    run := SentLate(run, s3, cl3, new_);
    ListOfOne(old_);
  }

  /** A reading arrives between a client's Fetch and its Send. */
  lemma SentLate(run: seq<Step>, s: State, cl: Client, r: Reading) returns (longer: seq<Step>)
    requires Valid(run) && After(run) == s && s.ingests == map[] && s.clients == map[0 := cl] && r.device in s.devices
    requires cl.phase.Sending?
    ensures Valid(longer)
    ensures var t := After(longer);
            && t.ingests == map[] && t.clients.Keys == {0} && t.store == s.store[r.device := r]
            && t.clients[0].phase.Live? && t.clients[0].filtered == cl.filtered
                && View(t.clients[0].sent) == FromList(cl.phase.readings)
  {
    hide Valid, After, Elements, View, FromList, Receives, DevicesOf, Readings;
    longer := Handled(run, s, cl, r);
    var cl' := if Receives(cl, s.devices[r.device], r) then Written(cl, Update(r)) else cl;
    var s' := s.(store := s.store[r.device := r], clients := map[0 := cl']);
    assert After(longer) == s';
    Extends(longer, s', Send(0));
    longer := longer + [Send(0)];
    ViewNext(cl'.sent, Snapshot(cl.phase.readings));
  }

  lemma OneDevice(d: Uuid, org: Uuid)
    ensures Elements([d]) == DevicesOf(map[d := org], org)
  {
  }

  lemma OneReading(m: map<Uuid, Reading>, d: Uuid)
    ensures Readings(m, [d]) == if d in m then [m[d]] else []
  {
    assert [d][..0] == [];
  }

  lemma ListOfOne(r: Reading)
    ensures FromList([r]) == map[r.device := r]
  {
    assert [r][..0] == [];
  }

  /** Two handlers of one device can finish in the other order than they stored: a live client is left
      with the older reading, and no handler is left to correct it. */
  lemma TwoHandlers(old_: Reading, new_: Reading, org: Uuid) returns (run: seq<Step>)
    requires old_.device == new_.device
    ensures Valid(run) && After(run).ingests == map[] && Plain(After(run), 0) && After(run).clients[0].phase.Live?
    ensures View(After(run).clients[0].sent) == map[old_.device := old_] && After(run).store == map[old_.device := new_]
  {
    hide Valid, After, Elements, View, FromList, DevicesOf, Broadcasting, Delivered, Readings, IsNumber, IsUuid;
    var d := old_.device;
    run := Joined(d, org);
    OneDevice(d, org);
    run := Lagging(d, org, Client(org, Greeting, None, false, []), map[d := org], map[], run, [d]);
    var cl := Client(org, Sending([]), None, false, [AuthOk]);
    Extends(run, After(run), Fetch(0));
    run := run + [Fetch(0)];
    OneReading(map[], d);
    assert [] + [AuthOk] == [AuthOk];
    assert After(run) == State(map[d := org], map[], map[], map[0 := cl]);
    Extends(run, After(run), Send(0));
    run := run + [Send(0)];
    var live := Client(org, Live, None, false, [AuthOk, Snapshot([])]);
    assert [AuthOk] + [Snapshot([])] == [AuthOk, Snapshot([])];
    assert After(run) == State(map[d := org], map[], map[], map[0 := live]);
    run := StoreRuns(run, After(run), 0, old_);
    run := StoreRuns(run, After(run), 1, new_);
    run := BroadcastRuns(run, After(run), 1);
    run := BroadcastRuns(run, After(run), 0);
    var sent := live.sent;
    assert map[d := old_][d := new_] == map[d := new_];
    DeliveredTwice(live, org, old_, new_);
    ViewNext(sent, Update(new_));
    ViewNext(sent + [Update(new_)], Update(old_));
    EmptyView();
  }

  lemma DeliveredTwice(cl: Client, org: Uuid, old_: Reading, new_: Reading)
    requires cl.org == org && cl.filter == None
    ensures var m := map[0 := cl];
            var n := Delivered(m, m.Keys, org, new_);
            Delivered(n, n.Keys, org, old_) == map[0 := cl.(sent := cl.sent + [Update(new_)] + [Update(old_)])]
  {
    var m := map[0 := cl];
    assert Delivered(m, m.Keys, org, new_) == map[0 := Written(cl, Update(new_))];
  }

  lemma EmptyView()
    ensures View([AuthOk, Snapshot([])]) == map[]
  {
    assert [AuthOk, Snapshot([])][..1] == [AuthOk];
  }

  /** A device created after the client's device list is missing from its snapshot, and the snapshot
      takes away the reading the client had been sent, even if it is read and written in one step. */
  lemma LateDevice(r: Reading, org: Uuid, d: Uuid) returns (run: seq<Step>)
    requires d != r.device
    ensures Valid(run) && After(run).ingests == map[] && Plain(After(run), 0) && After(run).clients[0].phase.Live?
    ensures View(After(run).clients[0].sent) == map[] && After(run).store == map[r.device := r]
    ensures r.device in DevicesOf(After(run).devices, After(run).clients[0].org)
    ensures |run| >= 2 && run[|run| - 2] == Fetch(0) && run[|run| - 1] == Send(0)
  {
    hide Valid, After, Elements, View, FromList, Receives, IsNumber, IsUuid;
    run := Joined(d, org);
    OneDevice(d, org);
    run := Lagging(d, org, Client(org, Greeting, None, false, []), map[d := org], map[], run, [d]);
    var cl1 := Client(org, Fetching([d]), None, false, [] + [AuthOk]);
    var s1 := State(map[d := org], map[], map[], map[0 := cl1]);
    Extends(run, s1, CreateDevice(r.device, org));
    run := run + [CreateDevice(r.device, org)];
    var s2 := s1.(devices := map[d := org, r.device := org]);
    assert After(run) == s2;
    run := Handled(run, s2, cl1, r);
    var cl3 := if Receives(cl1, org, r) then Written(cl1, Update(r)) else cl1;
    var s3 := s2.(store := map[r.device := r], clients := map[0 := cl3]);
    assert After(run) == s3;
    Extends(run, s3, Fetch(0));
    run := run + [Fetch(0)];
    OneReading(s3.store, d);
    var s4 := s3.(clients := map[0 := cl3.(phase := Sending([]))]);
    assert After(run) == s4;
    Extends(run, s4, Send(0));
    run := run + [Send(0)];
    ViewNext(cl3.sent, Snapshot([]));
    assert FromList([]) == map[] by { NoList(); }
  }

  lemma NoList()
    ensures FromList([]) == map[]
  {
  }
}
