/** The live feed under concurrency: telemetry handlers set the store and then broadcast, while clients
    register and then read a snapshot. */
module LiveFeed {
  import opened Text
  import opened Telemetry
  import opened StateStore

  /** Reply is a pong or an error frame: it carries no reading. */
  datatype Frame = AuthOk | Snapshot(readings: seq<Reading>) | Update(reading: Reading) | Reply(error: bool)

  /** HandleMQTT after its lookups: before Set, between Set and Broadcast, inside the Broadcast loop. */
  datatype Stage = Looked | Stored | Casting(todo: set<nat>)

  datatype Ingest = Ingest(org: Uuid, reading: Reading, stage: Stage)

  /** authenticate after the lock: before auth_ok, before ListDevices, before Snapshot, before the write. */
  datatype Phase = Greeting | Listing | Fetching(ids: seq<Uuid>) | Sending(readings: seq<Reading>) | Live

  /** A registered client; filtered is history, and sent is everything written to it. */
  datatype Client = Client(org: Uuid, phase: Phase, filter: Option<set<Uuid>>, filtered: bool, sent: seq<Frame>)

  /** devices gives each device its organization. */
  datatype State = State(devices: map<Uuid, Uuid>, store: map<Uuid, Reading>, ingests: map<nat, Ingest>,
      clients: map<nat, Client>)

  const INIT: State := State(map[], map[], map[], map[])

  datatype Step =
    | CreateDevice(d: Uuid, org: Uuid)
    | Arrive(i: nat, reading: Reading)
    | Set(i: nat)
    | Begin(i: nat)                // RLock
    | Cast(i: nat, c: nat)         // one turn of the loop over the clients
    | End(i: nat)                  // RUnlock
    | Register(c: nat, org: Uuid, before: seq<Frame>) // under Lock; the replies the connection had before
    | Answer(c: nat, f: Frame)     // a reply of the read loop
    | Greet(c: nat)
    | List(c: nat, ids: seq<Uuid>)
    | Fetch(c: nat)
    | Send(c: nat)
    | Filter(c: nat, filter: Option<set<Uuid>>)
    | Remove(c: nat)               // under Lock

  predicate Broadcasting(s: State) { exists i :: i in s.ingests && s.ingests[i].stage.Casting? }

  function DevicesOf(devices: map<Uuid, Uuid>, org: Uuid): set<Uuid> { set d | d in devices && devices[d] == org }

  predicate Replies(frames: seq<Frame>) { forall k :: 0 <= k < |frames| ==> frames[k].Reply? }

  predicate Enabled(s: State, e: Step) {
    match e
    case CreateDevice(d, org) => d !in s.devices
    case Arrive(i, r) => i !in s.ingests && r.device in s.devices
    case Set(i) => i in s.ingests && s.ingests[i].stage.Looked?
    case Begin(i) => i in s.ingests && s.ingests[i].stage.Stored?
    case Cast(i, c) => i in s.ingests && s.ingests[i].stage.Casting? && c in s.ingests[i].stage.todo
    case End(i) => i in s.ingests && s.ingests[i].stage == Casting({})
    case Register(c, org, before) => c !in s.clients && !Broadcasting(s) && Replies(before)
    case Answer(c, f) => c in s.clients && s.clients[c].phase.Live? && f.Reply?
    case Greet(c) => c in s.clients && s.clients[c].phase.Greeting?
    case List(c, ids) => c in s.clients && s.clients[c].phase.Listing?
        && Elements(ids) == DevicesOf(s.devices, s.clients[c].org)
    case Fetch(c) => c in s.clients && s.clients[c].phase.Fetching?
    case Send(c) => c in s.clients && s.clients[c].phase.Sending?
    case Filter(c, filter) => c in s.clients && s.clients[c].phase.Live?
    case Remove(c) => c in s.clients && !Broadcasting(s)
  }

  /** Whether Broadcast writes a reading of this organization to the client. */
  predicate Receives(cl: Client, org: Uuid, r: Reading) {
    cl.org == org && (cl.filter == None || r.device in cl.filter.value)
  }

  function Written(cl: Client, f: Frame): Client { cl.(sent := cl.sent + [f]) }

  function Apply(s: State, e: Step): State
    requires Enabled(s, e)
  {
    match e
    case CreateDevice(d, org) => s.(devices := s.devices[d := org])
    case Arrive(i, r) => s.(ingests := s.ingests[i := Ingest(s.devices[r.device], r, Looked)])
    case Set(i) =>
      var r := s.ingests[i].reading;
      s.(store := s.store[r.device := r], ingests := s.ingests[i := s.ingests[i].(stage := Stored)])
    case Begin(i) => s.(ingests := s.ingests[i := s.ingests[i].(stage := Casting(s.clients.Keys))])
    case Cast(i, c) =>
      var g := s.ingests[i];
      var t := s.(ingests := s.ingests[i := g.(stage := Casting(g.stage.todo - {c}))]);
      if c in s.clients && Receives(s.clients[c], g.org, g.reading)
      then t.(clients := s.clients[c := Written(s.clients[c], Update(g.reading))]) else t
    case End(i) => s.(ingests := s.ingests - {i})
    case Register(c, org, before) => s.(clients := s.clients[c := Client(org, Greeting, None, false, before)])
    case Answer(c, f) => s.(clients := s.clients[c := Written(s.clients[c], f)])
    case Greet(c) => s.(clients := s.clients[c := Written(s.clients[c], AuthOk).(phase := Listing)])
    case List(c, ids) => s.(clients := s.clients[c := s.clients[c].(phase := Fetching(ids))])
    case Fetch(c) => s.(clients := s.clients[c := s.clients[c].(
        phase := Sending(Readings(s.store, s.clients[c].phase.ids)))])
    case Send(c) => s.(clients := s.clients[c := Written(s.clients[c],
        Snapshot(s.clients[c].phase.readings)).(phase := Live)])
    case Filter(c, filter) => s.(clients := s.clients[c := s.clients[c].(filter := filter, filtered := true)])
    case Remove(c) => s.(clients := s.clients - {c})
  }

  predicate Valid(run: seq<Step>)
    decreases |run|, 0
  {
    run == [] || (Valid(run[..|run| - 1]) && Enabled(After(run[..|run| - 1]), run[|run| - 1]))
  }

  function After(run: seq<Step>): State
    requires Valid(run)
    decreases |run|, 1
  {
    if run == [] then INIT else Apply(After(run[..|run| - 1]), run[|run| - 1])
  }

  /* ---------- no gap ---------- */

  predicate Carries(f: Frame, r: Reading) { f == Update(r) || (f.Snapshot? && r in f.readings) }

  predicate WasSent(frames: seq<Frame>, r: Reading) { exists k :: 0 <= k < |frames| && Carries(frames[k], r) }

  predicate Owes(g: Ingest, c: nat) { g.stage.Stored? || (g.stage.Casting? && c in g.stage.todo) }

  /** Some handler has yet to broadcast this reading to the client. */
  predicate Coming(ingests: map<nat, Ingest>, c: nat, r: Reading) {
    exists i :: i in ingests && ingests[i].reading == r && Owes(ingests[i], c)
  }

  /** The client's snapshot has yet to be written and will hold the reading. */
  predicate Ahead(p: Phase, r: Reading) {
    p.Greeting? || p.Listing? || (p.Fetching? && r.device in p.ids) || (p.Sending? && r in p.readings)
  }

  predicate Covered(s: State, c: nat, d: Uuid)
    requires c in s.clients && d in s.store
  {
    var r := s.store[d];
    WasSent(s.clients[c].sent, r) || Coming(s.ingests, c, r) || Ahead(s.clients[c].phase, r)
  }

  predicate Known(s: State) {
    && (forall d :: d in s.store ==> d in s.devices && s.store[d].device == d)
    && (forall i :: i in s.ingests ==>
          s.ingests[i].reading.device in s.devices && s.ingests[i].org == s.devices[s.ingests[i].reading.device])
    && (forall c :: c in s.clients && !s.clients[c].filtered ==> s.clients[c].filter == None)
  }

  predicate Plain(s: State, c: nat) { c in s.clients && !s.clients[c].filtered }

  ghost predicate NoGap(s: State) {
    forall c, d :: Plain(s, c) && d in s.store && d in s.devices && s.devices[d] == s.clients[c].org ==>
        Covered(s, c, d)
  }

  lemma KnownStep(s: State, e: Step)
    requires Known(s) && Enabled(s, e)
    ensures Known(Apply(s, e))
  {
    hide Readings, IsNumber, IsUuid;
  }

  lemma SentGrows(frames: seq<Frame>, f: Frame, r: Reading)
    ensures WasSent(frames + [f], r) <==> WasSent(frames, r) || Carries(f, r)
  {
    if WasSent(frames, r) {
      var k :| 0 <= k < |frames| && Carries(frames[k], r);
      assert (frames + [f])[k] == frames[k];
    }
    if Carries(f, r) { assert (frames + [f])[|frames|] == f; }
    if WasSent(frames + [f], r) {
      var k :| 0 <= k < |frames| + 1 && Carries((frames + [f])[k], r);
      if k < |frames| { assert Carries(frames[k], r); }
    }
  }

  lemma ComingKept(ingests: map<nat, Ingest>, later: map<nat, Ingest>, c: nat, r: Reading, i: nat)
    requires Coming(ingests, c, r) && i in ingests
    requires forall j :: j in ingests && j != i ==> j in later && later[j] == ingests[j]
    requires Owes(ingests[i], c) ==> i in later && later[i].reading == ingests[i].reading && Owes(later[i], c)
    ensures Coming(later, c, r)
  {
    hide Owes;
    var j :| j in ingests && ingests[j].reading == r && Owes(ingests[j], c);
    assert j in later && later[j].reading == r && Owes(later[j], c);
  }

  lemma ComingAdded(ingests: map<nat, Ingest>, c: nat, r: Reading, i: nat, g: Ingest)
    requires Coming(ingests, c, r) && i !in ingests
    ensures Coming(ingests[i := g], c, r)
  {
    hide Owes;
    var j :| j in ingests && ingests[j].reading == r && Owes(ingests[j], c);
    assert ingests[i := g][j] == ingests[j];
  }

  /** The broadcast of a reading the client was owed reaches it. */
  lemma CastReaches(s: State, i: nat, c: nat, r: Reading)
    requires Enabled(s, Cast(i, c)) && c in s.clients && s.clients[c].filter == None
    requires s.clients[c].org == s.ingests[i].org
    requires WasSent(s.clients[c].sent, r) || s.ingests[i].reading == r
    ensures c in Apply(s, Cast(i, c)).clients && WasSent(Apply(s, Cast(i, c)).clients[c].sent, r)
  {
    hide WasSent, Carries, IsNumber, IsUuid;
    var g := s.ingests[i].reading;
    SentGrows(s.clients[c].sent, Update(g), r);
    if g == r { Written1(s.clients[c], g); }
  }

  /** A reading that is owed stays owed through a handler's step, unless the step pays it. */
  lemma StillComing(s: State, e: Step, c: nat, r: Reading)
    requires Enabled(s, e) && (e.Set? || e.Begin? || e.Cast? || e.End?) && c in s.clients && Coming(s.ingests, c, r)
    requires e.Cast? && e.c == c ==> s.ingests[e.i].reading != r
    ensures Coming(Apply(s, e).ingests, c, r)
  {
    hide Coming, IsNumber, IsUuid, Receives, Written;
    var t := Apply(s, e);
    if e.Cast? && e.c == c {
      CastOther(s.ingests, t.ingests, e.i, c, r);
    } else {
      ComingKept(s.ingests, t.ingests, c, r, e.i);
    }
  }

  /** A handler's step leaves every other client's frames and every client's phase alone. */
  lemma HandlerLeaves(s: State, e: Step, c: nat)
    requires Enabled(s, e) && (e.Set? || e.Begin? || e.Cast? || e.End?) && c in s.clients
    ensures c in Apply(s, e).clients && Apply(s, e).clients[c].phase == s.clients[c].phase
    ensures !(e.Cast? && e.c == c) ==> Apply(s, e).clients[c].sent == s.clients[c].sent
    ensures e.Set? ==> e.i in Apply(s, e).ingests && Apply(s, e).ingests[e.i].reading == s.ingests[e.i].reading
    ensures e.Set? ==> Apply(s, e).ingests[e.i].stage.Stored?
    ensures Apply(s, e).store == if e.Set? then s.store[s.ingests[e.i].reading.device := s.ingests[e.i].reading]
        else s.store
  {
    hide IsNumber, IsUuid, Receives;
  }

  /** A handler's step covers what it covered, for one client and one device. */
  lemma IngestCovers(s: State, e: Step, c: nat, d: Uuid)
    requires Known(s) && NoGap(s) && Enabled(s, e) && (e.Set? || e.Begin? || e.Cast? || e.End?)
    requires Plain(s, c) && d in Apply(s, e).store && d in s.devices && s.devices[d] == s.clients[c].org
    ensures c in Apply(s, e).clients && Covered(Apply(s, e), c, d)
  {
    hide Known, Ahead, WasSent, Coming, Apply, IsNumber, IsUuid;
    var t, g := Apply(s, e), s.ingests[e.i];
    var r := t.store[d];
    KnownFacts(s, e.i, c);
    HandlerLeaves(s, e, c);
    if e.Set? && d == g.reading.device {
      ComingFrom(t.ingests, e.i, c);
    } else {
      assert Covered(s, c, d);
      KnownDevice(s, d);
      if WasSent(s.clients[c].sent, r) {
        if e.Cast? && e.c == c && g.org == s.clients[c].org { CastReaches(s, e.i, c, r); }
        if e.Cast? && e.c == c && g.org != s.clients[c].org { CastElsewhere(s, e.i, c); }
      } else if Coming(s.ingests, c, r) {
        if e.Cast? && e.c == c && g.reading == r { CastReaches(s, e.i, c, r); } else { StillComing(s, e, c, r); }
      }
    }
  }

  lemma ComingFrom(ingests: map<nat, Ingest>, i: nat, c: nat)
    requires i in ingests && ingests[i].stage.Stored?
    ensures Coming(ingests, c, ingests[i].reading)
  {
    assert Owes(ingests[i], c);
  }

  lemma CastElsewhere(s: State, i: nat, c: nat)
    requires Enabled(s, Cast(i, c)) && c in s.clients && s.clients[c].org != s.ingests[i].org
    ensures c in Apply(s, Cast(i, c)).clients && Apply(s, Cast(i, c)).clients[c] == s.clients[c]
  {
    hide IsNumber, IsUuid;
  }

  lemma KnownFacts(s: State, i: nat, c: nat)
    requires Known(s) && i in s.ingests && Plain(s, c)
    ensures s.ingests[i].reading.device in s.devices && s.ingests[i].org == s.devices[s.ingests[i].reading.device]
    ensures s.clients[c].filter == None
  {
  }

  lemma KnownDevice(s: State, d: Uuid)
    requires Known(s) && d in s.store
    ensures s.store[d].device == d && d in s.devices
  {
  }

  lemma Written1(cl: Client, r: Reading)
    ensures WasSent(Written(cl, Update(r)).sent, r)
  {
    SentGrows(cl.sent, Update(r), r);
  }

  lemma CastOther(ingests: map<nat, Ingest>, later: map<nat, Ingest>, i: nat, c: nat, r: Reading)
    requires Coming(ingests, c, r) && i in ingests && ingests[i].reading != r
    requires forall j :: j in ingests && j != i ==> j in later && later[j] == ingests[j]
    ensures Coming(later, c, r)
  {
    hide Owes;
    var j :| j in ingests && ingests[j].reading == r && Owes(ingests[j], c);
    assert j != i && later[j] == ingests[j];
  }

  /** A client's own step covers what it covered. */
  lemma ClientCovers(s: State, e: Step, c: nat, d: Uuid)
    requires Known(s) && NoGap(s) && Enabled(s, e) && (e.Greet? || e.List? || e.Fetch? || e.Send? || e.Answer?)
    requires Plain(s, c) && d in s.store && d in s.devices && s.devices[d] == s.clients[c].org
    ensures Covered(Apply(s, e), c, d)
  {
    hide Owes, Coming, Known, Carries, IsNumber, IsUuid;
    var r := s.store[d];
    KnownDevice(s, d);
    assert Covered(s, c, d);
    if e.c == c {
      if e.Greet? { SentGrows(s.clients[c].sent, AuthOk, r); }
      if e.Answer? { SentGrows(s.clients[c].sent, e.f, r); }
      if e.List? { assert d in DevicesOf(s.devices, s.clients[c].org); assert d in Elements(e.ids); }
      if e.Send? {
        SentGrows(s.clients[c].sent, Snapshot(s.clients[c].phase.readings), r);
        CarriesSnapshot(s.clients[c].phase.readings, r);
      }
    }
  }

  lemma CarriesSnapshot(readings: seq<Reading>, r: Reading)
    ensures Carries(Snapshot(readings), r) <==> r in readings
  {
  }

  lemma NoGapStep(s: State, e: Step)
    requires Known(s) && NoGap(s) && Enabled(s, e)
    ensures NoGap(Apply(s, e))
  {
    hide Known, Covered, Broadcasting, Readings, IsNumber, IsUuid;
    var t := Apply(s, e);
    KnownStep(s, e);
    forall c, d | Plain(t, c) && d in t.store && d in t.devices && t.devices[d] == t.clients[c].org
      ensures Covered(t, c, d)
    {
      match e
      case Answer(_, _) => ClientCovers(s, e, c, d);
      case Register(c', _, _) => if c == c' { Fresh(t, c, d); } else { assert Covered(s, c, d); SameCover(s, t, c, d); }
      case Arrive(i, r) => assert Covered(s, c, d); ArriveCovers(s, e, c, d);
      case Set(_) => IngestCovers(s, e, c, d);
      case Begin(_) => IngestCovers(s, e, c, d);
      case Cast(_, c') => IngestCovers(s, e, c, d);
      case End(_) => IngestCovers(s, e, c, d);
      case Greet(_) => ClientCovers(s, e, c, d);
      case List(_, _) => ClientCovers(s, e, c, d);
      case Fetch(_) => ClientCovers(s, e, c, d);
      case Send(_) => ClientCovers(s, e, c, d);
      case CreateDevice(d', org) => KnownDevice(s, d); assert Covered(s, c, d); SameCover(s, t, c, d);
      case _ => assert Covered(s, c, d); SameCover(s, t, c, d);
    }
  }

  lemma Fresh(t: State, c: nat, d: Uuid)
    requires c in t.clients && d in t.store && t.clients[c].phase.Greeting?
    ensures Covered(t, c, d)
  {
  }

  lemma SameCover(s: State, t: State, c: nat, d: Uuid)
    requires c in s.clients && c in t.clients && d in s.store && d in t.store && Covered(s, c, d)
    requires s.store[d] == t.store[d] && s.ingests == t.ingests && s.clients[c].sent == t.clients[c].sent
    requires s.clients[c].phase == t.clients[c].phase
    ensures Covered(t, c, d)
  {
  }

  lemma ArriveCovers(s: State, e: Step, c: nat, d: Uuid)
    requires e.Arrive? && Enabled(s, e) && c in s.clients && d in s.store && Covered(s, c, d)
    ensures Covered(Apply(s, e), c, d)
  {
    hide Owes, Ahead, WasSent;
    var r := s.store[d];
    if Coming(s.ingests, c, r) {
      ComingAdded(s.ingests, c, r, e.i, Ingest(s.devices[e.reading.device], e.reading, Looked));
    }
  }

  lemma {:induction false} RunHasNoGap(run: seq<Step>)
    requires Valid(run)
    ensures Known(After(run)) && NoGap(After(run))
  {
    hide Known, NoGap, Enabled, Apply;
    if run == [] {
      InitGap();
    } else {
      var front := run[..|run| - 1];
      RunHasNoGap(front);
      KnownStep(After(front), run[|run| - 1]);
      NoGapStep(After(front), run[|run| - 1]);
    }
  }

  lemma InitGap()
    ensures Known(INIT) && NoGap(INIT)
  {
  }

  /** No gap. However handlers, registrations and device creations interleave, once no handler is at
      work every live client that never set a filter has been sent the store's reading of every device
      of its organization, in a snapshot or as an update. */
  lemma NothingMissed(run: seq<Step>, c: nat, d: Uuid)
    requires Valid(run) && After(run).ingests == map[]
    requires Plain(After(run), c) && After(run).clients[c].phase.Live?
    requires d in After(run).store && d in DevicesOf(After(run).devices, After(run).clients[c].org)
    ensures WasSent(After(run).clients[c].sent, After(run).store[d])
  {
    hide Known, Owes, Valid, After, WasSent, Carries;
    RunHasNoGap(run);
    var s := After(run);
    KnownDevice(s, d);
    assert Covered(s, c, d);
  }
}
