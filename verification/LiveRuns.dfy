/** A telemetry handler that runs from start to end is one run of the live feed's steps, and its effect is
    the one that the ingest class promises for the store and for every client. */
module LiveRuns {
  import opened Text
  import opened Telemetry
  import opened StateStore
  import opened LiveFeed

  lemma Extends(run: seq<Step>, s: State, e: Step)
    requires Valid(run) && After(run) == s && Enabled(s, e)
    ensures Valid(run + [e]) && After(run + [e]) == Apply(s, e)
  {
    hide Enabled, Apply;
    assert (run + [e])[..|run|] == run;
  }

  lemma StartsEmpty()
    ensures Valid([]) && After([]) == INIT
  {
  }

  /** The clients once these have had their turn in Broadcast. */
  function Delivered(clients: map<nat, Client>, todo: set<nat>, org: Uuid, r: Reading): map<nat, Client> {
    map c | c in clients ::
      if c in todo && Receives(clients[c], org, r) then Written(clients[c], Update(r)) else clients[c]
  }

  lemma DeliveredNone(clients: map<nat, Client>, org: Uuid, r: Reading)
    ensures Delivered(clients, {}, org, r) == clients
  {
  }

  lemma DeliveredNext(clients: map<nat, Client>, todo: set<nat>, c: nat, org: Uuid, r: Reading)
    requires c in todo
    ensures Delivered(Delivered(clients, {c}, org, r), todo - {c}, org, r) == Delivered(clients, todo, org, r)
  {
    hide Receives, Written;
  }

  lemma CastDelivers(s: State, i: nat, c: nat)
    requires Enabled(s, Cast(i, c))
    ensures var g := s.ingests[i];
            Apply(s, Cast(i, c)) == s.(ingests := s.ingests[i := g.(stage := Casting(g.stage.todo - {c}))],
                                       clients := Delivered(s.clients, {c}, g.org, g.reading))
  {
    hide Receives, Written;
  }

  /** The Broadcast loop, from any point of it. */
  lemma {:induction false} CastAll(run: seq<Step>, s: State, i: nat, todo: set<nat>) returns (longer: seq<Step>)
    requires Valid(run) && After(run) == s && i in s.ingests && s.ingests[i].stage == Casting(todo)
    ensures Valid(longer)
    ensures After(longer) == s.(ingests := s.ingests - {i},
                                clients := Delivered(s.clients, todo, s.ingests[i].org, s.ingests[i].reading))
    decreases todo
  {
    hide Valid, After, Delivered, Receives, Written;
    var org, r := s.ingests[i].org, s.ingests[i].reading;
    if todo == {} {
      Extends(run, s, End(i));
      longer := run + [End(i)];
      DeliveredNone(s.clients, org, r);
    } else {
      var c :| c in todo;
      Extends(run, s, Cast(i, c));
      CastDelivers(s, i, c);
      var t := Apply(s, Cast(i, c));
      longer := CastAll(run + [Cast(i, c)], t, i, todo - {c});
      DeliveredNext(s.clients, todo, c, org, r);
      assert t.ingests - {i} == s.ingests - {i};
    }
  }

  /** Broadcast, whole. */
  lemma BroadcastRuns(run: seq<Step>, s: State, i: nat) returns (longer: seq<Step>)
    requires Valid(run) && After(run) == s && i in s.ingests && s.ingests[i].stage.Stored?
    ensures Valid(longer)
    ensures After(longer) == s.(ingests := s.ingests - {i},
                                clients := Delivered(s.clients, s.clients.Keys, s.ingests[i].org, s.ingests[i].reading))
  {
    hide Valid, After, Delivered, Receives, Written;
    Extends(run, s, Begin(i));
    var t := Apply(s, Begin(i));
    longer := CastAll(run + [Begin(i)], t, i, s.clients.Keys);
    assert t.ingests - {i} == s.ingests - {i};
  }

  /** Up to the end of Set. */
  lemma StoreRuns(run: seq<Step>, s: State, i: nat, r: Reading) returns (longer: seq<Step>)
    requires Valid(run) && After(run) == s && i !in s.ingests && r.device in s.devices
    ensures Valid(longer)
    ensures After(longer) == s.(ingests := s.ingests[i := Ingest(s.devices[r.device], r, Stored)],
        store := s.store[r.device := r])
  {
    hide Valid, After;
    Extends(run, s, Arrive(i, r));
    var t := Apply(s, Arrive(i, r));
    Extends(run + [Arrive(i, r)], t, Set(i));
    longer := run + [Arrive(i, r)] + [Set(i)];
    assert t.ingests[i := t.ingests[i].(stage := Stored)] == s.ingests[i := Ingest(s.devices[r.device], r, Stored)];
  }

  /** A whole handler, while any number of others wait: the store has the reading, each client that
      receives it has one more update, and nothing else has changed. */
  lemma HandlerRuns(run: seq<Step>, s: State, i: nat, r: Reading) returns (longer: seq<Step>)
    requires Valid(run) && After(run) == s && i !in s.ingests && r.device in s.devices
    ensures Valid(longer)
    ensures After(longer) == s.(store := s.store[r.device := r],
                                clients := Delivered(s.clients, s.clients.Keys, s.devices[r.device], r))
  {
    hide Valid, After, Delivered;
    longer := StoreRuns(run, s, i, r);
    var t := After(longer);
    longer := BroadcastRuns(longer, t, i);
    assert t.ingests - {i} == s.ingests;
  }

  /** What Hub.Authenticate does for a connection is a run as well: register, greet, list, fetch and send. */
  lemma AuthenticateRuns(run: seq<Step>, s: State, c: nat, org: Uuid, before: seq<Frame>, ids: seq<Uuid>)
    returns (longer: seq<Step>)
    requires Valid(run) && After(run) == s && c !in s.clients && !Broadcasting(s) && Replies(before)
    requires Elements(ids) == DevicesOf(s.devices, org)
    ensures Valid(longer)
    ensures After(longer) == s.(clients := s.clients[c :=
              Client(org, Live, None, false, before + [AuthOk] + [Snapshot(Readings(s.store, ids))])])
  {
    hide Valid, After, Broadcasting, Replies, Elements, DevicesOf, Readings, IsNumber, IsUuid;
    Extends(run, s, Register(c, org, before));
    longer := run + [Register(c, org, before)];
    var a := s.(clients := s.clients[c := Client(org, Greeting, None, false, before)]);
    assert After(longer) == a;
    Extends(longer, a, Greet(c));
    longer := longer + [Greet(c)];
    var b := s.(clients := s.clients[c := Client(org, Listing, None, false, before + [AuthOk])]);
    assert After(longer) == b;
    longer := SnapshotRuns(longer, b, c, ids);
    assert b.clients[c := b.clients[c].(phase := Live, sent := b.clients[c].sent + [Snapshot(Readings(s.store, ids))])]
        == s.clients[c := Client(org, Live, None, false, before + [AuthOk] + [Snapshot(Readings(s.store, ids))])];
  }

  /** And what Hub.SendSnapshot does. */
  lemma SnapshotRuns(run: seq<Step>, s: State, c: nat, ids: seq<Uuid>) returns (longer: seq<Step>)
    requires Valid(run) && After(run) == s && c in s.clients && s.clients[c].phase.Listing?
    requires Elements(ids) == DevicesOf(s.devices, s.clients[c].org)
    ensures Valid(longer)
    ensures After(longer) == s.(clients := s.clients[c :=
              s.clients[c].(phase := Live, sent := s.clients[c].sent + [Snapshot(Readings(s.store, ids))])])
  {
    hide Valid, After, Broadcasting, Replies, Elements, DevicesOf, Readings, IsNumber, IsUuid;
    var cl, rs := s.clients[c], Readings(s.store, ids);
    Extends(run, s, List(c, ids));
    longer := run + [List(c, ids)];
    var a := s.(clients := s.clients[c := cl.(phase := Fetching(ids))]);
    assert After(longer) == a;
    Extends(longer, a, Fetch(c));
    longer := longer + [Fetch(c)];
    var b := s.(clients := s.clients[c := cl.(phase := Sending(rs))]);
    assert After(longer) == b;
    Extends(longer, b, Send(c));
    longer := longer + [Send(c)];
  }
}
