/** The hub's own operations on its registered clients, each as one call. */
module Hub {
  import opened Text
  import opened Telemetry
  import opened StateStore
  import opened LiveFeed

  /** A connection; sent stands for what was written to it, and writes fail once it is down. */
  class Conn {
    var up: bool
    var authed: bool
    var org: Uuid
    var filter: Option<set<Uuid>>
    var sent: seq<Frame>

    constructor ()
      ensures up && !authed && filter == None && sent == []
    {
      up, authed, org, filter, sent := true, false, NIL, None, [];
    }

    method WriteJson(f: Frame) returns (err: bool)
      modifies this`sent
      ensures err <==> !up
      ensures sent == if up then old(sent) + [f] else old(sent)
    {
      if !up { return true; }
      sent := sent + [f];
      err := false;
    }
  }

  /** setFilter: the ids that parse and belong to the client's organization. */
  function FilterOf(ids: seq<string>, devices: seq<Uuid>): set<Uuid> {
    set raw | raw in ids && ParseUuid(raw).Some? && ParseUuid(raw).value in devices :: ParseUuid(raw).value
  }

  /** A message of the read loop. An auth names the organization its token, user and organization checks
      accept, if they do; devices is what ListDevices would answer. */
  datatype Inbound =
    | Unreadable
    | Auth(org: Option<Uuid>, devices: Option<seq<Uuid>>)
    | Filtering(ids: seq<string>, devices: Option<seq<Uuid>>)
    | Ping
    | Other

  predicate Accepts(authed: bool, up: bool, msg: Inbound) { msg.Auth? && !authed && msg.org.Some? && up }

  /** The message ends the connection. */
  predicate Closes(authed: bool, up: bool, msg: Inbound) {
    if msg.Auth? then !Accepts(authed, up, msg) else !authed && (msg.Filtering? || msg.Other?)
  }

  /** What the connection is sent in return. */
  function Answers(authed: bool, msg: Inbound, m: map<Uuid, Reading>): seq<Frame> {
    if Closes(authed, true, msg) || msg.Unreadable? then [Reply(true)]
    else if msg.Auth? then [AuthOk] + if msg.devices == None then [] else [Snapshot(Readings(m, msg.devices.value))]
    else if msg.Ping? then [Reply(false)]
    else []
  }

  class Hub {
    const store: Store
    var clients: set<Conn>

    constructor (store: Store)
      ensures this.store == store && clients == {}
    {
      this.store := store;
      clients := {};
    }

    /** Every registered client of the organization that wants the device gets the reading once; no one
        else gets anything. */
    method Broadcast(org: Uuid, reading: Reading)
      modifies clients
      ensures forall c :: c in clients ==>
                c.up == old(c.up) && c.authed == old(c.authed) && c.org == old(c.org) && c.filter == old(c.filter)
                && c.sent == if old(c.up) && old(c.authed) && old(c.org) == org
                                && (old(c.filter) == None || reading.device in old(c.filter).value)
                             then old(c.sent) + [Update(reading)] else old(c.sent)
    {
      var todo := clients;
      while todo != {}
        invariant todo <= clients
        invariant forall c :: c in clients ==>
                    c.up == old(c.up) && c.authed == old(c.authed) && c.org == old(c.org) && c.filter == old(c.filter)
        invariant forall c :: c in todo ==> c.sent == old(c.sent)
        invariant forall c :: c in clients - todo ==>
                    c.sent == if old(c.up) && old(c.authed) && old(c.org) == org
                                 && (old(c.filter) == None || reading.device in old(c.filter).value)
                              then old(c.sent) + [Update(reading)] else old(c.sent)
        decreases todo
      {
        var c :| c in todo;
        todo := todo - {c};
        if !c.authed || c.org != org { continue; }
        if c.filter != None {
          if reading.device !in c.filter.value { continue; }
        }
        var ignored := c.WriteJson(Update(reading));
      }
    }

    /** authenticate once the token, the user and the organization have been checked. A failing write of
        auth_ok leaves the client registered, for readLoop to remove, and sends no snapshot. */
    method Authenticate(c: Conn, org: Uuid, devices: Option<seq<Uuid>>) returns (err: bool)
      modifies this`clients, c
      ensures clients == old(clients) + {c} && c.authed && c.org == org && c.filter == old(c.filter)
      ensures c.up == old(c.up) && (err <==> !c.up)
      ensures c.sent == if err then old(c.sent)
                        else old(c.sent) + [AuthOk] + if devices == None then []
                            else [Snapshot(Readings(store.m, devices.value))]
    {
      c.authed := true;
      c.org := org;
      clients := clients + {c};
      err := c.WriteJson(AuthOk);
      if err { return; }
      SendSnapshot(c, devices);
    }

    /** devices is the answer of ListDevices, None when it failed. */
    method SendSnapshot(c: Conn, devices: Option<seq<Uuid>>)
      modifies c`sent
      ensures c.sent == old(c.sent) + if devices == None || !c.up then []
          else [Snapshot(Readings(store.m, devices.value))]
    {
      if devices == None { return; }
      var readings := store.Snapshot(devices.value);
      var ignored := c.WriteJson(Snapshot(readings));
    }

    method SetFilter(c: Conn, ids: seq<string>, devices: Option<seq<Uuid>>)
      modifies c`filter
      ensures c.filter == if ids == [] then None else if devices == None then old(c.filter)
          else Some(FilterOf(ids, devices.value))
      ensures ids != [] && devices.Some? ==> c.filter.Some? && forall d: Uuid ::
                d in c.filter.value <==> d in devices.value && exists raw :: raw in ids && ParseUuid(raw) == Some(d)
    {
      if |ids| == 0 {
        c.filter := None;
        return;
      }
      if devices == None { return; }
      var filter: set<Uuid> := {};
      for i := 0 to |ids|
        invariant filter == FilterOf(ids[..i], devices.value)
      {
        ghost var before := filter;
        var id := ParseUuid(ids[i]);
        assert ids[..i + 1] == ids[..i] + [ids[i]];
        FilterNext(ids[..i], ids[i], devices.value);
        if id == None { continue; }
        if id.value in devices.value { filter := filter + {id.value}; }
      }
      assert ids[..|ids|] == ids;
      c.filter := Some(filter);
    }

    /** One turn of the read loop; a connection it closes is removed. */
    method Receive(c: Conn, msg: Inbound) returns (closes: bool)
      modifies this`clients, c
      ensures closes == Closes(old(c.authed), old(c.up), msg) && c.up == old(c.up)
      ensures old(c.authed) ==> (closes <==> msg.Auth?)
      ensures !old(c.authed) ==>
                (closes <==> msg.Filtering? || msg.Other? || (msg.Auth? && (msg.org == None || !old(c.up))))
      ensures c.sent == if c.up then old(c.sent) + Answers(old(c.authed), msg, store.m) else old(c.sent)
      ensures c.up && (closes || msg.Unreadable?) ==> c.sent == old(c.sent) + [Reply(true)]
      ensures c.up && msg.Ping? ==> c.sent == old(c.sent) + [Reply(false)]
      ensures c.up && !closes && msg.Auth? ==>
                c.sent == old(c.sent) + [AuthOk] + if msg.devices == None then []
                  else [Snapshot(Readings(store.m, msg.devices.value))]
      ensures !closes && (msg.Filtering? || msg.Other?) ==> c.sent == old(c.sent)
      ensures clients == if closes then old(clients) - {c}
                         else if Accepts(old(c.authed), c.up, msg) then old(clients) + {c} else old(clients)
      ensures Accepts(old(c.authed), c.up, msg) ==> c.authed && c.org == msg.org.value
      ensures !msg.Auth? ==> c.authed == old(c.authed) && c.org == old(c.org)
      ensures !(msg.Filtering? && c.authed) ==> c.filter == old(c.filter)
    {
      closes := false;
      var err := false;
      assert old(c.sent) + [] == old(c.sent);
      match msg {
        case Unreadable => err := c.WriteJson(Reply(true));
        case Ping => err := c.WriteJson(Reply(false));
        case Auth(org, devices) =>
          if c.authed || org == None {
            closes := true;
          } else {
            closes := Authenticate(c, org.value, devices);
            ghost var shown := if devices == None then [] else [Snapshot(Readings(store.m, devices.value))];
            assert old(c.sent) + [AuthOk] + shown == old(c.sent) + ([AuthOk] + shown);
            assert old(clients) + {c} - {c} == old(clients) - {c};
          }
        case Filtering(ids, devices) => if c.authed { SetFilter(c, ids, devices); } else { closes := true; }
        case Other => closes := !c.authed;
      }
      if closes {
        err := c.WriteJson(Reply(true));
        Remove(c);
      }
    }

    method Remove(c: Conn)
      modifies this`clients
      ensures clients == old(clients) - {c}
    {
      clients := clients - {c};
    }
  }

  lemma FilterNext(ids: seq<string>, raw: string, devices: seq<Uuid>)
    ensures FilterOf(ids + [raw], devices) ==
            FilterOf(ids, devices) + if ParseUuid(raw).Some? && ParseUuid(raw).value in devices
                then {ParseUuid(raw).value} else {}
  {
    hide ParseUuid;
    forall x ensures x in FilterOf(ids + [raw], devices) <==>
                     x in FilterOf(ids, devices) || (ParseUuid(raw) == Some(x) && x in devices) {
      if x in FilterOf(ids, devices) {
        var s :| s in ids && ParseUuid(s) == Some(x) && x in devices;
        assert s in ids + [raw];
      }
      if ParseUuid(raw) == Some(x) && x in devices { assert raw in ids + [raw]; }
    }
  }
}
