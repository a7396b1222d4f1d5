/** From a telemetry message to the live store, the hub and the archive. */
module Ingest {
  import opened Text
  import opened Telemetry
  import opened Calendar
  import opened Csv
  import opened StateStore
  import LiveFeed
  import opened Hub
  import W = Writer

  datatype Payload = Payload(temperature: Number, pressure: Number, humidity: Number, ts: int)

  datatype Device = Device(id: Uuid, org: Uuid, ident: Identifier, active: bool)

  /** The tables ingest looks things up in; an organization is mapped to whether it is active. The lookups
      of the failing identifiers err for some other reason than that there is no such device. */
  datatype Directory = Directory(devices: map<string, Device>, orgs: map<Uuid, bool>, failing: set<string>)

  predicate ValidDirectory(db: Directory) { forall i :: i in db.devices ==> db.devices[i].ident == i }

  datatype Verdict = Take(device: Device, payload: Payload) | Malformed | UnknownDevice | Inactive | LookupFailed

  /** deviceIdentifierFromTopic: org/<o>/device/<d>/telemetry, or nothing. */
  function TopicDevice(topic: string): string {
    var p := Split(topic, '/');
    if |p| == 5 && p[0] == "org" && p[2] == "device" && p[4] == "telemetry" && p[1] != "" then p[3] else ""
  }

  /** Whether a message is taken, and what refuses it, in the order of the checks. */
  function Judge(topic: string, payload: Option<Payload>, db: Directory): (v: Verdict)
    requires ValidDirectory(db)
    ensures v.Malformed? <==> TopicDevice(topic) == "" || payload == None
    ensures v.LookupFailed? <==>
              && TopicDevice(topic) != "" && payload.Some?
              && (TopicDevice(topic) in db.failing ||
                  (TopicDevice(topic) in db.devices && db.devices[TopicDevice(topic)].active &&
                   db.devices[TopicDevice(topic)].org !in db.orgs))
    ensures v.UnknownDevice? <==>
              TopicDevice(topic) != "" && payload.Some? && TopicDevice(topic) !in db.failing
                  && TopicDevice(topic) !in db.devices
    ensures v.Take? <==>
              && TopicDevice(topic) != "" && payload.Some? && TopicDevice(topic) !in db.failing
              && TopicDevice(topic) in db.devices && db.devices[TopicDevice(topic)].active
              && db.devices[TopicDevice(topic)].org in db.orgs && db.orgs[db.devices[TopicDevice(topic)].org]
    ensures v.Take? ==> v.device == db.devices[TopicDevice(topic)] && Some(v.payload) == payload
    ensures v.Take? ==> v.device.ident == TopicDevice(topic)
  {
    var ident := TopicDevice(topic);
    if ident == "" || payload == None then Malformed
    else if ident in db.failing then LookupFailed
    else if ident !in db.devices then UnknownDevice
    else
      var device := db.devices[ident];
      if !device.active then Inactive
      else if device.org !in db.orgs then LookupFailed
      else if !db.orgs[device.org] then Inactive
      else Take(device, payload.value)
  }

  function ReadingOf(d: Device, p: Payload, now: int): Reading {
    Reading(d.id, p.temperature, p.pressure, p.humidity, p.ts, now)
  }

  function RecordOf(d: Device, p: Payload): (rec: Record)
    ensures Accepted(rec) && rec.org == d.org
  {
    Record(d.org, d.id, d.ident, p.temperature, p.pressure, p.humidity, p.ts)
  }

  /** A topic of the given organization and device. */
  function TopicOf(org: string, ident: string): string { Join(["org", org, "device", ident, "telemetry"], '/') }

  lemma TopicParses(org: string, ident: string)
    requires '/' !in org && '/' !in ident && org != ""
    ensures TopicDevice(TopicOf(org, ident)) == ident
  {
    SplitJoin(["org", org, "device", ident, "telemetry"], '/');
  }

  lemma FiveSegments(org: string, ident: string)
    ensures Join(["org", org, "device", ident, "telemetry"], '/') == "org/" + org + "/device/" + ident + "/telemetry"
  {
    assert Join(["telemetry"], '/') == "telemetry";
    hide Join;
    JoinCons("org", [org, "device", ident, "telemetry"], '/');
    JoinCons(org, ["device", ident, "telemetry"], '/');
    JoinCons("device", [ident, "telemetry"], '/');
    JoinCons(ident, ["telemetry"], '/');
    assert ["org"] + ([org] + (["device"] + ([ident] + ["telemetry"]))) == ["org", org, "device", ident, "telemetry"];
  }

  predicate NamesDevice(topic: string, org: string, ident: string) {
    org != "" && '/' !in org && '/' !in ident && topic == "org/" + org + "/device/" + ident + "/telemetry"
  }

  /** A topic names a device exactly when it is org/o/device/d/telemetry with segments o and d that are not empty. */
  lemma TopicExact(topic: string, ident: string)
    requires ident != ""
    ensures TopicDevice(topic) == ident <==> exists org: string :: NamesDevice(topic, org, ident)
  {
    if TopicDevice(topic) == ident {
      var p := Split(topic, '/');
      assert p == ["org", p[1], "device", ident, "telemetry"];
      FiveSegments(p[1], ident);
      assert NamesDevice(topic, p[1], ident);
    }
    if org: string :| NamesDevice(topic, org, ident) {
      FiveSegments(org, ident);
      TopicParses(org, ident);
    }
  }

  /** The topic's organization decides nothing: a message is judged, stored, broadcast and archived under
      the organization of the device, whichever organization its topic names. */
  lemma TopicOrgIgnored(a: string, b: string, ident: string, payload: Option<Payload>, db: Directory)
    requires ValidDirectory(db) && '/' !in a && '/' !in b && '/' !in ident && a != "" && b != ""
    ensures Judge(TopicOf(a, ident), payload, db) == Judge(TopicOf(b, ident), payload, db)
  {
    hide TopicOf, TopicDevice;
    TopicParses(a, ident);
    TopicParses(b, ident);
  }

  class Ingestor {
    const store: Store
    const hub: Hub?
    const archive: W.Writer?

    ghost predicate Valid()
      reads this, archive
    {
      archive != null ==> archive.Valid()
    }

    constructor (store: Store, hub: Hub?, archive: W.Writer?)
      requires archive != null ==> archive.Valid()
      ensures Valid() && this.store == store && this.hub == hub && this.archive == archive
    {
      this.store := store;
      this.hub := hub;
      this.archive := archive;
    }

    /** A refused message changes nothing. An accepted one sets the store, reaches each client that wants
        it once, and is archived once as the record rec; a failing archive is not reported. */
    method HandleMqtt(topic: string, payload: Option<Payload>, db: Directory, now: int,
            reply: W.Reply) returns (v: Verdict, ghost rec: Record)
      requires Valid() && ValidDirectory(db)
      modifies store, if hub == null then {} else hub.clients
      modifies if archive == null then {} else {archive}, if archive == null || archive.objects == null then {}
          else {archive.objects}
      ensures Valid() && v == Judge(topic, payload, db)
      ensures !v.Take? ==> store.m == old(store.m)
      ensures v.Take? ==> store.m.Keys == old(store.m).Keys + {v.device.id}
      ensures v.Take? ==> forall d :: d in old(store.m) && d != v.device.id ==> store.m[d] == old(store.m)[d]
      ensures v.Take? ==>
                var r := store.m[v.device.id];
                && r.device == v.device.id && r.ts == v.payload.ts && r.updated == now
                && r.temperature == v.payload.temperature && r.pressure == v.payload.pressure
                    && r.humidity == v.payload.humidity
      ensures hub != null ==> forall c :: c in hub.clients ==>
                c.sent == if v.Take? && old(c.up) && old(c.authed) && old(c.org) == v.device.org
                             && (old(c.filter) == None || v.device.id in old(c.filter).value)
                          then old(c.sent) + [LiveFeed.Update(store.m[v.device.id])] else old(c.sent)
      ensures v.Take? ==>
                && rec.org == v.device.org && rec.deviceId == v.device.id && rec.ident == v.device.ident
                    && rec.ts == v.payload.ts
                && rec.temperature == v.payload.temperature && rec.pressure == v.payload.pressure
                && rec.humidity == v.payload.humidity
      ensures v.Take? && FourDigitInstant(rec.ts) ==> DecodeRow(EncodeRow(rec)) == Some(rec.(deviceId := NO_DEVICE))
      ensures archive != null && archive.objects != null ==>
                archive.Contents() == if v.Take?
                    then W.AfterRecord(old(archive.Contents()), rec, reply, archive.options)
                                      else old(archive.Contents())
    {
      hide W.AfterRecord, W.AfterAppend, W.FlushDue, W.PutWorks, W.WideRows, TopicDevice, DecodeRow, EncodeRow,
        FourDigitInstant, IsNumber, IsUuid, IsIdentifier;
      var ident := TopicDevice(topic);
      if ident == "" { return Malformed, *; }
      if payload == None { return Malformed, *; }
      if ident in db.failing { return LookupFailed, *; }
      if ident !in db.devices { return UnknownDevice, *; }
      var device := db.devices[ident];
      if !device.active { return Inactive, *; }
      if device.org !in db.orgs { return LookupFailed, *; }
      if !db.orgs[device.org] { return Inactive, *; }
      var reading := ReadingOf(device, payload.value, now);
      store.Set(reading);
      if hub != null { hub.Broadcast(device.org, reading); }
      v := Take(device, payload.value);
      rec := RecordOf(device, payload.value);
      AcceptedTrimmed(rec);
      RowRoundTrip(rec);
      if archive != null {
        var ignored := archive.HandleRecord(RecordOf(device, payload.value), reply);
      }
    }
  }
}
