/** The latest reading of each device. */
module StateStore {
  import opened Text
  import opened Telemetry

  datatype Reading = Reading(device: Uuid, temperature: Number, pressure: Number, humidity: Number, ts: int,
      updated: int)

  /** The readings Snapshot answers, in the order of the ids. */
  function Readings(m: map<Uuid, Reading>, ids: seq<Uuid>): (r: seq<Reading>)
    ensures forall x :: x in r <==> exists id :: id in ids && id in m && m[id] == x
    ensures forall id :: id in ids && id in m ==> m[id] in r
  {
    if ids == [] then []
    else
      var n := |ids| - 1;
      assert ids == ids[..n] + [ids[n]];
      if ids[n] in m then Readings(m, ids[..n]) + [m[ids[n]]] else Readings(m, ids[..n])
  }

  /** These are the positions of the ids that have a reading, in order, and r holds their readings. */
  ghost predicate ReadAt(r: seq<Reading>, m: map<Uuid, Reading>, ids: seq<Uuid>, at: seq<int>) {
    && |at| == |r| && (forall j, k :: 0 <= j < k < |at| ==> at[j] < at[k])
    && (forall i :: i in at <==> 0 <= i < |ids| && ids[i] in m)
    && forall k :: 0 <= k < |at| ==> 0 <= at[k] < |ids| && ids[at[k]] in m && r[k] == m[ids[at[k]]]
  }

  lemma ReadNext(r: seq<Reading>, m: map<Uuid, Reading>, ids: seq<Uuid>, id: Uuid, at: seq<int>)
    requires ReadAt(r, m, ids, at)
    ensures id in m ==> ReadAt(r + [m[id]], m, ids + [id], at + [|ids|])
    ensures id !in m ==> ReadAt(r, m, ids + [id], at)
  {
    hide IsUuid, IsNumber;
    assert forall k :: 0 <= k < |at| ==> at[k] in at;
    assert forall i :: i in at + [|ids|] <==> i in at || i == |ids|;
    assert forall i :: 0 <= i < |ids| ==> (ids + [id])[i] == ids[i];
  }

  /** One reading for each id that has one, in the order of the ids. */
  lemma {:induction false} ReadingsExact(m: map<Uuid, Reading>, ids: seq<Uuid>) returns (at: seq<int>)
    ensures ReadAt(Readings(m, ids), m, ids, at)
  {
    hide ReadAt, IsUuid, IsNumber;
    if ids == [] {
      at := [];
      NothingRead(m);
    } else {
      var front, id := ids[..|ids| - 1], ids[|ids| - 1];
      at := ReadingsExact(m, front);
      ReadNext(Readings(m, front), m, front, id, at);
      assert ids == front + [id];
      if id in m { at := at + [|front|]; }
    }
  }

  lemma NothingRead(m: map<Uuid, Reading>)
    ensures ReadAt(Readings(m, []), m, [], [])
  {
  }

  class Store {
    var m: map<Uuid, Reading>

    constructor ()
      ensures m == map[]
    {
      m := map[];
    }

    method Set(r: Reading)
      modifies this
      ensures m == old(m)[r.device := r]
    {
      m := m[r.device := r];
    }

    method Get(id: Uuid) returns (r: Option<Reading>)
      ensures r == if id in m then Some(m[id]) else None
    {
      if id in m { r := Some(m[id]); } else { r := None; }
    }

    method Delete(id: Uuid)
      modifies this
      ensures m == old(m) - {id}
    {
      m := m - {id};
    }

    method Snapshot(ids: seq<Uuid>) returns (out: seq<Reading>)
      ensures out == Readings(m, ids)
    {
      out := [];
      for i := 0 to |ids|
        invariant out == Readings(m, ids[..i])
      {
        assert ids[..i + 1][..i] == ids[..i];
        if ids[i] in m { out := out + [m[ids[i]]]; }
      }
      assert ids[..|ids|] == ids;
    }
  }
}
