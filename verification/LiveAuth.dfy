/** When a client is greeted: every reading comes after auth_ok unless a broadcast reached the client between
    its registration and the write of auth_ok. */
module LiveAuth {
  import opened Text
  import opened Telemetry
  import opened StateStore
  import opened LiveFeed

  /** A Broadcast writes to the client while it waits to be greeted. */
  predicate Overtakes(s: State, e: Step, c: nat) {
    && e.Cast? && e.c == c && e.i in s.ingests
    && c in s.clients && s.clients[c].phase.Greeting?
    && Receives(s.clients[c], s.ingests[e.i].org, s.ingests[e.i].reading)
  }

  /** This happened since the client was last registered. */
  predicate Overtaken(run: seq<Step>, c: nat)
    requires Valid(run)
  {
    run != [] &&
    var front, e := run[..|run| - 1], run[|run| - 1];
    !(e.Register? && e.c == c) && (Overtaken(front, c) || Overtakes(After(front), e, c))
  }

  predicate GreetedBy(sent: seq<Frame>, k: nat)
    requires k < |sent|
  {
    exists j :: 0 <= j <= k && sent[j] == AuthOk
  }

  /** Every reading the client was sent came after auth_ok. */
  predicate ReadingsAfter(sent: seq<Frame>) {
    forall k :: 0 <= k < |sent| && (sent[k].Update? || sent[k].Snapshot?) ==> GreetedBy(sent, k)
  }

  /** Up to auth_ok there are only replies and updates. */
  predicate NoneEarly(sent: seq<Frame>) {
    forall k :: 0 <= k < |sent| ==> sent[k].Update? || sent[k].Reply? || GreetedBy(sent, k)
  }

  predicate Greets(cl: Client, overtaken: bool) {
    && NoneEarly(cl.sent)
    && (ReadingsAfter(cl.sent) <==> !overtaken)
    && multiset(cl.sent)[AuthOk] == if cl.phase.Greeting? then 0 else 1
  }

  lemma GreetedNext(sent: seq<Frame>, f: Frame, k: nat)
    requires k < |sent|
    ensures GreetedBy(sent + [f], k) <==> GreetedBy(sent, k)
  {
    hide IsNumber, IsUuid;
    if GreetedBy(sent, k) {
      var j :| 0 <= j <= k && sent[j] == AuthOk;
      assert (sent + [f])[j] == AuthOk;
    }
    if GreetedBy(sent + [f], k) {
      var j :| 0 <= j <= k && (sent + [f])[j] == AuthOk;
      assert sent[j] == AuthOk;
    }
  }

  lemma GreetedLast(sent: seq<Frame>, f: Frame)
    ensures GreetedBy(sent + [f], |sent|) <==> f.AuthOk? || AuthOk in sent
  {
    hide IsNumber, IsUuid;
    var more := sent + [f];
    if f.AuthOk? { assert more[|sent|] == AuthOk; }
    if AuthOk in sent {
      var j :| 0 <= j < |sent| && sent[j] == AuthOk;
      assert more[j] == AuthOk;
    }
    if GreetedBy(more, |sent|) {
      var j :| 0 <= j <= |sent| && more[j] == AuthOk;
      assert j < |sent| ==> sent[j] == AuthOk;
    }
  }

  /** One more frame. */
  lemma AfterNext(sent: seq<Frame>, f: Frame)
    ensures ReadingsAfter(sent + [f]) <==> ReadingsAfter(sent) && (f.Update? || f.Snapshot? ==> AuthOk in sent)
  {
    hide GreetedBy, IsNumber, IsUuid;
    var more := sent + [f];
    GreetedLast(sent, f);
    forall k: nat | k < |sent| ensures more[k] == sent[k] && (GreetedBy(more, k) <==> GreetedBy(sent, k)) {
      GreetedNext(sent, f, k);
    }
    assert more[|sent|] == f;
    if ReadingsAfter(more) {
      forall k | 0 <= k < |sent| && (sent[k].Update? || sent[k].Snapshot?) ensures GreetedBy(sent, k) {
        assert more[k] == sent[k];
      }
    }
  }

  lemma EarlyNext(sent: seq<Frame>, f: Frame)
    requires NoneEarly(sent) && (f.Snapshot? ==> AuthOk in sent)
    ensures NoneEarly(sent + [f])
  {
    hide GreetedBy, IsNumber, IsUuid;
    var more := sent + [f];
    GreetedLast(sent, f);
    forall k | 0 <= k < |more| ensures more[k].Update? || more[k].Reply? || GreetedBy(more, k) {
      if k < |sent| { GreetedNext(sent, f, k); }
    }
  }

  lemma FrameNext(sent: seq<Frame>, f: Frame)
    requires NoneEarly(sent) && (f.Snapshot? ==> AuthOk in sent)
    ensures NoneEarly(sent + [f])
    ensures ReadingsAfter(sent + [f]) <==> ReadingsAfter(sent) && (f.Update? || f.Snapshot? ==> AuthOk in sent)
    ensures multiset(sent + [f])[AuthOk] == multiset(sent)[AuthOk] + if f.AuthOk? then 1 else 0
  {
    hide NoneEarly, ReadingsAfter, IsNumber, IsUuid;
    AfterNext(sent, f);
    EarlyNext(sent, f);
  }

  lemma GreetedCount(sent: seq<Frame>)
    ensures AuthOk in sent <==> multiset(sent)[AuthOk] > 0
  {
    assert AuthOk in sent <==> AuthOk in multiset(sent);
  }

  /** The frame a step writes to a client, if any. */
  function FrameOf(s: State, e: Step, c: nat): Option<Frame>
    requires Enabled(s, e) && c in s.clients
  {
    if e.Greet? && e.c == c then Some(AuthOk)
    else if e.Send? && e.c == c then Some(Snapshot(s.clients[c].phase.readings))
    else if e.Answer? && e.c == c then Some(e.f)
    else if e.Cast? && e.c == c && Receives(s.clients[c], s.ingests[e.i].org, s.ingests[e.i].reading)
      then Some(Update(s.ingests[e.i].reading))
    else None
  }

  lemma ClientAfter(s: State, e: Step, c: nat)
    requires Enabled(s, e) && c in Apply(s, e).clients && !(e.Register? && e.c == c)
    ensures c in s.clients
    ensures var f := FrameOf(s, e, c);
            Apply(s, e).clients[c].sent == if f.Some? then s.clients[c].sent + [f.value] else s.clients[c].sent
    ensures Apply(s, e).clients[c].phase.Greeting? <==> s.clients[c].phase.Greeting? && !(e.Greet? && e.c == c)
  {
    hide Readings, Replies, Receives, Broadcasting, Elements, IsNumber, IsUuid;
  }

  lemma FrameFits(s: State, e: Step, c: nat)
    requires Enabled(s, e) && c in s.clients && FrameOf(s, e, c).Some?
    ensures e.Greet? || e.Send? || e.Answer? || e.Cast?
    ensures var f := FrameOf(s, e, c).value;
            && e.c == c && (f.AuthOk? <==> e.Greet?) && (f.AuthOk? ==> s.clients[c].phase.Greeting?)
            && (f.Snapshot? ==> !s.clients[c].phase.Greeting?)
            && (f.Update? && s.clients[c].phase.Greeting? <==> Overtakes(s, e, c))
  {
    hide Readings, Replies, Receives, Broadcasting, Elements, IsNumber, IsUuid;
  }

  lemma NoFrame(s: State, e: Step, c: nat)
    requires Enabled(s, e) && c in s.clients && FrameOf(s, e, c) == None
    ensures !Overtakes(s, e, c) && !(e.Greet? && e.c == c)
  {
    hide Readings, Replies, Receives, Broadcasting, Elements, IsNumber, IsUuid;
  }

  /** What one step does to a client. */
  lemma GreetsStep(s: State, e: Step, c: nat, overtaken: bool)
    requires Enabled(s, e) && c in Apply(s, e).clients && (c in s.clients ==> Greets(s.clients[c], overtaken))
    ensures Greets(Apply(s, e).clients[c], !(e.Register? && e.c == c) && (overtaken || Overtakes(s, e, c)))
  {
    hide NoneEarly, ReadingsAfter, Apply, Overtakes, FrameOf, Enabled, IsNumber, IsUuid;
    if e.Register? && e.c == c {
      Registered(s, e);
    } else {
      ClientAfter(s, e, c);
      var cl, f := s.clients[c], FrameOf(s, e, c);
      GreetedCount(cl.sent);
      if f.Some? {
        FrameFits(s, e, c);
        FrameNext(cl.sent, f.value);
      } else {
        NoFrame(s, e, c);
      }
    }
  }

  lemma Registered(s: State, e: Step)
    requires Enabled(s, e) && e.Register?
    ensures Greets(Apply(s, e).clients[e.c], false)
  {
    hide Replies, Greets, Broadcasting;
    Fresh(Apply(s, e).clients[e.c]);
  }

  lemma Fresh(cl: Client)
    requires Replies(cl.sent) && cl.phase.Greeting?
    ensures Greets(cl, false)
  {
    hide IsNumber, IsUuid;
    GreetedCount(cl.sent);
  }

  /** In every run, every reading a client was sent came after auth_ok if and only if no broadcast overtook the
      greeting since the client was registered. What it was sent before auth_ok is replies and updates, and
      auth_ok is written to it exactly once, when its greeting is over. */
  lemma {:induction false} AuthOkFirst(run: seq<Step>, c: nat)
    requires Valid(run) && c in After(run).clients
    ensures ReadingsAfter(After(run).clients[c].sent) <==> !Overtaken(run, c)
    ensures NoneEarly(After(run).clients[c].sent)
    ensures multiset(After(run).clients[c].sent)[AuthOk] == if After(run).clients[c].phase.Greeting? then 0 else 1
  {
    hide NoneEarly, ReadingsAfter, Enabled, Apply, Overtakes;
    if run == [] {
      NoClients();
    } else {
      var front := run[..|run| - 1];
      var s := After(front);
      if c in s.clients { AuthOkFirst(front, c); }
      GreetsStep(s, run[|run| - 1], c, Overtaken(front, c));
    }
  }

  lemma NoClients()
    ensures INIT.clients == map[]
  {
  }
}
