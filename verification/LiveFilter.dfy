/** What a filter does over time: from the step that sets it on, a client is sent updates of the devices it asks
    for and of no others. */
module LiveFilter {
  import opened Text
  import opened Telemetry
  import opened StateStore
  import opened LiveFeed

  /** Step m sets the client's filter, and no later one changes it or removes the client. */
  predicate SetAt(run: seq<Step>, m: nat, c: nat, f: Option<set<Uuid>>) {
    && m < |run| && run[m] == Filter(c, f)
    && forall n :: m < n < |run| ==> !((run[n].Filter? || run[n].Remove?) && run[n].c == c)
  }

  lemma {:induction false} PrefixValid(run: seq<Step>, n: nat)
    requires Valid(run) && n <= |run|
    ensures Valid(run[..n])
  {
    hide Enabled;
    if n == |run| {
      assert run[..n] == run;
    } else {
      PrefixValid(run[..|run| - 1], n);
      assert run[..|run| - 1][..n] == run[..n];
    }
  }

  /** One step of another kind keeps the filter and organization, and writes at the end of what was sent. */
  lemma OtherStep(s: State, e: Step, c: nat)
    requires Enabled(s, e) && c in s.clients && !((e.Filter? || e.Remove?) && e.c == c)
    ensures var t := Apply(s, e);
            && c in t.clients && t.clients[c].filter == s.clients[c].filter && t.clients[c].org == s.clients[c].org
            && (t.clients[c].sent == s.clients[c].sent
                || exists f: Frame :: t.clients[c].sent == s.clients[c].sent + [f]
                    && (f.Update? ==> e.Cast? && e.c == c))
  {
    hide Receives, Readings, IsUuid, IsNumber;
    var t := Apply(s, e);
    if t.clients[c].sent != s.clients[c].sent {
      var f := t.clients[c].sent[|t.clients[c].sent| - 1];
      assert t.clients[c].sent == s.clients[c].sent + [f];
    }
  }

  /** What a turn of the broadcast loop does to its client. */
  lemma CastStep(s: State, i: nat, c: nat)
    requires Enabled(s, Cast(i, c)) && c in s.clients
    ensures var t, g, cl := Apply(s, Cast(i, c)), s.ingests[i], s.clients[c];
            && c in t.clients
            && t.clients[c].sent == cl.sent +
                 if cl.org == g.org && (cl.filter == None || g.reading.device in cl.filter.value)
                 then [Update(g.reading)] else []
  {
    assert s.clients[c].sent + [] == s.clients[c].sent;
  }

  lemma {:induction false} FilterStays(run: seq<Step>, m: nat, c: nat, f: Option<set<Uuid>>)
    requires Valid(run) && SetAt(run, m, c, f)
    ensures c in After(run).clients && After(run).clients[c].filter == f
  {
    hide Apply, IsUuid, IsNumber;
    var front, e := run[..|run| - 1], run[|run| - 1];
    if m == |run| - 1 {
      JustSet(After(front), c, f);
    } else {
      FilterStays(front, m, c, f);
      OtherStep(After(front), e, c);
    }
  }

  lemma JustSet(s: State, c: nat, f: Option<set<Uuid>>)
    requires Enabled(s, Filter(c, f))
    ensures c in s.clients && c in Apply(s, Filter(c, f)).clients
    ensures Apply(s, Filter(c, f)).clients[c] == s.clients[c].(filter := f, filtered := true)
  {
  }

  /** Every frame sent since the filter was set comes after all that was sent before, and an update among them is
      of a device the filter asks for. */
  lemma {:induction false} OnlyAsked(run: seq<Step>, m: nat, c: nat, f: Option<set<Uuid>>)
    requires Valid(run) && SetAt(run, m, c, f)
    ensures Valid(run[..m]) && c in After(run[..m]).clients && c in After(run).clients
    ensures var old_, sent := After(run[..m]).clients[c].sent, After(run).clients[c].sent;
            && old_ <= sent
            && forall k :: |old_| <= k < |sent| && sent[k].Update? ==> f == None || sent[k].reading.device in f.value
  {
    hide Apply, Enabled, IsUuid, IsNumber;
    PrefixValid(run, m);
    var front, e := run[..|run| - 1], run[|run| - 1];
    if m == |run| - 1 {
      assert run[..m] == front;
      JustSet(After(front), c, f);
    } else {
      assert front[..m] == run[..m];
      OnlyAsked(front, m, c, f);
      FilterStays(front, m, c, f);
      OtherStep(After(front), e, c);
      if e.Cast? && e.c == c { CastStep(After(front), e.i, c); }
    }
  }

  /** And nothing asked for is held back: each turn of a broadcast for the client writes its reading if and only if
      it is of the client's organization and of a device the filter asks for. */
  lemma AllAsked(run: seq<Step>, m: nat, c: nat, f: Option<set<Uuid>>, i: nat)
    requires Valid(run) && SetAt(run, m, c, f) && run[|run| - 1] == Cast(i, c)
    ensures var s := After(run[..|run| - 1]);
            && c in s.clients && i in s.ingests && c in After(run).clients
            && After(run).clients[c].sent == s.clients[c].sent +
                 if s.clients[c].org == s.ingests[i].org && (f == None || s.ingests[i].reading.device in f.value)
                 then [Update(s.ingests[i].reading)] else []
  {
    hide Apply, IsUuid, IsNumber;
    FilterStays(run[..|run| - 1], m, c, f);
    CastStep(After(run[..|run| - 1]), i, c);
  }
}
