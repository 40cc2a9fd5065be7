/**
 Continuous discovery converges: once no message is in flight, the listener of a
 query has been shown exactly the matching services at the connected peers. This
 holds for every query whose starts were clean, and `DiscoveryStale` shows that an
 unclean start always can go wrong.
 */
module DiscoveryConvergence {
  import opened ServiceWire
  import opened ServiceMatch
  import opened Discovery
  import opened DiscoverySystem
  import opened DiscoveryInvariants

  ghost predicate Running(w: World, s: System, u: string) {
    w.owner(u) in s.mgrs && u in s.mgrs[w.owner(u)].localQueries
  }

  ghost predicate Linked(s: System, q: nat, p: nat) {
    (p, q) in s.links && (q, p) in s.links && p in s.mgrs && q in s.mgrs
  }

  // Whether the listener shows channel `c` of peer `p` once the notices on the way to `q` are delivered.
  ghost predicate WillShow(s: System, q: nat, p: nat, listener: nat, u: string, c: string)
    requires Linked(s, q, p)
  {
    SeesAll(Shows(s.mgrs[q].calls, listener, u, c), s.links[(p, q)], u, c)
  }

  // Manager `m` knows query `u` as `f` and offers it channel `c`.
  ghost predicate Reports(w: World, m: Manager, u: string, f: Filter, c: string) {
    Known(m, u) == Some(f) && Offers(w.engine, m, f, c)
  }

  // ---------- clean starts ----------

  /**
   Starting `f` for `listener` is clean towards peer `p`. If the query is running,
   the listener is about to show only what the peer offers and knows to report. If it
   is not, the listener is not about to show anything, and the peer has forgotten the
   former life of the query, and is not about to be told of it, as far as one of its
   services could match.
   */
  ghost predicate CleanStartAt(w: World, s: System, p: nat, f: Filter, listener: nat)
    requires Linked(s, w.owner(f.uuid), p)
  {
    var u, q := f.uuid, w.owner(f.uuid);
    && (forall c :: w.home(c) == p && WillShow(s, q, p, listener, u, c) ==>
          Running(w, s, u) && Reports(w, s.mgrs[p], u, f, c))
    && (!Running(w, s, u) ==> OnlyBarren(w, p, Known(s.mgrs[p], u), s.links[(q, p)], u))
  }

  ghost predicate CleanStart(w: World, s: System, f: Filter, listener: nat) {
    forall p :: Linked(s, w.owner(f.uuid), p) ==> CleanStartAt(w, s, p, f, listener)
  }

  // If the step starts query `u`, it does so cleanly.
  ghost predicate CleanStep(w: World, s: System, step: Step, u: string) {
    step.StartQuery? && step.filter.uuid == u ==> CleanStart(w, s, step.filter, step.listener)
  }

  // Every start of query `u` in the run is clean.
  ghost predicate CleanFor(w: World, ss: seq<System>, steps: seq<Step>, u: string)
    requires |ss| > |steps|
  {
    forall i :: 0 <= i < |steps| ==> CleanStep(w, ss[i], steps[i], u)
  }

  // ---------- listeners only hear of connected managers ----------

  ghost predicate HeardOf(w: World, s: System, q: nat)
    requires q in s.mgrs
  {
    forall i :: 0 <= i < |s.mgrs[q].calls| ==> (w.home(s.mgrs[q].calls[i].desc.channel), q) in s.links
  }

  lemma DeliverKeepsHeardOf(w: World, s: System, a: nat, b: nat, outs: seq<Msg>, s': System)
    requires NextDeliver(w, s, a, b, outs, s') && HeardOf(w, s, b)
    requires ManagerOk(w, b, s.mgrs[b]) && MsgOk(w, a, s.links[(a, b)][0])
    ensures HeardOf(w, s', b)
  {
    assert s'.links.Keys == s.links.Keys;
  }

  lemma StepKeepsHeardOf(w: World, s: System, step: Step, s': System, q: nat)
    requires WellFormed(w, s) && Next(w, s, step, s') && q in s.mgrs && HeardOf(w, s, q)
    ensures q in s'.mgrs && HeardOf(w, s', q)
  {
    if step.Deliver? && step.b == q {
      assert s.links[(step.a, q)][0] in s.links[(step.a, q)] && ManagerOk(w, q, s.mgrs[q]);
      DeliverKeepsHeardOf(w, s, step.a, q, step.outs, s');
    } else {
      OtherStepsTellNothing(w, s, step, s', q);
    }
  }

  lemma OtherStepsTellNothing(w: World, s: System, step: Step, s': System, q: nat)
    requires Next(w, s, step, s') && q in s.mgrs && !(step.Deliver? && step.b == q)
    ensures q in s'.mgrs && s'.mgrs[q].calls == s.mgrs[q].calls && s.links.Keys <= s'.links.Keys
  {
  }

  lemma {:induction false} HeardOfHolds(w: World, ss: seq<System>, steps: seq<Step>, n: nat, q: nat)
    requires IsRun(w, ss, steps) && n <= |steps| && q in ss[n].mgrs
    ensures HeardOf(w, ss[n], q)
  {
    if n > 0 {
      assert StepAt(w, ss, steps, n - 1);
      InvariantsHold(w, ss, steps, n - 1);
      ManagersWereThere(w, ss[n - 1], steps[n - 1], ss[n]);
      HeardOfHolds(w, ss, steps, n - 1, q);
      StillHeardOf(w, ss[n - 1], steps[n - 1], ss[n], q);
    }
  }

  lemma ManagersWereThere(w: World, s: System, step: Step, s': System)
    ensures WellFormed(w, s) && Next(w, s, step, s') ==> s'.mgrs.Keys == s.mgrs.Keys
  {
    if WellFormed(w, s) && Next(w, s, step, s') {
      StepKeepsManagers(w, s, step, s');
    }
  }

  lemma StillHeardOf(w: World, s: System, step: Step, s': System, q: nat)
    requires q in s.mgrs && HeardOf(w, s, q)
    ensures WellFormed(w, s) && Next(w, s, step, s') ==> q in s'.mgrs && HeardOf(w, s', q)
  {
    if WellFormed(w, s) && Next(w, s, step, s') {
      StepKeepsHeardOf(w, s, step, s', q);
    }
  }

  lemma {:induction false} ShownWasHeard(calls: seq<Callback>, listener: nat, u: string, c: string)
    requires Shows(calls, listener, u, c)
    ensures exists i :: 0 <= i < |calls| && calls[i].desc.channel == c
  {
    var last := calls[|calls| - 1];
    if !(last.listener == listener && last.filterId == u && last.desc.channel == c) {
      ShownWasHeard(calls[..|calls| - 1], listener, u, c);
    }
  }

  lemma ShownIsLinked(w: World, s: System, q: nat, listener: nat, u: string, c: string)
    requires q in s.mgrs && HeardOf(w, s, q) && Shows(s.mgrs[q].calls, listener, u, c)
    ensures (w.home(c), q) in s.links
  {
    ShownWasHeard(s.mgrs[q].calls, listener, u, c);
  }

  // A delivered notice changes what a running query's listener shows exactly as `Sees` says.
  lemma ShowsReceived(w: World, q: nat, m: Manager, msg: Msg, u: string, c: string)
    requires ManagerOk(w, q, m) && u in m.localQueries
    ensures var l := m.localQueries[u].listener;
            Shows(Received(m, Arrived(msg)).calls, l, u, c) == Sees(Shows(m.calls, l, u, c), msg, u, c)
  {
    var m' := Received(m, Arrived(msg));
    if m'.calls != m.calls {
      assert m'.calls[..|m'.calls| - 1] == m.calls;
    }
  }

  // ---------- what a running query shows, and will show ----------

  // Query `u` at its owner, against the services of manager `p` on channel `c`.
  ghost predicate TrackedAt(w: World, s: System, p: nat, u: string, c: string)
    requires p in s.mgrs && Running(w, s, u)
  {
    var q := w.owner(u);
    var query := s.mgrs[q].localQueries[u];
    if Linked(s, q, p) then
      && Steady(w, p, Known(s.mgrs[p], u), s.links[(q, p)], u, query.filter)
      && (w.home(c) == p ==> InStep(w, s, q, p, u, c))
    else
      w.home(c) == p ==> !Shows(s.mgrs[q].calls, query.listener, u, c)
  }

  // What the listener will show is offered, and all of it unless a start is still to be answered.
  ghost predicate InStep(w: World, s: System, q: nat, p: nat, u: string, c: string)
    requires Linked(s, q, p) && u in s.mgrs[q].localQueries
  {
    var query := s.mgrs[q].localQueries[u];
    var offered := Reports(w, s.mgrs[p], u, query.filter, c);
    && (WillShow(s, q, p, query.listener, u, c) ==> offered)
    && (Start(query.filter) !in s.links[(q, p)] && offered ==> WillShow(s, q, p, query.listener, u, c))
  }

  ghost predicate Tracked(w: World, s: System, u: string) {
    Running(w, s, u) ==> forall p, c :: p in s.mgrs ==> TrackedAt(w, s, p, u, c)
  }

  // ---------- publishing ----------

  ghost predicate OnlyAsks(ms: seq<Msg>, u: string, f: Filter) {
    forall m :: m in ms && (AsksFor(m, u) || EndsQuery(m, u)) ==> m == Start(f)
  }

  lemma SteadyGrows(w: World, p: nat, known: Option<Filter>, ms: seq<Msg>, outs: seq<Msg>, u: string, f: Filter)
    requires Steady(w, p, known, ms, u, f) && OnlyAsks(outs, u, f)
    ensures Steady(w, p, known, ms + outs, u, f)
  {
    SteadyConcat(w, p, known, ms, [], u, f);
    assert ms + [] == ms;
    SteadyAsked(w, p, HearsAll(known, ms, u), outs, u, f);
    SteadyConcat(w, p, known, ms, outs, u, f);
  }

  // Manager `a` publishes `outs`, and the tables change only by what these say.
  lemma PublishTracked(w: World, s: System, a: nat, outs: seq<Msg>, s': System, p: nat, u: string, c: string)
    requires p in s.mgrs && Running(w, s, u) && TrackedAt(w, s, p, u, c)
    requires s'.mgrs.Keys == s.mgrs.Keys && Running(w, s', u) && s'.links == Publish(s.links, a, outs)
    requires var q := w.owner(u);
             && s'.mgrs[q].calls == s.mgrs[q].calls && s'.mgrs[q].localQueries[u] == s.mgrs[q].localQueries[u]
             && (a == q ==> OnlyAsks(outs, u, s.mgrs[q].localQueries[u].filter))
    requires s'.mgrs[p].remoteQueries == s.mgrs[p].remoteQueries
    requires var q, query := w.owner(u), s.mgrs[w.owner(u)].localQueries[u];
             Linked(s, q, p) && w.home(c) == p ==>
               var before := WillShow(s, q, p, query.listener, u, c);
               var after := if a == p then SeesAll(before, outs, u, c) else before;
               var was, now := Reports(w, s.mgrs[p], u, query.filter, c), Reports(w, s'.mgrs[p], u, query.filter, c);
               ((before ==> was) ==> (after ==> now)) && (before == was ==> after == now)
    ensures TrackedAt(w, s', p, u, c)
  {
    var q, query := w.owner(u), s.mgrs[w.owner(u)].localQueries[u];
    if Linked(s, q, p) {
      if a == q {
        SteadyGrows(w, p, Known(s.mgrs[p], u), s.links[(q, p)], outs, u, query.filter);
      }
      if a == p {
        SeesAllConcat(Shows(s.mgrs[q].calls, query.listener, u, c), s.links[(p, q)], outs, u, c);
      }
    }
  }

  // A publication of starts and stops only.
  lemma PublishQueriesTracked(w: World, s: System, a: nat, outs: seq<Msg>, s': System, p: nat, u: string, c: string)
    requires p in s.mgrs && Running(w, s, u) && TrackedAt(w, s, p, u, c)
    requires s'.mgrs.Keys == s.mgrs.Keys && Running(w, s', u) && s'.links == Publish(s.links, a, outs)
    requires var q := w.owner(u);
             && s'.mgrs[q].calls == s.mgrs[q].calls && s'.mgrs[q].localQueries[u] == s.mgrs[q].localQueries[u]
             && (a == q ==> OnlyAsks(outs, u, s.mgrs[q].localQueries[u].filter))
    requires s'.mgrs[p].remoteQueries == s.mgrs[p].remoteQueries && s'.mgrs[p].services == s.mgrs[p].services
    requires forall m :: m in outs ==> !Concerns(m, u, c)
    ensures TrackedAt(w, s', p, u, c)
  {
    var q, query := w.owner(u), s.mgrs[w.owner(u)].localQueries[u];
    if Linked(s, q, p) {
      SeesNothing(WillShow(s, q, p, query.listener, u, c), outs, u, c);
    }
    PublishTracked(w, s, a, outs, s', p, u, c);
  }

  // ---------- queries ----------

  lemma StartOtherTracked(w: World, s: System, q: nat, f: Filter, listener: nat, s': System, p: nat, u: string, c: string)
    requires NextStartQuery(w, s, q, f, listener, s') && f.uuid != u
    requires p in s.mgrs && Running(w, s, u) && TrackedAt(w, s, p, u, c)
    ensures TrackedAt(w, s', p, u, c)
  {
    PublishQueriesTracked(w, s, q, [Start(f)], s', p, u, c);
  }

  // A clean start, of a query that runs or does not.
  lemma StartTracked(w: World, s: System, q: nat, f: Filter, listener: nat, s': System, p: nat, c: string)
    requires NextStartQuery(w, s, q, f, listener, s') && p in s.mgrs && CleanStart(w, s, f, listener)
    requires Running(w, s, f.uuid) ==> TrackedAt(w, s, p, f.uuid, c)
    requires HeardOf(w, s, q) && LinksOk(s)
    ensures Running(w, s', f.uuid) && TrackedAt(w, s', p, f.uuid, c)
  {
    var u := f.uuid;
    if Linked(s, q, p) {
      assert CleanStartAt(w, s, p, f, listener);
      if !Running(w, s, u) {
        SteadyBarren(w, p, Known(s.mgrs[p], u), s.links[(q, p)], u, f);
      }
      SteadyGrows(w, p, Known(s.mgrs[p], u), s.links[(q, p)], [Start(f)], u, f);
      assert Start(f) in s'.links[(q, p)];
    } else if w.home(c) == p && Shows(s.mgrs[q].calls, listener, u, c) {
      ShownIsLinked(w, s, q, listener, u, c);
    }
  }

  lemma StopQueryTracked(w: World, s: System, q: nat, f: Filter, s': System, p: nat, u: string, c: string)
    requires NextStopQuery(w, s, q, f, s')
    requires p in s.mgrs && Running(w, s, u) && TrackedAt(w, s, p, u, c) && Running(w, s', u)
    ensures TrackedAt(w, s', p, u, c)
  {
    var outs := if f.uuid in s.mgrs[q].localQueries then [Stop(f)] else [];
    PublishQueriesTracked(w, s, q, outs, s', p, u, c);
  }

  // ---------- services ----------

  // A manager offers nothing to a barren filter.
  lemma BarrenGetsNothing(w: World, p: nat, m: Manager, g: Filter, c: string)
    requires ManagerOk(w, p, m) && Barren(w, p, g)
    ensures !Offers(w.engine, m, g, c) && Matching(w.engine, m.services, g) == {}
  {
  }

  lemma OffersAdded(e: Engine, m: Manager, svc: nat, d: Description, f: Filter, c: string)
    requires svc !in m.services
    ensures Offers(e, ServiceAdded(m, svc, d), f, c) == (Offers(e, m, f, c) || (d.channel == c && Matches(e, f, d)))
  {
    var m' := ServiceAdded(m, svc, d);
    if Offers(e, m, f, c) {
      var t :| t in m.services && m.services[t].channel == c && Matches(e, f, m.services[t]);
      assert t in m'.services && m'.services[t] == m.services[t];
    }
    assert m'.services[svc] == d;
  }

  lemma OffersRemoved(w: World, p: nat, m: Manager, svc: nat, f: Filter, c: string)
    requires ManagerOk(w, p, m) && svc in m.services
    ensures Offers(w.engine, ServiceRemoved(m, svc), f, c) == (Offers(w.engine, m, f, c) && m.services[svc].channel != c)
    ensures Offers(w.engine, m, f, c) && m.services[svc].channel == c ==> Matches(w.engine, f, m.services[svc])
  {
    var m' := ServiceRemoved(m, svc);
    if Offers(w.engine, m, f, c) && m.services[svc].channel != c {
      var t :| t in m.services && m.services[t].channel == c && Matches(w.engine, f, m.services[t]);
      assert t in m'.services && m'.services[t] == m.services[t];
    }
  }

  lemma AddServiceTracked(w: World, s: System, a: nat, svc: nat, d: Description, outs: seq<Msg>, s': System, p: nat, u: string, c: string)
    requires LinksOk(s) && NextAddService(w, s, a, svc, d, outs, s')
    requires p in s.mgrs && Running(w, s, u) && TrackedAt(w, s, p, u, c)
    ensures Running(w, s', u) && TrackedAt(w, s', p, u, c)
  {
    var q, query := w.owner(u), s.mgrs[w.owner(u)].localQueries[u];
    if svc !in s.mgrs[a].services && Linked(s, q, p) && a == p {
      AnnouncesSay(w.engine, s.mgrs[a], d, outs, WillShow(s, q, p, query.listener, u, c), u, c);
      OffersAdded(w.engine, s.mgrs[a], svc, d, query.filter, c);
    }
    PublishTracked(w, s, a, outs, s', p, u, c);
  }

  lemma RemoveServiceTracked(w: World, s: System, a: nat, svc: nat, outs: seq<Msg>, s': System, p: nat, u: string, c: string)
    requires NextRemoveService(w, s, a, svc, outs, s') && ManagerOk(w, a, s.mgrs[a])
    requires p in s.mgrs && Running(w, s, u) && TrackedAt(w, s, p, u, c)
    ensures Running(w, s', u) && TrackedAt(w, s', p, u, c)
  {
    var q, query := w.owner(u), s.mgrs[w.owner(u)].localQueries[u];
    if svc !in s.mgrs[a].services {
      assert ServiceRemoved(s.mgrs[a], svc) == s.mgrs[a];
    } else if Linked(s, q, p) && a == p {
      WithdrawsSay(w.engine, s.mgrs[a], s.mgrs[a].services[svc], outs, WillShow(s, q, p, query.listener, u, c), u, c);
      OffersRemoved(w, a, s.mgrs[a], svc, query.filter, c);
    }
    PublishTracked(w, s, a, outs, s', p, u, c);
  }

  // ---------- links ----------

  lemma WelcomesOnlyStart(m: Manager, outs: seq<Msg>, u: string, c: string, shown: bool)
    requires Welcomes(m, outs)
    requires forall v :: v in m.localQueries ==> m.localQueries[v].filter.uuid == v
    ensures SeesAll(shown, outs, u, c) == shown
    ensures u in m.localQueries ==> OnlyAsks(outs, u, m.localQueries[u].filter)
  {
    SeesNothing(shown, outs, u, c);
  }

  lemma ConnectTracked(w: World, s: System, a: nat, b: nat, toB: seq<Msg>, toA: seq<Msg>, s': System, p: nat, u: string, c: string)
    requires WellFormed(w, s) && NextConnect(s, a, b, toB, toA, s')
    requires p in s.mgrs && Running(w, s, u) && TrackedAt(w, s, p, u, c) && ReplicatedAt(w, s, p, u)
    ensures TrackedAt(w, s', p, u, c)
  {
    var q := w.owner(u);
    if (a, b) == (q, p) || (a, b) == (p, q) {
      assert ManagerOk(w, a, s.mgrs[a]) && ManagerOk(w, b, s.mgrs[b]);
      NewLinkTracked(w, s, s', p, u, c);
    } else {
      assert (q, p) in s'.links <==> (q, p) in s.links;
      assert (p, q) in s'.links <==> (p, q) in s.links;
    }
  }

  // A link comes up, and both sides are greeted.
  lemma NewLinkTracked(w: World, s: System, s': System, p: nat, u: string, c: string)
    requires p in s.mgrs && Running(w, s, u) && s'.mgrs == s.mgrs && Linked(s', w.owner(u), p)
    requires ManagerOk(w, w.owner(u), s.mgrs[w.owner(u)]) && ManagerOk(w, p, s.mgrs[p])
    requires Welcomes(s.mgrs[w.owner(u)], s'.links[(w.owner(u), p)]) && Welcomes(s.mgrs[p], s'.links[(p, w.owner(u))])
    requires u !in s.mgrs[p].remoteQueries
    requires w.home(c) == p ==> !Shows(s.mgrs[w.owner(u)].calls, s.mgrs[w.owner(u)].localQueries[u].listener, u, c)
    ensures TrackedAt(w, s', p, u, c)
  {
    var q, query := w.owner(u), s.mgrs[w.owner(u)].localQueries[u];
    var shown := Shows(s.mgrs[q].calls, query.listener, u, c);
    WelcomesOnlyStart(s.mgrs[q], s'.links[(q, p)], u, c, shown);
    WelcomesOnlyStart(s.mgrs[p], s'.links[(p, q)], u, c, shown);
    SteadyAsked(w, p, None, s'.links[(q, p)], u, query.filter);
  }

  lemma GreetTracked(w: World, s: System, a: nat, b: nat, outs: seq<Msg>, s': System, p: nat, u: string, c: string)
    requires WellFormed(w, s) && NextGreet(s, a, b, outs, s')
    requires p in s.mgrs && Running(w, s, u) && TrackedAt(w, s, p, u, c)
    ensures TrackedAt(w, s', p, u, c)
  {
    var q, query := w.owner(u), s.mgrs[w.owner(u)].localQueries[u];
    assert ManagerOk(w, a, s.mgrs[a]);
    if (a, b) == (p, q) {
      var shown := Shows(s.mgrs[q].calls, query.listener, u, c);
      SeesAllConcat(shown, s.links[(p, q)], outs, u, c);
      WelcomesOnlyStart(s.mgrs[a], outs, u, c, SeesAll(shown, s.links[(p, q)], u, c));
    } else if (a, b) == (q, p) {
      WelcomesOnlyStart(s.mgrs[a], outs, u, c, false);
      SteadyGrows(w, p, Known(s.mgrs[p], u), s.links[(q, p)], outs, u, query.filter);
    }
    assert Linked(s', q, p) <==> Linked(s, q, p);
  }

  // ---------- delivery ----------

  // The owner of `u` takes a message off a link.
  lemma OwnerReceives(w: World, s: System, a: nat, s': System, p: nat, u: string, c: string)
    requires LinksOk(s) && p in s.mgrs && Running(w, s, u) && TrackedAt(w, s, p, u, c)
    requires ManagerOk(w, w.owner(u), s.mgrs[w.owner(u)])
    requires var q := w.owner(u);
             && (a, q) in s.links && s.links[(a, q)] != []
             && s'.mgrs == s.mgrs[q := Received(s.mgrs[q], Arrived(s.links[(a, q)][0]))]
             && MsgOk(w, a, s.links[(a, q)][0])
             && s'.links == s.links[(a, q) := s.links[(a, q)][1..]]
    requires p != w.owner(u)
    ensures Running(w, s', u) && TrackedAt(w, s', p, u, c)
  {
    var q := w.owner(u);
    ShowsReceived(w, q, s.mgrs[q], s.links[(a, q)][0], u, c);
  }

  lemma OwnerDeliverTracked(w: World, s: System, a: nat, outs: seq<Msg>, s': System, p: nat, u: string, c: string)
    requires WellFormed(w, s) && NextDeliver(w, s, a, w.owner(u), outs, s') && p != w.owner(u)
    requires p in s.mgrs && Running(w, s, u) && TrackedAt(w, s, p, u, c)
    ensures Running(w, s', u) && TrackedAt(w, s', p, u, c)
  {
    var q := w.owner(u);
    var mid := s'.(links := s.links[(a, q) := s.links[(a, q)][1..]]);
    assert s.links[(a, q)][0] in s.links[(a, q)] && ManagerOk(w, q, s.mgrs[q]);
    OwnerReceives(w, s, a, mid, p, u, c);
    PublishTracked(w, mid, q, outs, s', p, u, c);
  }

  // What a peer answers to a message of the owner of `u`.
  lemma PeerAnswers(w: World, p: nat, m: Manager, msg: Msg, outs: seq<Msg>, u: string, f: Filter, c: string, before: bool)
    requires ManagerOk(w, p, m) && Publishes(w.engine, m, Arrived(msg), outs) && f.uuid == u
    requires Steady(w, p, Known(m, u), [msg], u, f) && (before ==> Reports(w, m, u, f, c))
    ensures var after, now := SeesAll(before, outs, u, c), Reports(w, Received(m, Arrived(msg)), u, f, c);
            (after ==> now) && (before == Reports(w, m, u, f, c) || msg == Start(f) ==> after == now)
  {
    if Barren(w, p, f) {
      BarrenGetsNothing(w, p, m, f, c);
    }
    if msg.Start? {
      RepliesSay(w.engine, m, msg.filter, outs, before, u, c);
      if Barren(w, p, msg.filter) {
        BarrenGetsNothing(w, p, m, msg.filter, c);
      }
    }
    HearsAfter(m, msg, u);
  }

  lemma HearsAfter(m: Manager, msg: Msg, u: string)
    ensures Known(Received(m, Arrived(msg)), u) == Hears(Known(m, u), msg, u)
    ensures Received(m, Arrived(msg)).services == m.services
  {
  }

  // A peer takes the owner's message off their link and answers it.
  lemma PeerReceives(w: World, s: System, p: nat, outs: seq<Msg>, s': System, u: string, c: string)
    requires LinksOk(s) && Running(w, s, u) && p in s.mgrs && p != w.owner(u) && TrackedAt(w, s, p, u, c)
    requires NextDeliver(w, s, w.owner(u), p, outs, s') && ManagerOk(w, p, s.mgrs[p])
    requires s.mgrs[w.owner(u)].localQueries[u].filter.uuid == u
    ensures Running(w, s', u) && TrackedAt(w, s', p, u, c)
  {
    var q, query := w.owner(u), s.mgrs[w.owner(u)].localQueries[u];
    var ms := s.links[(q, p)];
    assert ms == [ms[0]] + ms[1..];
    SteadyConcat(w, p, Known(s.mgrs[p], u), [ms[0]], ms[1..], u, query.filter);
    HearsAfter(s.mgrs[p], ms[0], u);
    assert s'.links[(p, q)] == s.links[(p, q)] + outs && s'.links[(q, p)] == ms[1..];
    if w.home(c) == p {
      var before := WillShow(s, q, p, query.listener, u, c);
      SeesAllConcat(Shows(s.mgrs[q].calls, query.listener, u, c), s.links[(p, q)], outs, u, c);
      PeerAnswers(w, p, s.mgrs[p], ms[0], outs, u, query.filter, c, before);
    }
  }

  // A peer takes somebody else's message and answers it.
  lemma PeerReceivesOther(w: World, s: System, a: nat, p: nat, outs: seq<Msg>, s': System, u: string, c: string)
    requires LinksOk(s) && Running(w, s, u) && p in s.mgrs && p != w.owner(u) && TrackedAt(w, s, p, u, c)
    requires NextDeliver(w, s, a, p, outs, s') && a != w.owner(u) && MsgOk(w, a, s.links[(a, p)][0])
    ensures Running(w, s', u) && TrackedAt(w, s', p, u, c)
  {
    var q, query := w.owner(u), s.mgrs[w.owner(u)].localQueries[u];
    var msg := s.links[(a, p)][0];
    if Linked(s, q, p) {
      SeesAllConcat(Shows(s.mgrs[q].calls, query.listener, u, c), s.links[(p, q)], outs, u, c);
      SeesNothing(WillShow(s, q, p, query.listener, u, c), outs, u, c);
      assert s'.links[(p, q)] == s.links[(p, q)] + outs;
    }
  }

  lemma DeliverTracked(w: World, s: System, a: nat, b: nat, outs: seq<Msg>, s': System, p: nat, u: string, c: string)
    requires WellFormed(w, s) && NextDeliver(w, s, a, b, outs, s')
    requires p in s.mgrs && Running(w, s, u) && TrackedAt(w, s, p, u, c)
    ensures Running(w, s', u) && TrackedAt(w, s', p, u, c)
  {
    if p == w.owner(u) {
      SelfTracked(w, s, a, b, outs, s', u, c);
    } else if b == w.owner(u) {
      OwnerDeliverTracked(w, s, a, outs, s', p, u, c);
    } else if b == p {
      assert s.links[(a, p)][0] in s.links[(a, p)] && ManagerOk(w, w.owner(u), s.mgrs[w.owner(u)]);
      if a == w.owner(u) {
        assert ManagerOk(w, p, s.mgrs[p]);
        PeerReceives(w, s, p, outs, s', u, c);
      } else {
        PeerReceivesOther(w, s, a, p, outs, s', u, c);
      }
    } else {
      OthersDeliver(w, s, a, b, outs, s', p, u, c);
    }
  }

  lemma OthersDeliver(w: World, s: System, a: nat, b: nat, outs: seq<Msg>, s': System, p: nat, u: string, c: string)
    requires NextDeliver(w, s, a, b, outs, s') && b != w.owner(u) && b != p
    requires p in s.mgrs && Running(w, s, u) && TrackedAt(w, s, p, u, c)
    ensures Running(w, s', u) && TrackedAt(w, s', p, u, c)
  {
    var q := w.owner(u);
    assert s'.mgrs[q] == s.mgrs[q] && s'.mgrs[p] == s.mgrs[p];
    assert Linked(s', q, p) <==> Linked(s, q, p);
  }

  // A manager is never linked to itself, and never shows its own services.
  lemma SelfTracked(w: World, s: System, a: nat, b: nat, outs: seq<Msg>, s': System, u: string, c: string)
    requires WellFormed(w, s) && NextDeliver(w, s, a, b, outs, s') && Running(w, s, u)
    requires TrackedAt(w, s, w.owner(u), u, c)
    ensures Running(w, s', u) && TrackedAt(w, s', w.owner(u), u, c)
  {
    var q := w.owner(u);
    var msg := s.links[(a, b)][0];
    assert msg in s.links[(a, b)] && MsgOk(w, a, msg);
    assert ManagerOk(w, q, s.mgrs[q]);
    if b == q {
      ShowsReceived(w, q, s.mgrs[q], msg, u, c);
    }
  }

  // ---------- the invariant over runs ----------

  // Only a start makes a query run.
  lemma RunningBefore(w: World, s: System, step: Step, s': System, u: string)
    requires Next(w, s, step, s') && Running(w, s', u)
    ensures (step.StartQuery? && step.filter.uuid == u) || Running(w, s, u)
  {
  }

  lemma StepKeepsTrackedAt(w: World, s: System, step: Step, s': System, p: nat, u: string, c: string)
    requires WellFormed(w, s) && Next(w, s, step, s') && s'.mgrs.Keys == s.mgrs.Keys
    requires !(step.StartQuery? && step.filter.uuid == u)
    requires p in s.mgrs && Running(w, s, u) && Running(w, s', u) && TrackedAt(w, s, p, u, c) && ReplicatedAt(w, s, p, u)
    ensures TrackedAt(w, s', p, u, c)
  {
    match step {
      case StartQuery(q, f, listener) => StartOtherTracked(w, s, q, f, listener, s', p, u, c);
      case StopQuery(q, f) => StopQueryTracked(w, s, q, f, s', p, u, c);
      case AddService(a, svc, d, outs) => AddServiceTracked(w, s, a, svc, d, outs, s', p, u, c);
      case RemoveService(a, svc, outs) => RemoveServiceTracked(w, s, a, svc, outs, s', p, u, c);
      case Connect(a, b, toB, toA) => ConnectTracked(w, s, a, b, toB, toA, s', p, u, c);
      case Greet(a, b, outs) => GreetTracked(w, s, a, b, outs, s', p, u, c);
      case Deliver(a, b, outs) => DeliverTracked(w, s, a, b, outs, s', p, u, c);
    }
  }

  lemma StepKeepsTracked(w: World, s: System, step: Step, s': System, u: string)
    requires WellFormed(w, s) && Replicated(w, s) && Tracked(w, s, u) && Next(w, s, step, s')
    requires w.owner(u) in s.mgrs ==> HeardOf(w, s, w.owner(u))
    requires step.StartQuery? && step.filter.uuid == u ==> CleanStart(w, s, step.filter, step.listener)
    ensures Tracked(w, s', u)
  {
    StepKeepsManagers(w, s, step, s');
    if Running(w, s', u) {
      RunningBefore(w, s, step, s', u);
      forall p, c | p in s'.mgrs
        ensures TrackedAt(w, s', p, u, c)
      {
        if step.StartQuery? && step.filter.uuid == u {
          StartTracked(w, s, step.q, step.filter, step.listener, s', p, c);
        } else {
          assert ReplicatedAt(w, s, p, u);
          StepKeepsTrackedAt(w, s, step, s', p, u, c);
        }
      }
    }
  }

  lemma {:induction false} TrackedHolds(w: World, ss: seq<System>, steps: seq<Step>, n: nat, u: string)
    requires IsRun(w, ss, steps) && n <= |steps| && CleanFor(w, ss, steps, u)
    ensures Tracked(w, ss[n], u)
  {
    if n > 0 {
      TrackedHolds(w, ss, steps, n - 1, u);
      InvariantsHold(w, ss, steps, n - 1);
      if w.owner(u) in ss[n - 1].mgrs {
        HeardOfHolds(w, ss, steps, n - 1, w.owner(u));
      }
      assert StepAt(w, ss, steps, n - 1);
      StillTracked(w, ss[n - 1], steps[n - 1], ss[n], u);
    }
  }

  lemma StillTracked(w: World, s: System, step: Step, s': System, u: string)
    ensures && WellFormed(w, s) && Replicated(w, s) && Tracked(w, s, u) && Next(w, s, step, s') && CleanStep(w, s, step, u)
            && (w.owner(u) in s.mgrs ==> HeardOf(w, s, w.owner(u)))
            ==> Tracked(w, s', u)
  {
    if && WellFormed(w, s) && Replicated(w, s) && Tracked(w, s, u) && Next(w, s, step, s') && CleanStep(w, s, step, u)
       && (w.owner(u) in s.mgrs ==> HeardOf(w, s, w.owner(u))) {
      StepKeepsTracked(w, s, step, s', u);
    }
  }

  // ---------- the theorem ----------

  ghost predicate Quiet(s: System) {
    forall l :: l in s.links ==> s.links[l] == []
  }

  // Nothing is in flight between two managers.
  ghost predicate QuietBetween(s: System, q: nat, p: nat) {
    ((q, p) in s.links ==> s.links[(q, p)] == []) && ((p, q) in s.links ==> s.links[(p, q)] == [])
  }

  // Some manager connected to `q` has a registered service on channel `c` that `f` matches.
  ghost predicate OfferedToPeers(w: World, s: System, q: nat, f: Filter, c: string) {
    exists p :: (q, p) in s.links && p in s.mgrs && Offers(w.engine, s.mgrs[p], f, c)
  }

  // The listener of query `u` is shown exactly what the peers offer.
  ghost predicate ShowsTheTruth(w: World, s: System, u: string)
    requires Running(w, s, u)
  {
    var q, query := w.owner(u), s.mgrs[w.owner(u)].localQueries[u];
    forall c :: Shows(s.mgrs[q].calls, query.listener, u, c) <==> OfferedToPeers(w, s, q, query.filter, c)
  }

  // Only the home of a channel can offer it.
  lemma OffererIsHome(w: World, s: System, p: nat, f: Filter, c: string)
    requires WellFormed(w, s) && p in s.mgrs && Offers(w.engine, s.mgrs[p], f, c)
    ensures w.home(c) == p
  {
    assert ManagerOk(w, p, s.mgrs[p]);
  }

  lemma ConvergedAt(w: World, s: System, u: string, c: string)
    requires WellFormed(w, s) && Replicated(w, s) && Tracked(w, s, u) && Running(w, s, u)
    requires QuietBetween(s, w.owner(u), w.home(c)) && HeardOf(w, s, w.owner(u))
    ensures var q, query := w.owner(u), s.mgrs[w.owner(u)].localQueries[u];
            Shows(s.mgrs[q].calls, query.listener, u, c) <==> OfferedToPeers(w, s, q, query.filter, c)
  {
    var q, query, p := w.owner(u), s.mgrs[w.owner(u)].localQueries[u], w.home(c);
    forall r | (q, r) in s.links && Offers(w.engine, s.mgrs[r], query.filter, c)
      ensures r == p
    {
      OffererIsHome(w, s, r, query.filter, c);
    }
    if Shows(s.mgrs[q].calls, query.listener, u, c) {
      ShownIsLinked(w, s, q, query.listener, u, c);
    }
    if (p, q) in s.links {
      assert Linked(s, q, p) && TrackedAt(w, s, p, u, c) && ReplicatedAt(w, s, p, u);
    }
  }

  /**
   In every reachable state with nothing in flight between a query's manager and the
   home of a channel, the last callback to the query's listener about that channel was
   `added` if and only if a connected peer has a registered service on it that the
   filter matches, if every start of the query was clean. Repeated greetings do no harm,
   nor do starts of other queries, nor what is in flight elsewhere.
   */
  lemma ChannelConverges(w: World, ss: seq<System>, steps: seq<Step>, n: nat, u: string, c: string)
    requires IsRun(w, ss, steps) && n <= |steps| && CleanFor(w, ss, steps, u)
    requires Running(w, ss[n], u) && QuietBetween(ss[n], w.owner(u), w.home(c))
    ensures var q, query := w.owner(u), ss[n].mgrs[w.owner(u)].localQueries[u];
            Shows(ss[n].mgrs[q].calls, query.listener, u, c) <==> OfferedToPeers(w, ss[n], q, query.filter, c)
  {
    InvariantsHold(w, ss, steps, n);
    TrackedHolds(w, ss, steps, n, u);
    HeardOfHolds(w, ss, steps, n, w.owner(u));
    ConvergedAt(w, ss[n], u, c);
  }

  /** So with nothing in flight at all the listener is shown exactly what the peers offer. */
  lemma DiscoveryConverges(w: World, ss: seq<System>, steps: seq<Step>, n: nat, u: string)
    requires IsRun(w, ss, steps) && n <= |steps| && CleanFor(w, ss, steps, u)
    requires Quiet(ss[n]) && Running(w, ss[n], u)
    ensures ShowsTheTruth(w, ss[n], u)
  {
    forall c
      ensures var q, query := w.owner(u), ss[n].mgrs[w.owner(u)].localQueries[u];
              Shows(ss[n].mgrs[q].calls, query.listener, u, c) <==> OfferedToPeers(w, ss[n], q, query.filter, c)
    {
      ChannelConverges(w, ss, steps, n, u, c);
    }
  }

  /** A listener that serves one query has been told so in the very callbacks it got. */
  lemma ListenerConverges(w: World, ss: seq<System>, steps: seq<Step>, n: nat, u: string, c: string)
    requires IsRun(w, ss, steps) && n <= |steps| && CleanFor(w, ss, steps, u)
    requires Running(w, ss[n], u) && QuietBetween(ss[n], w.owner(u), w.home(c))
    requires Serves(ss[n].mgrs[w.owner(u)].calls, ss[n].mgrs[w.owner(u)].localQueries[u].listener, u)
    ensures var q, query := w.owner(u), ss[n].mgrs[w.owner(u)].localQueries[u];
            Told(ss[n].mgrs[q].calls, query.listener, c) <==> OfferedToPeers(w, ss[n], q, query.filter, c)
  {
    ChannelConverges(w, ss, steps, n, u, c);
    ToldIsShown(ss[n].mgrs[w.owner(u)].calls, ss[n].mgrs[w.owner(u)].localQueries[u].listener, u, c);
  }
}
