/**
 Starts that are clean without looking at what is in flight: the first start of a
 query, and a repeated start of a running one for the listener it has or for one
 that it never called.
 */
module DiscoveryStarts {
  import opened ServiceWire
  import opened ServiceMatch
  import opened Discovery
  import opened DiscoverySystem
  import opened DiscoveryInvariants
  import opened DiscoveryConvergence

  // The listener was never called on behalf of query `u`.
  ghost predicate NeverCalled(calls: seq<Callback>, listener: nat, u: string) {
    forall i :: 0 <= i < |calls| ==> !(calls[i].listener == listener && calls[i].filterId == u)
  }

  ghost predicate SimpleStart(s: System, step: Step) {
    step.StartQuery? && step.q in s.mgrs ==>
      var m, u := s.mgrs[step.q], step.filter.uuid;
      || u !in s.started
      || (u in m.localQueries
          && (m.localQueries[u].listener == step.listener || NeverCalled(m.calls, step.listener, u)))
  }

  ghost predicate HasSimpleStarts(ss: seq<System>, steps: seq<Step>, u: string)
    requires |ss| > |steps|
  {
    forall i :: 0 <= i < |steps| && steps[i].StartQuery? && steps[i].filter.uuid == u ==> SimpleStart(ss[i], steps[i])
  }

  // ---------- queries never started leave no trace ----------

  ghost predicate About(m: Msg, u: string) {
    ((m.Start? || m.Stop?) && m.filter.uuid == u) || ((m.Found? || m.Gone?) && m.filterId == u)
  }

  ghost predicate UnknownTo(m: Manager, u: string) {
    && u !in m.localQueries && u !in m.remoteQueries
    && forall i :: 0 <= i < |m.calls| ==> m.calls[i].filterId != u
  }

  ghost predicate NotAbout(ms: seq<Msg>, u: string) {
    forall m :: m in ms ==> !About(m, u)
  }

  ghost predicate Untouched(s: System, u: string) {
    && (forall q :: q in s.mgrs ==> UnknownTo(s.mgrs[q], u))
    && (forall l :: l in s.links ==> NotAbout(s.links[l], u))
  }

  ghost predicate Fresh(s: System) {
    forall u :: u !in s.started ==> Untouched(s, u)
  }

  lemma PublishUntouched(s: System, q: nat, m: Manager, outs: seq<Msg>, s': System, u: string)
    requires Untouched(s, u) && q in s.mgrs && UnknownTo(m, u) && NotAbout(outs, u)
    requires s'.mgrs == s.mgrs[q := m] && s'.links == Publish(s.links, q, outs)
    ensures Untouched(s', u)
  {
    forall l | l in s'.links
      ensures NotAbout(s'.links[l], u)
    {
      assert NotAbout(s.links[l], u);
    }
  }

  lemma DeliverUntouched(w: World, s: System, a: nat, b: nat, outs: seq<Msg>, s': System, u: string)
    requires Untouched(s, u) && NextDeliver(w, s, a, b, outs, s')
    ensures Untouched(s', u)
  {
    var ms := s.links[(a, b)];
    assert ms[0] in ms && NotAbout(ms, u);
    var mid := s.(links := s.links[(a, b) := ms[1..]]);
    assert Untouched(mid, u);
    PublishUntouched(mid, b, Received(s.mgrs[b], Arrived(ms[0])), outs, s', u);
  }

  lemma WelcomesNotAbout(m: Manager, outs: seq<Msg>, u: string)
    requires UnknownTo(m, u) && Welcomes(m, outs)
    requires forall v :: v in m.localQueries ==> m.localQueries[v].filter.uuid == v
    ensures NotAbout(outs, u)
  {
  }

  lemma ConnectUntouched(w: World, s: System, q: nat, p: nat, toP: seq<Msg>, toQ: seq<Msg>, s': System, u: string)
    requires WellFormed(w, s) && Untouched(s, u) && NextConnect(s, q, p, toP, toQ, s')
    ensures Untouched(s', u)
  {
    assert ManagerOk(w, q, s.mgrs[q]) && ManagerOk(w, p, s.mgrs[p]);
    WelcomesNotAbout(s.mgrs[q], toP, u);
    WelcomesNotAbout(s.mgrs[p], toQ, u);
  }

  lemma GreetUntouched(w: World, s: System, q: nat, p: nat, outs: seq<Msg>, s': System, u: string)
    requires WellFormed(w, s) && Untouched(s, u) && NextGreet(s, q, p, outs, s')
    ensures Untouched(s', u)
  {
    assert ManagerOk(w, q, s.mgrs[q]);
    WelcomesNotAbout(s.mgrs[q], outs, u);
    assert NotAbout(s.links[(q, p)] + outs, u);
  }

  lemma ServiceStepUntouched(w: World, s: System, step: Step, s': System, u: string)
    requires Untouched(s, u)
    requires (step.AddService? && NextAddService(w, s, step.p, step.svc, step.desc, step.outs, s'))
             || (step.RemoveService? && NextRemoveService(w, s, step.p, step.svc, step.outs, s'))
    ensures Untouched(s', u)
  {
    var m := s.mgrs[step.p];
    assert UnknownTo(m, u);
    assert NotAbout(step.outs, u);
    if step.AddService? {
      PublishUntouched(s, step.p, ServiceAdded(m, step.svc, step.desc), step.outs, s', u);
    } else {
      PublishUntouched(s, step.p, ServiceRemoved(m, step.svc), step.outs, s', u);
    }
  }

  lemma QueryStepUntouched(w: World, s: System, step: Step, s': System, u: string)
    requires Untouched(s, u) && u !in s'.started
    requires (step.StartQuery? && NextStartQuery(w, s, step.q, step.filter, step.listener, s'))
             || (step.StopQuery? && NextStopQuery(w, s, step.q, step.filter, s'))
    ensures Untouched(s', u)
  {
    var f, m := step.filter, s.mgrs[step.q];
    assert UnknownTo(m, u);
    if step.StartQuery? {
      PublishUntouched(s, step.q, QueryStarted(m, f, step.listener), [Start(f)], s', u);
    } else {
      PublishUntouched(s, step.q, QueryStopped(m, f), if f.uuid in m.localQueries then [Stop(f)] else [], s', u);
    }
  }

  lemma StepKeepsUntouched(w: World, s: System, step: Step, s': System, u: string)
    requires WellFormed(w, s) && Untouched(s, u) && Next(w, s, step, s') && u !in s'.started
    ensures Untouched(s', u)
  {
    match step {
      case StartQuery(_, _, _) => QueryStepUntouched(w, s, step, s', u);
      case StopQuery(_, _) => QueryStepUntouched(w, s, step, s', u);
      case AddService(_, _, _, _) => ServiceStepUntouched(w, s, step, s', u);
      case RemoveService(_, _, _) => ServiceStepUntouched(w, s, step, s', u);
      case Connect(q, p, toP, toQ) => ConnectUntouched(w, s, q, p, toP, toQ, s', u);
      case Greet(q, p, outs) => GreetUntouched(w, s, q, p, outs, s', u);
      case Deliver(a, b, outs) => DeliverUntouched(w, s, a, b, outs, s', u);
    }
  }

  lemma {:induction false} FreshHolds(w: World, ss: seq<System>, steps: seq<Step>, n: nat)
    requires IsRun(w, ss, steps) && n <= |steps|
    ensures Fresh(ss[n])
  {
    if n > 0 {
      FreshHolds(w, ss, steps, n - 1);
      InvariantsHold(w, ss, steps, n - 1);
      RunStep(w, ss, steps, n);
      forall u | u !in ss[n].started
        ensures Untouched(ss[n], u)
      {
        StartedGrows(w, ss[n - 1], steps[n - 1], ss[n]);
        assert Untouched(ss[n - 1], u);
        StepKeepsUntouched(w, ss[n - 1], steps[n - 1], ss[n], u);
      }
    }
  }

  lemma StartedGrows(w: World, s: System, step: Step, s': System)
    requires Next(w, s, step, s')
    ensures s.started <= s'.started
  {
  }

  // ---------- simple starts are clean ----------

  lemma {:induction false} ShowsNothingUncalled(calls: seq<Callback>, listener: nat, u: string, c: string)
    requires NeverCalled(calls, listener, u)
    ensures !Shows(calls, listener, u, c)
  {
    if calls != [] {
      ShowsNothingUncalled(calls[..|calls| - 1], listener, u, c);
    }
  }

  lemma {:induction false} SeesMore(shown: bool, ms: seq<Msg>, u: string, c: string)
    requires SeesAll(false, ms, u, c)
    ensures SeesAll(shown, ms, u, c)
    decreases |ms|
  {
    if ms != [] {
      if !Concerns(ms[0], u, c) {
        SeesMore(shown, ms[1..], u, c);
      }
    }
  }

  lemma FirstStartIsClean(w: World, s: System, f: Filter, listener: nat, p: nat)
    requires Linked(s, w.owner(f.uuid), p)
    requires UnknownTo(s.mgrs[w.owner(f.uuid)], f.uuid) && UnknownTo(s.mgrs[p], f.uuid)
    requires NotAbout(s.links[(p, w.owner(f.uuid))], f.uuid) && NotAbout(s.links[(w.owner(f.uuid), p)], f.uuid)
    ensures CleanStartAt(w, s, p, f, listener)
  {
    var u, q := f.uuid, w.owner(f.uuid);
    forall c
      ensures !WillShow(s, q, p, listener, u, c)
    {
      ShowsNothingUncalled(s.mgrs[q].calls, listener, u, c);
      SeesNothing(false, s.links[(p, q)], u, c);
    }
  }

  lemma RepeatedStartIsClean(w: World, s: System, f: Filter, listener: nat, p: nat)
    requires Running(w, s, f.uuid) && Tracked(w, s, f.uuid) && Linked(s, w.owner(f.uuid), p)
    requires var q := w.owner(f.uuid);
             var query := s.mgrs[q].localQueries[f.uuid];
             query.filter == f && (query.listener == listener || NeverCalled(s.mgrs[q].calls, listener, f.uuid))
    ensures CleanStartAt(w, s, p, f, listener)
  {
    var u, q := f.uuid, w.owner(f.uuid);
    var query := s.mgrs[q].localQueries[u];
    forall c | w.home(c) == p && WillShow(s, q, p, listener, u, c)
      ensures Reports(w, s.mgrs[p], u, f, c)
    {
      assert TrackedAt(w, s, p, u, c);
      if query.listener != listener {
        ShowsNothingUncalled(s.mgrs[q].calls, listener, u, c);
        SeesMore(Shows(s.mgrs[q].calls, query.listener, u, c), s.links[(p, q)], u, c);
      }
    }
  }

  lemma SimpleStartIsClean(w: World, s: System, q: nat, f: Filter, listener: nat, s': System)
    requires WellFormed(w, s) && Fresh(s) && Tracked(w, s, f.uuid)
    requires NextStartQuery(w, s, q, f, listener, s') && SimpleStart(s, StartQuery(q, f, listener))
    ensures CleanStart(w, s, f, listener)
  {
    forall p | Linked(s, q, p)
      ensures CleanStartAt(w, s, p, f, listener)
    {
      if f.uuid !in s.started {
        assert Untouched(s, f.uuid);
        FirstStartIsClean(w, s, f, listener, p);
      } else {
        RepeatedStartIsClean(w, s, f, listener, p);
      }
    }
  }

  lemma {:induction false} SimpleUpTo(w: World, ss: seq<System>, steps: seq<Step>, n: nat, u: string)
    requires IsRun(w, ss, steps) && n <= |steps| && HasSimpleStarts(ss, steps, u)
    ensures CleanFor(w, ss[..n + 1], steps[..n], u)
  {
    if n > 0 {
      var before, past := ss[..n], steps[..n - 1];
      SimpleUpTo(w, ss, steps, n - 1, u);
      forall i | 0 <= i < |past|
        ensures StepAt(w, before, past, i)
      {
        assert StepAt(w, ss, steps, i);
      }
      var s, step := ss[n - 1], steps[n - 1];
      RunStep(w, ss, steps, n);
      assert before[n - 1] == s;
      if step.StartQuery? && step.filter.uuid == u {
        InvariantsHold(w, ss, steps, n - 1);
        FreshHolds(w, ss, steps, n - 1);
        TrackedHolds(w, before, past, n - 1, u);
        SimpleStartIsClean(w, s, step.q, step.filter, step.listener, ss[n]);
      }
      CleanSoFar(w, ss, steps, n, u);
    }
  }

  lemma CleanSoFar(w: World, ss: seq<System>, steps: seq<Step>, n: nat, u: string)
    requires 0 < n <= |steps| < |ss| && CleanFor(w, ss[..n], steps[..n - 1], u)
    requires var step := steps[n - 1];
             step.StartQuery? && step.filter.uuid == u ==> CleanStart(w, ss[n - 1], step.filter, step.listener)
    ensures CleanFor(w, ss[..n + 1], steps[..n], u)
  {
    forall i | 0 <= i < n && steps[i].StartQuery? && steps[i].filter.uuid == u
      ensures CleanStart(w, ss[i], steps[i].filter, steps[i].listener)
    {
      if i < n - 1 {
        assert steps[..n - 1][i] == steps[i] && ss[..n][i] == ss[i];
      }
    }
  }

  /**
   If a query is started again only while it runs, and for the listener it has or for
   one it never called, every start of it is clean.
   */
  lemma SimpleStartsAreClean(w: World, ss: seq<System>, steps: seq<Step>, u: string)
    requires IsRun(w, ss, steps) && HasSimpleStarts(ss, steps, u)
    ensures CleanFor(w, ss, steps, u)
  {
    SimpleUpTo(w, ss, steps, |steps|, u);
    assert ss[..|steps| + 1] == ss && steps[..|steps|] == steps;
  }
}
