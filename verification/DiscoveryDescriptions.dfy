/**
 What listeners are told about a service beyond its channel. A manager caches one
 description per channel, and the cache outlives a stopped query, so a listener can be
 told an old description. It never is if and only if no query may be stopped or all
 descriptions that may be registered on one channel arrive alike.
 */
module DiscoveryDescriptions {
  import opened ServiceWire
  import opened ServiceMatch
  import opened Discovery
  import opened DiscoverySystem
  import opened DiscoveryInvariants
  import opened DiscoveryConvergence
  import opened DiscoveryCounterexamples
  import opened DiscoveryCache

  // The descriptions that may be registered.
  type Allowed = Description -> bool

  ghost predicate RegistersOnly(allowed: Allowed, steps: seq<Step>) {
    forall i :: 0 <= i < |steps| && steps[i].AddService? ==> allowed(steps[i].desc)
  }

  // ---------- everything in circulation was registered ----------

  // `a` is how some registered description arrives.
  ghost predicate Arrives(allowed: Allowed, a: Description) {
    exists d :: allowed(d) && a == OnArrival(d)
  }

  ghost predicate GenuineMsg(allowed: Allowed, m: Msg) {
    m.Found? || m.Gone? ==> allowed(m.desc)
  }

  ghost predicate GenuineBatch(allowed: Allowed, ms: seq<Msg>) {
    forall m :: m in ms ==> GenuineMsg(allowed, m)
  }

  ghost predicate GenuineManager(allowed: Allowed, m: Manager) {
    && (forall svc :: svc in m.services ==> allowed(m.services[svc]))
    && (forall c :: c in m.remoteDescs ==> Arrives(allowed, m.remoteDescs[c]))
    && (forall i :: 0 <= i < |m.calls| ==> Arrives(allowed, m.calls[i].desc))
  }

  ghost predicate Genuine(allowed: Allowed, s: System) {
    && (forall q :: q in s.mgrs ==> GenuineManager(allowed, s.mgrs[q]))
    && (forall l :: l in s.links ==> GenuineBatch(allowed, s.links[l]))
  }

  lemma ReceivedGenuine(allowed: Allowed, m: Manager, msg: Msg)
    requires GenuineManager(allowed, m) && GenuineMsg(allowed, msg)
    ensures GenuineManager(allowed, Received(m, Arrived(msg)))
  {
    if msg.Found? || msg.Gone? {
      assert Arrives(allowed, OnArrival(msg.desc));
    }
  }

  lemma PublicationKeepsGenuine(allowed: Allowed, s: System, links: map<(nat, nat), seq<Msg>>, q: nat, m: Manager, outs: seq<Msg>, s': System)
    requires Genuine(allowed, s) && q in s.mgrs && GenuineManager(allowed, m) && GenuineBatch(allowed, outs)
    requires forall l :: l in links ==> GenuineBatch(allowed, links[l])
    requires s'.mgrs == s.mgrs[q := m] && s'.links == Publish(links, q, outs)
    ensures Genuine(allowed, s')
  {
    forall l | l in s'.links
      ensures GenuineBatch(allowed, s'.links[l])
    {
      assert GenuineBatch(allowed, links[l]);
    }
  }

  lemma DeliverKeepsGenuine(w: World, allowed: Allowed, s: System, a: nat, b: nat, outs: seq<Msg>, s': System)
    requires Genuine(allowed, s) && NextDeliver(w, s, a, b, outs, s')
    ensures Genuine(allowed, s')
  {
    var ms := s.links[(a, b)];
    assert ms[0] in ms && GenuineBatch(allowed, ms) && GenuineManager(allowed, s.mgrs[b]);
    ReceivedGenuine(allowed, s.mgrs[b], ms[0]);
    var links := s.links[(a, b) := ms[1..]];
    assert forall l :: l in links ==> GenuineBatch(allowed, links[l]);
    PublicationKeepsGenuine(allowed, s, links, b, Received(s.mgrs[b], Arrived(ms[0])), outs, s');
  }

  lemma ServiceStepKeepsGenuine(w: World, allowed: Allowed, s: System, step: Step, s': System)
    requires Genuine(allowed, s) && (step.AddService? ==> allowed(step.desc))
    requires (step.AddService? && NextAddService(w, s, step.p, step.svc, step.desc, step.outs, s'))
             || (step.RemoveService? && NextRemoveService(w, s, step.p, step.svc, step.outs, s'))
    ensures Genuine(allowed, s')
  {
    assert GenuineManager(allowed, s.mgrs[step.p]);
    PublicationKeepsGenuine(allowed, s, s.links, step.p, s'.mgrs[step.p], step.outs, s');
  }

  lemma QueryStepKeepsGenuine(w: World, allowed: Allowed, s: System, step: Step, s': System)
    requires Genuine(allowed, s)
    requires (step.StartQuery? && NextStartQuery(w, s, step.q, step.filter, step.listener, s'))
             || (step.StopQuery? && NextStopQuery(w, s, step.q, step.filter, s'))
    ensures Genuine(allowed, s')
  {
    var f, m := step.filter, s.mgrs[step.q];
    assert GenuineManager(allowed, m);
    var outs := if step.StartQuery? then [Start(f)] else if f.uuid in m.localQueries then [Stop(f)] else [];
    PublicationKeepsGenuine(allowed, s, s.links, step.q, s'.mgrs[step.q], outs, s');
  }

  lemma LinkStepKeepsGenuine(allowed: Allowed, s: System, step: Step, s': System)
    requires Genuine(allowed, s)
    requires (step.Connect? && NextConnect(s, step.q, step.p, step.toP, step.toQ, s'))
             || (step.Greet? && NextGreet(s, step.q, step.p, step.outs, s'))
    ensures Genuine(allowed, s')
  {
    if step.Greet? {
      assert GenuineBatch(allowed, s.links[(step.q, step.p)]);
    }
  }

  lemma StepKeepsGenuine(w: World, allowed: Allowed, s: System, step: Step, s': System)
    requires Genuine(allowed, s) && Next(w, s, step, s') && (step.AddService? ==> allowed(step.desc))
    ensures Genuine(allowed, s')
  {
    match step {
      case StartQuery(_, _, _) => QueryStepKeepsGenuine(w, allowed, s, step, s');
      case StopQuery(_, _) => QueryStepKeepsGenuine(w, allowed, s, step, s');
      case AddService(_, _, _, _) => ServiceStepKeepsGenuine(w, allowed, s, step, s');
      case RemoveService(_, _, _) => ServiceStepKeepsGenuine(w, allowed, s, step, s');
      case Connect(_, _, _, _) => LinkStepKeepsGenuine(allowed, s, step, s');
      case Greet(_, _, _) => LinkStepKeepsGenuine(allowed, s, step, s');
      case Deliver(a, b, outs) => DeliverKeepsGenuine(w, allowed, s, a, b, outs, s');
    }
  }

  /** In every run, whatever is registered, in flight, cached or told is an allowed description or how one arrives. */
  lemma {:induction false} GenuineHolds(w: World, allowed: Allowed, ss: seq<System>, steps: seq<Step>, n: nat)
    requires IsRun(w, ss, steps) && RegistersOnly(allowed, steps) && n <= |steps|
    ensures Genuine(allowed, ss[n])
  {
    if n > 0 {
      GenuineHolds(w, allowed, ss, steps, n - 1);
      RunStep(w, ss, steps, n);
      StepKeepsGenuine(w, allowed, ss[n - 1], steps[n - 1], ss[n]);
    }
  }

  // ---------- when listeners are told the truth ----------

  // All descriptions that may be registered on one channel arrive alike.
  ghost predicate Consistent(allowed: Allowed) {
    forall d, d' :: allowed(d) && allowed(d') && d.channel == d'.channel != "" ==> OnArrival(d) == OnArrival(d')
  }

  // The last callback to the listener on behalf of `u` about channel `c`.
  ghost predicate IsLast(calls: seq<Callback>, i: nat, listener: nat, u: string, c: string) {
    && i < |calls| && calls[i].listener == listener && calls[i].filterId == u && calls[i].desc.channel == c
    && forall j :: i < j < |calls| ==> !(calls[j].listener == listener && calls[j].filterId == u && calls[j].desc.channel == c)
  }

  // The listener of running query `u` was last told of the service that peer `p` offers it as something else.
  ghost predicate MisinformedOf(w: World, s: System, u: string, p: nat, svc: nat, i: nat) {
    && Running(w, s, u) && Linked(s, w.owner(u), p) && svc in s.mgrs[p].services
    && var q, query, d := w.owner(u), s.mgrs[w.owner(u)].localQueries[u], s.mgrs[p].services[svc];
       && Matches(w.engine, query.filter, d)
       && IsLast(s.mgrs[q].calls, i, query.listener, u, d.channel)
       && s.mgrs[q].calls[i].kind == Added && s.mgrs[q].calls[i].desc != OnArrival(d)
  }

  ghost predicate Misinformed(w: World, s: System) {
    exists u, p, svc, i :: MisinformedOf(w, s, u, p, svc, i)
  }

  ghost predicate StopsNothing(steps: seq<Step>) {
    forall i :: 0 <= i < |steps| ==> !steps[i].StopQuery?
  }

  // No run that registers only allowed descriptions, and stops queries only if it may, ends with nothing in
  // flight and a listener misinformed.
  ghost predicate NeverMisinforms(allowed: Allowed, mayStop: bool) {
    forall w: World, ss: seq<System>, steps: seq<Step> ::
      IsRun(w, ss, steps) && RegistersOnly(allowed, steps) && (mayStop || StopsNothing(steps)) && Quiet(ss[|steps|])
      ==> !Misinformed(w, ss[|steps|])
  }

  lemma {:induction false} LastIsToldAs(calls: seq<Callback>, i: nat, listener: nat, u: string, c: string)
    requires IsLast(calls, i, listener, u, c) && calls[i].kind == Added
    ensures ToldAs(calls, listener, u, c) == Some(calls[i].desc)
  {
    if i < |calls| - 1 {
      LastIsToldAs(calls[..|calls| - 1], i, listener, u, c);
    }
  }

  /**
   As long as no query of a manager is stopped, with nothing in flight no listener of it is
   left with an old description, whatever descriptions the channels had.
   */
  lemma UnstoppedIsNeverMisinformed(w: World, ss: seq<System>, steps: seq<Step>, n: nat, u: string, p: nat, svc: nat, i: nat)
    requires IsRun(w, ss, steps) && n <= |steps| && NeverStops(steps, w.owner(u)) && QuietBetween(ss[n], w.owner(u), p)
    ensures !MisinformedOf(w, ss[n], u, p, svc, i)
  {
    if MisinformedOf(w, ss[n], u, p, svc, i) {
      var q, query, d := w.owner(u), ss[n].mgrs[w.owner(u)].localQueries[u], ss[n].mgrs[p].services[svc];
      LastIsToldAs(ss[n].mgrs[q].calls, i, query.listener, u, d.channel);
      UnstoppedTellsTheTruth(w, ss, steps, n, u, p, svc);
    }
  }

  lemma UnstoppedNeverMisinforms(allowed: Allowed)
    ensures NeverMisinforms(allowed, false)
  {
    forall w: World, ss: seq<System>, steps: seq<Step> | IsRun(w, ss, steps) && StopsNothing(steps) && Quiet(ss[|steps|])
      ensures !Misinformed(w, ss[|steps|])
    {
      forall u, p, svc, i
        ensures !MisinformedOf(w, ss[|steps|], u, p, svc, i)
      {
        UnstoppedIsNeverMisinformed(w, ss, steps, |steps|, u, p, svc, i);
      }
    }
  }

  /** Every callback about a channel carries the description of the service registered on it, as it arrives. */
  lemma ListenersGetTheRegistered(w: World, allowed: Allowed, ss: seq<System>, steps: seq<Step>, n: nat, q: nat, i: nat, p: nat, svc: nat)
    requires IsRun(w, ss, steps) && RegistersOnly(allowed, steps) && Consistent(allowed) && n <= |steps|
    requires q in ss[n].mgrs && i < |ss[n].mgrs[q].calls| && p in ss[n].mgrs && svc in ss[n].mgrs[p].services
    requires ss[n].mgrs[q].calls[i].desc.channel == ss[n].mgrs[p].services[svc].channel
    ensures ss[n].mgrs[q].calls[i].desc == OnArrival(ss[n].mgrs[p].services[svc])
  {
    GenuineHolds(w, allowed, ss, steps, n);
    InvariantsHold(w, ss, steps, n);
    assert GenuineManager(allowed, ss[n].mgrs[q]) && GenuineManager(allowed, ss[n].mgrs[p]);
    assert ManagerOk(w, p, ss[n].mgrs[p]);
    var d :| allowed(d) && ss[n].mgrs[q].calls[i].desc == OnArrival(d);
  }

  lemma ConsistentNeverMisinforms(allowed: Allowed)
    requires Consistent(allowed)
    ensures NeverMisinforms(allowed, true)
  {
    forall w: World, ss: seq<System>, steps: seq<Step> | IsRun(w, ss, steps) && RegistersOnly(allowed, steps)
      ensures !Misinformed(w, ss[|steps|])
    {
      if u, p, svc, i :| MisinformedOf(w, ss[|steps|], u, p, svc, i) {
        ListenersGetTheRegistered(w, allowed, ss, steps, |steps|, w.owner(u), i, p, svc);
      }
    }
  }

  lemma OldDescriptionMisinforms(e: Engine, d: Description, d': Description, told: Manager, asked: Manager)
    requires d.channel == d'.channel && OnArrival(d) != OnArrival(d')
    requires told.localQueries == map["v" := Query(Named(d'.name, "v"), 1)] && asked.services == map[7 := d']
    requires told.calls != [] && told.calls[|told.calls| - 1] == Callback(1, "v", OnArrival(d), Added)
    ensures Misinformed(Pair(e), Two(told, asked, [], [], {"u", "v"})) && Quiet(Two(told, asked, [], [], {"u", "v"}))
  {
    NamedMatches(e, d', "v");
    assert MisinformedOf(Pair(e), Two(told, asked, [], [], {"u", "v"}), "v", 1, 7, |told.calls| - 1);
  }

  /**
   A service that comes back on its channel as another is reported as the old one, if
   the two arrive differently: the listener of a query that is running, and was started
   after the change, is told a description that nobody has registered any more.
   */
  lemma CachedDescriptionGetsOld(e: Engine, allowed: Allowed, d: Description, d': Description)
    requires allowed(d) && allowed(d') && d.channel == d'.channel != "" && OnArrival(d) != OnArrival(d')
    ensures exists w: World, ss: seq<System>, steps: seq<Step> ::
              w.engine == e && IsRun(w, ss, steps) && RegistersOnly(allowed, steps) && Quiet(ss[|steps|]) && Misinformed(w, ss[|steps|])
  {
    var m := Manner({d, d'}, true, false);
    var ss, steps, told, asked := ReportedAnew(e, m, d, d');
    OldDescriptionMisinforms(e, d, d', told, asked);
    forall i | 0 <= i < |steps| && steps[i].AddService?
      ensures allowed(steps[i].desc)
    {
      assert InManner(ss[i], steps[i], m);
    }
  }

  /**
   Listeners are never left with an old description if and only if no query may be stopped
   or the descriptions of a channel all arrive alike.
   */
  lemma NeverMisinformsExactlyWhen(allowed: Allowed, mayStop: bool)
    ensures NeverMisinforms(allowed, mayStop) <==> !mayStop || Consistent(allowed)
  {
    if !mayStop {
      UnstoppedNeverMisinforms(allowed);
    } else if Consistent(allowed) {
      ConsistentNeverMisinforms(allowed);
    } else {
      var d, d' :| allowed(d) && allowed(d') && d.channel == d'.channel != "" && OnArrival(d) != OnArrival(d');
      CachedDescriptionGetsOld(WHOLE, allowed, d, d');
    }
  }
}
