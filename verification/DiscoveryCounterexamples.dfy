/**
 Runs of two managers that mislead a listener. In two of them a start is not clean: a
 query is stopped and started again, and a notice from its first life arrives in its
 second; or a running query is started again for another listener and then once more
 for the first, which was not told of what happened in between. In the third a service
 comes back with another description and is reported with its old one.
 */
module DiscoveryCounterexamples {
  import opened ServiceWire
  import opened ServiceMatch
  import opened Discovery
  import opened DiscoverySystem
  import opened DiscoveryInvariants
  import opened DiscoveryConvergence
  import opened DiscoveryProgress

  // Manager 0 asks, manager 1 has the service.
  ghost function Pair(e: Engine): World {
    World(e, u => 0, c => 1)
  }

  // A filter without rules.
  function Named(name: string, id: string): Filter {
    Filter(name, id, map[], map[], map[])
  }

  lemma NamedMatches(e: Engine, d: Description, id: string)
    ensures Named(d.name, id).Sendable() && Matches(e, Named(d.name, id), d)
  {
  }

  function Two(m0: Manager, m1: Manager, there: seq<Msg>, back: seq<Msg>, started: set<string>): System {
    System(map[0 := m0, 1 := m1], map[(0, 1) := there, (1, 0) := back], started)
  }

  lemma Published(there: seq<Msg>, back: seq<Msg>, outs: seq<Msg>)
    ensures Publish(map[(0, 1) := there, (1, 0) := back], 0, outs) == map[(0, 1) := there + outs, (1, 0) := back]
    ensures Publish(map[(0, 1) := there, (1, 0) := back], 1, outs) == map[(0, 1) := there, (1, 0) := back + outs]
  {
  }

  // ---------- stories ----------

  // Which services a run may register, whether it may stop queries and start running ones again.
  datatype Manner = Manner(descs: set<Description>, stops: bool, repeats: bool)

  ghost predicate InManner(s: System, step: Step, m: Manner) {
    && (step.AddService? ==> step.desc in m.descs)
    && (step.StopQuery? ==> m.stops)
    && (step.StartQuery? && step.q in s.mgrs && step.filter.uuid in s.mgrs[step.q].localQueries ==> m.repeats)
  }

  // A run in that manner that has come to `last`.
  ghost predicate Story(e: Engine, ss: seq<System>, steps: seq<Step>, m: Manner, last: System) {
    && IsRun(Pair(e), ss, steps) && ss[|steps|] == last
    && forall i :: 0 <= i < |steps| ==> InManner(ss[i], steps[i], m)
  }

  lemma Tell(e: Engine, ss: seq<System>, steps: seq<Step>, m: Manner, last: System, step: Step, next: System)
    returns (ss': seq<System>, steps': seq<Step>)
    requires Story(e, ss, steps, m, last) && Next(Pair(e), last, step, next) && InManner(last, step, m)
    ensures Story(e, ss', steps', m, next)
  {
    Extend(Pair(e), ss, steps, step, next);
    ss', steps' := ss + [next], steps + [step];
    forall i | 0 <= i < |steps'|
      ensures InManner(ss'[i], steps'[i], m)
    {
      if i < |steps| {
        assert ss'[i] == ss[i] && steps'[i] == steps[i];
      }
    }
  }

  lemma Asks(e: Engine, ss: seq<System>, steps: seq<Step>, m: Manner, m0: Manager, m1: Manager, back: seq<Msg>,
             started: set<string>, f: Filter, listener: nat) returns (ss': seq<System>, steps': seq<Step>)
    requires Story(e, ss, steps, m, Two(m0, m1, [], back, started)) && f.Sendable()
    requires f.uuid in m0.localQueries ==> m0.localQueries[f.uuid].filter == f && m.repeats
    ensures Story(e, ss', steps', m, Two(QueryStarted(m0, f, listener), m1, [Start(f)], back, started + {f.uuid}))
  {
    var next := Two(QueryStarted(m0, f, listener), m1, [Start(f)], back, started + {f.uuid});
    Published([], back, [Start(f)]);
    assert [] + [Start(f)] == [Start(f)];
    assert map[0 := m0, 1 := m1][0 := QueryStarted(m0, f, listener)] == next.mgrs;
    ss', steps' := Tell(e, ss, steps, m, Two(m0, m1, [], back, started), StartQuery(0, f, listener), next);
  }

  lemma Stops(e: Engine, ss: seq<System>, steps: seq<Step>, m: Manner, m0: Manager, m1: Manager, back: seq<Msg>,
              started: set<string>, f: Filter) returns (ss': seq<System>, steps': seq<Step>)
    requires Story(e, ss, steps, m, Two(m0, m1, [], back, started)) && m.stops && f.Sendable() && f.uuid in m0.localQueries
    ensures Story(e, ss', steps', m, Two(QueryStopped(m0, f), m1, [Stop(f)], back, started))
  {
    var next := Two(QueryStopped(m0, f), m1, [Stop(f)], back, started);
    Published([], back, [Stop(f)]);
    assert [] + [Stop(f)] == [Stop(f)];
    assert map[0 := m0, 1 := m1][0 := QueryStopped(m0, f)] == next.mgrs;
    ss', steps' := Tell(e, ss, steps, m, Two(m0, m1, [], back, started), StopQuery(0, f), next);
  }

  lemma Popped(there: seq<Msg>, back: seq<Msg>, msg: Msg)
    ensures map[(0, 1) := [msg], (1, 0) := back][(0, 1) := [msg][1..]] == map[(0, 1) := [], (1, 0) := back]
    ensures map[(0, 1) := there, (1, 0) := [msg]][(1, 0) := [msg][1..]] == map[(0, 1) := there, (1, 0) := []]
  {
    assert [msg][1..] == [];
  }

  lemma TakesFromBack(m0: Manager, m1: Manager, m: Manager, there: seq<Msg>, msg: Msg, started: set<string>)
    ensures var s := Two(m0, m1, there, [msg], started);
            && s.links[(1, 0)] == [msg] && s.mgrs[0] == m0
            && Two(m, m1, there, [], started)
               == s.(mgrs := s.mgrs[0 := m], links := Publish(s.links[(1, 0) := s.links[(1, 0)][1..]], 0, []))
  {
    Popped(there, [], msg);
    Published(there, [], []);
    assert there + [] == there;
    assert map[0 := m0, 1 := m1][0 := m] == map[0 := m, 1 := m1];
  }

  lemma TakesFromLink(m0: Manager, m1: Manager, m: Manager, msg: Msg, back: seq<Msg>, outs: seq<Msg>, started: set<string>)
    ensures var s := Two(m0, m1, [msg], back, started);
            && s.links[(0, 1)] == [msg] && s.mgrs[1] == m1
            && Two(m0, m, [], back + outs, started)
               == s.(mgrs := s.mgrs[1 := m], links := Publish(s.links[(0, 1) := s.links[(0, 1)][1..]], 1, outs))
  {
    Popped([], back, msg);
    Published([], back, outs);
    assert map[0 := m0, 1 := m1][1 := m] == map[0 := m0, 1 := m];
  }

  // Manager 1 takes a start or a stop and publishes `outs`.
  lemma Hears1(e: Engine, ss: seq<System>, steps: seq<Step>, m: Manner, m0: Manager, m1: Manager, msg: Msg, back: seq<Msg>,
               outs: seq<Msg>, started: set<string>) returns (ss': seq<System>, steps': seq<Step>)
    requires Story(e, ss, steps, m, Two(m0, m1, [msg], back, started)) && Publishes(e, m1, Arrived(msg), outs)
    ensures Story(e, ss', steps', m, Two(m0, Received(m1, Arrived(msg)), [], back + outs, started))
  {
    var next := Two(m0, Received(m1, Arrived(msg)), [], back + outs, started);
    TakesFromLink(m0, m1, Received(m1, Arrived(msg)), msg, back, outs, started);
    ss', steps' := Tell(e, ss, steps, m, Two(m0, m1, [msg], back, started), Deliver(0, 1, outs), next);
  }

  // Manager 0 takes a notice.
  lemma Hears0(e: Engine, ss: seq<System>, steps: seq<Step>, m: Manner, m0: Manager, m1: Manager, there: seq<Msg>, msg: Msg,
               started: set<string>) returns (ss': seq<System>, steps': seq<Step>)
    requires Story(e, ss, steps, m, Two(m0, m1, there, [msg], started)) && !Arrived(msg).Start?
    ensures Story(e, ss', steps', m, Two(Received(m0, Arrived(msg)), m1, there, [], started))
  {
    var next := Two(Received(m0, Arrived(msg)), m1, there, [], started);
    TakesFromBack(m0, m1, Received(m0, Arrived(msg)), there, msg, started);
    ss', steps' := Tell(e, ss, steps, m, Two(m0, m1, there, [msg], started), Deliver(1, 0, []), next);
  }

  // A service comes while nobody's query is known.
  lemma Comes(e: Engine, ss: seq<System>, steps: seq<Step>, m: Manner, m0: Manager, m1: Manager, back: seq<Msg>,
              started: set<string>, d: Description) returns (ss': seq<System>, steps': seq<Step>)
    requires Story(e, ss, steps, m, Two(m0, m1, [], back, started)) && d in m.descs && d.channel != ""
    requires m1.remoteQueries == map[] && m1.services == map[]
    ensures Story(e, ss', steps', m, Two(m0, ServiceAdded(m1, 7, d), [], back, started))
  {
    var next := Two(m0, ServiceAdded(m1, 7, d), [], back, started);
    Published([], back, []);
    assert back + [] == back;
    assert Interested(e, m1.remoteQueries, d) == {};
    assert map[0 := m0, 1 := m1][1 := ServiceAdded(m1, 7, d)] == next.mgrs;
    ss', steps' := Tell(e, ss, steps, m, Two(m0, m1, [], back, started), AddService(1, 7, d, []), next);
  }

  // A service goes, and `outs` are the notices.
  lemma Goes(e: Engine, ss: seq<System>, steps: seq<Step>, m: Manner, m0: Manager, m1: Manager, there: seq<Msg>, back: seq<Msg>,
             started: set<string>, d: Description, outs: seq<Msg>) returns (ss': seq<System>, steps': seq<Step>)
    requires Story(e, ss, steps, m, Two(m0, m1, there, back, started)) && m1.services == map[7 := d]
    requires Withdraws(e, m1, d, outs)
    ensures Story(e, ss', steps', m, Two(m0, ServiceRemoved(m1, 7), there, back + outs, started))
  {
    var next := Two(m0, ServiceRemoved(m1, 7), there, back + outs, started);
    Published(there, back, outs);
    assert map[0 := m0, 1 := m1][1 := ServiceRemoved(m1, 7)] == next.mgrs;
    ss', steps' := Tell(e, ss, steps, m, Two(m0, m1, there, back, started), RemoveService(1, 7, outs), next);
  }

  lemma NobodyToTell(e: Engine, m: Manager, d: Description)
    requires m.remoteQueries == map[]
    ensures Withdraws(e, m, d, [])
  {
    assert Interested(e, m.remoteQueries, d) == {};
  }

  lemma NothingToReport(e: Engine, m: Manager, f: Filter)
    requires m.services == map[]
    ensures Publishes(e, m, Arrived(Start(f)), [])
  {
    assert Matching(e, m.services, f) == {};
  }

  lemma OneToReport(e: Engine, m: Manager, f: Filter, d: Description)
    requires m.services == map[7 := d] && Matches(e, f, d)
    ensures Publishes(e, m, Arrived(Start(f)), [Found(f.uuid, d)])
  {
    assert Matching(e, m.services, f) == {7};
  }

  lemma OneToTell(e: Engine, m: Manager, f: Filter, d: Description)
    requires m.remoteQueries == map[f.uuid := f] && Matches(e, f, d)
    ensures Withdraws(e, m, d, [Gone(f.uuid, d)])
  {
    assert Interested(e, m.remoteQueries, d) == {f.uuid};
    assert Notice(f.uuid, d, Removed) == [Gone(f.uuid, d)][0];
  }

  // ---------- how they all begin ----------

  // Manager 1 has the service, and nobody asks yet.
  lemma Offering(e: Engine, m: Manner, d: Description) returns (ss: seq<System>, steps: seq<Step>)
    requires d in m.descs && d.channel != ""
    ensures Story(e, ss, steps, m, Two(EMPTY, ServiceAdded(EMPTY, 7, d), [], [], {}))
  {
    var start := System(map[0 := EMPTY, 1 := EMPTY], map[], {});
    var next := Two(EMPTY, EMPTY, [], [], {});
    var none: map<(nat, nat), seq<Msg>> := map[];
    assert none[(0, 1) := []][(1, 0) := []] == next.links;
    ss, steps := Tell(e, [start], [], m, start, Connect(0, 1, [], []), next);
    ss, steps := Comes(e, ss, steps, m, EMPTY, EMPTY, [], {}, d);
  }

  // The query is started and answered.
  lemma Answered(e: Engine, m: Manner, d: Description) returns (ss: seq<System>, steps: seq<Step>, asking: Manager, known: Manager)
    requires d in m.descs && d.channel != ""
    ensures Story(e, ss, steps, m, Two(asking, known, [], [Found("u", d)], {"u"}))
    ensures asking == QueryStarted(EMPTY, Named(d.name, "u"), 0)
    ensures known.services == map[7 := d] && known.remoteQueries == map["u" := Named(d.name, "u")]
  {
    var f, offering := Named(d.name, "u"), ServiceAdded(EMPTY, 7, d);
    NamedMatches(e, d, "u");
    ss, steps := Offering(e, m, d);
    ss, steps := Asks(e, ss, steps, m, EMPTY, offering, [], {}, f, 0);
    asking := QueryStarted(EMPTY, f, 0);
    assert {} + {"u"} == {"u"};
    OneToReport(e, offering, f, d);
    ss, steps := Hears1(e, ss, steps, m, asking, offering, Start(f), [], [Found("u", d)], {"u"});
    known := Received(offering, Start(f));
    assert [] + [Found("u", d)] == [Found("u", d)];
  }

  // Listener 0 is told of the service.
  lemma FirstTold(e: Engine, m: Manner, d: Description) returns (ss: seq<System>, steps: seq<Step>, told: Manager, known: Manager)
    requires d in m.descs && d.channel != ""
    ensures Story(e, ss, steps, m, Two(told, known, [], [], {"u"}))
    ensures told.localQueries == map["u" := Query(Named(d.name, "u"), 0)] && told.remoteDescs == map[d.channel := OnArrival(d)]
    ensures told.calls == [Callback(0, "u", OnArrival(d), Added)]
    ensures known.services == map[7 := d] && known.remoteQueries == map["u" := Named(d.name, "u")]
  {
    var asking;
    ss, steps, asking, known := Answered(e, m, d);
    ss, steps := Hears0(e, ss, steps, m, asking, known, [], Found("u", d), {"u"});
    told := Received(asking, Found("u", OnArrival(d)));
  }

  // ---------- a restart ----------

  const D := Description("svc", "c", map[])
  const F := Named("svc", "u")

  // Somebody is misled: nothing is in flight, and a listener is shown what nobody offers.
  ghost predicate Misled(w: World, s: System, u: string) {
    Quiet(s) && Running(w, s, u) && !ShowsTheTruth(w, s, u)
  }

  lemma NobodyOffers(e: Engine, m0: Manager, m1: Manager, started: set<string>)
    requires m1.services == map[] && "u" in m0.localQueries && Shows(m0.calls, m0.localQueries["u"].listener, "u", "c")
    ensures Misled(Pair(e), Two(m0, m1, [], [], started), "u")
  {
    var s := Two(m0, m1, [], [], started);
    assert !OfferedToPeers(Pair(e), s, 0, s.mgrs[0].localQueries["u"].filter, "c");
  }

  // The query is stopped while the answer is still in flight.
  lemma FirstLife(e: Engine, m: Manner) returns (ss: seq<System>, steps: seq<Step>, stopped: Manager, known: Manager)
    requires D in m.descs && m.stops
    ensures Story(e, ss, steps, m, Two(stopped, known, [], [Found("u", D)], {"u"}))
    ensures stopped.localQueries == map[] && stopped.calls == [] && stopped.remoteDescs == map[]
    ensures known.services == map[7 := D] && known.remoteQueries == map[]
  {
    var asking, informed;
    ss, steps, asking, informed := Answered(e, m, D);
    ss, steps := Stops(e, ss, steps, m, asking, informed, [Found("u", D)], {"u"}, F);
    stopped := QueryStopped(asking, F);
    ss, steps := Hears1(e, ss, steps, m, stopped, informed, Stop(F), [Found("u", D)], [], {"u"});
    known := Received(informed, Stop(F));
    assert [Found("u", D)] + [] == [Found("u", D)];
    assert known.remoteQueries == map[];
  }

  // The service goes, the query is started again and finds nothing, and only then the old answer arrives.
  lemma SecondLife(e: Engine, m: Manner) returns (ss: seq<System>, steps: seq<Step>, misled: Manager, asked: Manager)
    requires D in m.descs && m.stops
    ensures Story(e, ss, steps, m, Two(misled, asked, [], [], {"u"})) && asked.services == map[]
    ensures misled.localQueries == map["u" := Query(F, 0)] && misled.calls == [Callback(0, "u", OnArrival(D), Added)]
  {
    var stopped, known;
    ss, steps, stopped, known := FirstLife(e, m);
    NobodyToTell(e, known, D);
    ss, steps := Goes(e, ss, steps, m, stopped, known, [], [Found("u", D)], {"u"}, D, []);
    var gone := ServiceRemoved(known, 7);
    assert [Found("u", D)] + [] == [Found("u", D)] && {"u"} + {"u"} == {"u"};
    ss, steps := Asks(e, ss, steps, m, stopped, gone, [Found("u", D)], {"u"}, F, 0);
    var asking := QueryStarted(stopped, F, 0);
    NothingToReport(e, gone, F);
    ss, steps := Hears1(e, ss, steps, m, asking, gone, Start(F), [Found("u", D)], [], {"u"});
    asked := Received(gone, Start(F));
    ss, steps := Hears0(e, ss, steps, m, asking, asked, [], Found("u", D), {"u"});
    misled := Received(asking, Found("u", OnArrival(D)));
  }

  /**
   With a restart, a quiet state is reachable in which a listener is shown a service
   that nobody offers: no query is started while it runs.
   */
  lemma RestartBreaksConvergence(e: Engine)
    ensures exists w: World, ss: seq<System>, steps: seq<Step>, u: string ::
              && IsRun(w, ss, steps) && Misled(w, ss[|steps|], u)
              && forall i :: 0 <= i < |steps| && steps[i].StartQuery? ==> !Running(w, ss[i], steps[i].filter.uuid)
  {
    var m := Manner({D}, true, false);
    var ss, steps, misled, asked := SecondLife(e, m);
    assert Shows(misled.calls, 0, "u", "c");
    NobodyOffers(e, misled, asked, {"u"});
    forall i | 0 <= i < |steps| && steps[i].StartQuery?
      ensures !Running(Pair(e), ss[i], steps[i].filter.uuid)
    {
      assert InManner(ss[i], steps[i], m) && StepAt(Pair(e), ss, steps, i);
    }
  }

  // ---------- another listener ----------

  // Listener 1 takes over and is told that the service is gone.
  lemma TakenOver(e: Engine, m: Manner) returns (ss: seq<System>, steps: seq<Step>, told: Manager, gone: Manager)
    requires D in m.descs && m.repeats
    ensures Story(e, ss, steps, m, Two(told, gone, [Start(F)], [], {"u"}))
    ensures told.localQueries == map["u" := Query(F, 1)] && gone.services == map[]
    ensures told.calls == [Callback(0, "u", OnArrival(D), Added), Callback(1, "u", OnArrival(D), Removed)]
  {
    var first, known;
    ss, steps, first, known := FirstTold(e, m, D);
    ss, steps := Asks(e, ss, steps, m, first, known, [], {"u"}, F, 1);
    var second := QueryStarted(first, F, 1);
    assert {"u"} + {"u"} == {"u"};
    NamedMatches(e, D, "u");
    OneToTell(e, known, F, D);
    ss, steps := Goes(e, ss, steps, m, second, known, [Start(F)], [], {"u"}, D, [Gone("u", D)]);
    gone := ServiceRemoved(known, 7);
    assert [] + [Gone("u", D)] == [Gone("u", D)];
    ss, steps := Hears0(e, ss, steps, m, second, gone, [Start(F)], Gone("u", D), {"u"});
    told := Received(second, Gone("u", OnArrival(D)));
  }

  // Listener 0 comes back.
  lemma Returned(e: Engine, m: Manner) returns (ss: seq<System>, steps: seq<Step>, back: Manager, asked: Manager)
    requires D in m.descs && m.repeats
    ensures Story(e, ss, steps, m, Two(back, asked, [], [], {"u"})) && asked.services == map[]
    ensures back.localQueries == map["u" := Query(F, 0)]
    ensures back.calls == [Callback(0, "u", OnArrival(D), Added), Callback(1, "u", OnArrival(D), Removed)]
  {
    var told, gone;
    ss, steps, told, gone := TakenOver(e, m);
    NothingToReport(e, gone, F);
    ss, steps := Hears1(e, ss, steps, m, told, gone, Start(F), [], [], {"u"});
    var again := Received(gone, Start(F));
    var none: seq<Msg> := [];
    assert none + none == none && {"u"} + {"u"} == {"u"};
    ss, steps := Asks(e, ss, steps, m, told, again, [], {"u"}, F, 0);
    back := QueryStarted(told, F, 0);
    NothingToReport(e, again, F);
    ss, steps := Hears1(e, ss, steps, m, back, again, Start(F), [], [], {"u"});
    asked := Received(again, Start(F));
  }

  /**
   A running query that is started again for an earlier listener can mislead it: in
   the end listener 0 is the query's listener, it was last told that the service was
   added, and nobody offers it. No query is ever stopped.
   */
  lemma ReturningListenerBreaksConvergence(e: Engine)
    ensures exists w: World, ss: seq<System>, steps: seq<Step>, u: string ::
              && IsRun(w, ss, steps) && Misled(w, ss[|steps|], u)
              && forall i :: 0 <= i < |steps| ==> !steps[i].StopQuery?
  {
    var m := Manner({D}, false, true);
    var ss, steps, back, asked := Returned(e, m);
    assert back.calls[..1] == [Callback(0, "u", OnArrival(D), Added)];
    assert Shows(back.calls, 0, "u", "c");
    NobodyOffers(e, back, asked, {"u"});
    forall i | 0 <= i < |steps|
      ensures !steps[i].StopQuery?
    {
      assert InManner(ss[i], steps[i], m);
    }
  }

  // ---------- another description ----------

  // The query is stopped for good.
  lemma Forgotten(e: Engine, m: Manner, d: Description) returns (ss: seq<System>, steps: seq<Step>, stopped: Manager, known: Manager)
    requires d in m.descs && d.channel != "" && m.stops
    ensures Story(e, ss, steps, m, Two(stopped, known, [], [], {"u"}))
    ensures stopped.localQueries == map[] && stopped.remoteDescs == map[d.channel := OnArrival(d)]
    ensures known.services == map[7 := d] && known.remoteQueries == map[]
  {
    var told, informed;
    var f := Named(d.name, "u");
    ss, steps, told, informed := FirstTold(e, m, d);
    ss, steps := Stops(e, ss, steps, m, told, informed, [], {"u"}, f);
    stopped := QueryStopped(told, f);
    ss, steps := Hears1(e, ss, steps, m, stopped, informed, Stop(f), [], [], {"u"});
    known := Received(informed, Stop(f));
    var none: seq<Msg> := [];
    assert none + none == none;
    assert known.remoteQueries == map[] && stopped.localQueries == map[];
  }

  // The service goes and comes back as another; nobody is told.
  lemma Replaced(e: Engine, m: Manner, d: Description, d': Description)
    returns (ss: seq<System>, steps: seq<Step>, stopped: Manager, renewed: Manager)
    requires d in m.descs && d' in m.descs && d.channel == d'.channel != "" && m.stops
    ensures Story(e, ss, steps, m, Two(stopped, renewed, [], [], {"u"}))
    ensures stopped.localQueries == map[] && stopped.remoteDescs == map[d.channel := OnArrival(d)]
    ensures renewed.services == map[7 := d'] && renewed.remoteQueries == map[]
  {
    var known;
    ss, steps, stopped, known := Forgotten(e, m, d);
    NobodyToTell(e, known, d);
    ss, steps := Goes(e, ss, steps, m, stopped, known, [], [], {"u"}, d, []);
    var gone := ServiceRemoved(known, 7);
    var none: seq<Msg> := [];
    assert none + none == none;
    ss, steps := Comes(e, ss, steps, m, stopped, gone, [], {"u"}, d');
    renewed := ServiceAdded(gone, 7, d');
  }

  // Another query is started and answered, and its listener is told the old description.
  lemma ReportedAnew(e: Engine, m: Manner, d: Description, d': Description)
    returns (ss: seq<System>, steps: seq<Step>, told: Manager, asked: Manager)
    requires d in m.descs && d' in m.descs && d.channel == d'.channel != "" && m.stops
    ensures Story(e, ss, steps, m, Two(told, asked, [], [], {"u", "v"}))
    ensures told.localQueries == map["v" := Query(Named(d'.name, "v"), 1)] && asked.services == map[7 := d']
    ensures told.calls != [] && told.calls[|told.calls| - 1] == Callback(1, "v", OnArrival(d), Added)
  {
    var stopped, renewed;
    var g := Named(d'.name, "v");
    ss, steps, stopped, renewed := Replaced(e, m, d, d');
    NamedMatches(e, d', "v");
    ss, steps := Asks(e, ss, steps, m, stopped, renewed, [], {"u"}, g, 1);
    var asking := QueryStarted(stopped, g, 1);
    assert {"u"} + {"v"} == {"u", "v"} && [] + [Found("v", d')] == [Found("v", d')];
    OneToReport(e, renewed, g, d');
    ss, steps := Hears1(e, ss, steps, m, asking, renewed, Start(g), [], [Found("v", d')], {"u", "v"});
    asked := Received(renewed, Start(g));
    ss, steps := Hears0(e, ss, steps, m, asking, asked, [], Found("v", d'), {"u", "v"});
    told := Received(asking, Found("v", OnArrival(d')));
  }
}
