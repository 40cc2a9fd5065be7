/**
 What every reachable state of the discovery system keeps: well-formed tables and
 messages, and the exact replication of each manager's queries at its peers.
 */
module DiscoveryInvariants {
  import opened ServiceWire
  import opened ServiceMatch
  import opened Discovery
  import opened DiscoverySystem

  // ---------- well-formedness ----------

  ghost predicate ManagerOk(w: World, q: nat, m: Manager) {
    && (forall u :: u in m.localQueries ==>
          w.owner(u) == q && m.localQueries[u].filter.uuid == u && m.localQueries[u].filter.Sendable())
    && (forall u :: u in m.remoteQueries ==> m.remoteQueries[u].uuid == u)
    && (forall svc :: svc in m.services ==> m.services[svc].channel != "" && w.home(m.services[svc].channel) == q)
    && (forall s, t :: s in m.services && t in m.services && m.services[s].channel == m.services[t].channel ==> s == t)
    && (forall c :: c in m.remoteDescs ==> m.remoteDescs[c].channel == c)
  }

  // A manager asks only for its own queries and reports only its own services.
  ghost predicate MsgOk(w: World, a: nat, m: Msg) {
    match m
    case Start(f) => w.owner(f.uuid) == a && f.Sendable()
    case Stop(f) => w.owner(f.uuid) == a && f.Sendable()
    case Found(_, d) => w.home(d.channel) == a && d.channel != ""
    case Gone(_, d) => w.home(d.channel) == a && d.channel != ""
    case Other => false
  }

  ghost predicate BatchOk(w: World, a: nat, ms: seq<Msg>) {
    forall m :: m in ms ==> MsgOk(w, a, m)
  }

  ghost predicate LinksOk(s: System) {
    && (forall l :: l in s.links ==> l.0 in s.mgrs && l.1 in s.mgrs && l.0 != l.1)
    && (forall a, b :: (a, b) in s.links ==> (b, a) in s.links)
  }

  ghost predicate WellFormed(w: World, s: System) {
    && LinksOk(s)
    && (forall q :: q in s.mgrs ==> ManagerOk(w, q, s.mgrs[q]))
    && (forall l :: l in s.links ==> BatchOk(w, l.0, s.links[l]))
  }

  lemma PublishKeepsBatches(w: World, links: map<(nat, nat), seq<Msg>>, a: nat, outs: seq<Msg>)
    requires forall l :: l in links ==> BatchOk(w, l.0, links[l])
    requires BatchOk(w, a, outs)
    ensures forall l :: l in Publish(links, a, outs) ==> BatchOk(w, l.0, Publish(links, a, outs)[l])
  {
  }

  lemma ReceivedManagerOk(w: World, q: nat, m: Manager, msg: Msg)
    requires ManagerOk(w, q, m)
    ensures ManagerOk(w, q, Received(m, msg))
  {
  }

  lemma RepliesOk(w: World, p: nat, m: Manager, msg: Msg, outs: seq<Msg>)
    requires ManagerOk(w, p, m) && Publishes(w.engine, m, msg, outs)
    ensures BatchOk(w, p, outs)
  {
  }

  // One manager changes and publishes something.
  lemma PublicationKeepsWellFormed(w: World, s: System, links: map<(nat, nat), seq<Msg>>, q: nat, m: Manager, outs: seq<Msg>, s': System)
    requires WellFormed(w, s) && q in s.mgrs && ManagerOk(w, q, m) && BatchOk(w, q, outs)
    requires links.Keys == s.links.Keys && forall l :: l in links ==> BatchOk(w, l.0, links[l])
    requires s'.mgrs == s.mgrs[q := m] && s'.links == Publish(links, q, outs)
    ensures WellFormed(w, s')
  {
    PublishKeepsBatches(w, links, q, outs);
  }

  lemma DeliverKeepsWellFormed(w: World, s: System, a: nat, b: nat, outs: seq<Msg>, s': System)
    requires WellFormed(w, s) && NextDeliver(w, s, a, b, outs, s')
    ensures WellFormed(w, s')
  {
    var ms := s.links[(a, b)];
    var msg := Arrived(ms[0]);
    ReceivedManagerOk(w, b, s.mgrs[b], msg);
    RepliesOk(w, b, s.mgrs[b], msg, outs);
    var popped := s.links[(a, b) := ms[1..]];
    assert forall l :: l in popped ==> BatchOk(w, l.0, popped[l]);
    PublicationKeepsWellFormed(w, s, popped, b, Received(s.mgrs[b], msg), outs, s');
  }

  lemma StartQueryKeepsWellFormed(w: World, s: System, q: nat, f: Filter, listener: nat, s': System)
    requires WellFormed(w, s) && NextStartQuery(w, s, q, f, listener, s')
    ensures WellFormed(w, s')
  {
    var m := QueryStarted(s.mgrs[q], f, listener);
    assert ManagerOk(w, q, s.mgrs[q]) && ManagerOk(w, q, m);
    PublicationKeepsWellFormed(w, s, s.links, q, m, [Start(f)], s');
  }

  lemma StopQueryKeepsWellFormed(w: World, s: System, q: nat, f: Filter, s': System)
    requires WellFormed(w, s) && NextStopQuery(w, s, q, f, s')
    ensures WellFormed(w, s')
  {
    var m := QueryStopped(s.mgrs[q], f);
    assert ManagerOk(w, q, s.mgrs[q]) && ManagerOk(w, q, m);
    var outs := if f.uuid in s.mgrs[q].localQueries then [Stop(f)] else [];
    PublicationKeepsWellFormed(w, s, s.links, q, m, outs, s');
  }

  lemma AddServiceKeepsWellFormed(w: World, s: System, p: nat, svc: nat, d: Description, outs: seq<Msg>, s': System)
    requires WellFormed(w, s) && NextAddService(w, s, p, svc, d, outs, s')
    ensures WellFormed(w, s')
  {
    var m := ServiceAdded(s.mgrs[p], svc, d);
    assert ManagerOk(w, p, s.mgrs[p]) && ManagerOk(w, p, m);
    PublicationKeepsWellFormed(w, s, s.links, p, m, outs, s');
  }

  lemma RemoveServiceKeepsWellFormed(w: World, s: System, p: nat, svc: nat, outs: seq<Msg>, s': System)
    requires WellFormed(w, s) && NextRemoveService(w, s, p, svc, outs, s')
    ensures WellFormed(w, s')
  {
    var m := ServiceRemoved(s.mgrs[p], svc);
    assert ManagerOk(w, p, s.mgrs[p]) && ManagerOk(w, p, m);
    PublicationKeepsWellFormed(w, s, s.links, p, m, outs, s');
  }

  lemma WelcomesOk(w: World, q: nat, m: Manager, outs: seq<Msg>)
    requires ManagerOk(w, q, m) && Welcomes(m, outs)
    ensures BatchOk(w, q, outs)
  {
  }

  lemma NewLinksKeepWellFormed(w: World, s: System, q: nat, p: nat, toP: seq<Msg>, toQ: seq<Msg>, s': System)
    requires WellFormed(w, s) && q in s.mgrs && p in s.mgrs && q != p
    requires BatchOk(w, q, toP) && BatchOk(w, p, toQ)
    requires s'.mgrs == s.mgrs && s'.links == s.links[(q, p) := toP][(p, q) := toQ]
    ensures WellFormed(w, s')
  {
    assert (q, p) != (p, q);
  }

  lemma ConnectKeepsWellFormed(w: World, s: System, q: nat, p: nat, toP: seq<Msg>, toQ: seq<Msg>, s': System)
    requires WellFormed(w, s) && NextConnect(s, q, p, toP, toQ, s')
    ensures WellFormed(w, s')
  {
    WelcomesOk(w, q, s.mgrs[q], toP);
    WelcomesOk(w, p, s.mgrs[p], toQ);
    NewLinksKeepWellFormed(w, s, q, p, toP, toQ, s');
  }

  lemma GreetKeepsWellFormed(w: World, s: System, q: nat, p: nat, outs: seq<Msg>, s': System)
    requires WellFormed(w, s) && NextGreet(s, q, p, outs, s')
    ensures WellFormed(w, s')
  {
    WelcomesOk(w, q, s.mgrs[q], outs);
    assert BatchOk(w, q, s.links[(q, p)] + outs);
  }

  lemma StepKeepsWellFormed(w: World, s: System, step: Step, s': System)
    requires WellFormed(w, s) && Next(w, s, step, s')
    ensures WellFormed(w, s')
  {
    match step {
      case StartQuery(q, f, listener) => StartQueryKeepsWellFormed(w, s, q, f, listener, s');
      case StopQuery(q, f) => StopQueryKeepsWellFormed(w, s, q, f, s');
      case AddService(p, svc, d, outs) => AddServiceKeepsWellFormed(w, s, p, svc, d, outs, s');
      case RemoveService(p, svc, outs) => RemoveServiceKeepsWellFormed(w, s, p, svc, outs, s');
      case Connect(q, p, toP, toQ) => ConnectKeepsWellFormed(w, s, q, p, toP, toQ, s');
      case Greet(q, p, outs) => GreetKeepsWellFormed(w, s, q, p, outs, s');
      case Deliver(a, b, outs) => DeliverKeepsWellFormed(w, s, a, b, outs, s');
    }
  }

  // ---------- query replication ----------

  ghost function Known(m: Manager, u: string): Option<Filter> {
    if u in m.remoteQueries then Some(m.remoteQueries[u]) else None
  }

  ghost function Asked(m: Manager, u: string): Option<Filter> {
    if u in m.localQueries then Some(m.localQueries[u].filter) else None
  }

  // Manager `p` will know exactly what the owner of `u` asks, once their link has drained.
  ghost predicate ReplicatedAt(w: World, s: System, p: nat, u: string)
    requires p in s.mgrs && w.owner(u) in s.mgrs
  {
    var q := w.owner(u);
    if (q, p) in s.links then HearsAll(Known(s.mgrs[p], u), s.links[(q, p)], u) == Asked(s.mgrs[q], u)
    else u !in s.mgrs[p].remoteQueries
  }

  ghost predicate Replicated(w: World, s: System) {
    forall p, u :: p in s.mgrs && w.owner(u) in s.mgrs ==> ReplicatedAt(w, s, p, u)
  }

  // Appending `outs` to the link from the owner of `u` to `p`.
  lemma LinkGrew(w: World, s: System, p: nat, u: string, outs: seq<Msg>, s': System)
    requires p in s.mgrs && w.owner(u) in s.mgrs && ReplicatedAt(w, s, p, u)
    requires p in s'.mgrs && w.owner(u) in s'.mgrs && s'.mgrs[p].remoteQueries == s.mgrs[p].remoteQueries
    requires (w.owner(u), p) in s.links <==> (w.owner(u), p) in s'.links
    requires (w.owner(u), p) in s.links ==> s'.links[(w.owner(u), p)] == s.links[(w.owner(u), p)] + outs
    requires HearsAll(Asked(s.mgrs[w.owner(u)], u), outs, u) == Asked(s'.mgrs[w.owner(u)], u)
    ensures ReplicatedAt(w, s', p, u)
  {
    var q := w.owner(u);
    if (q, p) in s.links {
      HearsAllConcat(Known(s.mgrs[p], u), s.links[(q, p)], outs, u);
    }
  }

  // A publication that says nothing about `u`.
  lemma PublishedOther(w: World, s: System, a: nat, outs: seq<Msg>, s': System, p: nat, u: string)
    requires p in s.mgrs && w.owner(u) in s.mgrs && ReplicatedAt(w, s, p, u)
    requires s'.links == Publish(s.links, a, outs) && s'.mgrs.Keys == s.mgrs.Keys
    requires s'.mgrs[p].remoteQueries == s.mgrs[p].remoteQueries
    requires Asked(s'.mgrs[w.owner(u)], u) == Asked(s.mgrs[w.owner(u)], u)
    requires forall m :: m in outs ==> !((m.Start? || m.Stop?) && m.filter.uuid == u)
    ensures ReplicatedAt(w, s', p, u)
  {
    HearsNothing(Asked(s.mgrs[w.owner(u)], u), outs, u);
    if w.owner(u) == a {
      LinkGrew(w, s, p, u, outs, s');
    }
  }

  lemma StartQueryReplicated(w: World, s: System, q: nat, f: Filter, listener: nat, s': System, p: nat, u: string)
    requires LinksOk(s) && NextStartQuery(w, s, q, f, listener, s')
    requires p in s.mgrs && w.owner(u) in s.mgrs && ReplicatedAt(w, s, p, u)
    ensures ReplicatedAt(w, s', p, u)
  {
    if u != f.uuid {
      PublishedOther(w, s, q, [Start(f)], s', p, u);
    } else {
      HearsStarts(Asked(s.mgrs[q], u), [Start(f)], u, f);
      LinkGrew(w, s, p, u, [Start(f)], s');
    }
  }

  lemma StopQueryReplicated(w: World, s: System, q: nat, f: Filter, s': System, p: nat, u: string)
    requires LinksOk(s) && NextStopQuery(w, s, q, f, s')
    requires p in s.mgrs && w.owner(u) in s.mgrs && ReplicatedAt(w, s, p, u)
    ensures ReplicatedAt(w, s', p, u)
  {
    var outs := if f.uuid in s.mgrs[q].localQueries then [Stop(f)] else [];
    if u != f.uuid {
      PublishedOther(w, s, q, outs, s', p, u);
    } else {
      LinkGrew(w, s, p, u, outs, s');
    }
  }

  lemma ConnectReplicated(w: World, s: System, q: nat, p: nat, toP: seq<Msg>, toQ: seq<Msg>, s': System, r: nat, u: string)
    requires WellFormed(w, s) && NextConnect(s, q, p, toP, toQ, s')
    requires r in s.mgrs && w.owner(u) in s.mgrs && ReplicatedAt(w, s, r, u)
    ensures ReplicatedAt(w, s', r, u)
  {
    var o := w.owner(u);
    if (o, r) == (q, p) {
      WelcomesSay(s.mgrs[q], toP, None, u);
    } else if (o, r) == (p, q) {
      WelcomesSay(s.mgrs[p], toQ, None, u);
    } else {
      assert (o, r) in s'.links <==> (o, r) in s.links;
    }
  }

  lemma GreetReplicated(w: World, s: System, q: nat, p: nat, outs: seq<Msg>, s': System, r: nat, u: string)
    requires WellFormed(w, s) && NextGreet(s, q, p, outs, s')
    requires r in s.mgrs && w.owner(u) in s.mgrs && ReplicatedAt(w, s, r, u)
    ensures ReplicatedAt(w, s', r, u)
  {
    if w.owner(u) == q && r == p {
      WelcomesSay(s.mgrs[q], outs, Asked(s.mgrs[q], u), u);
      LinkGrew(w, s, r, u, outs, s');
    }
  }

  lemma DeliverReplicated(w: World, s: System, a: nat, b: nat, outs: seq<Msg>, s': System, p: nat, u: string)
    requires LinksOk(s) && NextDeliver(w, s, a, b, outs, s') && MsgOk(w, a, s.links[(a, b)][0])
    requires p in s.mgrs && w.owner(u) in s.mgrs && ReplicatedAt(w, s, p, u)
    ensures ReplicatedAt(w, s', p, u)
  {
    var q := w.owner(u);
    var ms := s.links[(a, b)];
    assert Asked(s'.mgrs[q], u) == Asked(s.mgrs[q], u);
    // what the head of the link says is now known
    var mid := s'.(links := s.links[(a, b) := ms[1..]]);
    assert p == b ==> Known(s'.mgrs[b], u) == Hears(Known(s.mgrs[b], u), ms[0], u);
    assert ReplicatedAt(w, mid, p, u);
    if q == b {
      HearsNothing(Asked(s.mgrs[q], u), outs, u);
      LinkGrew(w, mid, p, u, outs, s');
    }
  }

  lemma AddServiceReplicated(w: World, s: System, a: nat, svc: nat, d: Description, outs: seq<Msg>, s': System, p: nat, u: string)
    requires NextAddService(w, s, a, svc, d, outs, s')
    requires p in s.mgrs && w.owner(u) in s.mgrs && ReplicatedAt(w, s, p, u)
    ensures ReplicatedAt(w, s', p, u)
  {
    PublishedOther(w, s, a, outs, s', p, u);
  }

  lemma RemoveServiceReplicated(w: World, s: System, a: nat, svc: nat, outs: seq<Msg>, s': System, p: nat, u: string)
    requires NextRemoveService(w, s, a, svc, outs, s')
    requires p in s.mgrs && w.owner(u) in s.mgrs && ReplicatedAt(w, s, p, u)
    ensures ReplicatedAt(w, s', p, u)
  {
    PublishedOther(w, s, a, outs, s', p, u);
  }

  lemma StepKeepsReplicatedAt(w: World, s: System, step: Step, s': System, p: nat, u: string)
    requires WellFormed(w, s) && Next(w, s, step, s') && s'.mgrs.Keys == s.mgrs.Keys
    requires p in s.mgrs && w.owner(u) in s.mgrs && ReplicatedAt(w, s, p, u)
    ensures ReplicatedAt(w, s', p, u)
  {
    match step {
      case StartQuery(q, f, listener) => StartQueryReplicated(w, s, q, f, listener, s', p, u);
      case StopQuery(q, f) => StopQueryReplicated(w, s, q, f, s', p, u);
      case AddService(a, svc, d, outs) => AddServiceReplicated(w, s, a, svc, d, outs, s', p, u);
      case RemoveService(a, svc, outs) => RemoveServiceReplicated(w, s, a, svc, outs, s', p, u);
      case Connect(a, b, toB, toA) => ConnectReplicated(w, s, a, b, toB, toA, s', p, u);
      case Greet(a, b, outs) => GreetReplicated(w, s, a, b, outs, s', p, u);
      case Deliver(a, b, outs) =>
        assert s.links[(a, b)][0] in s.links[(a, b)];
        DeliverReplicated(w, s, a, b, outs, s', p, u);
    }
  }

  lemma StepKeepsManagers(w: World, s: System, step: Step, s': System)
    requires LinksOk(s) && Next(w, s, step, s')
    ensures s'.mgrs.Keys == s.mgrs.Keys
  {
  }

  lemma StepKeepsReplicated(w: World, s: System, step: Step, s': System)
    requires WellFormed(w, s) && Replicated(w, s) && Next(w, s, step, s')
    ensures Replicated(w, s')
  {
    StepKeepsManagers(w, s, step, s');
    forall p, u | p in s'.mgrs && w.owner(u) in s'.mgrs
      ensures ReplicatedAt(w, s', p, u)
    {
      assert ReplicatedAt(w, s, p, u);
      StepKeepsReplicatedAt(w, s, step, s', p, u);
    }
  }

  lemma InitOk(w: World, s: System)
    requires Init(s)
    ensures WellFormed(w, s) && Replicated(w, s)
  {
  }

  lemma {:induction false} InvariantsHold(w: World, ss: seq<System>, steps: seq<Step>, n: nat)
    requires IsRun(w, ss, steps) && n <= |steps|
    ensures WellFormed(w, ss[n]) && Replicated(w, ss[n])
  {
    if n == 0 {
      InitOk(w, ss[0]);
    } else {
      InvariantsHold(w, ss, steps, n - 1);
      assert StepAt(w, ss, steps, n - 1);
      StepKeepsInvariants(w, ss[n - 1], steps[n - 1], ss[n]);
    }
  }

  lemma StepKeepsInvariants(w: World, s: System, step: Step, s': System)
    ensures WellFormed(w, s) && Replicated(w, s) && Next(w, s, step, s') ==> WellFormed(w, s') && Replicated(w, s')
  {
    if WellFormed(w, s) && Replicated(w, s) && Next(w, s, step, s') {
      StepKeepsWellFormed(w, s, step, s');
      StepKeepsReplicated(w, s, step, s');
    }
  }

  lemma RunStep(w: World, ss: seq<System>, steps: seq<Step>, n: nat)
    requires IsRun(w, ss, steps) && 0 < n <= |steps|
    ensures Next(w, ss[n - 1], steps[n - 1], ss[n])
  {
    assert StepAt(w, ss, steps, n - 1);
  }

  /**
   In every reachable state, for every linked pair, folding the start and stop
   messages in flight onto the receiver's remote queries gives exactly the queries
   the sender has now, across stops, restarts and late joiners.
   */
  lemma QueriesAreReplicated(w: World, ss: seq<System>, steps: seq<Step>, n: nat, q: nat, p: nat, u: string)
    requires IsRun(w, ss, steps) && n <= |steps|
    requires (q, p) in ss[n].links && w.owner(u) == q
    ensures q in ss[n].mgrs && p in ss[n].mgrs
    ensures HearsAll(Known(ss[n].mgrs[p], u), ss[n].links[(q, p)], u) == Asked(ss[n].mgrs[q], u)
  {
    InvariantsHold(w, ss, steps, n);
    assert ReplicatedAt(w, ss[n], p, u);
  }

  /** Every message in flight survives the wire, and names a channel as the assert in `receive` demands. */
  lemma MessagesArriveIntact(w: World, ss: seq<System>, steps: seq<Step>, n: nat, l: (nat, nat), msg: Msg, extra: Meta)
    requires IsRun(w, ss, steps) && n <= |steps|
    requires l in ss[n].links && msg in ss[n].links[l] && TransportMeta(extra)
    ensures Parse(ToWire(msg) + extra) == Arrived(msg)
    ensures msg.Found? || msg.Gone? ==> Arrived(msg).desc.channel == msg.desc.channel != ""
  {
    InvariantsHold(w, ss, steps, n);
    assert MsgOk(w, l.0, msg);
    WireRoundTrip(msg, extra);
  }
}
