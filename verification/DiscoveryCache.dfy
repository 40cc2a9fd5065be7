/**
 The description that a manager caches for a channel, and what its listeners are told by
 it. The cache always holds what was told last. While no query of a manager is stopped, it
 never holds more than the registered service, so its listeners are told the truth,
 whatever was registered on the channel before.
 */
module DiscoveryCache {
  import opened ServiceWire
  import opened ServiceMatch
  import opened Discovery
  import opened DiscoverySystem
  import opened DiscoveryInvariants
  import opened DiscoveryConvergence
  import opened DiscoveryStarts

  // ---------- the cache is what was told last ----------

  function Cached(m: Manager, c: string): Option<Description> {
    if c in m.remoteDescs then Some(m.remoteDescs[c]) else None
  }

  // The description that the last callback about channel `c` carried, if that was `added`.
  function LastTold(calls: seq<Callback>, c: string): Option<Description> {
    if calls == [] then None
    else
      var last := calls[|calls| - 1];
      if last.desc.channel == c then (if last.kind == Added then Some(last.desc) else None)
      else LastTold(calls[..|calls| - 1], c)
  }

  lemma ReceivedKeepsCache(w: World, q: nat, m: Manager, msg: Msg, c: string)
    requires ManagerOk(w, q, m) && Cached(m, c) == LastTold(m.calls, c)
    ensures Cached(Received(m, Arrived(msg)), c) == LastTold(Received(m, Arrived(msg)).calls, c)
  {
    var m' := Received(m, Arrived(msg));
    if m'.calls != m.calls {
      assert m'.calls[..|m'.calls| - 1] == m.calls;
    }
  }

  ghost predicate CacheOk(s: System, q: nat, c: string) {
    q in s.mgrs ==> Cached(s.mgrs[q], c) == LastTold(s.mgrs[q].calls, c)
  }

  lemma StepKeepsCache(w: World, s: System, step: Step, s': System, q: nat, c: string)
    requires WellFormed(w, s) && Next(w, s, step, s') && CacheOk(s, q, c)
    ensures CacheOk(s', q, c)
  {
    StepKeepsManagers(w, s, step, s');
    if step.Deliver? && step.b == q {
      assert ManagerOk(w, q, s.mgrs[q]);
      ReceivedKeepsCache(w, q, s.mgrs[q], s.links[(step.a, q)][0], c);
    } else if q in s.mgrs {
      OtherStepsCacheNothing(w, s, step, s', q);
    }
  }

  lemma OtherStepsCacheNothing(w: World, s: System, step: Step, s': System, q: nat)
    requires Next(w, s, step, s') && q in s.mgrs && !(step.Deliver? && step.b == q)
    ensures q in s'.mgrs && s'.mgrs[q].calls == s.mgrs[q].calls && s'.mgrs[q].remoteDescs == s.mgrs[q].remoteDescs
  {
  }

  lemma CacheStaysOk(w: World, ss: seq<System>, steps: seq<Step>, i: nat, q: nat, c: string)
    requires i < |steps| < |ss|
    ensures WellFormed(w, ss[i]) && StepAt(w, ss, steps, i) && CacheOk(ss[i], q, c) ==> CacheOk(ss[i + 1], q, c)
  {
    if WellFormed(w, ss[i]) && StepAt(w, ss, steps, i) && CacheOk(ss[i], q, c) {
      StepKeepsCache(w, ss[i], steps[i], ss[i + 1], q, c);
    }
  }

  /**
   In every run a manager has a description for a channel if and only if its last callback
   about the channel, to whatever listener, was `added`, and it is the one that was told then.
   */
  lemma {:induction false} CacheIsLastTold(w: World, ss: seq<System>, steps: seq<Step>, n: nat, q: nat, c: string)
    requires IsRun(w, ss, steps) && n <= |steps|
    ensures q in ss[n].mgrs ==> Cached(ss[n].mgrs[q], c) == LastTold(ss[n].mgrs[q].calls, c)
  {
    if n > 0 {
      CacheIsLastTold(w, ss, steps, n - 1, q, c);
      NextCache(w, ss, steps, n - 1, q, c);
    }
  }

  lemma NextCache(w: World, ss: seq<System>, steps: seq<Step>, i: nat, q: nat, c: string)
    requires IsRun(w, ss, steps) && i < |steps|
    ensures CacheOk(ss[i], q, c) ==> CacheOk(ss[i + 1], q, c)
  {
    InvariantsHold(w, ss, steps, i);
    CacheStaysOk(w, ss, steps, i, q, c);
  }

  lemma {:induction false} LastToldWasHeard(calls: seq<Callback>, c: string)
    requires LastTold(calls, c).Some?
    ensures exists i :: 0 <= i < |calls| && calls[i].desc.channel == c
  {
    if calls[|calls| - 1].desc.channel != c {
      LastToldWasHeard(calls[..|calls| - 1], c);
    }
  }

  // ---------- managers that never stop a query ----------

  ghost predicate LastingMsg(mq: Manager, m: Msg) {
    !m.Stop? && (m.Start? ==> m.filter.uuid in mq.localQueries && mq.localQueries[m.filter.uuid].filter == m.filter)
  }

  ghost predicate LastingBatch(mq: Manager, ms: seq<Msg>) {
    forall m :: m in ms ==> LastingMsg(mq, m)
  }

  // Peer `mp` knows of the queries of `q` only what they still ask.
  ghost predicate LastingAt(w: World, q: nat, mq: Manager, mp: Manager) {
    forall v :: v in mp.remoteQueries && w.owner(v) == q ==> v in mq.localQueries && mq.localQueries[v].filter == mp.remoteQueries[v]
  }

  // Nothing on its way to `p`, and nothing that `p` knows, is out of date.
  ghost predicate LastingTo(w: World, s: System, q: nat, p: nat)
    requires q in s.mgrs && p in s.mgrs
  {
    && ((q, p) in s.links ==> LastingBatch(s.mgrs[q], s.links[(q, p)]))
    && LastingAt(w, q, s.mgrs[q], s.mgrs[p])
  }

  // All that `q` ever asked it still asks.
  ghost predicate Lasting(w: World, s: System, q: nat) {
    && q in s.mgrs
    && (forall v :: v in s.started && w.owner(v) == q ==> v in s.mgrs[q].localQueries)
    && (forall p :: p in s.mgrs ==> LastingTo(w, s, q, p))
  }

  ghost predicate NeverStops(steps: seq<Step>, q: nat) {
    forall i :: 0 <= i < |steps| && steps[i].StopQuery? ==> steps[i].q != q
  }

  lemma StartKeepsLastingTo(w: World, s: System, a: nat, f: Filter, listener: nat, s': System, q: nat, p: nat)
    requires q in s.mgrs && p in s.mgrs && LastingTo(w, s, q, p) && NextStartQuery(w, s, a, f, listener, s')
    ensures LastingTo(w, s', q, p)
  {
    if a == q {
      assert forall v :: v in s.mgrs[q].localQueries ==>
               v in s'.mgrs[q].localQueries && s'.mgrs[q].localQueries[v].filter == s.mgrs[q].localQueries[v].filter;
    }
  }

  // The manager `a` publishes, and neither the queries of `q` nor what `p` knows of them changes.
  lemma PublishKeepsLastingTo(w: World, s: System, a: nat, outs: seq<Msg>, s': System, q: nat, p: nat)
    requires q in s.mgrs && p in s.mgrs && LastingTo(w, s, q, p) && s'.links == Publish(s.links, a, outs)
    requires q in s'.mgrs && p in s'.mgrs && s'.mgrs[q].localQueries == s.mgrs[q].localQueries
    requires s'.mgrs[p].remoteQueries == s.mgrs[p].remoteQueries
    requires a == q ==> LastingBatch(s.mgrs[q], outs)
    ensures LastingTo(w, s', q, p)
  {
  }

  lemma LinkKeepsLastingTo(w: World, s: System, step: Step, s': System, q: nat, p: nat)
    requires q in s.mgrs && p in s.mgrs && LastingTo(w, s, q, p) && ManagerOk(w, q, s.mgrs[q])
    requires (step.Connect? && NextConnect(s, step.q, step.p, step.toP, step.toQ, s'))
             || (step.Greet? && NextGreet(s, step.q, step.p, step.outs, s'))
    ensures LastingTo(w, s', q, p)
  {
  }

  lemma DeliverKeepsLastingTo(w: World, s: System, a: nat, b: nat, outs: seq<Msg>, s': System, q: nat, p: nat)
    requires q in s.mgrs && p in s.mgrs && LastingTo(w, s, q, p) && NextDeliver(w, s, a, b, outs, s')
    requires MsgOk(w, a, s.links[(a, b)][0])
    ensures LastingTo(w, s', q, p)
  {
    var msg := s.links[(a, b)][0];
    var s0 := System(s'.mgrs, s.links[(a, b) := s.links[(a, b)][1..]], s.started);
    assert msg in s.links[(a, b)];
    if b == p {
      ReceivedKeepsLastingAt(w, a, q, s.mgrs[q], s.mgrs[p], msg);
    }
    assert s'.mgrs[q].localQueries == s.mgrs[q].localQueries;
    assert LastingAt(w, q, s'.mgrs[q], s'.mgrs[p]);
    assert (q, p) in s.links ==> LastingBatch(s.mgrs[q], s0.links[(q, p)]);
    PublishKeepsLastingTo(w, s0, b, outs, s', q, p);
  }

  lemma ReceivedKeepsLastingAt(w: World, a: nat, q: nat, mq: Manager, mp: Manager, msg: Msg)
    requires LastingAt(w, q, mq, mp) && MsgOk(w, a, msg) && (a == q ==> LastingMsg(mq, msg))
    ensures LastingAt(w, q, mq, Received(mp, Arrived(msg)))
  {
  }

  lemma PublicationKeepsLastingTo(w: World, s: System, step: Step, s': System, q: nat, p: nat)
    requires q in s.mgrs && p in s.mgrs && LastingTo(w, s, q, p)
    requires (step.StopQuery? && step.q != q && NextStopQuery(w, s, step.q, step.filter, s'))
             || (step.AddService? && NextAddService(w, s, step.p, step.svc, step.desc, step.outs, s'))
             || (step.RemoveService? && NextRemoveService(w, s, step.p, step.svc, step.outs, s'))
    ensures LastingTo(w, s', q, p)
  {
    if step.StopQuery? {
      var outs := if step.filter.uuid in s.mgrs[step.q].localQueries then [Stop(step.filter)] else [];
      PublishKeepsLastingTo(w, s, step.q, outs, s', q, p);
    } else {
      PublishKeepsLastingTo(w, s, step.p, step.outs, s', q, p);
    }
  }

  lemma StepKeepsLastingTo(w: World, s: System, step: Step, s': System, q: nat, p: nat)
    requires WellFormed(w, s) && Next(w, s, step, s') && !(step.StopQuery? && step.q == q)
    requires q in s.mgrs && p in s.mgrs && LastingTo(w, s, q, p)
    ensures q in s'.mgrs && p in s'.mgrs && LastingTo(w, s', q, p)
  {
    match step {
      case StartQuery(a, f, listener) => StartKeepsLastingTo(w, s, a, f, listener, s', q, p);
      case StopQuery(_, _) => PublicationKeepsLastingTo(w, s, step, s', q, p);
      case AddService(_, _, _, _) => PublicationKeepsLastingTo(w, s, step, s', q, p);
      case RemoveService(_, _, _) => PublicationKeepsLastingTo(w, s, step, s', q, p);
      case Connect(_, _, _, _) => LinkKeepsLastingTo(w, s, step, s', q, p);
      case Greet(_, _, _) => LinkKeepsLastingTo(w, s, step, s', q, p);
      case Deliver(a, b, outs) =>
        assert s.links[(a, b)][0] in s.links[(a, b)];
        DeliverKeepsLastingTo(w, s, a, b, outs, s', q, p);
    }
  }

  lemma StepKeepsStarted(w: World, s: System, step: Step, s': System, q: nat)
    requires Next(w, s, step, s') && !(step.StopQuery? && step.q == q) && q in s.mgrs && q in s'.mgrs
    requires forall v :: v in s.started && w.owner(v) == q ==> v in s.mgrs[q].localQueries
    ensures forall v :: v in s'.started && w.owner(v) == q ==> v in s'.mgrs[q].localQueries
  {
  }

  lemma StepKeepsLasting(w: World, s: System, step: Step, s': System, q: nat)
    requires WellFormed(w, s) && Next(w, s, step, s') && Lasting(w, s, q) && !(step.StopQuery? && step.q == q)
    ensures Lasting(w, s', q)
  {
    StepKeepsManagers(w, s, step, s');
    StepKeepsStarted(w, s, step, s', q);
    forall p | p in s'.mgrs
      ensures LastingTo(w, s', q, p)
    {
      StepKeepsLastingTo(w, s, step, s', q, p);
    }
  }

  lemma StillLasting(w: World, ss: seq<System>, steps: seq<Step>, i: nat, q: nat)
    requires i < |steps| < |ss| && !(steps[i].StopQuery? && steps[i].q == q)
    ensures WellFormed(w, ss[i]) && StepAt(w, ss, steps, i) && Lasting(w, ss[i], q) ==> Lasting(w, ss[i + 1], q)
  {
    if WellFormed(w, ss[i]) && StepAt(w, ss, steps, i) && Lasting(w, ss[i], q) {
      StepKeepsLasting(w, ss[i], steps[i], ss[i + 1], q);
    }
  }

  lemma NextLasting(w: World, ss: seq<System>, steps: seq<Step>, i: nat, q: nat)
    requires IsRun(w, ss, steps) && i < |steps| && !(steps[i].StopQuery? && steps[i].q == q)
    ensures Lasting(w, ss[i], q) ==> Lasting(w, ss[i + 1], q)
  {
    InvariantsHold(w, ss, steps, i);
    StillLasting(w, ss, steps, i, q);
  }

  lemma {:induction false} LastingHolds(w: World, ss: seq<System>, steps: seq<Step>, n: nat, q: nat)
    requires IsRun(w, ss, steps) && n <= |steps| && q in ss[0].mgrs && NeverStops(steps, q)
    ensures Lasting(w, ss[n], q)
  {
    if n > 0 {
      LastingHolds(w, ss, steps, n - 1, q);
      NextLasting(w, ss, steps, n - 1, q);
    }
  }

  // ---------- what notices in flight still do to the cache and to a listener ----------

  // The description cached for a channel, and the one a listener was last told of it.
  datatype Sight = Sight(cache: Option<Description>, told: Option<Description>)

  predicate AboutOurs(m: Msg, us: set<string>, c: string) {
    (m.Found? || m.Gone?) && m.filterId in us && m.desc.channel == c
  }

  function Saw(v: Sight, m: Msg, us: set<string>, u: string, c: string): Sight {
    if !AboutOurs(m, us, c) then v
    else
      var cache := if v.cache.Some? then v.cache else Some(OnArrival(m.desc));
      if m.Found? then Sight(cache, if m.filterId == u then cache else v.told)
      else Sight(None, if m.filterId == u then None else v.told)
  }

  function SawAll(v: Sight, ms: seq<Msg>, us: set<string>, u: string, c: string): Sight
    decreases |ms|
  {
    if ms == [] then v else SawAll(Saw(v, ms[0], us, u, c), ms[1..], us, u, c)
  }

  lemma {:induction false} SawAllConcat(v: Sight, a: seq<Msg>, b: seq<Msg>, us: set<string>, u: string, c: string)
    ensures SawAll(v, a + b, us, u, c) == SawAll(SawAll(v, a, us, u, c), b, us, u, c)
    decreases |a|
  {
    if a == [] {
      assert a + b == b;
    } else {
      assert (a + b)[1..] == a[1..] + b;
      SawAllConcat(Saw(v, a[0], us, u, c), a[1..], b, us, u, c);
    }
  }

  ghost predicate Mute(ms: seq<Msg>, us: set<string>, c: string) {
    forall m :: m in ms ==> !AboutOurs(m, us, c)
  }

  lemma {:induction false} SawNothing(v: Sight, ms: seq<Msg>, us: set<string>, u: string, c: string)
    requires Mute(ms, us, c)
    ensures SawAll(v, ms, us, u, c) == v
    decreases |ms|
  {
    if ms != [] {
      assert ms[0] in ms;
      SawNothing(v, ms[1..], us, u, c);
    }
  }

  // The batch reports description `d` of the channel to query `x`.
  ghost predicate Reported(ms: seq<Msg>, us: set<string>, c: string, x: string) {
    exists m :: m in ms && AboutOurs(m, us, c) && m.filterId == x
  }

  ghost predicate ReportsAny(ms: seq<Msg>, us: set<string>, c: string) {
    exists m :: m in ms && AboutOurs(m, us, c)
  }

  lemma {:induction false} SawFounds(v: Sight, ms: seq<Msg>, us: set<string>, u: string, c: string, d: Description)
    requires forall m :: m in ms && AboutOurs(m, us, c) ==> m.Found? && m.desc == d
    ensures var cache := if v.cache.Some? then v.cache else Some(OnArrival(d));
            SawAll(v, ms, us, u, c)
            == Sight(if ReportsAny(ms, us, c) then cache else v.cache, if Reported(ms, us, c, u) then cache else v.told)
    decreases |ms|
  {
    if ms != [] {
      assert ms[0] in ms && forall m :: m in ms <==> m == ms[0] || m in ms[1..];
      SawFounds(Saw(v, ms[0], us, u, c), ms[1..], us, u, c, d);
      assert ReportsAny(ms, us, c) <==> AboutOurs(ms[0], us, c) || ReportsAny(ms[1..], us, c);
      assert Reported(ms, us, c, u) <==> (AboutOurs(ms[0], us, c) && ms[0].filterId == u) || Reported(ms[1..], us, c, u);
      assert Reported(ms[1..], us, c, u) ==> ReportsAny(ms[1..], us, c);
    }
  }

  lemma {:induction false} SawGones(v: Sight, ms: seq<Msg>, us: set<string>, u: string, c: string)
    requires forall m :: m in ms && AboutOurs(m, us, c) ==> m.Gone?
    ensures SawAll(v, ms, us, u, c)
            == Sight(if ReportsAny(ms, us, c) then None else v.cache, if Reported(ms, us, c, u) then None else v.told)
    decreases |ms|
  {
    if ms != [] {
      assert ms[0] in ms && forall m :: m in ms <==> m == ms[0] || m in ms[1..];
      SawGones(Saw(v, ms[0], us, u, c), ms[1..], us, u, c);
      assert ReportsAny(ms, us, c) <==> AboutOurs(ms[0], us, c) || ReportsAny(ms[1..], us, c);
      assert Reported(ms, us, c, u) <==> (AboutOurs(ms[0], us, c) && ms[0].filterId == u) || Reported(ms[1..], us, c, u);
    }
  }

  // One more query that no message is about.
  lemma {:induction false} SawAlike(v: Sight, v': Sight, ms: seq<Msg>, us: set<string>, y: string, u: string, c: string)
    requires v.cache == v'.cache && (u == y || v == v') && (y !in us ==> NotAbout(ms, y))
    ensures var r, r' := SawAll(v, ms, us, u, c), SawAll(v', ms, us + {y}, u, c);
            r.cache == r'.cache && (u == y || r == r')
    decreases |ms|
  {
    if ms != [] {
      assert ms[0] in ms && (y !in us ==> !About(ms[0], y));
      SawAlike(Saw(v, ms[0], us, u, c), Saw(v', ms[0], us + {y}, u, c), ms[1..], us, y, u, c);
    }
  }

  // ---------- the truth about a channel ----------

  // The description of the last `added` to the listener on behalf of `u` about channel `c`, if nothing followed.
  function ToldAs(calls: seq<Callback>, listener: nat, u: string, c: string): Option<Description> {
    if calls == [] then None
    else
      var last := calls[|calls| - 1];
      if last.listener == listener && last.filterId == u && last.desc.channel == c
      then (if last.kind == Added then Some(last.desc) else None)
      else ToldAs(calls[..|calls| - 1], listener, u, c)
  }

  function SightNow(m: Manager, u: string, c: string): Sight {
    Sight(Cached(m, c), if u in m.localQueries then ToldAs(m.calls, m.localQueries[u].listener, u, c) else None)
  }

  // Service `svc` of `mp` on channel `c` is described by `a`, and query `x` is known there and matches it.
  ghost predicate Backed(e: Engine, mp: Manager, us: set<string>, svc: nat, x: string, c: string, a: Description) {
    && svc in mp.services && mp.services[svc].channel == c && a == OnArrival(mp.services[svc])
    && x in us && x in Interested(e, mp.remoteQueries, mp.services[svc])
  }

  // What is cached is the registered service, and one of the queries will be told when that goes.
  ghost predicate CacheBacked(e: Engine, cache: Option<Description>, mp: Manager, us: set<string>, c: string) {
    cache.Some? ==> exists svc, x :: Backed(e, mp, us, svc, x, c, cache.value)
  }

  // What was told is the registered service, as far as that matches.
  ghost predicate ToldTruth(e: Engine, told: Option<Description>, mp: Manager, f: Filter, c: string) {
    told.Some? ==> forall svc :: svc in mp.services && mp.services[svc].channel == c && Matches(e, f, mp.services[svc]) ==>
                     told.value == OnArrival(mp.services[svc])
  }

  // The same of a sight of manager `mq`, unless query `u` has a start on its way in `asks`.
  ghost predicate Honest(e: Engine, v: Sight, mq: Manager, mp: Manager, asks: seq<Msg>, u: string, c: string) {
    && CacheBacked(e, v.cache, mp, mq.localQueries.Keys, c)
    && (u in mq.localQueries && Start(mq.localQueries[u].filter) !in asks ==>
          ToldTruth(e, v.told, mp, mq.localQueries[u].filter, c))
  }

  ghost predicate HonestAt(w: World, s: System, q: nat, u: string, c: string) {
    var p := w.home(c);
    Linked(s, q, p) ==>
      Honest(w.engine, SawAll(SightNow(s.mgrs[q], u, c), s.links[(p, q)], s.mgrs[q].localQueries.Keys, u, c),
             s.mgrs[q], s.mgrs[p], s.links[(q, p)], u, c)
  }

  // ---------- steps that change nothing for the channel ----------

  ghost predicate SameQueries(us: set<string>, mp: Manager, mp': Manager) {
    forall x :: x in us && x in mp.remoteQueries ==> x in mp'.remoteQueries && mp'.remoteQueries[x] == mp.remoteQueries[x]
  }

  lemma StaysHonest(e: Engine, v: Sight, mq: Manager, mp: Manager, asks: seq<Msg>, mp': Manager, asks': seq<Msg>, u: string, c: string)
    requires Honest(e, v, mq, mp, asks, u, c) && mp'.services == mp.services && SameQueries(mq.localQueries.Keys, mp, mp')
    requires u in mq.localQueries && Start(mq.localQueries[u].filter) in asks ==> Start(mq.localQueries[u].filter) in asks'
    ensures Honest(e, v, mq, mp', asks', u, c)
  {
    if v.cache.Some? {
      var svc, x :| Backed(e, mp, mq.localQueries.Keys, svc, x, c, v.cache.value);
      assert Backed(e, mp', mq.localQueries.Keys, svc, x, c, v.cache.value);
    }
  }

  lemma Quietly(w: World, s: System, s': System, q: nat, u: string, c: string, outs: seq<Msg>)
    requires HonestAt(w, s, q, u, c) && Linked(s, q, w.home(c)) && Linked(s', q, w.home(c))
    requires s'.mgrs[q].localQueries == s.mgrs[q].localQueries && SightNow(s'.mgrs[q], u, c) == SightNow(s.mgrs[q], u, c)
    requires s'.mgrs[w.home(c)].services == s.mgrs[w.home(c)].services
    requires SameQueries(s.mgrs[q].localQueries.Keys, s.mgrs[w.home(c)], s'.mgrs[w.home(c)])
    requires s'.links[(w.home(c), q)] == s.links[(w.home(c), q)] + outs && Mute(outs, s.mgrs[q].localQueries.Keys, c)
    requires forall f :: Start(f) in s.links[(q, w.home(c))] ==> Start(f) in s'.links[(q, w.home(c))]
    ensures HonestAt(w, s', q, u, c)
  {
    var p, us := w.home(c), s.mgrs[q].localQueries.Keys;
    var v := SightNow(s.mgrs[q], u, c);
    SawAllConcat(v, s.links[(p, q)], outs, us, u, c);
    SawNothing(SawAll(v, s.links[(p, q)], us, u, c), outs, us, u, c);
    StaysHonest(w.engine, SawAll(v, s.links[(p, q)], us, u, c), s.mgrs[q], s.mgrs[p], s.links[(q, p)], s'.mgrs[p], s'.links[(q, p)], u, c);
    assert s'.mgrs[q].localQueries.Keys == us;
  }

  // ---------- steps of the peer ----------

  // The service on a channel is unique.
  lemma OneService(w: World, p: nat, mp: Manager, svc: nat, c: string, e: Engine, us: set<string>, cache: Option<Description>)
    requires ManagerOk(w, p, mp) && svc in mp.services && mp.services[svc].channel == c && CacheBacked(e, cache, mp, us, c)
    ensures cache.Some? ==> cache.value == OnArrival(mp.services[svc])
    ensures cache.Some? ==> exists x :: x in us && x in Interested(e, mp.remoteQueries, mp.services[svc])
  {
    if cache.Some? {
      var t, x :| Backed(e, mp, us, t, x, c, cache.value);
      assert t == svc;
    }
  }

  lemma AddedHonest(w: World, p: nat, v: Sight, mq: Manager, mp: Manager, asks: seq<Msg>, svc: nat, d: Description, outs: seq<Msg>, u: string, c: string)
    requires Honest(w.engine, v, mq, mp, asks, u, c) && svc !in mp.services
    requires ChannelFree(mp, d.channel) && Announces(w.engine, mp, d, outs)
    requires u in mq.localQueries && Start(mq.localQueries[u].filter) !in asks ==> Known(mp, u) == Some(mq.localQueries[u].filter)
    ensures Honest(w.engine, SawAll(v, outs, mq.localQueries.Keys, u, c), mq, ServiceAdded(mp, svc, d), asks, u, c)
  {
    var us, mp' := mq.localQueries.Keys, ServiceAdded(mp, svc, d);
    var v' := SawAll(v, outs, us, u, c);
    if d.channel != c {
      SawNothing(v, outs, us, u, c);
      if v.cache.Some? {
        var t, x :| Backed(w.engine, mp, us, t, x, c, v.cache.value);
        assert Backed(w.engine, mp', us, t, x, c, v.cache.value);
      }
    } else {
      SawFounds(v, outs, us, u, c, d);
      assert v.cache.None?;
      if ReportsAny(outs, us, c) {
        var m :| m in outs && AboutOurs(m, us, c);
        assert Backed(w.engine, mp', us, svc, m.filterId, c, OnArrival(d));
      }
      if u in us && Start(mq.localQueries[u].filter) !in asks && Matches(w.engine, mq.localQueries[u].filter, d) {
        assert u in Interested(w.engine, mp.remoteQueries, d);
        assert Notice(u, d, Added) in outs && AboutOurs(Notice(u, d, Added), us, c);
        assert Reported(outs, us, c, u);
      }
    }
  }

  lemma RemovedHonest(w: World, p: nat, v: Sight, mq: Manager, mp: Manager, asks: seq<Msg>, svc: nat, outs: seq<Msg>, u: string, c: string)
    requires Honest(w.engine, v, mq, mp, asks, u, c) && ManagerOk(w, p, mp) && svc in mp.services
    requires Withdraws(w.engine, mp, mp.services[svc], outs)
    ensures Honest(w.engine, SawAll(v, outs, mq.localQueries.Keys, u, c), mq, ServiceRemoved(mp, svc), asks, u, c)
  {
    var us, mp', d := mq.localQueries.Keys, ServiceRemoved(mp, svc), mp.services[svc];
    if d.channel != c {
      SawNothing(v, outs, us, u, c);
      if v.cache.Some? {
        var t, x :| Backed(w.engine, mp, us, t, x, c, v.cache.value);
        assert Backed(w.engine, mp', us, t, x, c, v.cache.value);
      }
    } else {
      SawGones(v, outs, us, u, c);
      OneService(w, p, mp, svc, c, w.engine, us, v.cache);
      if v.cache.Some? {
        var x :| x in us && x in Interested(w.engine, mp.remoteQueries, d);
        assert Notice(x, d, Removed) in outs && AboutOurs(Notice(x, d, Removed), us, c);
      }
    }
  }

  // The peer takes a start of query `y` off the link and answers it.
  lemma AskedHonest(w: World, p: nat, v: Sight, mq: Manager, mp: Manager, asks: seq<Msg>, f: Filter, outs: seq<Msg>, u: string, c: string)
    requires Honest(w.engine, v, mq, mp, asks, u, c) && ManagerOk(w, p, mp) && asks != [] && asks[0] == Start(f)
    requires f.uuid in mq.localQueries && mq.localQueries[f.uuid].filter == f
    requires f.uuid in mp.remoteQueries ==> mp.remoteQueries[f.uuid] == f
    requires u in mq.localQueries ==> mq.localQueries[u].filter.uuid == u
    requires Replies(w.engine, mp, f, outs)
    ensures Honest(w.engine, SawAll(v, outs, mq.localQueries.Keys, u, c), mq, Received(mp, Start(f)), asks[1..], u, c)
  {
    var us, mp' := mq.localQueries.Keys, Received(mp, Start(f));
    if svc :| svc in mp.services && mp.services[svc].channel == c && Matches(w.engine, f, mp.services[svc]) {
      var d := mp.services[svc];
      SawFounds(v, outs, us, u, c, d);
      OneService(w, p, mp, svc, c, w.engine, us, v.cache);
      assert svc in Matching(w.engine, mp.services, f) && AboutOurs(Found(f.uuid, d), us, c);
      assert ReportsAny(outs, us, c) && (u == f.uuid ==> Reported(outs, us, c, u));
      assert Backed(w.engine, mp', us, svc, f.uuid, c, OnArrival(d));
    } else {
      SawNothing(v, outs, us, u, c);
      if v.cache.Some? {
        var t, x :| Backed(w.engine, mp, us, t, x, c, v.cache.value);
        assert Backed(w.engine, mp', us, t, x, c, v.cache.value);
      }
    }
  }

  // ---------- every step ----------

  // A query whose start is not on its way is known to the peer.
  lemma AskedIsKnown(w: World, s: System, q: nat, p: nat, u: string)
    requires Linked(s, q, p) && LastingTo(w, s, q, p) && w.owner(u) == q && ReplicatedAt(w, s, p, u)
    requires u in s.mgrs[q].localQueries && Start(s.mgrs[q].localQueries[u].filter) !in s.links[(q, p)]
    ensures Known(s.mgrs[p], u) == Some(s.mgrs[q].localQueries[u].filter)
  {
    HearsNothing(Known(s.mgrs[p], u), s.links[(q, p)], u);
  }

  // Manager `a` publishes something that says nothing of the channel to the queries of `q`.
  lemma PublishQuietly(w: World, s: System, a: nat, outs: seq<Msg>, s': System, q: nat, u: string, c: string)
    requires HonestAt(w, s, q, u, c) && LinksOk(s) && s'.mgrs.Keys == s.mgrs.Keys && s'.links == Publish(s.links, a, outs)
    requires Linked(s, q, w.home(c)) ==>
               && s'.mgrs[q].localQueries == s.mgrs[q].localQueries && SightNow(s'.mgrs[q], u, c) == SightNow(s.mgrs[q], u, c)
               && s'.mgrs[w.home(c)].services == s.mgrs[w.home(c)].services
               && SameQueries(s.mgrs[q].localQueries.Keys, s.mgrs[w.home(c)], s'.mgrs[w.home(c)])
               && (a == w.home(c) ==> Mute(outs, s.mgrs[q].localQueries.Keys, c))
    ensures HonestAt(w, s', q, u, c)
  {
    if Linked(s, q, w.home(c)) {
      Quietly(w, s, s', q, u, c, if a == w.home(c) then outs else []);
    }
  }

  lemma OwnStartHonest(w: World, s: System, f: Filter, listener: nat, s': System, q: nat, u: string, c: string)
    requires HonestAt(w, s, q, u, c) && LinksOk(s) && Fresh(s) && Lasting(w, s, q) && NextStartQuery(w, s, q, f, listener, s')
    ensures HonestAt(w, s', q, u, c)
  {
    var p, y := w.home(c), f.uuid;
    if Linked(s, q, p) {
      var mq, mq', ms := s.mgrs[q], s'.mgrs[q], s.links[(p, q)];
      var us := mq.localQueries.Keys;
      assert mq'.localQueries.Keys == us + {y};
      assert y !in us ==> NotAbout(ms, y);
      var v, v' := SightNow(mq, u, c), SightNow(mq', u, c);
      SawAlike(v, v', ms, us, y, u, c);
      var r := SawAll(v, ms, us, u, c);
      if r.cache.Some? {
        var svc, x :| Backed(w.engine, s.mgrs[p], us, svc, x, c, r.cache.value);
        assert Backed(w.engine, s'.mgrs[p], us + {y}, svc, x, c, r.cache.value);
      }
    }
  }

  lemma StartHonest(w: World, s: System, a: nat, f: Filter, listener: nat, s': System, q: nat, u: string, c: string)
    requires HonestAt(w, s, q, u, c) && LinksOk(s) && Fresh(s) && Lasting(w, s, q) && NextStartQuery(w, s, a, f, listener, s')
    ensures HonestAt(w, s', q, u, c)
  {
    if a == q {
      OwnStartHonest(w, s, f, listener, s', q, u, c);
    } else {
      PublishQuietly(w, s, a, [Start(f)], s', q, u, c);
    }
  }

  lemma StopHonest(w: World, s: System, a: nat, f: Filter, s': System, q: nat, u: string, c: string)
    requires HonestAt(w, s, q, u, c) && LinksOk(s) && a != q && NextStopQuery(w, s, a, f, s')
    ensures HonestAt(w, s', q, u, c)
  {
    PublishQuietly(w, s, a, if f.uuid in s.mgrs[a].localQueries then [Stop(f)] else [], s', q, u, c);
  }

  lemma AddServiceHonest(w: World, s: System, a: nat, svc: nat, d: Description, outs: seq<Msg>, s': System, q: nat, u: string, c: string)
    requires HonestAt(w, s, q, u, c) && LinksOk(s) && Lasting(w, s, q) && NextAddService(w, s, a, svc, d, outs, s')
    requires w.owner(u) == q && w.home(c) in s.mgrs && ReplicatedAt(w, s, w.home(c), u)
    ensures HonestAt(w, s', q, u, c)
  {
    var p := w.home(c);
    if a == p && svc !in s.mgrs[p].services {
      if Linked(s, q, p) {
        var mq, ms := s.mgrs[q], s.links[(p, q)];
        assert LastingTo(w, s, q, p);
        if u in mq.localQueries && Start(mq.localQueries[u].filter) !in s.links[(q, p)] {
          AskedIsKnown(w, s, q, p, u);
        }
        SawAllConcat(SightNow(mq, u, c), ms, outs, mq.localQueries.Keys, u, c);
        AddedHonest(w, p, SawAll(SightNow(mq, u, c), ms, mq.localQueries.Keys, u, c), mq, s.mgrs[p], s.links[(q, p)], svc, d, outs, u, c);
      }
    } else {
      PublishQuietly(w, s, a, outs, s', q, u, c);
    }
  }

  lemma RemoveServiceHonest(w: World, s: System, a: nat, svc: nat, outs: seq<Msg>, s': System, q: nat, u: string, c: string)
    requires HonestAt(w, s, q, u, c) && LinksOk(s) && NextRemoveService(w, s, a, svc, outs, s') && ManagerOk(w, a, s.mgrs[a])
    ensures HonestAt(w, s', q, u, c)
  {
    var p := w.home(c);
    if svc !in s.mgrs[a].services {
      assert ServiceRemoved(s.mgrs[a], svc) == s.mgrs[a];
      PublishQuietly(w, s, a, outs, s', q, u, c);
    } else if a != p {
      PublishQuietly(w, s, a, outs, s', q, u, c);
    } else if Linked(s, q, p) {
      var mq, ms := s.mgrs[q], s.links[(p, q)];
      SawAllConcat(SightNow(mq, u, c), ms, outs, mq.localQueries.Keys, u, c);
      RemovedHonest(w, p, SawAll(SightNow(mq, u, c), ms, mq.localQueries.Keys, u, c), mq, s.mgrs[p], s.links[(q, p)], svc, outs, u, c);
    }
  }

  lemma GreetHonest(w: World, s: System, a: nat, b: nat, outs: seq<Msg>, s': System, q: nat, u: string, c: string)
    requires HonestAt(w, s, q, u, c) && LinksOk(s) && NextGreet(s, a, b, outs, s')
    ensures HonestAt(w, s', q, u, c)
  {
    if Linked(s, q, w.home(c)) {
      Quietly(w, s, s', q, u, c, if (a, b) == (w.home(c), q) then outs else []);
    }
  }

  lemma {:induction false} ToldWasHeard(calls: seq<Callback>, listener: nat, u: string, c: string)
    requires ToldAs(calls, listener, u, c).Some?
    ensures exists i :: 0 <= i < |calls| && calls[i].desc.channel == c
  {
    var last := calls[|calls| - 1];
    if !(last.listener == listener && last.filterId == u && last.desc.channel == c) {
      ToldWasHeard(calls[..|calls| - 1], listener, u, c);
    }
  }

  // Nothing is cached or told of a manager that is not connected.
  lemma UnheardIsUnseen(w: World, s: System, q: nat, u: string, c: string)
    requires q in s.mgrs && HeardOf(w, s, q) && CacheOk(s, q, c) && (w.home(c), q) !in s.links
    ensures SightNow(s.mgrs[q], u, c) == Sight(None, None)
  {
    var m := s.mgrs[q];
    if LastTold(m.calls, c).Some? {
      LastToldWasHeard(m.calls, c);
    }
    if u in m.localQueries && ToldAs(m.calls, m.localQueries[u].listener, u, c).Some? {
      ToldWasHeard(m.calls, m.localQueries[u].listener, u, c);
    }
  }

  lemma ConnectHonest(w: World, s: System, a: nat, b: nat, toB: seq<Msg>, toA: seq<Msg>, s': System, q: nat, u: string, c: string)
    requires HonestAt(w, s, q, u, c) && LinksOk(s) && NextConnect(s, a, b, toB, toA, s')
    requires q in s.mgrs && HeardOf(w, s, q) && CacheOk(s, q, c)
    ensures HonestAt(w, s', q, u, c)
  {
    var p := w.home(c);
    if Linked(s', q, p) {
      if Linked(s, q, p) {
        assert s'.links[(p, q)] == s.links[(p, q)] + [];
        Quietly(w, s, s', q, u, c, []);
      } else {
        UnheardIsUnseen(w, s, q, u, c);
        SawNothing(SightNow(s.mgrs[q], u, c), s'.links[(p, q)], s.mgrs[q].localQueries.Keys, u, c);
      }
    }
  }

  // ---------- delivery ----------

  lemma ToldReceived(w: World, q: nat, mq: Manager, msg: Msg, u: string, c: string)
    requires ManagerOk(w, q, mq) && u in mq.localQueries
    ensures var l, v := mq.localQueries[u].listener, SightNow(mq, u, c);
            ToldAs(Received(mq, Arrived(msg)).calls, l, u, c) == Saw(v, msg, mq.localQueries.Keys, u, c).told
  {
    var m' := Received(mq, Arrived(msg));
    if m'.calls != mq.calls {
      assert m'.calls[..|m'.calls| - 1] == mq.calls;
    }
  }

  lemma CacheReceived(w: World, q: nat, mq: Manager, msg: Msg, u: string, c: string)
    requires ManagerOk(w, q, mq)
    ensures Cached(Received(mq, Arrived(msg)), c) == Saw(SightNow(mq, u, c), msg, mq.localQueries.Keys, u, c).cache
  {
  }

  // A delivered notice changes the sight exactly as `Saw` says.
  lemma SightReceived(w: World, q: nat, mq: Manager, msg: Msg, u: string, c: string)
    requires ManagerOk(w, q, mq)
    ensures SightNow(Received(mq, Arrived(msg)), u, c) == Saw(SightNow(mq, u, c), msg, mq.localQueries.Keys, u, c)
  {
    CacheReceived(w, q, mq, msg, u, c);
    if u in mq.localQueries {
      ToldReceived(w, q, mq, msg, u, c);
    }
    assert Received(mq, Arrived(msg)).localQueries == mq.localQueries;
  }

  // The manager `q` takes a message off a link.
  lemma TakenHonest(w: World, s: System, a: nat, s': System, q: nat, u: string, c: string)
    requires HonestAt(w, s, q, u, c) && LinksOk(s) && q in s.mgrs && ManagerOk(w, q, s.mgrs[q])
    requires (a, q) in s.links && s.links[(a, q)] != [] && MsgOk(w, a, s.links[(a, q)][0])
    requires s'.mgrs == s.mgrs[q := Received(s.mgrs[q], Arrived(s.links[(a, q)][0]))]
    requires s'.links == s.links[(a, q) := s.links[(a, q)][1..]]
    ensures HonestAt(w, s', q, u, c)
  {
    var p, msg := w.home(c), s.links[(a, q)][0];
    if Linked(s, q, p) {
      SightReceived(w, q, s.mgrs[q], msg, u, c);
      assert s'.mgrs[q].localQueries == s.mgrs[q].localQueries;
    }
  }

  lemma OwnDeliverHonest(w: World, s: System, a: nat, outs: seq<Msg>, s': System, q: nat, u: string, c: string)
    requires HonestAt(w, s, q, u, c) && LinksOk(s) && NextDeliver(w, s, a, q, outs, s')
    requires ManagerOk(w, q, s.mgrs[q]) && MsgOk(w, a, s.links[(a, q)][0])
    ensures HonestAt(w, s', q, u, c)
  {
    var s0 := System(s'.mgrs, s.links[(a, q) := s.links[(a, q)][1..]], s.started);
    TakenHonest(w, s, a, s0, q, u, c);
    assert LinksOk(s0);
    if q != w.home(c) {
      PublishQuietly(w, s0, q, outs, s', q, u, c);
    }
  }

  // The home of the channel takes a start of one of the queries.
  lemma PeerAskedHonest(w: World, s: System, outs: seq<Msg>, s': System, q: nat, p: nat, u: string, c: string)
    requires HonestAt(w, s, q, u, c) && LinksOk(s) && p == w.home(c) && Linked(s, q, p)
    requires ManagerOk(w, q, s.mgrs[q]) && ManagerOk(w, p, s.mgrs[p]) && LastingTo(w, s, q, p) && w.owner(u) == q
    requires NextDeliver(w, s, q, p, outs, s') && s.links[(q, p)][0].Start? && MsgOk(w, q, s.links[(q, p)][0])
    ensures HonestAt(w, s', q, u, c)
  {
    var mq, mp, ms, f := s.mgrs[q], s.mgrs[p], s.links[(p, q)], s.links[(q, p)][0].filter;
    assert LastingMsg(mq, s.links[(q, p)][0]);
    SawAllConcat(SightNow(mq, u, c), ms, outs, mq.localQueries.Keys, u, c);
    AskedHonest(w, p, SawAll(SightNow(mq, u, c), ms, mq.localQueries.Keys, u, c), mq, mp, s.links[(q, p)], f, outs, u, c);
    assert s'.links[(p, q)] == ms + outs && s'.links[(q, p)] == s.links[(q, p)][1..];
  }

  lemma PeerDeliverHonest(w: World, s: System, a: nat, outs: seq<Msg>, s': System, q: nat, p: nat, u: string, c: string)
    requires HonestAt(w, s, q, u, c) && LinksOk(s) && p == w.home(c) && Linked(s, q, p)
    requires ManagerOk(w, q, s.mgrs[q]) && LastingTo(w, s, q, p)
    requires NextDeliver(w, s, a, p, outs, s') && MsgOk(w, a, s.links[(a, p)][0]) && !(a == q && s.links[(q, p)][0].Start?)
    ensures HonestAt(w, s', q, u, c)
  {
    var msg := s.links[(a, p)][0];
    assert msg in s.links[(a, p)];
    assert a == q ==> LastingMsg(s.mgrs[q], msg);
    Quietly(w, s, s', q, u, c, outs);
  }

  lemma OthersDeliverHonest(w: World, s: System, a: nat, b: nat, outs: seq<Msg>, s': System, q: nat, u: string, c: string)
    requires HonestAt(w, s, q, u, c) && LinksOk(s) && NextDeliver(w, s, a, b, outs, s') && b != q && b != w.home(c)
    ensures HonestAt(w, s', q, u, c)
  {
    if Linked(s, q, w.home(c)) {
      Quietly(w, s, s', q, u, c, []);
    }
  }

  lemma HomeDeliverHonest(w: World, s: System, a: nat, outs: seq<Msg>, s': System, q: nat, u: string, c: string)
    requires WellFormed(w, s) && HonestAt(w, s, q, u, c) && NextDeliver(w, s, a, w.home(c), outs, s') && Lasting(w, s, q) && w.owner(u) == q
    requires MsgOk(w, a, s.links[(a, w.home(c))][0])
    ensures HonestAt(w, s', q, u, c)
  {
    var p := w.home(c);
    if Linked(s, q, p) {
      assert LastingTo(w, s, q, p) && ManagerOk(w, p, s.mgrs[p]) && ManagerOk(w, q, s.mgrs[q]);
      if a == q && s.links[(a, p)][0].Start? {
        PeerAskedHonest(w, s, outs, s', q, p, u, c);
      } else {
        PeerDeliverHonest(w, s, a, outs, s', q, p, u, c);
      }
    }
  }

  lemma DeliverHonest(w: World, s: System, a: nat, b: nat, outs: seq<Msg>, s': System, q: nat, u: string, c: string)
    requires WellFormed(w, s) && HonestAt(w, s, q, u, c) && NextDeliver(w, s, a, b, outs, s') && Lasting(w, s, q) && w.owner(u) == q
    ensures HonestAt(w, s', q, u, c)
  {
    assert s.links[(a, b)][0] in s.links[(a, b)] && MsgOk(w, a, s.links[(a, b)][0]) && ManagerOk(w, q, s.mgrs[q]);
    if b == q {
      OwnDeliverHonest(w, s, a, outs, s', q, u, c);
    } else if b == w.home(c) {
      HomeDeliverHonest(w, s, a, outs, s', q, u, c);
    } else {
      OthersDeliverHonest(w, s, a, b, outs, s', q, u, c);
    }
  }

  // ---------- the invariant over runs ----------

  // What a step needs to keep the sight honest.
  ghost predicate Attentive(w: World, s: System, q: nat, c: string) {
    && WellFormed(w, s) && Replicated(w, s) && Fresh(s) && Lasting(w, s, q)
    && HeardOf(w, s, q) && CacheOk(s, q, c)
  }

  lemma StepKeepsHonest(w: World, s: System, step: Step, s': System, q: nat, u: string, c: string)
    requires Attentive(w, s, q, c) && Next(w, s, step, s') && !(step.StopQuery? && step.q == q)
    requires w.owner(u) == q && HonestAt(w, s, q, u, c)
    ensures HonestAt(w, s', q, u, c)
  {
    match step {
      case StartQuery(a, f, listener) => StartHonest(w, s, a, f, listener, s', q, u, c);
      case StopQuery(a, f) => StopHonest(w, s, a, f, s', q, u, c);
      case AddService(_, _, _, _) => ServiceStepHonest(w, s, step, s', q, u, c);
      case RemoveService(_, _, _) => ServiceStepHonest(w, s, step, s', q, u, c);
      case Connect(a, b, toB, toA) => ConnectHonest(w, s, a, b, toB, toA, s', q, u, c);
      case Greet(a, b, outs) => GreetHonest(w, s, a, b, outs, s', q, u, c);
      case Deliver(a, b, outs) => DeliverHonest(w, s, a, b, outs, s', q, u, c);
    }
  }

  lemma ServiceStepHonest(w: World, s: System, step: Step, s': System, q: nat, u: string, c: string)
    requires WellFormed(w, s) && Replicated(w, s) && Lasting(w, s, q) && w.owner(u) == q && HonestAt(w, s, q, u, c)
    requires (step.AddService? && NextAddService(w, s, step.p, step.svc, step.desc, step.outs, s'))
             || (step.RemoveService? && NextRemoveService(w, s, step.p, step.svc, step.outs, s'))
    ensures HonestAt(w, s', q, u, c)
  {
    if step.RemoveService? {
      assert ManagerOk(w, step.p, s.mgrs[step.p]);
      RemoveServiceHonest(w, s, step.p, step.svc, step.outs, s', q, u, c);
    } else if w.home(c) in s.mgrs {
      assert ReplicatedAt(w, s, w.home(c), u);
      AddServiceHonest(w, s, step.p, step.svc, step.desc, step.outs, s', q, u, c);
    }
  }

  lemma AttentiveHolds(w: World, ss: seq<System>, steps: seq<Step>, n: nat, q: nat, c: string)
    requires IsRun(w, ss, steps) && n <= |steps| && q in ss[0].mgrs && NeverStops(steps, q)
    ensures Attentive(w, ss[n], q, c)
  {
    InvariantsHold(w, ss, steps, n);
    FreshHolds(w, ss, steps, n);
    LastingHolds(w, ss, steps, n, q);
    HeardOfHolds(w, ss, steps, n, q);
    CacheIsLastTold(w, ss, steps, n, q, c);
  }

  lemma StillHonest(w: World, ss: seq<System>, steps: seq<Step>, i: nat, q: nat, u: string, c: string)
    requires i < |steps| < |ss| && !(steps[i].StopQuery? && steps[i].q == q) && w.owner(u) == q
    ensures Attentive(w, ss[i], q, c) && StepAt(w, ss, steps, i) && HonestAt(w, ss[i], q, u, c) ==> HonestAt(w, ss[i + 1], q, u, c)
  {
    if Attentive(w, ss[i], q, c) && StepAt(w, ss, steps, i) && HonestAt(w, ss[i], q, u, c) {
      StepKeepsHonest(w, ss[i], steps[i], ss[i + 1], q, u, c);
    }
  }

  lemma NextHonest(w: World, ss: seq<System>, steps: seq<Step>, i: nat, q: nat, u: string, c: string)
    requires IsRun(w, ss, steps) && i < |steps| && q in ss[0].mgrs && NeverStops(steps, q) && w.owner(u) == q
    ensures HonestAt(w, ss[i], q, u, c) ==> HonestAt(w, ss[i + 1], q, u, c)
  {
    AttentiveHolds(w, ss, steps, i, q, c);
    StillHonest(w, ss, steps, i, q, u, c);
  }

  lemma {:induction false} HonestHolds(w: World, ss: seq<System>, steps: seq<Step>, n: nat, q: nat, u: string, c: string)
    requires IsRun(w, ss, steps) && n <= |steps| && q in ss[0].mgrs && NeverStops(steps, q) && w.owner(u) == q
    ensures HonestAt(w, ss[n], q, u, c)
  {
    if n > 0 {
      HonestHolds(w, ss, steps, n - 1, q, u, c);
      NextHonest(w, ss, steps, n - 1, q, u, c);
    }
  }

  lemma {:induction false} ManagersAreFixed(w: World, ss: seq<System>, steps: seq<Step>, n: nat)
    requires IsRun(w, ss, steps) && n <= |steps|
    ensures ss[n].mgrs.Keys == ss[0].mgrs.Keys
  {
    if n > 0 {
      ManagersAreFixed(w, ss, steps, n - 1);
      NextManagers(w, ss, steps, n - 1);
    }
  }

  lemma NextManagers(w: World, ss: seq<System>, steps: seq<Step>, i: nat)
    requires IsRun(w, ss, steps) && i < |steps|
    ensures ss[i + 1].mgrs.Keys == ss[i].mgrs.Keys
  {
    InvariantsHold(w, ss, steps, i);
    assert StepAt(w, ss, steps, i);
    ManagersWereThere(w, ss[i], steps[i], ss[i + 1]);
  }

  /**
   In every run in which no query of a manager is stopped: with nothing in flight between the
   manager and a peer, whatever a listener was last told of a service that the peer offers its
   query is that service as it arrives, whatever was on the channel before and whoever listened.
   */
  lemma UnstoppedTellsTheTruth(w: World, ss: seq<System>, steps: seq<Step>, n: nat, u: string, p: nat, svc: nat)
    requires IsRun(w, ss, steps) && n <= |steps| && NeverStops(steps, w.owner(u)) && Running(w, ss[n], u)
    requires Linked(ss[n], w.owner(u), p) && QuietBetween(ss[n], w.owner(u), p) && svc in ss[n].mgrs[p].services
    ensures var q, query, d := w.owner(u), ss[n].mgrs[w.owner(u)].localQueries[u], ss[n].mgrs[p].services[svc];
            var told := ToldAs(ss[n].mgrs[q].calls, query.listener, u, d.channel);
            told.Some? && Matches(w.engine, query.filter, d) ==> told.value == OnArrival(d)
  {
    var q, d := w.owner(u), ss[n].mgrs[p].services[svc];
    ManagersAreFixed(w, ss, steps, n);
    HonestHolds(w, ss, steps, n, q, u, d.channel);
    InvariantsHold(w, ss, steps, n);
    assert ManagerOk(w, p, ss[n].mgrs[p]);
  }
}
