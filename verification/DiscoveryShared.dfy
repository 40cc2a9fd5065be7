/**
 A listener that several queries share. A callback does not name the query it is for,
 so what the listener can tell is only the last callback about each channel. It still
 converges: to what at least one of the queries is offered.
 */
module DiscoveryShared {
  import opened ServiceWire
  import opened ServiceMatch
  import opened Discovery
  import opened DiscoverySystem
  import opened DiscoveryInvariants
  import opened DiscoveryConvergence
  import opened DiscoveryStarts

  /**
   The queries `us` of manager `q` share the listener: they are started for it and for
   no other, nobody else uses it, and they are never stopped (a stop calls no listener, so
   what a stopped query showed would stay).
   */
  ghost predicate Shares(q: nat, listener: nat, us: set<string>, step: Step) {
    && (step.StartQuery? && step.q == q ==> (step.listener == listener <==> step.filter.uuid in us))
    && (step.StopQuery? ==> step.filter.uuid !in us)
  }

  ghost predicate SharesAlways(w: World, q: nat, listener: nat, us: set<string>, steps: seq<Step>) {
    && (forall u :: u in us ==> w.owner(u) == q)
    && (forall i :: 0 <= i < |steps| ==> Shares(q, listener, us, steps[i]))
  }

  // ---------- who the listener serves ----------

  // Every query of `us` runs for the listener, or is as yet unheard of; no other query has the listener.
  ghost predicate Served(s: System, q: nat, listener: nat, us: set<string>) {
    && q in s.mgrs
    && (forall u :: u in us && u in s.started ==>
          u in s.mgrs[q].localQueries && s.mgrs[q].localQueries[u].listener == listener)
    && (forall v :: v in s.mgrs[q].localQueries && s.mgrs[q].localQueries[v].listener == listener ==> v in us)
    && (forall u :: u in us && u !in s.started ==> Untouched(s, u))
  }

  lemma StepKeepsServed(w: World, s: System, step: Step, s': System, q: nat, listener: nat, us: set<string>)
    requires Served(s, q, listener, us) && Next(w, s, step, s') && Fresh(s')
    requires Shares(q, listener, us, step) && forall u :: u in us ==> w.owner(u) == q
    ensures Served(s', q, listener, us)
  {
    match step {
      case StartQuery(a, f, l) =>
      case StopQuery(a, f) =>
      case AddService(_, _, _, _) =>
      case RemoveService(_, _, _) =>
      case Connect(_, _, _, _) =>
      case Greet(_, _, _) =>
      case Deliver(a, b, outs) =>
    }
  }

  lemma {:induction false} ServedHolds(w: World, ss: seq<System>, steps: seq<Step>, n: nat, q: nat, listener: nat, us: set<string>)
    requires IsRun(w, ss, steps) && n <= |steps| && SharesAlways(w, q, listener, us, steps) && q in ss[0].mgrs
    ensures Served(ss[n], q, listener, us)
  {
    FreshHolds(w, ss, steps, n);
    if n > 0 {
      ServedHolds(w, ss, steps, n - 1, q, listener, us);
      RunStep(w, ss, steps, n);
      assert Shares(q, listener, us, steps[n - 1]);
      StepKeepsServed(w, ss[n - 1], steps[n - 1], ss[n], q, listener, us);
    }
  }

  // Their starts are clean.
  lemma SharedStartsAreClean(w: World, ss: seq<System>, steps: seq<Step>, q: nat, listener: nat, us: set<string>, u: string)
    requires IsRun(w, ss, steps) && SharesAlways(w, q, listener, us, steps) && q in ss[0].mgrs && u in us
    ensures CleanFor(w, ss, steps, u)
  {
    forall i | 0 <= i < |steps| && steps[i].StartQuery? && steps[i].filter.uuid == u
      ensures SimpleStart(ss[i], steps[i])
    {
      ServedHolds(w, ss, steps, i, q, listener, us);
      RunStep(w, ss, steps, i + 1);
      assert Shares(q, listener, us, steps[i]);
    }
    SimpleStartsAreClean(w, ss, steps, u);
  }

  // ---------- what the listener can tell ----------

  predicate ConcernsAny(m: Msg, us: set<string>, c: string) {
    (m.Found? || m.Gone?) && m.filterId in us && m.desc.channel == c
  }

  // What the last callback about `c` will say once `ms` has been delivered.
  predicate ToldAll(told: bool, ms: seq<Msg>, us: set<string>, c: string)
    decreases |ms|
  {
    if ms == [] then told else ToldAll(if ConcernsAny(ms[0], us, c) then ms[0].Found? else told, ms[1..], us, c)
  }

  lemma {:induction false} ToldAllConcat(told: bool, a: seq<Msg>, b: seq<Msg>, us: set<string>, c: string)
    ensures ToldAll(told, a + b, us, c) == ToldAll(ToldAll(told, a, us, c), b, us, c)
    decreases |a|
  {
    if a == [] {
      assert a + b == b;
    } else {
      assert (a + b)[1..] == a[1..] + b;
      ToldAllConcat(if ConcernsAny(a[0], us, c) then a[0].Found? else told, a[1..], b, us, c);
    }
  }

  // Messages without removals: what they mention is told.
  lemma {:induction false} ToldAdditions(told: bool, ms: seq<Msg>, us: set<string>, c: string)
    requires forall m :: m in ms ==> !m.Gone?
    ensures ToldAll(told, ms, us, c) == (told || exists m :: m in ms && ConcernsAny(m, us, c))
    decreases |ms|
  {
    if ms != [] {
      assert ms[0] in ms && forall m :: m in ms <==> m == ms[0] || m in ms[1..];
      ToldAdditions(if ConcernsAny(ms[0], us, c) then ms[0].Found? else told, ms[1..], us, c);
    }
  }

  lemma {:induction false} SeesAdditions(shown: bool, ms: seq<Msg>, u: string, c: string)
    requires forall m :: m in ms ==> !m.Gone?
    ensures SeesAll(shown, ms, u, c) == (shown || exists m :: m in ms && Concerns(m, u, c))
    decreases |ms|
  {
    if ms != [] {
      assert ms[0] in ms && forall m :: m in ms <==> m == ms[0] || m in ms[1..];
      SeesAdditions(Sees(shown, ms[0], u, c), ms[1..], u, c);
    }
  }

  lemma {:induction false} ToldRemovals(told: bool, ms: seq<Msg>, us: set<string>, c: string)
    requires forall m :: m in ms ==> m.Gone?
    ensures ToldAll(told, ms, us, c) == (told && !exists m :: m in ms && ConcernsAny(m, us, c))
    decreases |ms|
  {
    if ms != [] {
      assert ms[0] in ms && forall m :: m in ms <==> m == ms[0] || m in ms[1..];
      ToldRemovals(if ConcernsAny(ms[0], us, c) then ms[0].Found? else told, ms[1..], us, c);
    }
  }

  // The listener will tell channel `c` of peer `p` exactly when one of the queries will show it.
  ghost predicate Agrees(s: System, q: nat, p: nat, listener: nat, us: set<string>, c: string)
    requires Linked(s, q, p)
  {
    ToldAll(Told(s.mgrs[q].calls, listener, c), s.links[(p, q)], us, c)
    <==> exists u :: u in us && WillShow(s, q, p, listener, u, c)
  }

  // Nothing changes but what peer `p` publishes.
  ghost predicate Grew(s: System, s': System, q: nat, p: nat, outs: seq<Msg>)
    requires Linked(s, q, p)
  {
    && Linked(s', q, p) && s'.mgrs[q].calls == s.mgrs[q].calls
    && s'.links[(p, q)] == s.links[(p, q)] + outs
  }

  lemma AdditionsAgree(s: System, s': System, q: nat, p: nat, listener: nat, us: set<string>, c: string, outs: seq<Msg>)
    requires Linked(s, q, p) && Agrees(s, q, p, listener, us, c) && Grew(s, s', q, p, outs)
    requires forall m :: m in outs ==> !m.Gone?
    ensures Agrees(s', q, p, listener, us, c)
  {
    var told := Told(s.mgrs[q].calls, listener, c);
    ToldAllConcat(told, s.links[(p, q)], outs, us, c);
    ToldAdditions(ToldAll(told, s.links[(p, q)], us, c), outs, us, c);
    forall u | u in us
      ensures WillShow(s', q, p, listener, u, c) == (WillShow(s, q, p, listener, u, c) || exists m :: m in outs && Concerns(m, u, c))
    {
      SeesAllConcat(Shows(s.mgrs[q].calls, listener, u, c), s.links[(p, q)], outs, u, c);
      SeesAdditions(WillShow(s, q, p, listener, u, c), outs, u, c);
    }
    if m :| m in outs && ConcernsAny(m, us, c) {
      assert Concerns(m, m.filterId, c) && m.filterId in us;
    }
  }

  // A removal takes the channel from all queries that will show it.
  lemma RemovalsAgree(w: World, s: System, s': System, q: nat, p: nat, listener: nat, us: set<string>, c: string, d: Description, outs: seq<Msg>)
    requires Linked(s, q, p) && Agrees(s, q, p, listener, us, c) && Grew(s, s', q, p, outs)
    requires Withdraws(w.engine, s.mgrs[p], d, outs)
    requires d.channel == c ==> forall u :: u in us && WillShow(s, q, p, listener, u, c) ==> u in Interested(w.engine, s.mgrs[p].remoteQueries, d)
    ensures Agrees(s', q, p, listener, us, c)
  {
    var told := Told(s.mgrs[q].calls, listener, c);
    ToldAllConcat(told, s.links[(p, q)], outs, us, c);
    ToldRemovals(ToldAll(told, s.links[(p, q)], us, c), outs, us, c);
    var interested := Interested(w.engine, s.mgrs[p].remoteQueries, d);
    forall u | u in us
      ensures WillShow(s', q, p, listener, u, c) == (WillShow(s, q, p, listener, u, c) && !(d.channel == c && u in interested))
    {
      SeesAllConcat(Shows(s.mgrs[q].calls, listener, u, c), s.links[(p, q)], outs, u, c);
      WithdrawsSay(w.engine, s.mgrs[p], d, outs, WillShow(s, q, p, listener, u, c), u, c);
    }
    if u :| u in us && WillShow(s, q, p, listener, u, c) {
      if d.channel == c {
        assert Notice(u, d, Removed) in outs && ConcernsAny(Notice(u, d, Removed), us, c);
      }
    }
  }

  // ---------- delivery ----------

  // What the listener can tell changes exactly with the notices for its queries.
  lemma ToldReceived(w: World, s: System, q: nat, listener: nat, us: set<string>, msg: Msg, c: string)
    requires Served(s, q, listener, us) && ManagerOk(w, q, s.mgrs[q])
    requires (msg.Found? || msg.Gone?) && msg.filterId in us ==> msg.filterId in s.started
    ensures Told(Received(s.mgrs[q], Arrived(msg)).calls, listener, c)
            == if ConcernsAny(msg, us, c) then msg.Found? else Told(s.mgrs[q].calls, listener, c)
  {
    var m, m' := s.mgrs[q], Received(s.mgrs[q], Arrived(msg));
    if m'.calls != m.calls {
      assert m'.calls[..|m'.calls| - 1] == m.calls;
    }
  }

  lemma ShownReceived(w: World, s: System, q: nat, listener: nat, us: set<string>, msg: Msg, u: string, c: string)
    requires Served(s, q, listener, us) && ManagerOk(w, q, s.mgrs[q]) && u in us
    requires (msg.Found? || msg.Gone?) && msg.filterId in us ==> msg.filterId in s.started
    ensures Shows(Received(s.mgrs[q], Arrived(msg)).calls, listener, u, c) == Sees(Shows(s.mgrs[q].calls, listener, u, c), msg, u, c)
  {
    var m, m' := s.mgrs[q], Received(s.mgrs[q], Arrived(msg));
    if m'.calls != m.calls {
      assert m'.calls[..|m'.calls| - 1] == m.calls;
    }
  }

  // A notice for a query of `us` means that the query was started.
  lemma NoticeWasAskedFor(s: System, q: nat, listener: nat, us: set<string>, l: (nat, nat), msg: Msg)
    requires Served(s, q, listener, us) && l in s.links && msg in s.links[l]
    ensures (msg.Found? || msg.Gone?) && msg.filterId in us ==> msg.filterId in s.started
  {
    if (msg.Found? || msg.Gone?) && msg.filterId in us {
      assert msg.filterId !in s.started ==> NotAbout(s.links[l], msg.filterId);
    }
  }

  lemma ReceivingAgrees(w: World, s: System, a: nat, q: nat, outs: seq<Msg>, s': System, p: nat, listener: nat, us: set<string>, c: string)
    requires Served(s, q, listener, us) && ManagerOk(w, q, s.mgrs[q]) && w.home(c) == p && p != q
    requires Linked(s, q, p) && Agrees(s, q, p, listener, us, c)
    requires NextDeliver(w, s, a, q, outs, s') && MsgOk(w, a, s.links[(a, q)][0])
    ensures Linked(s', q, p) && Agrees(s', q, p, listener, us, c)
  {
    var msg := s.links[(a, q)][0];
    NoticeWasAskedFor(s, q, listener, us, (a, q), msg);
    ToldReceived(w, s, q, listener, us, msg, c);
    assert s'.links[(p, q)] == if a == p then s.links[(p, q)][1..] else s.links[(p, q)];
    forall u | u in us
      ensures WillShow(s', q, p, listener, u, c) == WillShow(s, q, p, listener, u, c)
    {
      ShownReceived(w, s, q, listener, us, msg, u, c);
    }
  }

  // ---------- every step ----------

  ghost predicate AgreesIfLinked(w: World, s: System, q: nat, listener: nat, us: set<string>, c: string) {
    Linked(s, q, w.home(c)) ==> Agrees(s, q, w.home(c), listener, us, c)
  }

  // What is to be shown is known to the peer and offered by it.
  lemma ShownIsReported(w: World, s: System, q: nat, p: nat, listener: nat, us: set<string>, u: string, c: string)
    requires Served(s, q, listener, us) && u in us && w.owner(u) == q && Tracked(w, s, u)
    requires Linked(s, q, p) && w.home(c) == p && WillShow(s, q, p, listener, u, c)
    ensures exists f :: Reports(w, s.mgrs[p], u, f, c)
  {
    if u in s.started {
      assert TrackedAt(w, s, p, u, c);
      assert Reports(w, s.mgrs[p], u, s.mgrs[q].localQueries[u].filter, c);
    } else {
      ShowsNothingUncalled(s.mgrs[q].calls, listener, u, c);
      SeesNothing(false, s.links[(p, q)], u, c);
      assert false;
    }
  }

  lemma RemoveServiceAgrees(w: World, s: System, svc: nat, outs: seq<Msg>, s': System, q: nat, p: nat, listener: nat, us: set<string>, c: string)
    requires Linked(s, q, p) && ManagerOk(w, p, s.mgrs[p]) && w.home(c) == p && p != q
    requires Served(s, q, listener, us) && forall u :: u in us ==> w.owner(u) == q && Tracked(w, s, u)
    requires Agrees(s, q, p, listener, us, c) && NextRemoveService(w, s, p, svc, outs, s')
    ensures Linked(s', q, p) && Agrees(s', q, p, listener, us, c)
  {
    if svc !in s.mgrs[p].services {
      AdditionsAgree(s, s', q, p, listener, us, c, outs);
    } else {
      var d := s.mgrs[p].services[svc];
      forall u | u in us && WillShow(s, q, p, listener, u, c) && d.channel == c
        ensures u in Interested(w.engine, s.mgrs[p].remoteQueries, d)
      {
        ShownIsReported(w, s, q, p, listener, us, u, c);
        var f :| Reports(w, s.mgrs[p], u, f, c);
        OffersRemoved(w, p, s.mgrs[p], svc, f, c);
      }
      RemovalsAgree(w, s, s', q, p, listener, us, c, d, outs);
    }
  }

  // Every step that neither removes a service of `p` nor connects the two nor delivers to `q` only adds.
  lemma GrowsOnly(w: World, s: System, step: Step, s': System, q: nat, p: nat) returns (outs: seq<Msg>)
    requires Linked(s, q, p) && q != p && Next(w, s, step, s')
    requires !(step.Deliver? && step.b == q) && !(step.RemoveService? && step.p == p)
    ensures Grew(s, s', q, p, outs) && forall m :: m in outs ==> !m.Gone?
  {
    match step {
      case StartQuery(a, f, _) => outs := if a == p then [Start(f)] else [];
      case StopQuery(a, f) => outs := if a == p && f.uuid in s.mgrs[p].localQueries then [Stop(f)] else [];
      case AddService(a, _, _, ms) => outs := if a == p then ms else [];
      case RemoveService(_, _, _) => outs := [];
      case Connect(_, _, _, _) => outs := [];
      case Greet(a, b, ms) => outs := if (a, b) == (p, q) then ms else [];
      case Deliver(a, b, ms) => outs := DeliveryGrows(w, s, a, b, ms, s', q, p);
    }
  }

  lemma DeliveryGrows(w: World, s: System, a: nat, b: nat, ms: seq<Msg>, s': System, q: nat, p: nat) returns (outs: seq<Msg>)
    requires Linked(s, q, p) && q != p && b != q && NextDeliver(w, s, a, b, ms, s')
    ensures Grew(s, s', q, p, outs) && forall m :: m in outs ==> !m.Gone?
  {
    outs := if b == p then ms else [];
  }

  // A listener is told nothing of a manager it is not connected to, and a greeting tells nothing.
  lemma ConnectAgrees(w: World, s: System, a: nat, b: nat, toB: seq<Msg>, toA: seq<Msg>, s': System, q: nat, p: nat, listener: nat, us: set<string>, c: string)
    requires WellFormed(w, s) && NextConnect(s, a, b, toB, toA, s') && q in s.mgrs && HeardOf(w, s, q) && w.home(c) == p
    requires !Linked(s, q, p) && Linked(s', q, p)
    ensures Agrees(s', q, p, listener, us, c)
  {
    var calls, ms := s.mgrs[q].calls, s'.links[(p, q)];
    assert (p, q) !in s.links;
    assert forall m :: m in ms ==> m.Start?;
    ToldAdditions(Told(calls, listener, c), ms, us, c);
    if Told(calls, listener, c) {
      ToldWasHeard(calls, listener, c);
    }
    forall u | u in us
      ensures !WillShow(s', q, p, listener, u, c)
    {
      SeesNothing(Shows(calls, listener, u, c), ms, u, c);
      if Shows(calls, listener, u, c) {
        ShownIsLinked(w, s, q, listener, u, c);
      }
    }
  }

  lemma {:induction false} ToldWasHeard(calls: seq<Callback>, listener: nat, c: string)
    requires Told(calls, listener, c)
    ensures exists i :: 0 <= i < |calls| && calls[i].desc.channel == c
  {
    var last := calls[|calls| - 1];
    if !(last.listener == listener && last.desc.channel == c) {
      ToldWasHeard(calls[..|calls| - 1], listener, c);
    }
  }

  lemma StepKeepsAgreement(w: World, s: System, step: Step, s': System, q: nat, listener: nat, us: set<string>, c: string)
    requires Ready(w, s, q, listener, us) && Next(w, s, step, s') && AgreesIfLinked(w, s, q, listener, us, c)
    ensures AgreesIfLinked(w, s', q, listener, us, c)
  {
    var p := w.home(c);
    if Linked(s', q, p) {
      if !Linked(s, q, p) {
        LinkedByConnect(w, s, step, s', q, p);
        ConnectAgrees(w, s, step.q, step.p, step.toP, step.toQ, s', q, p, listener, us, c);
      } else if step.Deliver? && step.b == q {
        assert ManagerOk(w, q, s.mgrs[q]) && s.links[(step.a, q)][0] in s.links[(step.a, q)];
        ReceivingAgrees(w, s, step.a, q, step.outs, s', p, listener, us, c);
      } else if step.RemoveService? && step.p == p {
        RemoveServiceAgrees(w, s, step.svc, step.outs, s', q, p, listener, us, c);
      } else {
        var outs := GrowsOnly(w, s, step, s', q, p);
        AdditionsAgree(s, s', q, p, listener, us, c, outs);
      }
    }
  }

  lemma LinkedByConnect(w: World, s: System, step: Step, s': System, q: nat, p: nat)
    requires WellFormed(w, s) && Next(w, s, step, s') && !Linked(s, q, p) && Linked(s', q, p)
    ensures step.Connect?
  {
    StepKeepsManagers(w, s, step, s');
  }

  // What a step needs to keep the agreement.
  ghost predicate Ready(w: World, s: System, q: nat, listener: nat, us: set<string>) {
    && WellFormed(w, s) && Served(s, q, listener, us) && HeardOf(w, s, q)
    && forall u :: u in us ==> w.owner(u) == q && Tracked(w, s, u)
  }

  lemma ReadyHolds(w: World, ss: seq<System>, steps: seq<Step>, n: nat, q: nat, listener: nat, us: set<string>)
    requires IsRun(w, ss, steps) && n <= |steps| && SharesAlways(w, q, listener, us, steps) && q in ss[0].mgrs
    ensures Ready(w, ss[n], q, listener, us)
  {
    InvariantsHold(w, ss, steps, n);
    ServedHolds(w, ss, steps, n, q, listener, us);
    HeardOfHolds(w, ss, steps, n, q);
    forall u | u in us
      ensures Tracked(w, ss[n], u)
    {
      SharedStartsAreClean(w, ss, steps, q, listener, us, u);
      TrackedHolds(w, ss, steps, n, u);
    }
  }

  lemma StillAgrees(w: World, ss: seq<System>, steps: seq<Step>, i: nat, q: nat, listener: nat, us: set<string>, c: string)
    requires i < |steps| < |ss|
    ensures Ready(w, ss[i], q, listener, us) && StepAt(w, ss, steps, i) && AgreesIfLinked(w, ss[i], q, listener, us, c)
            ==> AgreesIfLinked(w, ss[i + 1], q, listener, us, c)
  {
    if Ready(w, ss[i], q, listener, us) && StepAt(w, ss, steps, i) && AgreesIfLinked(w, ss[i], q, listener, us, c) {
      StepKeepsAgreement(w, ss[i], steps[i], ss[i + 1], q, listener, us, c);
    }
  }

  lemma {:induction false} AgreementHolds(w: World, ss: seq<System>, steps: seq<Step>, n: nat, q: nat, listener: nat, us: set<string>, c: string)
    requires IsRun(w, ss, steps) && n <= |steps| && SharesAlways(w, q, listener, us, steps) && q in ss[0].mgrs
    ensures AgreesIfLinked(w, ss[n], q, listener, us, c)
  {
    if n > 0 {
      AgreementHolds(w, ss, steps, n - 1, q, listener, us, c);
      NextAgrees(w, ss, steps, n - 1, q, listener, us, c);
    }
  }

  lemma NextAgrees(w: World, ss: seq<System>, steps: seq<Step>, i: nat, q: nat, listener: nat, us: set<string>, c: string)
    requires IsRun(w, ss, steps) && i < |steps| && SharesAlways(w, q, listener, us, steps) && q in ss[0].mgrs
    ensures AgreesIfLinked(w, ss[i], q, listener, us, c) ==> AgreesIfLinked(w, ss[i + 1], q, listener, us, c)
  {
    ReadyHolds(w, ss, steps, i, q, listener, us);
    StillAgrees(w, ss, steps, i, q, listener, us, c);
  }

  // ---------- the theorem ----------

  // Some running query of `us` is offered channel `c`.
  ghost predicate OfferedToOne(w: World, s: System, q: nat, us: set<string>, c: string)
    requires q in s.mgrs
  {
    exists u :: u in us && u in s.mgrs[q].localQueries && OfferedToPeers(w, s, q, s.mgrs[q].localQueries[u].filter, c)
  }

  /**
   In every reachable state with nothing in flight between the manager and the home of a
   channel, the last callback to a shared listener about that channel was `added` if and
   only if a connected peer has a registered service on it that one of the queries matches.
   */
  lemma SharedListenerConverges(w: World, ss: seq<System>, steps: seq<Step>, n: nat, q: nat, listener: nat, us: set<string>, c: string)
    requires IsRun(w, ss, steps) && n <= |steps| && SharesAlways(w, q, listener, us, steps) && q in ss[0].mgrs
    requires QuietBetween(ss[n], q, w.home(c))
    ensures q in ss[n].mgrs
    ensures Told(ss[n].mgrs[q].calls, listener, c) <==> OfferedToOne(w, ss[n], q, us, c)
  {
    var s, p := ss[n], w.home(c);
    InvariantsHold(w, ss, steps, n);
    ServedHolds(w, ss, steps, n, q, listener, us);
    HeardOfHolds(w, ss, steps, n, q);
    AgreementHolds(w, ss, steps, n, q, listener, us, c);
    if Told(s.mgrs[q].calls, listener, c) {
      ToldWasHeard(s.mgrs[q].calls, listener, c);
      assert Linked(s, q, p);
      var u :| u in us && WillShow(s, q, p, listener, u, c);
      ShownIsStarted(s, q, listener, us, u, c);
      SharedQueryConverges(w, ss, steps, n, q, listener, us, u, c);
    }
    if OfferedToOne(w, s, q, us, c) {
      var u :| u in us && u in s.mgrs[q].localQueries && OfferedToPeers(w, s, q, s.mgrs[q].localQueries[u].filter, c);
      SharedQueryConverges(w, ss, steps, n, q, listener, us, u, c);
      ShownIsLinked(w, s, q, listener, u, c);
      assert Linked(s, q, p) && WillShow(s, q, p, listener, u, c);
    }
  }

  lemma ShownIsStarted(s: System, q: nat, listener: nat, us: set<string>, u: string, c: string)
    requires Served(s, q, listener, us) && u in us && Shows(s.mgrs[q].calls, listener, u, c)
    ensures u in s.mgrs[q].localQueries
  {
    if u !in s.started {
      ShowsNothingUncalled(s.mgrs[q].calls, listener, u, c);
      assert false;
    }
  }

  lemma SharedQueryConverges(w: World, ss: seq<System>, steps: seq<Step>, n: nat, q: nat, listener: nat, us: set<string>, u: string, c: string)
    requires IsRun(w, ss, steps) && n <= |steps| && SharesAlways(w, q, listener, us, steps) && q in ss[0].mgrs
    requires QuietBetween(ss[n], q, w.home(c)) && u in us && Served(ss[n], q, listener, us) && u in ss[n].mgrs[q].localQueries
    ensures Shows(ss[n].mgrs[q].calls, listener, u, c)
            <==> OfferedToPeers(w, ss[n], q, ss[n].mgrs[q].localQueries[u].filter, c)
  {
    SharedStartsAreClean(w, ss, steps, q, listener, us, u);
    ChannelConverges(w, ss, steps, n, u, c);
  }
}
