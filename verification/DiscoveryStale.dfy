/**
 An unclean start can always go wrong: the run has a continuation to a state with
 nothing in flight in which the listener is shown a service that nobody offers.
 */
module DiscoveryStale {
  import opened ServiceWire
  import opened ServiceMatch
  import opened Discovery
  import opened DiscoverySystem
  import opened DiscoveryInvariants
  import opened DiscoveryConvergence
  import opened DiscoveryProgress

  // The run can go on, without another start of `u`, to a quiet state in which its listener is misled.
  ghost predicate CanGoWrong(w: World, ss: seq<System>, steps: seq<Step>, u: string) {
    exists ss', steps' ::
      && GoesOn(w, ss, steps, ss', steps', u) && Quiet(ss'[|steps'|])
      && Running(w, ss'[|steps'|], u) && !ShowsTheTruth(w, ss'[|steps'|], u)
  }

  lemma GoesOnToWrong(w: World, ss: seq<System>, steps: seq<Step>, step: Step, s': System, u: string)
    requires IsRun(w, ss, steps) && CanGoWrong(w, ss + [s'], steps + [step], u)
    requires !(step.StartQuery? && step.filter.uuid == u)
    ensures CanGoWrong(w, ss, steps, u)
  {
    var ss', steps' :|
      && GoesOn(w, ss + [s'], steps + [step], ss', steps', u) && Quiet(ss'[|steps'|])
      && Running(w, ss'[|steps'|], u) && !ShowsTheTruth(w, ss'[|steps'|], u);
    assert steps'[|steps|] == (steps + [step])[|steps|];
    assert GoesOn(w, ss, steps, ss', steps', u);
  }

  // ---------- doomed states ----------

  // Query `u` runs at `q`, its listener is about to show channel `c` of peer `p`.
  ghost predicate Shown(w: World, s: System, p: nat, u: string, c: string) {
    && Running(w, s, u) && Linked(s, w.owner(u), p) && w.owner(u) != p && w.home(c) == p
    && WillShow(s, w.owner(u), p, s.mgrs[w.owner(u)].localQueries[u].listener, u, c)
  }

  ghost predicate Doomed(w: World, s: System, p: nat, u: string, c: string) {
    Shown(w, s, p, u, c) && ChannelFree(s.mgrs[p], c)
  }

  lemma OwnerKeepsShown(w: World, s: System, a: nat, outs: seq<Msg>, s': System, p: nat, u: string, c: string)
    requires NextDeliver(w, s, a, w.owner(u), outs, s') && Shown(w, s, p, u, c)
    requires MsgOk(w, a, s.links[(a, w.owner(u))][0]) && ManagerOk(w, w.owner(u), s.mgrs[w.owner(u)])
    ensures Shown(w, s', p, u, c)
  {
    var q := w.owner(u);
    ShowsReceived(w, q, s.mgrs[q], s.links[(a, q)][0], u, c);
    assert s'.links[(p, q)] == if a == p then s.links[(p, q)][1..] else s.links[(p, q)];
  }

  // A peer's answers are additions, so what will be shown stays shown.
  lemma PeerKeepsShown(w: World, s: System, a: nat, p: nat, outs: seq<Msg>, s': System, u: string, c: string)
    requires LinksOk(s) && NextDeliver(w, s, a, p, outs, s') && Shown(w, s, p, u, c)
    ensures Shown(w, s', p, u, c)
  {
    var q := w.owner(u);
    var l := s.mgrs[q].localQueries[u].listener;
    SeesAllConcat(Shows(s.mgrs[q].calls, l, u, c), s.links[(p, q)], outs, u, c);
    SeesFounds(WillShow(s, q, p, l, u, c), outs, u, c);
    assert s'.links[(p, q)] == s.links[(p, q)] + outs;
  }

  lemma DeliveryKeepsShown(w: World, s: System, a: nat, b: nat, outs: seq<Msg>, s': System, p: nat, u: string, c: string)
    requires WellFormed(w, s) && NextDeliver(w, s, a, b, outs, s') && Shown(w, s, p, u, c)
    ensures Shown(w, s', p, u, c)
  {
    var q := w.owner(u);
    if b == q {
      assert s.links[(a, q)][0] in s.links[(a, q)] && ManagerOk(w, q, s.mgrs[q]);
      OwnerKeepsShown(w, s, a, outs, s', p, u, c);
    } else if b == p {
      PeerKeepsShown(w, s, a, p, outs, s', u, c);
    } else {
      assert s'.mgrs[q] == s.mgrs[q] && s'.links[(p, q)] == s.links[(p, q)];
    }
  }

  lemma {:induction false} StillDoomed(w: World, ss: seq<System>, steps: seq<Step>, k: nat, n: nat, p: nat, u: string, c: string)
    requires IsRun(w, ss, steps) && k <= n <= |steps| && Doomed(w, ss[k], p, u, c)
    requires forall i :: k <= i < n ==> steps[i].Deliver?
    ensures Doomed(w, ss[n], p, u, c)
  {
    if k < n {
      StillDoomed(w, ss, steps, k, n - 1, p, u, c);
      InvariantsHold(w, ss, steps, n - 1);
      var step := steps[n - 1];
      RunStep(w, ss, steps, n);
      assert step.Deliver?;
      DeliveryKeepsShown(w, ss[n - 1], step.a, step.b, step.outs, ss[n], p, u, c);
      DeliveryKeepsTruth(w, ss[n - 1], step.a, step.b, step.outs, ss[n]);
    }
  }

  lemma DoomedIsWrong(w: World, s: System, p: nat, u: string, c: string)
    requires WellFormed(w, s) && Quiet(s) && Doomed(w, s, p, u, c)
    ensures !ShowsTheTruth(w, s, u)
  {
    var q, query := w.owner(u), s.mgrs[w.owner(u)].localQueries[u];
    assert Shows(s.mgrs[q].calls, query.listener, u, c);
    forall r | (q, r) in s.links && r in s.mgrs
      ensures !Offers(w.engine, s.mgrs[r], query.filter, c)
    {
      if Offers(w.engine, s.mgrs[r], query.filter, c) {
        OffererIsHome(w, s, r, query.filter, c);
      }
    }
    assert !OfferedToPeers(w, s, q, query.filter, c);
  }

  lemma DoomedGoesWrong(w: World, ss: seq<System>, steps: seq<Step>, p: nat, u: string, c: string)
    requires IsRun(w, ss, steps) && Doomed(w, ss[|steps|], p, u, c)
    ensures CanGoWrong(w, ss, steps, u)
  {
    var ss', steps' := Drain(w, ss, steps);
    assert ss'[|steps|] == ss[|steps|];
    StillDoomed(w, ss', steps', |steps|, |steps'|, p, u, c);
    InvariantsHold(w, ss', steps', |steps'|);
    DoomedIsWrong(w, ss'[|steps'|], p, u, c);
    assert GoesOn(w, ss, steps, ss', steps', u);
  }

  // ---------- services come and go ----------

  lemma {:induction false} NoticesExist(us: set<string>, d: Description, kind: Kind) returns (outs: seq<Msg>)
    ensures NoticesFor(us, d, kind, outs)
  {
    if us == {} {
      outs := [];
    } else {
      var u :| u in us;
      outs := NoticesExist(us - {u}, d, kind);
      OneMoreNotice(us - {u}, d, kind, outs, u);
      assert us - {u} + {u} == us;
      outs := outs + [Notice(u, d, kind)];
    }
  }

  lemma RemovalPossible(w: World, s: System, p: nat, svc: nat) returns (outs: seq<Msg>, s': System)
    requires p in s.mgrs && svc in s.mgrs[p].services
    ensures NextRemoveService(w, s, p, svc, outs, s')
  {
    var d := s.mgrs[p].services[svc];
    outs := NoticesExist(Interested(w.engine, s.mgrs[p].remoteQueries, d), d, Removed);
    s' := s.(mgrs := s.mgrs[p := ServiceRemoved(s.mgrs[p], svc)], links := Publish(s.links, p, outs));
  }

  lemma {:induction false} FreshId(used: set<nat>) returns (id: nat)
    ensures forall n :: n in used ==> n < id
  {
    if used == {} {
      id := 0;
    } else {
      var n :| n in used;
      id := FreshId(used - {n});
      assert forall m :: m in used ==> m == n || m in used - {n};
      id := if id > n then id else n + 1;
    }
  }

  lemma AdditionPossible(w: World, s: System, p: nat, d: Description) returns (svc: nat, outs: seq<Msg>, s': System)
    requires p in s.mgrs && d.channel != "" && w.home(d.channel) == p && ChannelFree(s.mgrs[p], d.channel)
    ensures svc !in s.mgrs[p].services && NextAddService(w, s, p, svc, d, outs, s')
  {
    svc := FreshId(s.mgrs[p].services.Keys);
    outs := NoticesExist(Interested(w.engine, s.mgrs[p].remoteQueries, d), d, Added);
    s' := s.(mgrs := s.mgrs[p := ServiceAdded(s.mgrs[p], svc, d)], links := Publish(s.links, p, outs));
  }

  // Peer `p` would not report the removal of its service on channel `c` to query `u`.
  ghost predicate Silent(w: World, m: Manager, u: string, c: string) {
    forall svc :: svc in m.services && m.services[svc].channel == c ==>
      !(u in m.remoteQueries && Matches(w.engine, m.remoteQueries[u], m.services[svc]))
  }

  lemma SilentRemoval(w: World, s: System, p: nat, svc: nat, outs: seq<Msg>, s': System, u: string, c: string)
    requires NextRemoveService(w, s, p, svc, outs, s') && ManagerOk(w, p, s.mgrs[p])
    requires svc in s.mgrs[p].services && s.mgrs[p].services[svc].channel == c
    requires Shown(w, s, p, u, c) && Silent(w, s.mgrs[p], u, c)
    ensures Doomed(w, s', p, u, c)
  {
    var q := w.owner(u);
    var l := s.mgrs[q].localQueries[u].listener;
    SeesAllConcat(Shows(s.mgrs[q].calls, l, u, c), s.links[(p, q)], outs, u, c);
    WithdrawsSay(w.engine, s.mgrs[p], s.mgrs[p].services[svc], outs, WillShow(s, q, p, l, u, c), u, c);
  }

  // The service goes, and nobody tells.
  lemma SilentGoesWrong(w: World, ss: seq<System>, steps: seq<Step>, p: nat, u: string, c: string)
    requires IsRun(w, ss, steps) && Shown(w, ss[|steps|], p, u, c) && Silent(w, ss[|steps|].mgrs[p], u, c)
    ensures CanGoWrong(w, ss, steps, u)
  {
    var s := ss[|steps|];
    if ChannelFree(s.mgrs[p], c) {
      DoomedGoesWrong(w, ss, steps, p, u, c);
    } else {
      var svc :| svc in s.mgrs[p].services && s.mgrs[p].services[svc].channel == c;
      var outs, s' := RemovalPossible(w, s, p, svc);
      InvariantsHold(w, ss, steps, |steps|);
      SilentRemoval(w, s, p, svc, outs, s', u, c);
      Extend(w, ss, steps, RemoveService(p, svc, outs), s');
      DoomedGoesWrong(w, ss + [s'], steps + [RemoveService(p, svc, outs)], p, u, c);
      GoesOnToWrong(w, ss, steps, RemoveService(p, svc, outs), s', u);
    }
  }

  // ---------- forgetting ----------

  // The peer will forget query `u` before it is asked for `f` again.
  ghost predicate Forgets(w: World, s: System, p: nat, u: string, f: Filter, pre: seq<Msg>) {
    && Running(w, s, u) && Linked(s, w.owner(u), p) && w.owner(u) != p
    && s.links[(w.owner(u), p)] == pre + [Start(f)]
    && HearsAll(Known(s.mgrs[p], u), pre, u) == None
  }

  lemma OneForgotten(w: World, s: System, p: nat, u: string, f: Filter, pre: seq<Msg>, outs: seq<Msg>, s': System)
    requires LinksOk(s) && Forgets(w, s, p, u, f, pre) && pre != [] && NextDeliver(w, s, w.owner(u), p, outs, s')
    ensures Forgets(w, s', p, u, f, pre[1..]) && Known(s'.mgrs[p], u) == Hears(Known(s.mgrs[p], u), pre[0], u)
  {
    var q := w.owner(u);
    assert s.links[(q, p)][0] == pre[0];
    assert s'.links[(q, p)] == s.links[(q, p)][1..];
    assert (pre + [Start(f)])[1..] == pre[1..] + [Start(f)];
  }

  // The stop takes effect, and then the service goes.
  lemma {:induction false} ForgetsAndGoesWrong(w: World, ss: seq<System>, steps: seq<Step>, p: nat, u: string, f: Filter, pre: seq<Msg>, c: string)
    requires IsRun(w, ss, steps) && Forgets(w, ss[|steps|], p, u, f, pre) && Shown(w, ss[|steps|], p, u, c)
    ensures CanGoWrong(w, ss, steps, u)
    decreases |pre|
  {
    if pre == [] {
      SilentGoesWrong(w, ss, steps, p, u, c);
    } else {
      var s, q := ss[|steps|], w.owner(u);
      InvariantsHold(w, ss, steps, |steps|);
      var outs, s' := DeliveryPossible(w, s, q, p);
      OneForgotten(w, s, p, u, f, pre, outs, s');
      DeliveryKeepsShown(w, s, q, p, outs, s', p, u, c);
      Extend(w, ss, steps, Deliver(q, p, outs), s');
      ForgetsAndGoesWrong(w, ss + [s'], steps + [Deliver(q, p, outs)], p, u, f, pre[1..], c);
      GoesOnToWrong(w, ss, steps, Deliver(q, p, outs), s', u);
    }
  }

  // ---------- a service that comes in between ----------

  lemma AnnouncedIsShown(w: World, s: System, p: nat, svc: nat, d: Description, outs: seq<Msg>, s': System, u: string)
    requires NextAddService(w, s, p, svc, d, outs, s') && svc !in s.mgrs[p].services
    requires Running(w, s, u) && Linked(s, w.owner(u), p) && w.owner(u) != p
    requires u in s.mgrs[p].remoteQueries && Matches(w.engine, s.mgrs[p].remoteQueries[u], d)
    ensures Shown(w, s', p, u, d.channel)
  {
    var q := w.owner(u);
    var l := s.mgrs[q].localQueries[u].listener;
    SeesAllConcat(Shows(s.mgrs[q].calls, l, u, d.channel), s.links[(p, q)], outs, u, d.channel);
    AnnouncesSay(w.engine, s.mgrs[p], d, outs, WillShow(s, q, p, l, u, d.channel), u, d.channel);
    assert s'.links[(p, q)] == s.links[(p, q)] + outs;
  }

  // The peer still knows the query, gets a service for it, and then forgets it.
  lemma KnownGoesWrong(w: World, ss: seq<System>, steps: seq<Step>, p: nat, u: string, f: Filter, pre: seq<Msg>, d: Description)
    requires IsRun(w, ss, steps) && Forgets(w, ss[|steps|], p, u, f, pre)
    requires u in ss[|steps|].mgrs[p].remoteQueries && Matches(w.engine, ss[|steps|].mgrs[p].remoteQueries[u], d)
    requires d.channel != "" && w.home(d.channel) == p && ChannelFree(ss[|steps|].mgrs[p], d.channel)
    ensures CanGoWrong(w, ss, steps, u)
  {
    var s := ss[|steps|];
    var svc, outs, s' := AdditionPossible(w, s, p, d);
    var step := AddService(p, svc, d, outs);
    AnnouncedIsShown(w, s, p, svc, d, outs, s', u);
    Extend(w, ss, steps, step, s');
    ForgetsAndGoesWrong(w, ss + [s'], steps + [step], p, u, f, pre, d.channel);
    GoesOnToWrong(w, ss, steps, step, s', u);
  }

  lemma RemovalKeepsForgets(w: World, s: System, p: nat, svc: nat, outs: seq<Msg>, s': System, u: string, f: Filter, pre: seq<Msg>)
    requires NextRemoveService(w, s, p, svc, outs, s') && ManagerOk(w, p, s.mgrs[p]) && Forgets(w, s, p, u, f, pre)
    requires svc in s.mgrs[p].services
    ensures Forgets(w, s', p, u, f, pre) && s'.mgrs[p].remoteQueries == s.mgrs[p].remoteQueries
    ensures ChannelFree(s'.mgrs[p], s.mgrs[p].services[svc].channel)
  {
    assert s'.links[(w.owner(u), p)] == s.links[(w.owner(u), p)];
  }

  lemma FruitfulGoesWrong(w: World, ss: seq<System>, steps: seq<Step>, p: nat, u: string, f: Filter, pre: seq<Msg>)
    requires IsRun(w, ss, steps) && Forgets(w, ss[|steps|], p, u, f, pre)
    requires u in ss[|steps|].mgrs[p].remoteQueries && !Barren(w, p, ss[|steps|].mgrs[p].remoteQueries[u])
    ensures CanGoWrong(w, ss, steps, u)
  {
    var s := ss[|steps|];
    var d: Description :| d.channel != "" && w.home(d.channel) == p && Matches(w.engine, s.mgrs[p].remoteQueries[u], d);
    if ChannelFree(s.mgrs[p], d.channel) {
      KnownGoesWrong(w, ss, steps, p, u, f, pre, d);
    } else {
      var svc :| svc in s.mgrs[p].services && s.mgrs[p].services[svc].channel == d.channel;
      var outs, s' := RemovalPossible(w, s, p, svc);
      InvariantsHold(w, ss, steps, |steps|);
      RemovalKeepsForgets(w, s, p, svc, outs, s', u, f, pre);
      Extend(w, ss, steps, RemoveService(p, svc, outs), s');
      KnownGoesWrong(w, ss + [s'], steps + [RemoveService(p, svc, outs)], p, u, f, pre, d);
      GoesOnToWrong(w, ss, steps, RemoveService(p, svc, outs), s', u);
    }
  }

  // The peer knows the query, or is still to learn of its former life.
  lemma {:induction false} LearnsAndGoesWrong(w: World, ss: seq<System>, steps: seq<Step>, p: nat, u: string, f: Filter, pre: seq<Msg>)
    requires IsRun(w, ss, steps) && Forgets(w, ss[|steps|], p, u, f, pre)
    requires !OnlyBarren(w, p, Known(ss[|steps|].mgrs[p], u), pre, u)
    ensures CanGoWrong(w, ss, steps, u)
    decreases |pre|
  {
    var s, q := ss[|steps|], w.owner(u);
    if u in s.mgrs[p].remoteQueries && !Barren(w, p, s.mgrs[p].remoteQueries[u]) {
      FruitfulGoesWrong(w, ss, steps, p, u, f, pre);
    } else {
      InvariantsHold(w, ss, steps, |steps|);
      var outs, s' := DeliveryPossible(w, s, q, p);
      OneForgotten(w, s, p, u, f, pre, outs, s');
      assert pre[0] in pre && forall m :: m in pre ==> m == pre[0] || m in pre[1..];
      Extend(w, ss, steps, Deliver(q, p, outs), s');
      LearnsAndGoesWrong(w, ss + [s'], steps + [Deliver(q, p, outs)], p, u, f, pre[1..]);
      GoesOnToWrong(w, ss, steps, Deliver(q, p, outs), s', u);
    }
  }

  // ---------- unclean starts ----------

  lemma StartedShows(w: World, s: System, f: Filter, listener: nat, s': System, p: nat, c: string)
    requires LinksOk(s) && NextStartQuery(w, s, w.owner(f.uuid), f, listener, s') && Linked(s, w.owner(f.uuid), p)
    requires w.home(c) == p && WillShow(s, w.owner(f.uuid), p, listener, f.uuid, c)
    ensures Shown(w, s', p, f.uuid, c) && s'.mgrs[p] == s.mgrs[p]
  {
    var q := w.owner(f.uuid);
    assert s'.links[(p, q)] == s.links[(p, q)];
  }

  lemma RestartForgets(w: World, s: System, f: Filter, listener: nat, s': System, p: nat)
    requires LinksOk(s) && NextStartQuery(w, s, w.owner(f.uuid), f, listener, s') && Linked(s, w.owner(f.uuid), p)
    requires !Running(w, s, f.uuid) && ReplicatedAt(w, s, p, f.uuid)
    ensures Forgets(w, s', p, f.uuid, f, s.links[(w.owner(f.uuid), p)]) && s'.mgrs[p] == s.mgrs[p]
  {
  }

  lemma UnreportedIsSilent(w: World, m: Manager, p: nat, f: Filter, c: string)
    requires ManagerOk(w, p, m) && !Reports(w, m, f.uuid, f, c)
    requires Known(m, f.uuid).Some? ==> Known(m, f.uuid).value == f || Barren(w, p, Known(m, f.uuid).value)
    ensures Silent(w, m, f.uuid, c)
  {
  }

  // A running query gets a listener that is about to show what the peer does not report.
  lemma RepeatGoesWrong(w: World, ss: seq<System>, steps: seq<Step>, f: Filter, listener: nat, s': System, p: nat, c: string)
    requires IsRun(w, ss, steps) && NextStartQuery(w, ss[|steps|], w.owner(f.uuid), f, listener, s')
    requires Running(w, ss[|steps|], f.uuid) && Tracked(w, ss[|steps|], f.uuid) && Linked(ss[|steps|], w.owner(f.uuid), p)
    requires w.home(c) == p && WillShow(ss[|steps|], w.owner(f.uuid), p, listener, f.uuid, c)
    requires !Reports(w, ss[|steps|].mgrs[p], f.uuid, f, c)
    ensures CanGoWrong(w, ss + [s'], steps + [StartQuery(w.owner(f.uuid), f, listener)], f.uuid)
  {
    var s, step := ss[|steps|], StartQuery(w.owner(f.uuid), f, listener);
    InvariantsHold(w, ss, steps, |steps|);
    assert TrackedAt(w, s, p, f.uuid, c) && ManagerOk(w, p, s.mgrs[p]);
    UnreportedIsSilent(w, s.mgrs[p], p, f, c);
    StartedShows(w, s, f, listener, s', p, c);
    Extend(w, ss, steps, step, s');
    SilentGoesWrong(w, ss + [s'], steps + [step], p, f.uuid, c);
  }

  // A stopped query is started again while its former life is not over.
  lemma RestartGoesWrong(w: World, ss: seq<System>, steps: seq<Step>, f: Filter, listener: nat, s': System, p: nat)
    requires IsRun(w, ss, steps) && NextStartQuery(w, ss[|steps|], w.owner(f.uuid), f, listener, s')
    requires !Running(w, ss[|steps|], f.uuid) && Linked(ss[|steps|], w.owner(f.uuid), p)
    requires !CleanStartAt(w, ss[|steps|], p, f, listener)
    ensures CanGoWrong(w, ss + [s'], steps + [StartQuery(w.owner(f.uuid), f, listener)], f.uuid)
  {
    var s, u, q, step := ss[|steps|], f.uuid, w.owner(f.uuid), StartQuery(w.owner(f.uuid), f, listener);
    InvariantsHold(w, ss, steps, |steps|);
    assert ReplicatedAt(w, s, p, u);
    RestartForgets(w, s, f, listener, s', p);
    Extend(w, ss, steps, step, s');
    if c :| w.home(c) == p && WillShow(s, q, p, listener, u, c) {
      StartedShows(w, s, f, listener, s', p, c);
      ForgetsAndGoesWrong(w, ss + [s'], steps + [step], p, u, f, s.links[(q, p)], c);
    } else {
      LearnsAndGoesWrong(w, ss + [s'], steps + [step], p, u, f, s.links[(q, p)]);
    }
  }

  lemma UncleanStartGoesWrong(w: World, ss: seq<System>, steps: seq<Step>, f: Filter, listener: nat, s': System)
    requires IsRun(w, ss, steps) && CleanFor(w, ss, steps, f.uuid)
    requires NextStartQuery(w, ss[|steps|], w.owner(f.uuid), f, listener, s') && !CleanStart(w, ss[|steps|], f, listener)
    ensures CanGoWrong(w, ss + [s'], steps + [StartQuery(w.owner(f.uuid), f, listener)], f.uuid)
  {
    var s, u, q := ss[|steps|], f.uuid, w.owner(f.uuid);
    var p :| Linked(s, q, p) && !CleanStartAt(w, s, p, f, listener);
    if Running(w, s, u) {
      TrackedHolds(w, ss, steps, |steps|, u);
      var c :| w.home(c) == p && WillShow(s, q, p, listener, u, c) && !Reports(w, s.mgrs[p], u, f, c);
      RepeatGoesWrong(w, ss, steps, f, listener, s', p, c);
    } else {
      RestartGoesWrong(w, ss, steps, f, listener, s', p);
    }
  }

  lemma CleanStartGoesRight(w: World, ss: seq<System>, steps: seq<Step>, f: Filter, listener: nat, s': System)
    requires IsRun(w, ss, steps) && CleanFor(w, ss, steps, f.uuid)
    requires NextStartQuery(w, ss[|steps|], w.owner(f.uuid), f, listener, s') && CleanStart(w, ss[|steps|], f, listener)
    ensures !CanGoWrong(w, ss + [s'], steps + [StartQuery(w.owner(f.uuid), f, listener)], f.uuid)
  {
    var u, step := f.uuid, StartQuery(w.owner(f.uuid), f, listener);
    var ss1, steps1 := ss + [s'], steps + [step];
    Extend(w, ss, steps, step, s');
    forall i | 0 <= i < |steps1| && steps1[i].StartQuery? && steps1[i].filter.uuid == u
      ensures CleanStart(w, ss1[i], steps1[i].filter, steps1[i].listener)
    {
      if i < |steps| {
        assert steps1[i] == steps[i] && ss1[i] == ss[i];
      }
    }
    forall ss', steps' | GoesOn(w, ss1, steps1, ss', steps', u) && Quiet(ss'[|steps'|]) && Running(w, ss'[|steps'|], u)
      ensures ShowsTheTruth(w, ss'[|steps'|], u)
    {
      StaysClean(w, ss1, steps1, ss', steps', u);
      DiscoveryConverges(w, ss', steps', |steps'|, u);
    }
  }

  /**
   Starting a query, for the first time, again while it runs or after it was stopped,
   can never mislead its listener if and only if the start is clean.
   */
  lemma StartIsSafeExactlyWhenClean(w: World, ss: seq<System>, steps: seq<Step>, f: Filter, listener: nat, s': System)
    requires IsRun(w, ss, steps) && CleanFor(w, ss, steps, f.uuid)
    requires NextStartQuery(w, ss[|steps|], w.owner(f.uuid), f, listener, s')
    ensures CleanStart(w, ss[|steps|], f, listener)
            <==> !CanGoWrong(w, ss + [s'], steps + [StartQuery(w.owner(f.uuid), f, listener)], f.uuid)
  {
    if CleanStart(w, ss[|steps|], f, listener) {
      CleanStartGoesRight(w, ss, steps, f, listener, s');
    } else {
      UncleanStartGoesWrong(w, ss, steps, f, listener, s');
    }
  }
}
