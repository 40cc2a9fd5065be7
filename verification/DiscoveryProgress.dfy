/**
 The messages of continuous queries always run dry: every delivery brings the system
 closer to quiet, so from every reachable state the queries come to show the truth.
 */
module DiscoveryProgress {
  import opened ServiceWire
  import opened ServiceMatch
  import opened Discovery
  import opened DiscoverySystem
  import opened DiscoveryInvariants
  import opened DiscoveryConvergence

  // ---------- how much is in flight ----------

  ghost function Sum(m: map<(nat, nat), nat>): nat
    decreases |m|
  {
    if m == map[] then 0
    else
      var k :| k in m;
      assert |m - {k}| < |m| by {
        assert (m - {k}).Keys == m.Keys - {k};
      }
      m[k] + Sum(m - {k})
  }

  lemma {:induction false} SumAt(m: map<(nat, nat), nat>, k: (nat, nat))
    requires k in m
    ensures Sum(m) == m[k] + Sum(m - {k})
    decreases |m|
  {
    var j :| j in m && Sum(m) == m[j] + Sum(m - {j});
    if j != k {
      assert (m - {j}).Keys == m.Keys - {j} && (m - {k}).Keys == m.Keys - {k};
      SumAt(m - {j}, k);
      SumAt(m - {k}, j);
      assert m - {j} - {k} == m - {k} - {j};
    }
  }

  lemma SumUpdated(m: map<(nat, nat), nat>, k: (nat, nat), v: nat)
    requires k in m
    ensures Sum(m[k := v]) == Sum(m) - m[k] + v
  {
    SumAt(m, k);
    SumAt(m[k := v], k);
    assert m[k := v] - {k} == m - {k};
  }

  lemma SumDropsBy1(m: map<(nat, nat), nat>, m': map<(nat, nat), nat>, k: (nat, nat))
    requires k in m && m'.Keys == m.Keys && m'[k] + 1 == m[k]
    requires forall l :: l in m && l != k ==> m'[l] == m[l]
    ensures Sum(m') + 1 == Sum(m)
  {
    assert m' == m[k := m'[k]];
    SumUpdated(m, k, m'[k]);
  }

  ghost function CountStarts(ms: seq<Msg>): nat {
    if ms == [] then 0 else (if ms[0].Start? then 1 else 0) + CountStarts(ms[1..])
  }

  lemma {:induction false} CountNoStarts(a: seq<Msg>, outs: seq<Msg>)
    requires forall m :: m in outs ==> !m.Start?
    ensures CountStarts(a + outs) == CountStarts(a)
    decreases |a| + |outs|
  {
    if a != [] {
      assert (a + outs)[1..] == a[1..] + outs;
      CountNoStarts(a[1..], outs);
    } else if outs != [] {
      assert a + outs == outs && outs[0] in outs && outs[1..] == [] + outs[1..];
      CountNoStarts([], outs[1..]);
    }
  }

  ghost function Questions(s: System): map<(nat, nat), nat> {
    map l | l in s.links :: CountStarts(s.links[l])
  }

  ghost function Load(s: System): map<(nat, nat), nat> {
    map l | l in s.links :: |s.links[l]|
  }

  // Fewer questions in flight, or as many and fewer messages.
  ghost predicate CloserToQuiet(s: System, s': System) {
    || Sum(Questions(s')) < Sum(Questions(s))
    || (Sum(Questions(s')) == Sum(Questions(s)) && Sum(Load(s')) < Sum(Load(s)))
  }

  lemma DeliveryCounts(w: World, s: System, a: nat, b: nat, outs: seq<Msg>, s': System, l: (nat, nat))
    requires LinksOk(s) && NextDeliver(w, s, a, b, outs, s') && l in s.links
    ensures CountStarts(s'.links[l]) ==
              if l == (a, b) && s.links[l][0].Start? then CountStarts(s.links[l]) - 1 else CountStarts(s.links[l])
    ensures outs == [] ==> |s'.links[l]| == if l == (a, b) then |s.links[l]| - 1 else |s.links[l]|
  {
    if l.0 == b {
      CountNoStarts(s.links[l], outs);
    }
  }

  lemma QuestionsAre(s: System, s': System, k: (nat, nat), drop: bool)
    requires k in s.links && s'.links.Keys == s.links.Keys
    requires forall l :: l in s.links ==>
               CountStarts(s'.links[l]) == if l == k && drop then CountStarts(s.links[l]) - 1 else CountStarts(s.links[l])
    ensures Sum(Questions(s')) == if drop then Sum(Questions(s)) - 1 else Sum(Questions(s))
  {
    if drop {
      SumDropsBy1(Questions(s), Questions(s'), k);
    } else {
      assert Questions(s') == Questions(s);
    }
  }

  lemma DeliveredQuestions(w: World, s: System, a: nat, b: nat, outs: seq<Msg>, s': System)
    requires LinksOk(s) && NextDeliver(w, s, a, b, outs, s')
    ensures Sum(Questions(s')) == if s.links[(a, b)][0].Start? then Sum(Questions(s)) - 1 else Sum(Questions(s))
  {
    var drop := s.links[(a, b)][0].Start?;
    assert s'.links.Keys == s.links.Keys;
    forall l | l in s.links
      ensures CountStarts(s'.links[l]) == if l == (a, b) && drop then CountStarts(s.links[l]) - 1 else CountStarts(s.links[l])
    {
      DeliveryCounts(w, s, a, b, outs, s', l);
    }
    QuestionsAre(s, s', (a, b), drop);
  }

  lemma DeliveredLoad(w: World, s: System, a: nat, b: nat, s': System)
    requires LinksOk(s) && NextDeliver(w, s, a, b, [], s')
    ensures Sum(Load(s')) == Sum(Load(s)) - 1
  {
    assert s'.links.Keys == s.links.Keys;
    forall l | l in s.links
      ensures |s'.links[l]| == if l == (a, b) then |s.links[l]| - 1 else |s.links[l]|
    {
      DeliveryCounts(w, s, a, b, [], s', l);
    }
    LoadIs(s, s', (a, b));
  }

  lemma LoadIs(s: System, s': System, k: (nat, nat))
    requires k in s.links && s'.links.Keys == s.links.Keys
    requires forall l :: l in s.links ==> |s'.links[l]| == if l == k then |s.links[l]| - 1 else |s.links[l]|
    ensures Sum(Load(s')) == Sum(Load(s)) - 1
  {
    SumDropsBy1(Load(s), Load(s'), k);
  }

  /** No schedule of deliveries goes on for ever: each delivery brings the system closer to quiet. */
  lemma DeliveryShrinks(w: World, s: System, a: nat, b: nat, outs: seq<Msg>, s': System)
    requires LinksOk(s) && NextDeliver(w, s, a, b, outs, s')
    ensures CloserToQuiet(s, s')
  {
    DeliveredQuestions(w, s, a, b, outs, s');
    if !s.links[(a, b)][0].Start? {
      assert outs == [];
      DeliveredLoad(w, s, a, b, s');
    }
  }

  // ---------- a delivery is always possible ----------

  lemma {:induction false} RepliesExist(services: map<nat, Description>, id: string, svcs: set<nat>) returns (outs: seq<Msg>)
    requires svcs <= services.Keys
    ensures RepliesFor(services, id, svcs, outs)
  {
    if svcs == {} {
      outs := [];
    } else {
      var svc :| svc in svcs;
      outs := RepliesExist(services, id, svcs - {svc});
      OneMoreReply(services, id, svcs - {svc}, outs, svc);
      assert svcs - {svc} + {svc} == svcs;
      outs := outs + [Found(id, services[svc])];
    }
  }

  lemma DeliveryPossible(w: World, s: System, a: nat, b: nat) returns (outs: seq<Msg>, s': System)
    requires LinksOk(s) && (a, b) in s.links && s.links[(a, b)] != []
    ensures NextDeliver(w, s, a, b, outs, s')
  {
    var msg := Arrived(s.links[(a, b)][0]);
    if msg.Start? {
      var services := s.mgrs[b].services;
      outs := RepliesExist(services, msg.filter.uuid, Matching(w.engine, services, msg.filter));
    } else {
      outs := [];
    }
    s' := s.(mgrs := s.mgrs[b := Received(s.mgrs[b], msg)],
             links := Publish(s.links[(a, b) := s.links[(a, b)][1..]], b, outs));
  }

  // ---------- draining ----------

  // What is asked and what is offered, and who is connected, is the same.
  ghost predicate SameTruth(s: System, s': System) {
    && s'.mgrs.Keys == s.mgrs.Keys && s'.links.Keys == s.links.Keys
    && forall q :: q in s.mgrs ==>
         s'.mgrs[q].localQueries == s.mgrs[q].localQueries && s'.mgrs[q].services == s.mgrs[q].services
  }

  lemma DeliveryKeepsTruth(w: World, s: System, a: nat, b: nat, outs: seq<Msg>, s': System)
    requires NextDeliver(w, s, a, b, outs, s')
    ensures SameTruth(s, s')
  {
    ReceivedKeepsTruth(s.mgrs[b], Arrived(s.links[(a, b)][0]));
    assert s'.links.Keys == s.links.Keys;
  }

  lemma ReceivedKeepsTruth(m: Manager, msg: Msg)
    ensures Received(m, msg).localQueries == m.localQueries && Received(m, msg).services == m.services
  {
  }

  // A run goes on with steps that start no query `u`.
  ghost predicate GoesOn(w: World, ss: seq<System>, steps: seq<Step>, ss': seq<System>, steps': seq<Step>, u: string) {
    && IsRun(w, ss', steps') && ss <= ss' && steps <= steps'
    && forall i :: |steps| <= i < |steps'| ==> !(steps'[i].StartQuery? && steps'[i].filter.uuid == u)
  }

  ghost predicate OnlyDelivers(steps: seq<Step>, steps': seq<Step>) {
    steps <= steps' && forall i :: |steps| <= i < |steps'| ==> steps'[i].Deliver?
  }

  lemma Extend(w: World, ss: seq<System>, steps: seq<Step>, step: Step, s': System)
    requires IsRun(w, ss, steps) && Next(w, ss[|steps|], step, s')
    ensures IsRun(w, ss + [s'], steps + [step]) && (ss + [s'])[|steps + [step]|] == s'
  {
    var ss', steps' := ss + [s'], steps + [step];
    forall i | 0 <= i < |steps'|
      ensures StepAt(w, ss', steps', i)
    {
      if i < |steps| {
        assert StepAt(w, ss, steps, i) && ss'[i] == ss[i] && ss'[i + 1] == ss[i + 1] && steps'[i] == steps[i];
      }
    }
  }

  lemma DeliverOne(w: World, ss: seq<System>, steps: seq<Step>) returns (next: System, more: Step)
    requires IsRun(w, ss, steps) && !Quiet(ss[|steps|])
    ensures more.Deliver? && IsRun(w, ss + [next], steps + [more]) && (ss + [next])[|steps + [more]|] == next
    ensures CloserToQuiet(ss[|steps|], next) && SameTruth(ss[|steps|], next)
  {
    var s := ss[|steps|];
    InvariantsHold(w, ss, steps, |steps|);
    var l :| l in s.links && s.links[l] != [];
    var a, b := l.0, l.1;
    assert l == (a, b);
    var outs;
    outs, next := DeliveryPossible(w, s, a, b);
    more := Deliver(a, b, outs);
    DeliveryShrinks(w, s, a, b, outs, next);
    DeliveryKeepsTruth(w, s, a, b, outs, next);
    Extend(w, ss, steps, more, next);
  }

  /** Every run goes on, by deliveries alone, to a state with nothing in flight that asks and offers the same. */
  lemma {:induction false} Drain(w: World, ss: seq<System>, steps: seq<Step>) returns (ss': seq<System>, steps': seq<Step>)
    requires IsRun(w, ss, steps)
    ensures IsRun(w, ss', steps') && ss <= ss' && OnlyDelivers(steps, steps')
    ensures Quiet(ss'[|steps'|]) && SameTruth(ss[|steps|], ss'[|steps'|])
    decreases Sum(Questions(ss[|steps|])), Sum(Load(ss[|steps|]))
  {
    if Quiet(ss[|steps|]) {
      ss', steps' := ss, steps;
    } else {
      var next, more := DeliverOne(w, ss, steps);
      ss', steps' := Drain(w, ss + [next], steps + [more]);
      StillDelivers(steps, more, steps');
    }
  }

  lemma StillDelivers(steps: seq<Step>, more: Step, steps': seq<Step>)
    requires more.Deliver? && OnlyDelivers(steps + [more], steps')
    ensures OnlyDelivers(steps, steps')
  {
    assert steps'[|steps|] == (steps + [more])[|steps|];
  }

  // ---------- what comes of it ----------

  lemma StaysClean(w: World, ss: seq<System>, steps: seq<Step>, ss': seq<System>, steps': seq<Step>, u: string)
    requires IsRun(w, ss, steps) && CleanFor(w, ss, steps, u) && GoesOn(w, ss, steps, ss', steps', u)
    ensures CleanFor(w, ss', steps', u)
  {
    forall i | 0 <= i < |steps'| && steps'[i].StartQuery? && steps'[i].filter.uuid == u
      ensures CleanStart(w, ss'[i], steps'[i].filter, steps'[i].listener)
    {
      assert steps'[i] == steps[i] && ss'[i] == ss[i];
    }
  }

  /**
   From every reachable state deliveries alone lead to a state that asks and offers
   the same, in which the listener of every running query whose starts were clean is
   shown exactly what its connected peers offer.
   */
  lemma EventuallyConverges(w: World, ss: seq<System>, steps: seq<Step>)
    requires IsRun(w, ss, steps)
    ensures exists ss', steps' ::
              && IsRun(w, ss', steps') && ss <= ss' && OnlyDelivers(steps, steps')
              && SameTruth(ss[|steps|], ss'[|steps'|])
              && (forall u :: CleanFor(w, ss, steps, u) && Running(w, ss[|steps|], u) ==>
                    Running(w, ss'[|steps'|], u) && ShowsTheTruth(w, ss'[|steps'|], u))
  {
    var ss', steps' := Drain(w, ss, steps);
    forall u | CleanFor(w, ss, steps, u) && Running(w, ss[|steps|], u)
      ensures Running(w, ss'[|steps'|], u) && ShowsTheTruth(w, ss'[|steps'|], u)
    {
      StaysClean(w, ss, steps, ss', steps', u);
      DiscoveryConverges(w, ss', steps', |steps'|, u);
    }
  }
}
