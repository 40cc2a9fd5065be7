/**
 The query for nodes: which nodes are known, what its listener is told, at once or
 in batches.
 */
module NodeQuery {

  // A shared pointer to a node stub: its address and the uuid of the node.
  datatype NodeRef = NodeRef(address: nat, uuid: string)

  datatype Callback = Added(node: NodeRef) | Removed(node: NodeRef) | Changed(node: NodeRef)

  datatype State = State(
    immediate: bool,
    nodes: map<string, NodeRef>,
    pendingFinds: set<NodeRef>,
    pendingRemovals: set<NodeRef>,
    calls: seq<Callback>)

  // ---------- operations on values ----------

  function FoundNow(s: State, n: NodeRef): State {
    if n.uuid in s.nodes then s.(calls := s.calls + [Changed(n)])
    else s.(calls := s.calls + [Added(n)], nodes := s.nodes[n.uuid := n])
  }

  // The listener is told even when the node was not known.
  function RemovedNow(s: State, n: NodeRef): State {
    s.(calls := s.calls + [Removed(n)], nodes := s.nodes - {n.uuid})
  }

  function NodeFound(s: State, n: NodeRef): State {
    if s.immediate then FoundNow(s, n) else s.(pendingFinds := s.pendingFinds + {n})
  }

  function NodeRemoved(s: State, n: NodeRef): State {
    if s.immediate then RemovedNow(s, n) else s.(pendingRemovals := s.pendingRemovals + {n})
  }

  function AllFound(s: State, ns: seq<NodeRef>): State {
    if ns == [] then s else FoundNow(AllFound(s, ns[..|ns| - 1]), ns[|ns| - 1])
  }

  function AllRemoved(s: State, ns: seq<NodeRef>): State {
    if ns == [] then s else RemovedNow(AllRemoved(s, ns[..|ns| - 1]), ns[|ns| - 1])
  }

  // All removals first, then all finds; each set in the order of its addresses.
  function Flushed(s: State, removals: seq<NodeRef>, finds: seq<NodeRef>): State {
    AllFound(AllRemoved(s, removals), finds).(pendingFinds := {}, pendingRemovals := {})
  }

  ghost predicate Lists(ns: seq<NodeRef>, all: set<NodeRef>) {
    |ns| == |all| && (forall n :: n in ns <==> n in all)
  }

  lemma ListsMore(ns: seq<NodeRef>, all: set<NodeRef>, todo: set<NodeRef>, n: NodeRef)
    requires n in todo && todo <= all && Lists(ns, all - todo)
    ensures Lists(ns + [n], all - (todo - {n}))
  {
    assert all - (todo - {n}) == all - todo + {n};
  }

  lemma OneMoreRemoved(s: State, ns: seq<NodeRef>, n: NodeRef)
    ensures AllRemoved(s, ns + [n]) == RemovedNow(AllRemoved(s, ns), n)
  {
    assert (ns + [n])[..|ns|] == ns;
  }

  lemma OneMoreFound(s: State, ns: seq<NodeRef>, n: NodeRef)
    ensures AllFound(s, ns + [n]) == FoundNow(AllFound(s, ns), n)
  {
    assert (ns + [n])[..|ns|] == ns;
  }

  // ---------- the object ----------

  class NodeQuery {
    var notifyImmediately: bool
    var nodes: map<string, NodeRef>
    var pendingFinds: set<NodeRef>
    var pendingRemovals: set<NodeRef>
    var calls: seq<Callback>

    ghost function View(): State
      reads this
    {
      State(notifyImmediately, nodes, pendingFinds, pendingRemovals, calls)
    }

    constructor ()
      ensures View() == State(true, map[], {}, {}, [])
    {
      notifyImmediately, nodes, pendingFinds, pendingRemovals, calls := true, map[], {}, {}, [];
    }

    method Found(node: NodeRef)
      modifies this
      ensures View() == NodeFound(old(View()), node)
    {
      if notifyImmediately {
        TellFound(node);
      } else {
        pendingFinds := pendingFinds + {node};
      }
    }

    // A found node is changed if it is known, and added otherwise.
    method TellFound(node: NodeRef)
      modifies this`nodes, this`calls
      ensures View() == FoundNow(old(View()), node)
    {
      if node.uuid in nodes {
        calls := calls + [Changed(node)];
      } else {
        calls := calls + [Added(node)];
        nodes := nodes[node.uuid := node];
      }
    }

    method Removed(node: NodeRef)
      modifies this
      ensures View() == NodeRemoved(old(View()), node)
    {
      if notifyImmediately {
        TellRemoved(node);
      } else {
        pendingRemovals := pendingRemovals + {node};
      }
    }

    method TellRemoved(node: NodeRef)
      modifies this`nodes, this`calls
      ensures View() == RemovedNow(old(View()), node)
    {
      calls := calls + [Callback.Removed(node)];
      nodes := nodes - {node.uuid};
    }

    method NotifyImmediately(immediate: bool)
      modifies this
      ensures View() == old(View()).(immediate := immediate)
    {
      notifyImmediately := immediate;
    }

    method NotifyResultSet() returns (ghost removals: seq<NodeRef>, ghost finds: seq<NodeRef>)
      modifies this
      ensures Lists(removals, old(pendingRemovals)) && Lists(finds, old(pendingFinds))
      ensures View() == Flushed(old(View()), removals, finds)
    {
      removals := NotifyRemovals();
      finds := NotifyFinds();
      pendingRemovals := {};
      pendingFinds := {};
    }

    method NotifyRemovals() returns (ghost removals: seq<NodeRef>)
      modifies this`nodes, this`calls
      ensures Lists(removals, pendingRemovals) && View() == AllRemoved(old(View()), removals)
    {
      removals := [];
      var todo := pendingRemovals;
      while todo != {}
        invariant todo <= pendingRemovals && Lists(removals, pendingRemovals - todo)
        invariant View() == AllRemoved(old(View()), removals)
        decreases todo
      {
        var node :| node in todo;
        TellRemoved(node);
        ListsMore(removals, pendingRemovals, todo, node);
        OneMoreRemoved(old(View()), removals, node);
        removals, todo := removals + [node], todo - {node};
      }
      assert pendingRemovals - todo == pendingRemovals;
    }

    method NotifyFinds() returns (ghost finds: seq<NodeRef>)
      modifies this`nodes, this`calls
      ensures Lists(finds, pendingFinds) && View() == AllFound(old(View()), finds)
    {
      finds := [];
      var todo := pendingFinds;
      while todo != {}
        invariant todo <= pendingFinds && Lists(finds, pendingFinds - todo)
        invariant View() == AllFound(old(View()), finds)
        decreases todo
      {
        var node :| node in todo;
        TellFound(node);
        ListsMore(finds, pendingFinds, todo, node);
        OneMoreFound(old(View()), finds, node);
        finds, todo := finds + [node], todo - {node};
      }
      assert pendingFinds - todo == pendingFinds;
    }
  }

  // ---------- what the listener has been told ----------

  // The uuids whose last added or removed callback was `added`.
  ghost function Told(calls: seq<Callback>): set<string> {
    if calls == [] then {} else ToldNext(Told(calls[..|calls| - 1]), calls[|calls| - 1])
  }

  ghost function ToldNext(known: set<string>, call: Callback): set<string> {
    if call.Added? then known + {call.node.uuid}
    else if call.Removed? then known - {call.node.uuid}
    else known
  }

  // Nothing is added twice, and only known nodes change.
  ghost predicate Sensible(calls: seq<Callback>) {
    forall i :: 0 <= i < |calls| ==>
      && (calls[i].Added? ==> calls[i].node.uuid !in Told(calls[..i]))
      && (calls[i].Changed? ==> calls[i].node.uuid in Told(calls[..i]))
  }

  // The node of the last `added` callback about `u`.
  ghost predicate AddedAs(calls: seq<Callback>, u: string, n: NodeRef) {
    if calls == [] then false
    else
      var last := calls[|calls| - 1];
      if last.Added? && last.node.uuid == u then last.node == n else AddedAs(calls[..|calls| - 1], u, n)
  }

  ghost predicate Agrees(s: State) {
    && s.nodes.Keys == Told(s.calls) && Sensible(s.calls)
    && forall u :: u in s.nodes ==> AddedAs(s.calls, u, s.nodes[u])
  }

  lemma ToldMore(calls: seq<Callback>, call: Callback)
    requires Sensible(calls)
    requires call.Added? ==> call.node.uuid !in Told(calls)
    requires call.Changed? ==> call.node.uuid in Told(calls)
    ensures Sensible(calls + [call])
    ensures Told(calls + [call]) == ToldNext(Told(calls), call)
    ensures forall u, n :: AddedAs(calls + [call], u, n)
                           == if call.Added? && call.node.uuid == u then call.node == n else AddedAs(calls, u, n)
  {
    var more := calls + [call];
    assert more[..|calls|] == calls;
    assert forall i :: 0 <= i < |calls| ==> more[..i] == calls[..i];
  }

  lemma FoundNowAgrees(s: State, n: NodeRef)
    requires Agrees(s)
    ensures Agrees(FoundNow(s, n))
  {
    ToldMore(s.calls, if n.uuid in s.nodes then Changed(n) else Added(n));
  }

  lemma RemovedNowAgrees(s: State, n: NodeRef)
    requires Agrees(s)
    ensures Agrees(RemovedNow(s, n))
  {
    ToldMore(s.calls, Removed(n));
  }

  lemma {:induction false} AllRemovedAgrees(s: State, ns: seq<NodeRef>)
    requires Agrees(s)
    ensures Agrees(AllRemoved(s, ns))
  {
    if ns != [] {
      AllRemovedAgrees(s, ns[..|ns| - 1]);
      RemovedNowAgrees(AllRemoved(s, ns[..|ns| - 1]), ns[|ns| - 1]);
    }
  }

  lemma {:induction false} AllFoundAgrees(s: State, ns: seq<NodeRef>)
    requires Agrees(s)
    ensures Agrees(AllFound(s, ns))
  {
    if ns != [] {
      AllFoundAgrees(s, ns[..|ns| - 1]);
      FoundNowAgrees(AllFound(s, ns[..|ns| - 1]), ns[|ns| - 1]);
    }
  }

  // ---------- runs ----------

  datatype Step = Find(node: NodeRef) | Remove(node: NodeRef) | Switch(immediate: bool) | Flush(removals: seq<NodeRef>, finds: seq<NodeRef>)

  ghost predicate Next(s: State, step: Step, s': State) {
    match step
    case Find(n) => s' == NodeFound(s, n)
    case Remove(n) => s' == NodeRemoved(s, n)
    case Switch(b) => s' == s.(immediate := b)
    case Flush(rs, fs) => Lists(rs, s.pendingRemovals) && Lists(fs, s.pendingFinds) && s' == Flushed(s, rs, fs)
  }

  ghost predicate IsRun(ss: seq<State>, steps: seq<Step>) {
    && |ss| == |steps| + 1 && ss[0] == State(true, map[], {}, {}, [])
    && forall i :: 0 <= i < |steps| ==> Next(ss[i], steps[i], ss[i + 1])
  }

  /**
   In every run the known nodes are those whose last added or removed callback was
   `added`, each as it was added; nothing is added twice without a removal, and only
   known nodes change.
   */
  lemma {:induction false} KnownNodesAreTheTold(ss: seq<State>, steps: seq<Step>, n: nat)
    requires IsRun(ss, steps) && n <= |steps|
    ensures ss[n].nodes.Keys == Told(ss[n].calls) && Sensible(ss[n].calls)
    ensures forall u :: u in ss[n].nodes ==> AddedAs(ss[n].calls, u, ss[n].nodes[u])
  {
    if n > 0 {
      KnownNodesAreTheTold(ss, steps, n - 1);
      var s, step := ss[n - 1], steps[n - 1];
      assert Next(s, step, ss[n]) && Agrees(s);
      match step {
        case Find(node) => FoundNowAgrees(s, node);
        case Remove(node) => RemovedNowAgrees(s, node);
        case Switch(_) =>
        case Flush(rs, fs) =>
          AllRemovedAgrees(s, rs);
          AllFoundAgrees(AllRemoved(s, rs), fs);
      }
    }
  }

  // Callback `c` reports that `n` was found.
  predicate TellsFound(c: Callback, n: NodeRef) {
    (c.Added? || c.Changed?) && c.node == n
  }

  // What the listener is told for `removals` and then `finds`: one callback each, in that order.
  ghost predicate TellsEach(news: seq<Callback>, removals: seq<NodeRef>, finds: seq<NodeRef>) {
    && |news| == |removals| + |finds|
    && (forall i :: 0 <= i < |removals| ==> news[i] == Removed(removals[i]))
    && (forall i :: 0 <= i < |finds| ==> TellsFound(news[|removals| + i], finds[i]))
  }

  lemma {:induction false} RemovalsTold(s: State, ns: seq<NodeRef>) returns (news: seq<Callback>)
    ensures AllRemoved(s, ns).calls == s.calls + news && TellsEach(news, ns, [])
  {
    news := [];
    if ns != [] {
      var init := RemovalsTold(s, ns[..|ns| - 1]);
      news := init + [Removed(ns[|ns| - 1])];
    }
  }

  lemma {:induction false} FindsTold(s: State, ns: seq<NodeRef>) returns (news: seq<Callback>)
    ensures AllFound(s, ns).calls == s.calls + news && TellsEach(news, [], ns)
  {
    news := [];
    if ns != [] {
      var init := FindsTold(s, ns[..|ns| - 1]);
      var s', n := AllFound(s, ns[..|ns| - 1]), ns[|ns| - 1];
      news := init + [if n.uuid in s'.nodes then Changed(n) else Added(n)];
    }
  }

  /**
   In every run a step tells the listener exactly one callback for each node it processes,
   and that callback carries the very node: the found or removed one when notifying at
   once, and every pending one, the removals first, when a batch is flushed.
   */
  lemma EveryNodeIsTold(ss: seq<State>, steps: seq<Step>, n: nat) returns (news: seq<Callback>)
    requires IsRun(ss, steps) && n < |steps|
    ensures ss[n + 1].calls == ss[n].calls + news
    ensures match steps[n]
            case Find(node) => if ss[n].immediate then TellsEach(news, [], [node]) else news == []
            case Remove(node) => if ss[n].immediate then TellsEach(news, [node], []) else news == []
            case Switch(_) => news == []
            case Flush(rs, fs) => TellsEach(news, rs, fs) && Lists(rs, ss[n].pendingRemovals) && Lists(fs, ss[n].pendingFinds)
  {
    var s := ss[n];
    assert Next(s, steps[n], ss[n + 1]);
    match steps[n] {
      case Find(node) =>
        news := if !s.immediate then [] else if node.uuid in s.nodes then [Changed(node)] else [Added(node)];
      case Remove(node) => news := if s.immediate then [Removed(node)] else [];
      case Switch(_) => news := [];
      case Flush(rs, fs) =>
        var removed := RemovalsTold(s, rs);
        var found := FindsTold(AllRemoved(s, rs), fs);
        news := removed + found;
    }
  }

  // Whether the last switch before step `k` was to notifying at once, as a new query does.
  ghost predicate AtOnce(steps: seq<Step>, k: nat)
    requires k <= |steps|
  {
    if k == 0 then true else if steps[k - 1].Switch? then steps[k - 1].immediate else AtOnce(steps, k - 1)
  }

  // The step `event` was put off before step `k`, and no batch has been flushed since.
  ghost predicate PutOff(steps: seq<Step>, k: nat, event: Step)
    requires k <= |steps|
  {
    && k > 0 && !steps[k - 1].Flush?
    && ((steps[k - 1] == event && !AtOnce(steps, k - 1)) || PutOff(steps, k - 1, event))
  }

  /** In every run exactly the nodes found and removed since the last flush, while not notifying at once, are pending. */
  lemma {:induction false} PendingIsPutOff(ss: seq<State>, steps: seq<Step>, k: nat)
    requires IsRun(ss, steps) && k <= |steps|
    ensures ss[k].immediate == AtOnce(steps, k)
    ensures forall n :: n in ss[k].pendingFinds <==> PutOff(steps, k, Find(n))
    ensures forall n :: n in ss[k].pendingRemovals <==> PutOff(steps, k, Remove(n))
  {
    if k > 0 {
      PendingIsPutOff(ss, steps, k - 1);
      assert Next(ss[k - 1], steps[k - 1], ss[k]);
      if steps[k - 1].Flush? {
        FlushKeepsMode(ss[k - 1], steps[k - 1].removals, steps[k - 1].finds);
      }
    }
  }

  lemma FlushKeepsMode(s: State, removals: seq<NodeRef>, finds: seq<NodeRef>)
    ensures Flushed(s, removals, finds).immediate == s.immediate
  {
    RemovalsKeepMode(s, removals);
    FindsKeepMode(AllRemoved(s, removals), finds);
  }

  lemma {:induction false} RemovalsKeepMode(s: State, ns: seq<NodeRef>)
    ensures AllRemoved(s, ns).immediate == s.immediate
  {
    if ns != [] {
      RemovalsKeepMode(s, ns[..|ns| - 1]);
    }
  }

  lemma {:induction false} FindsKeepMode(s: State, ns: seq<NodeRef>)
    ensures AllFound(s, ns).immediate == s.immediate
  {
    if ns != [] {
      FindsKeepMode(s, ns[..|ns| - 1]);
    }
  }

  lemma {:induction false} ToldUntilRemoved(calls: seq<Callback>, i: nat, j: nat, u: string)
    requires i <= j <= |calls| && u in Told(calls[..i])
    requires forall k :: i <= k < j ==> !(calls[k].Removed? && calls[k].node.uuid == u)
    ensures u in Told(calls[..j])
  {
    if i < j {
      ToldUntilRemoved(calls, i, j - 1, u);
      assert calls[..j][..j - 1] == calls[..j - 1];
    }
  }

  /** Between two `added` for one uuid there is always a `removed`. */
  lemma AddedOnlyAfterRemoved(ss: seq<State>, steps: seq<Step>, n: nat, i: nat, j: nat)
    requires IsRun(ss, steps) && n <= |steps| && i < j < |ss[n].calls|
    requires ss[n].calls[i].Added? && ss[n].calls[j].Added? && ss[n].calls[i].node.uuid == ss[n].calls[j].node.uuid
    ensures exists k :: i < k < j && ss[n].calls[k].Removed? && ss[n].calls[k].node.uuid == ss[n].calls[i].node.uuid
  {
    KnownNodesAreTheTold(ss, steps, n);
    var calls, u := ss[n].calls, ss[n].calls[i].node.uuid;
    assert calls[..i + 1][..i] == calls[..i];
    assert u in Told(calls[..i + 1]);
    if forall k :: i < k < j ==> !(calls[k].Removed? && calls[k].node.uuid == u) {
      ToldUntilRemoved(calls, i + 1, j, u);
    }
  }

  // ---------- batches against immediate processing ----------

  datatype Event = Seen(node: NodeRef) | Lost(node: NodeRef)

  function Process(s: State, events: seq<Event>): State {
    if events == [] then s
    else
      var before, last := Process(s, events[..|events| - 1]), events[|events| - 1];
      if last.Seen? then NodeFound(before, last.node) else NodeRemoved(before, last.node)
  }

  ghost predicate SeenIn(events: seq<Event>, u: string) {
    exists i :: 0 <= i < |events| && events[i].Seen? && events[i].node.uuid == u
  }

  // The last event about `u` was its loss.
  ghost predicate LastLost(events: seq<Event>, u: string) {
    if events == [] then false
    else
      var last := events[|events| - 1];
      if last.node.uuid == u then last.Lost? else LastLost(events[..|events| - 1], u)
  }

  ghost predicate LostIn(events: seq<Event>, u: string) {
    exists i :: 0 <= i < |events| && events[i].Lost? && events[i].node.uuid == u
  }

  lemma {:induction false} ImmediateKeys(s: State, events: seq<Event>, u: string)
    requires s.immediate
    ensures Process(s, events).immediate
    ensures u in Process(s, events).nodes <==> !LastLost(events, u) && (u in s.nodes || SeenIn(events, u))
  {
    if events != [] {
      var init := events[..|events| - 1];
      ImmediateKeys(s, init, u);
      var last := events[|events| - 1];
      if last.node.uuid != u {
        assert SeenIn(events, u) ==> SeenIn(init, u);
      }
      assert forall i :: 0 <= i < |init| ==> init[i] == events[i];
      if SeenIn(init, u) {
        var i :| 0 <= i < |init| && init[i].Seen? && init[i].node.uuid == u;
        assert events[i].Seen?;
      }
    }
  }

  lemma {:induction false} Pending(s: State, events: seq<Event>)
    requires !s.immediate && s.pendingFinds == {} && s.pendingRemovals == {}
    ensures var p := Process(s, events);
            && !p.immediate && p.nodes == s.nodes
            && (forall n :: n in p.pendingFinds <==> Seen(n) in events)
            && (forall n :: n in p.pendingRemovals <==> Lost(n) in events)
  {
    if events != [] {
      Pending(s, events[..|events| - 1]);
      assert events == events[..|events| - 1] + [events[|events| - 1]];
    }
  }

  ghost predicate Mentions(ns: seq<NodeRef>, u: string) {
    exists n :: n in ns && n.uuid == u
  }

  lemma MentionsMore(ns: seq<NodeRef>, u: string)
    requires ns != []
    ensures Mentions(ns, u) <==> Mentions(ns[..|ns| - 1], u) || ns[|ns| - 1].uuid == u
  {
    var init, last := ns[..|ns| - 1], ns[|ns| - 1];
    assert ns == init + [last];
    assert forall n :: n in ns <==> n in init || n == last;
  }

  lemma {:induction false} RemovedKeys(s: State, ns: seq<NodeRef>, u: string)
    ensures u in AllRemoved(s, ns).nodes <==> u in s.nodes && !Mentions(ns, u)
  {
    if ns != [] {
      RemovedKeys(s, ns[..|ns| - 1], u);
      MentionsMore(ns, u);
    }
  }

  lemma {:induction false} FoundKeys(s: State, ns: seq<NodeRef>, u: string)
    ensures u in AllFound(s, ns).nodes <==> u in s.nodes || Mentions(ns, u)
  {
    if ns != [] {
      FoundKeys(s, ns[..|ns| - 1], u);
      MentionsMore(ns, u);
    }
  }

  lemma BatchedKeys(s: State, events: seq<Event>, removals: seq<NodeRef>, finds: seq<NodeRef>, u: string)
    requires !s.immediate && s.pendingFinds == {} && s.pendingRemovals == {}
    requires Lists(removals, Process(s, events).pendingRemovals) && Lists(finds, Process(s, events).pendingFinds)
    ensures u in Flushed(Process(s, events), removals, finds).nodes <==>
              SeenIn(events, u) || (u in s.nodes && !LostIn(events, u))
  {
    var p := Process(s, events);
    Pending(s, events);
    RemovedKeys(p, removals, u);
    FoundKeys(AllRemoved(p, removals), finds, u);
    if n :| n in finds && n.uuid == u {
      assert Seen(n) in events;
    }
    if SeenIn(events, u) {
      var i :| 0 <= i < |events| && events[i].Seen? && events[i].node.uuid == u;
      assert Seen(events[i].node) in events;
    }
    if n :| n in removals && n.uuid == u {
      assert Lost(n) in events;
    }
    if LostIn(events, u) {
      var i :| 0 <= i < |events| && events[i].Lost? && events[i].node.uuid == u;
      assert Lost(events[i].node) in events;
    }
  }

  lemma {:induction false} LostButNeverSeen(events: seq<Event>, u: string)
    requires !SeenIn(events, u)
    ensures LostIn(events, u) <==> LastLost(events, u)
  {
    if events != [] {
      var init, last := events[..|events| - 1], events[|events| - 1];
      assert forall i :: 0 <= i < |init| ==> init[i] == events[i];
      assert !SeenIn(init, u);
      LostButNeverSeen(init, u);
      assert events[|events| - 1] == last;
      if LostIn(init, u) {
        var i :| 0 <= i < |init| && init[i].Lost? && init[i].node.uuid == u;
        assert events[i] == init[i];
      }
    }
  }

  /**
   Flushing a batch leads to the same known nodes as telling every event at once, if
   and only if no node that was lost last in the batch had also been seen in it.
   */
  lemma BatchIsImmediateExactlyWhen(s: State, events: seq<Event>, removals: seq<NodeRef>, finds: seq<NodeRef>)
    requires s.pendingFinds == {} && s.pendingRemovals == {}
    requires var p := Process(s.(immediate := false), events);
             Lists(removals, p.pendingRemovals) && Lists(finds, p.pendingFinds)
    ensures Flushed(Process(s.(immediate := false), events), removals, finds).nodes.Keys
            == Process(s.(immediate := true), events).nodes.Keys
            <==> forall u :: !(LastLost(events, u) && SeenIn(events, u))
  {
    var batched := Flushed(Process(s.(immediate := false), events), removals, finds).nodes.Keys;
    var atOnce := Process(s.(immediate := true), events).nodes.Keys;
    forall u
      ensures (u in batched <==> u in atOnce) <==> !(LastLost(events, u) && SeenIn(events, u))
    {
      BatchedKeys(s.(immediate := false), events, removals, finds, u);
      ImmediateKeys(s.(immediate := true), events, u);
      if !SeenIn(events, u) {
        LostButNeverSeen(events, u);
      }
    }
  }
}
