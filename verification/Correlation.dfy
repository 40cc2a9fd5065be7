/**
 Matching replies to requests by request id, as `ServiceStub::callStubMethod` and
 `ServiceManager::find` both do it: a table of monitors for the outstanding
 requests and a table of the responses that have arrived.
 */
module Correlation {
  import opened ServiceWire
  import M = MonitorPermits

  datatype Table<R> = Table(requests: map<string, M.Counters>, responses: map<string, R>)

  function Opened<R>(t: Table<R>, id: string): Table<R> {
    t.(requests := t.requests[id := M.FRESH])
  }

  // A reply is kept, and its monitor signalled, only while its request is outstanding.
  function Answered<R>(t: Table<R>, id: string, r: R): Table<R> {
    if id in t.requests
    then Table(t.requests[id := M.Signalled(t.requests[id], 1)], t.responses[id := r])
    else t
  }

  function Closed<R>(t: Table<R>, id: string): Table<R> {
    Table(t.requests - {id}, t.responses - {id})
  }

  /** The object side of a call; `callStubMethod` is `Open`, a wait on the monitor, then `Collect`. */
  class ServiceStub<Obj> {
    var requests: map<string, M.Counters>
    var responses: map<string, Obj>

    ghost function View(): Table<Obj>
      reads this
    {
      Table(requests, responses)
    }

    constructor ()
      ensures View() == Table(map[], map[])
    {
      requests, responses := map[], map[];
    }

    method Open(reqId: string)
      requires reqId !in requests
      modifies this
      ensures View() == Opened(old(View()), reqId)
    {
      requests := requests[reqId := M.FRESH];
    }

    method Receive(obj: Obj, msg: Meta)
      modifies this
      ensures View() == if "respId" in msg then Answered(old(View()), msg["respId"], obj) else old(View())
    {
      if "respId" in msg {
        var respId := msg["respId"];
        if respId in requests {
          responses := responses[respId := obj];
          requests := requests[respId := M.Signalled(requests[respId], 1)];
        }
      }
    }

    // Indexing the response table yields nothing when no response is there.
    method Collect(reqId: string) returns (out: Option<Obj>)
      modifies this
      ensures View() == Closed(old(View()), reqId)
      ensures out == if reqId in old(responses) then Some(old(responses)[reqId]) else None
    {
      requests := requests - {reqId};
      out := if reqId in responses then Some(responses[reqId]) else None;
      responses := responses - {reqId};
    }
  }

  // ---------- callers, stubs and responders on one channel ----------

  datatype Phase<R> =
    | Ready                     // monitor in the table, request not yet sent
    | Sent                      // request sent, not yet waiting
    | Blocked                   // asleep in the monitor
    | Passed                    // the wait has returned
    | Returned(out: Option<R>)

  datatype Call<Q, R> = Call(stub: nat, query: Q, phase: Phase<R>)

  /**
   `sent` and `replies` are all messages ever put on the channel; a message may be
   handled any number of times, in any order, or never. `log` is what responders produced.
   */
  datatype State<Q(==), R(==)> = State(
    tables: map<nat, Table<R>>,
    calls: map<string, Call<Q, R>>,
    sent: set<(string, Q)>,
    replies: set<(string, R)>,
    log: set<(string, Q, R)>)

  datatype Step<Q, R> =
    | Begin(stub: nat, id: string, query: Q)
    | Send(id: string)
    | Wait(id: string)
    | Wakeup(id: string)
    | Finish(id: string)
    | Respond(id: string, query: Q, result: R)
    | Deliver(stub: nat, id: string, result: R)

  ghost predicate Init<Q, R>(s: State<Q, R>) {
    && s.calls == map[] && s.sent == {} && s.replies == {} && s.log == {}
    && forall i :: i in s.tables ==> s.tables[i] == Table(map[], map[])
  }

  // Call `id` is at `phase` and its monitor is in the table of its stub.
  ghost predicate At<Q, R>(s: State<Q, R>, id: string, phase: Phase<R>) {
    && id in s.calls && s.calls[id].phase == phase && s.calls[id].stub in s.tables
    && id in s.tables[s.calls[id].stub].requests
  }

  ghost function MonitorOf<Q, R>(s: State<Q, R>, id: string, phase: Phase<R>): M.Counters
    requires At(s, id, phase)
  {
    s.tables[s.calls[id].stub].requests[id]
  }

  ghost function Moved<Q, R>(s: State<Q, R>, id: string, phase: Phase<R>): State<Q, R>
    requires id in s.calls
  {
    s.(calls := s.calls[id := s.calls[id].(phase := phase)])
  }

  ghost function WithMonitor<Q, R>(s: State<Q, R>, id: string, phase: Phase<R>, c: M.Counters): State<Q, R>
    requires At(s, id, phase)
  {
    var i := s.calls[id].stub;
    s.(tables := s.tables[i := s.tables[i].(requests := s.tables[i].requests[id := c])])
  }

  ghost predicate Next<Q, R>(s: State<Q, R>, step: Step<Q, R>, s': State<Q, R>) {
    match step
    case Begin(i, id, q) =>
      && i in s.tables && id !in s.calls
      && s' == s.(tables := s.tables[i := Opened(s.tables[i], id)], calls := s.calls[id := Call(i, q, Ready)])
    case Send(id) =>
      At(s, id, Ready) && s' == Moved(s, id, Sent).(sent := s.sent + {(id, s.calls[id].query)})
    case Wait(id) =>
      && At(s, id, Sent)
      && var c := MonitorOf(s, id, Sent);
         s' == Moved(WithMonitor(s, id, Sent, M.Entered(c)), id, if c.signaled > 0 then Passed else Blocked)
    case Wakeup(id) =>
      && At(s, id, Blocked) && MonitorOf(s, id, Blocked).signaled > 0
      && s' == Moved(WithMonitor(s, id, Blocked, M.Woken(MonitorOf(s, id, Blocked))), id, Passed)
    case Finish(id) =>
      && At(s, id, Passed)
      && var i := s.calls[id].stub;
         var out := if id in s.tables[i].responses then Some(s.tables[i].responses[id]) else None;
         s' == Moved(s, id, Returned(out)).(tables := s.tables[i := Closed(s.tables[i], id)])
    case Respond(id, q, r) =>
      (id, q) in s.sent && s' == s.(replies := s.replies + {(id, r)}, log := s.log + {(id, q, r)})
    case Deliver(i, id, r) =>
      && i in s.tables && (id, r) in s.replies
      && s' == s.(tables := s.tables[i := Answered(s.tables[i], id, r)])
  }

  ghost predicate IsRun<Q, R>(ss: seq<State<Q, R>>, steps: seq<Step<Q, R>>) {
    && |ss| == |steps| + 1 && Init(ss[0])
    && forall i :: 0 <= i < |steps| ==> Next(ss[i], steps[i], ss[i + 1])
  }

  // ---------- the invariant ----------

  ghost predicate Outstanding<Q, R>(s: State<Q, R>, i: nat, id: string) {
    id in s.calls && s.calls[id].stub == i && !s.calls[id].phase.Returned?
  }

  ghost predicate TableInv<Q, R>(s: State<Q, R>, i: nat, id: string)
    requires i in s.tables
  {
    var t := s.tables[i];
    && (id in t.requests <==> Outstanding(s, i, id))
    && (id in t.responses ==> id in t.requests && (id, s.calls[id].query, t.responses[id]) in s.log)
    && (id in t.requests ==> MonitorInv(t, id, s.calls[id].phase))
  }

  // A permit, or a wait that used one, means that a response is there.
  ghost predicate MonitorInv<R>(t: Table<R>, id: string, phase: Phase<R>)
    requires id in t.requests
  {
    var c := t.requests[id];
    && c.waiters == (if phase.Blocked? then 1 else 0)
    && 0 <= c.signaled <= 1
    && (phase.Passed? ==> id in t.responses)
    && (!phase.Passed? ==> (c.signaled > 0 <==> id in t.responses))
  }

  ghost predicate ChannelInv<Q, R>(s: State<Q, R>) {
    && (forall m :: m in s.sent ==> m.0 in s.calls && s.calls[m.0].query == m.1)
    && (forall m :: m in s.replies ==> m.0 in s.calls && (m.0, s.calls[m.0].query, m.1) in s.log)
  }

  ghost predicate ReturnInv<Q, R>(s: State<Q, R>, id: string)
    requires id in s.calls
  {
    && s.calls[id].stub in s.tables
    && (!s.calls[id].phase.Ready? ==> (id, s.calls[id].query) in s.sent)
    && (s.calls[id].phase.Returned? ==>
          && s.calls[id].phase.out.Some?
          && (id, s.calls[id].query, s.calls[id].phase.out.value) in s.log)
  }

  ghost predicate Inv<Q, R>(s: State<Q, R>) {
    && ChannelInv(s)
    && (forall i, id :: i in s.tables ==> TableInv(s, i, id))
    && (forall id :: id in s.calls ==> ReturnInv(s, id))
  }

  lemma StepKeepsChannelInv<Q, R>(s: State<Q, R>, step: Step<Q, R>, s': State<Q, R>)
    requires Inv(s) && Next(s, step, s')
    ensures ChannelInv(s')
  {
  }

  lemma StepKeepsTableInv<Q, R>(s: State<Q, R>, step: Step<Q, R>, s': State<Q, R>, i: nat, id: string)
    requires Inv(s) && Next(s, step, s') && i in s'.tables
    ensures TableInv(s', i, id)
  {
    assert TableInv(s, i, id);
    if id in s.calls {
      assert ReturnInv(s, id);
    }
    if step.Respond? || step.Deliver? {
      NetworkKeepsTableInv(s, step, s', i, id);
    } else if step.Wait? || step.Wakeup? {
      WaitingKeepsTableInv(s, step, s', i, id);
    } else {
      CallerKeepsTableInv(s, step, s', i, id);
    }
  }

  lemma NetworkKeepsTableInv<Q, R>(s: State<Q, R>, step: Step<Q, R>, s': State<Q, R>, i: nat, id: string)
    requires ChannelInv(s) && Next(s, step, s') && (step.Respond? || step.Deliver?) && i in s.tables && TableInv(s, i, id)
    ensures TableInv(s', i, id)
  {
  }

  lemma WaitingKeepsTableInv<Q, R>(s: State<Q, R>, step: Step<Q, R>, s': State<Q, R>, i: nat, id: string)
    requires Next(s, step, s') && (step.Wait? || step.Wakeup?) && i in s.tables && TableInv(s, i, id)
    ensures TableInv(s', i, id)
  {
  }

  lemma CallerKeepsTableInv<Q, R>(s: State<Q, R>, step: Step<Q, R>, s': State<Q, R>, i: nat, id: string)
    requires Next(s, step, s') && (step.Begin? || step.Send? || step.Finish?) && i in s.tables && TableInv(s, i, id)
    requires id in s.calls ==> s.calls[id].stub in s.tables
    ensures TableInv(s', i, id)
  {
  }

  lemma StepKeepsReturnInv<Q, R>(s: State<Q, R>, step: Step<Q, R>, s': State<Q, R>, id: string)
    requires Inv(s) && Next(s, step, s') && id in s'.calls
    ensures ReturnInv(s', id)
  {
    if id in s.calls {
      assert ReturnInv(s, id);
      assert TableInv(s, s.calls[id].stub, id);
    }
  }

  lemma StepKeepsInv<Q, R>(s: State<Q, R>, step: Step<Q, R>, s': State<Q, R>)
    requires Inv(s) && Next(s, step, s')
    ensures Inv(s')
  {
    StepKeepsChannelInv(s, step, s');
    forall i, id | i in s'.tables
      ensures TableInv(s', i, id)
    {
      StepKeepsTableInv(s, step, s', i, id);
    }
    forall id | id in s'.calls
      ensures ReturnInv(s', id)
    {
      StepKeepsReturnInv(s, step, s', id);
    }
  }

  lemma {:induction false} InvHolds<Q, R>(ss: seq<State<Q, R>>, steps: seq<Step<Q, R>>, n: nat)
    requires IsRun(ss, steps) && n <= |steps|
    ensures Inv(ss[n])
  {
    if n > 0 {
      InvHolds(ss, steps, n - 1);
      assert Next(ss[n - 1], steps[n - 1], ss[n]);
      StepKeepsInv(ss[n - 1], steps[n - 1], ss[n]);
    }
  }

  // ---------- results ----------

  /**
   What a call returns was produced by a responder from that very request, and is
   never the entry that indexing a map makes up.
   */
  lemma NeverCrossesWires<Q, R>(ss: seq<State<Q, R>>, steps: seq<Step<Q, R>>, n: nat, id: string)
    requires IsRun(ss, steps) && n <= |steps|
    requires id in ss[n].calls && ss[n].calls[id].phase.Returned?
    ensures ss[n].calls[id].phase.out.Some?
    ensures exists k :: 0 <= k < n && steps[k] == Respond(id, ss[n].calls[id].query, ss[n].calls[id].phase.out.value)
  {
    InvHolds(ss, steps, n);
    assert ReturnInv(ss[n], id);
    LogIsWhatResponded(ss, steps, n, (id, ss[n].calls[id].query, ss[n].calls[id].phase.out.value));
  }

  lemma LogGrowsByResponding<Q, R>(s: State<Q, R>, step: Step<Q, R>, s': State<Q, R>)
    requires Next(s, step, s')
    ensures step.Respond? ==> (step.id, step.query) in s.sent && s'.log == s.log + {(step.id, step.query, step.result)}
    ensures !step.Respond? ==> s'.log == s.log
  {
  }

  lemma {:induction false} LogIsWhatResponded<Q, R>(ss: seq<State<Q, R>>, steps: seq<Step<Q, R>>, n: nat, entry: (string, Q, R))
    requires IsRun(ss, steps) && n <= |steps| && entry in ss[n].log
    ensures exists k :: 0 <= k < n && steps[k] == Respond(entry.0, entry.1, entry.2)
  {
    if n > 0 {
      assert Next(ss[n - 1], steps[n - 1], ss[n]);
      if entry in ss[n - 1].log {
        LogIsWhatResponded(ss, steps, n - 1, entry);
      } else {
        assert steps[n - 1] == Respond(entry.0, entry.1, entry.2);
      }
    }
  }

  /** In every run the request table is exactly the outstanding calls, and the response table holds no other. */
  lemma TablesHoldOutstandingCalls<Q, R>(ss: seq<State<Q, R>>, steps: seq<Step<Q, R>>, n: nat, i: nat)
    requires IsRun(ss, steps) && n <= |steps| && i in ss[n].tables
    ensures forall id :: id in ss[n].tables[i].requests <==> Outstanding(ss[n], i, id)
    ensures ss[n].tables[i].responses.Keys <= ss[n].tables[i].requests.Keys
  {
    InvHolds(ss, steps, n);
    TablesAreOutstanding(ss[n], i);
  }

  lemma TablesAreOutstanding<Q, R>(s: State<Q, R>, i: nat)
    requires Inv(s) && i in s.tables
    ensures forall id :: id in s.tables[i].requests <==> Outstanding(s, i, id)
    ensures s.tables[i].responses.Keys <= s.tables[i].requests.Keys
  {
    forall id
      ensures id in s.tables[i].requests <==> Outstanding(s, i, id)
      ensures id in s.tables[i].responses ==> id in s.tables[i].requests
    {
      assert TableInv(s, i, id);
    }
  }

  /** A reply for a call that has returned, or for a call of another stub, changes nothing. */
  lemma StrayReplyChangesNothing<Q, R>(ss: seq<State<Q, R>>, steps: seq<Step<Q, R>>, n: nat)
    requires IsRun(ss, steps) && n < |steps| && steps[n].Deliver?
    requires !Outstanding(ss[n], steps[n].stub, steps[n].id)
    ensures ss[n + 1] == ss[n]
  {
    InvHolds(ss, steps, n);
    assert Next(ss[n], steps[n], ss[n + 1]);
    StrayIsIgnored(ss[n], steps[n], ss[n + 1]);
  }

  lemma StrayIsIgnored<Q, R>(s: State<Q, R>, step: Step<Q, R>, s': State<Q, R>)
    requires Inv(s) && Next(s, step, s') && step.Deliver? && !Outstanding(s, step.stub, step.id)
    ensures s' == s
  {
    assert TableInv(s, step.stub, step.id);
    assert s.tables[step.stub := s.tables[step.stub]] == s.tables;
  }

  /** A reply delivered to an outstanding call is kept for it, in place of any earlier one, and nothing else changes. */
  lemma DeliveredReplyIsKept<Q, R>(ss: seq<State<Q, R>>, steps: seq<Step<Q, R>>, n: nat)
    requires IsRun(ss, steps) && n < |steps| && steps[n].Deliver?
    requires Outstanding(ss[n], steps[n].stub, steps[n].id)
    ensures var i, id, t := steps[n].stub, steps[n].id, ss[n].tables;
            && i in t && i in ss[n + 1].tables
            && ss[n + 1].tables[i].responses == t[i].responses[id := steps[n].result]
            && ss[n + 1].calls == ss[n].calls
            && forall j :: j in t && j != i ==> j in ss[n + 1].tables && ss[n + 1].tables[j] == t[j]
  {
    InvHolds(ss, steps, n);
    assert Next(ss[n], steps[n], ss[n + 1]);
    assert TableInv(ss[n], steps[n].stub, steps[n].id);
  }

  // ---------- every answered call can return ----------

  ghost predicate IsPath<Q, R>(ss: seq<State<Q, R>>, steps: seq<Step<Q, R>>) {
    |ss| == |steps| + 1 && forall i :: 0 <= i < |steps| ==> Next(ss[i], steps[i], ss[i + 1])
  }

  // The steps a call takes by itself once its request is sent.
  predicate IsOwnStep<Q, R>(step: Step<Q, R>, id: string) {
    (step.Wait? || step.Wakeup? || step.Finish?) && step.id == id
  }

  // The request of the call has been sent, and the call has not returned.
  ghost predicate Awaits<Q, R>(s: State<Q, R>, id: string) {
    id in s.calls && (s.calls[id].phase.Sent? || s.calls[id].phase.Blocked? || s.calls[id].phase.Passed?)
  }

  // The call has the response `r` in the table of its stub.
  ghost predicate HasResponse<Q, R>(s: State<Q, R>, id: string, r: R) {
    && id in s.calls && s.calls[id].stub in s.tables && id in s.tables[s.calls[id].stub].responses
    && s.tables[s.calls[id].stub].responses[id] == r
  }

  lemma DeliveryAnswers<Q, R>(s: State<Q, R>, id: string, r: R) returns (s': State<Q, R>)
    requires Inv(s) && Awaits(s, id) && (id, r) in s.replies
    ensures Next(s, Deliver(s.calls[id].stub, id, r), s') && HasResponse(s', id, r) && s'.calls == s.calls && Inv(s')
  {
    var i := s.calls[id].stub;
    assert ReturnInv(s, id);
    assert TableInv(s, i, id);
    s' := s.(tables := s.tables[i := Answered(s.tables[i], id, r)]);
    StepKeepsInv(s, Deliver(i, id, r), s');
  }

  lemma AnsweredPasses<Q, R>(s: State<Q, R>, id: string, r: R) returns (step: Step<Q, R>, s': State<Q, R>)
    requires Inv(s) && HasResponse(s, id, r) && (s.calls[id].phase.Sent? || s.calls[id].phase.Blocked?)
    ensures IsOwnStep(step, id) && Next(s, step, s') && HasResponse(s', id, r) && s'.calls[id].phase == Passed && Inv(s')
  {
    assert TableInv(s, s.calls[id].stub, id);
    if s.calls[id].phase.Sent? {
      step := Wait(id);
      s' := Moved(WithMonitor(s, id, Sent, M.Entered(MonitorOf(s, id, Sent))), id, Passed);
    } else {
      step := Wakeup(id);
      s' := Moved(WithMonitor(s, id, Blocked, M.Woken(MonitorOf(s, id, Blocked))), id, Passed);
    }
    StepKeepsInv(s, step, s');
  }

  lemma PassedReturns<Q, R>(s: State<Q, R>, id: string, r: R) returns (s': State<Q, R>)
    requires Inv(s) && HasResponse(s, id, r) && s.calls[id].phase.Passed?
    ensures Next(s, Finish(id), s') && id in s'.calls && s'.calls[id].phase == Returned(Some(r))
  {
    var i := s.calls[id].stub;
    assert TableInv(s, i, id);
    s' := Moved(s, id, Returned(Some(r))).(tables := s.tables[i := Closed(s.tables[i], id)]);
  }

  lemma AnsweredReturns<Q, R>(s: State<Q, R>, id: string, r: R) returns (ss: seq<State<Q, R>>, steps: seq<Step<Q, R>>)
    requires Inv(s) && HasResponse(s, id, r) && Awaits(s, id)
    ensures IsPath(ss, steps) && ss[0] == s && (forall i :: 0 <= i < |steps| ==> IsOwnStep(steps[i], id))
    ensures var last := ss[|steps|]; id in last.calls && last.calls[id].phase == Returned(Some(r))
  {
    if s.calls[id].phase.Passed? {
      var s' := PassedReturns(s, id, r);
      ss, steps := [s, s'], [Finish(id)];
    } else {
      var step, s' := AnsweredPasses(s, id, r);
      var s'' := PassedReturns(s', id, r);
      ss, steps := [s, s', s''], [step, Finish(id)];
    }
  }

  /**
   From every reachable state in which a call waits and a reply to it is on the channel,
   one delivery of that reply and steps of the call alone make the call return it.
   */
  lemma AnsweredCallReturns<Q, R>(ss: seq<State<Q, R>>, steps: seq<Step<Q, R>>, n: nat, id: string, r: R)
    returns (more: seq<State<Q, R>>, own: seq<Step<Q, R>>)
    requires IsRun(ss, steps) && n <= |steps| && Awaits(ss[n], id) && (id, r) in ss[n].replies
    ensures IsPath(more, [Deliver(ss[n].calls[id].stub, id, r)] + own) && more[0] == ss[n]
    ensures forall i :: 0 <= i < |own| ==> IsOwnStep(own[i], id)
    ensures var last := more[|own| + 1]; id in last.calls && last.calls[id].phase == Returned(Some(r))
  {
    InvHolds(ss, steps, n);
    more, own := ReplyMakesReturn(ss[n], id, r);
  }

  lemma ReplyMakesReturn<Q, R>(s: State<Q, R>, id: string, r: R) returns (more: seq<State<Q, R>>, own: seq<Step<Q, R>>)
    requires Inv(s) && Awaits(s, id) && (id, r) in s.replies
    ensures IsPath(more, [Deliver(s.calls[id].stub, id, r)] + own) && more[0] == s
    ensures forall i :: 0 <= i < |own| ==> IsOwnStep(own[i], id)
    ensures var last := more[|own| + 1]; id in last.calls && last.calls[id].phase == Returned(Some(r))
  {
    var s' := DeliveryAnswers(s, id, r);
    var rest;
    rest, own := AnsweredReturns(s', id, r);
    more := [s] + rest;
    var steps := [Deliver(s.calls[id].stub, id, r)] + own;
    forall i | 0 <= i < |steps|
      ensures Next(more[i], steps[i], more[i + 1])
    {
      if i > 0 {
        assert Next(rest[i - 1], own[i - 1], rest[i]);
      }
    }
  }

  /** A call that a delivered reply has signalled can always proceed. */
  lemma AnsweredCallProceeds<Q, R>(ss: seq<State<Q, R>>, steps: seq<Step<Q, R>>, n: nat, id: string)
    requires IsRun(ss, steps) && n <= |steps|
    requires id in ss[n].calls && ss[n].calls[id].phase == Blocked
    requires ss[n].calls[id].stub in ss[n].tables && id in ss[n].tables[ss[n].calls[id].stub].responses
    ensures exists s' :: Next(ss[n], Wakeup(id), s')
  {
    InvHolds(ss, steps, n);
    var s := ss[n];
    assert ReturnInv(s, id);
    assert TableInv(s, s.calls[id].stub, id);
    assert Next(s, Wakeup(id), Moved(WithMonitor(s, id, Blocked, M.Woken(MonitorOf(s, id, Blocked))), id, Passed));
  }
}
