/**
 Remote calls end to end: the request message of `ServiceStub::callStubMethod`, the
 service that answers it in `Service::receive`, and the reply that the stub takes.
 */
module RemoteCall {
  import opened ServiceWire
  import C = Correlation

  datatype Request<+Obj> = Request(methodName: string, inType: string, outType: string, input: Obj)

  // A message as it is received: its object and its metadata.
  datatype Packet<+Obj> = Packet(obj: Obj, meta: Meta)

  function RequestPacket<Obj>(id: string, r: Request<Obj>): Packet<Obj> {
    Packet(r.input, map["type" := r.inType]["reqId" := id]["methodName" := r.methodName]["outType" := r.outType])
  }

  function ReplyPacket<Obj>(id: string, outType: string, out: Obj): Packet<Obj> {
    Packet(out, map["type" := outType]["respId" := id])
  }

  // The request that a service reads off a message.
  function RequestOf<Obj>(m: Packet<Obj>): Request<Obj> {
    Request(Get(m.meta, "methodName"), Get(m.meta, "type"), Get(m.meta, "outType"), m.obj)
  }

  // What a service sends when it receives a message; `call` is its `callMethod`, with none for a null result.
  function Handled<Obj>(call: Request<Obj> -> Option<Obj>, m: Packet<Obj>): Option<Packet<Obj>> {
    if "methodName" !in m.meta || call(RequestOf(m)).None? then None
    else Some(ReplyPacket(Get(m.meta, "reqId"), Get(m.meta, "outType"), call(RequestOf(m)).value))
  }

  class Service<Obj> {
    const callMethod: Request<Obj> -> Option<Obj>

    constructor (call: Request<Obj> -> Option<Obj>)
      ensures callMethod == call
    {
      callMethod := call;
    }

    method Receive(obj: Obj, msg: Meta) returns (reply: Option<Packet<Obj>>)
      ensures reply == Handled(callMethod, Packet(obj, msg))
    {
      reply := None;
      if "methodName" in msg {
        var methodName, inType, outType := msg["methodName"], Get(msg, "type"), Get(msg, "outType");
        var out := callMethod(Request(methodName, inType, outType, obj));
        if out.Some? {
          var meta: Meta := map["type" := outType];
          meta := meta["respId" := Get(msg, "reqId")];
          reply := Some(Packet(out.value, meta));
        }
      }
    }
  }

  /**
   A service answers the very request that was sent, under its request id, unless the
   result is null. On the shared channel no stub takes a request for a reply, and no
   service answers a reply.
   */
  lemma MessagesAreTakenAsMeant<Obj>(call: Request<Obj> -> Option<Obj>, id: string, r: Request<Obj>, outType: string, out: Obj)
    ensures Handled(call, RequestPacket(id, r)) == if call(r).None? then None else Some(ReplyPacket(id, r.outType, call(r).value))
    ensures "respId" !in RequestPacket(id, r).meta
    ensures Handled(call, ReplyPacket(id, outType, out)) == None
    ensures var m := ReplyPacket(id, outType, out); Get(m.meta, "type") == outType && m.obj == out
    ensures var m := ReplyPacket(id, outType, out).meta; "respId" in m && m["respId"] == id
  {
    assert |"type"| == 4 && |"reqId"| == 5 && |"methodName"| == 10 && |"outType"| == 7 && |"respId"| == 6;
    assert RequestOf(RequestPacket(id, r)) == r;
  }

  // ---------- runs ----------

  // Stubs and callers move as in `Correlation`; services answer what was sent by their message handling alone.
  datatype Step<Obj> =
    | Core(step: C.Step<Request<Obj>, Packet<Obj>>)
    | Serve(id: string, request: Request<Obj>)

  // A stub files a reply under the id that its message names.
  ghost predicate ReadsId<Obj>(step: C.Step<Request<Obj>, Packet<Obj>>) {
    step.Deliver? ==> "respId" in step.result.meta && step.id == step.result.meta["respId"]
  }

  // The step of `Correlation` that a service's answer amounts to.
  ghost function Answer<Obj>(call: Request<Obj> -> Option<Obj>, id: string, r: Request<Obj>): C.Step<Request<Obj>, Packet<Obj>>
    requires Handled(call, RequestPacket(id, r)).Some?
  {
    var reply := Handled(call, RequestPacket(id, r)).value;
    C.Respond(Get(reply.meta, "respId"), r, reply)
  }

  ghost predicate Next<Obj>(call: Request<Obj> -> Option<Obj>, s: C.State<Request<Obj>, Packet<Obj>>, step: Step<Obj>,
                            s': C.State<Request<Obj>, Packet<Obj>>)
  {
    match step
    case Core(c) => !c.Respond? && ReadsId(c) && C.Next(s, c, s')
    case Serve(id, r) =>
      && (id, r) in s.sent
      && if Handled(call, RequestPacket(id, r)).None? then s' == s else C.Next(s, Answer(call, id, r), s')
  }

  ghost predicate IsRun<Obj>(call: Request<Obj> -> Option<Obj>, ss: seq<C.State<Request<Obj>, Packet<Obj>>>, steps: seq<Step<Obj>>) {
    && |ss| == |steps| + 1 && C.Init(ss[0])
    && forall i :: 0 <= i < |steps| ==> Next(call, ss[i], steps[i], ss[i + 1])
  }

  // Everything on record is the service's result for the request it is recorded with.
  ghost predicate Computed<Obj>(call: Request<Obj> -> Option<Obj>, s: C.State<Request<Obj>, Packet<Obj>>) {
    forall x :: x in s.log ==> call(x.1) == Some(x.2.obj)
  }

  lemma StepKeepsComputed<Obj>(call: Request<Obj> -> Option<Obj>, s: C.State<Request<Obj>, Packet<Obj>>, step: Step<Obj>,
                               s': C.State<Request<Obj>, Packet<Obj>>)
    requires C.Inv(s) && Computed(call, s) && Next(call, s, step, s')
    ensures C.Inv(s') && Computed(call, s')
  {
    match step {
      case Core(c) =>
        C.StepKeepsInv(s, c, s');
        C.LogGrowsByResponding(s, c, s');
      case Serve(id, r) =>
        MessagesAreTakenAsMeant(call, id, r, r.outType, r.input);
        if Handled(call, RequestPacket(id, r)).Some? {
          C.StepKeepsInv(s, Answer(call, id, r), s');
          C.LogGrowsByResponding(s, Answer(call, id, r), s');
        }
    }
  }

  lemma {:induction false} ComputedHolds<Obj>(call: Request<Obj> -> Option<Obj>, ss: seq<C.State<Request<Obj>, Packet<Obj>>>,
                                              steps: seq<Step<Obj>>, n: nat)
    requires IsRun(call, ss, steps) && n <= |steps|
    ensures C.Inv(ss[n]) && Computed(call, ss[n])
  {
    if n > 0 {
      ComputedHolds(call, ss, steps, n - 1);
      assert Next(call, ss[n - 1], steps[n - 1], ss[n]);
      StepKeepsComputed(call, ss[n - 1], steps[n - 1], ss[n]);
    }
  }

  /** In every run, whatever a call returns is what the service computes from that call's own method name and input. */
  lemma CallReturnsItsOwnResult<Obj>(call: Request<Obj> -> Option<Obj>, ss: seq<C.State<Request<Obj>, Packet<Obj>>>,
                                     steps: seq<Step<Obj>>, n: nat, id: string)
    requires IsRun(call, ss, steps) && n <= |steps|
    requires id in ss[n].calls && ss[n].calls[id].phase.Returned?
    ensures ss[n].calls[id].phase.out.Some?
    ensures Some(ss[n].calls[id].phase.out.value.obj) == call(ss[n].calls[id].query)
  {
    ComputedHolds(call, ss, steps, n);
    assert C.ReturnInv(ss[n], id);
  }

  /** A request that the service can answer is always answered under its own id when the service gets to it. */
  lemma AnswerIsOnItsWay<Obj>(call: Request<Obj> -> Option<Obj>, s: C.State<Request<Obj>, Packet<Obj>>, id: string, r: Request<Obj>)
    requires (id, r) in s.sent && call(r).Some?
    ensures exists s' :: Next(call, s, Serve(id, r), s') && (id, ReplyPacket(id, r.outType, call(r).value)) in s'.replies
  {
    MessagesAreTakenAsMeant(call, id, r, r.outType, r.input);
    var reply := ReplyPacket(id, r.outType, call(r).value);
    var s' := s.(replies := s.replies + {(id, reply)}, log := s.log + {(id, r, reply)});
    MessagesAreTakenAsMeant(call, id, r, r.outType, call(r).value);
    assert C.Next(s, Answer(call, id, r), s');
    assert Next(call, s, Serve(id, r), s');
  }

  ghost predicate IsPath<Obj>(call: Request<Obj> -> Option<Obj>, ss: seq<C.State<Request<Obj>, Packet<Obj>>>, steps: seq<Step<Obj>>) {
    |ss| == |steps| + 1 && forall i :: 0 <= i < |steps| ==> Next(call, ss[i], steps[i], ss[i + 1])
  }

  // The delivery of a reply and the steps of the call alone, as steps of the whole.
  lemma CorePath<Obj>(call: Request<Obj> -> Option<Obj>, ss: seq<C.State<Request<Obj>, Packet<Obj>>>,
                      stub: nat, id: string, reply: Packet<Obj>, own: seq<C.Step<Request<Obj>, Packet<Obj>>>)
    returns (steps: seq<Step<Obj>>)
    requires "respId" in reply.meta && reply.meta["respId"] == id
    requires C.IsPath(ss, [C.Deliver(stub, id, reply)] + own) && forall i :: 0 <= i < |own| ==> C.IsOwnStep(own[i], id)
    ensures |steps| == |own| + 1 && IsPath(call, ss, steps)
  {
    var cs := [C.Deliver(stub, id, reply)] + own;
    steps := seq(|cs|, i requires 0 <= i < |cs| => Core(cs[i]));
    forall i | 0 <= i < |steps|
      ensures Next(call, ss[i], steps[i], ss[i + 1])
    {
      assert C.Next(ss[i], cs[i], ss[i + 1]);
      assert i > 0 ==> C.IsOwnStep(own[i - 1], id);
    }
  }

  /**
   From every reachable state in which a call waits whose request has a result, the service
   can answer it and the call return exactly that result.
   */
  lemma CallCanReturn<Obj>(call: Request<Obj> -> Option<Obj>, ss: seq<C.State<Request<Obj>, Packet<Obj>>>,
                           steps: seq<Step<Obj>>, n: nat, id: string)
    returns (more: seq<C.State<Request<Obj>, Packet<Obj>>>, rest: seq<Step<Obj>>)
    requires IsRun(call, ss, steps) && n <= |steps|
    requires C.Awaits(ss[n], id) && call(ss[n].calls[id].query).Some?
    ensures IsPath(call, more, rest) && more[0] == ss[n]
    ensures var last := more[|rest|];
            && id in last.calls && last.calls[id].phase.Returned? && last.calls[id].phase.out.Some?
            && Some(last.calls[id].phase.out.value.obj) == call(ss[n].calls[id].query)
  {
    ComputedHolds(call, ss, steps, n);
    more, rest := WaitingCallReturns(call, ss[n], id);
  }

  lemma WaitingCallReturns<Obj>(call: Request<Obj> -> Option<Obj>, s: C.State<Request<Obj>, Packet<Obj>>, id: string)
    returns (more: seq<C.State<Request<Obj>, Packet<Obj>>>, rest: seq<Step<Obj>>)
    requires C.Inv(s) && Computed(call, s) && C.Awaits(s, id) && call(s.calls[id].query).Some?
    ensures IsPath(call, more, rest) && more[0] == s
    ensures var last := more[|rest|];
            && id in last.calls && last.calls[id].phase.Returned? && last.calls[id].phase.out.Some?
            && Some(last.calls[id].phase.out.value.obj) == call(s.calls[id].query)
  {
    var r := s.calls[id].query;
    assert C.ReturnInv(s, id);
    AnswerIsOnItsWay(call, s, id, r);
    var reply := ReplyPacket(id, r.outType, call(r).value);
    var s' :| Next(call, s, Serve(id, r), s') && (id, reply) in s'.replies;
    StepKeepsComputed(call, s, Serve(id, r), s');
    MessagesAreTakenAsMeant(call, id, r, r.outType, call(r).value);
    var path, own := C.ReplyMakesReturn(s', id, reply);
    var last := CorePath(call, path, s'.calls[id].stub, id, reply, own);
    PathGrows(call, s, Serve(id, r), path, last);
    more, rest := [s] + path, [Serve(id, r)] + last;
  }

  lemma PathGrows<Obj>(call: Request<Obj> -> Option<Obj>, s: C.State<Request<Obj>, Packet<Obj>>, step: Step<Obj>,
                       ss: seq<C.State<Request<Obj>, Packet<Obj>>>, steps: seq<Step<Obj>>)
    ensures IsPath(call, ss, steps) && Next(call, s, step, ss[0]) ==> IsPath(call, [s] + ss, [step] + steps)
  {
    if IsPath(call, ss, steps) && Next(call, s, step, ss[0]) {
      forall i | 0 <= i < |steps| + 1
        ensures Next(call, ([s] + ss)[i], ([step] + steps)[i], ([s] + ss)[i + 1])
      {
        if i > 0 {
          assert Next(call, ss[i - 1], steps[i - 1], ss[i]);
        }
      }
    }
  }
}
