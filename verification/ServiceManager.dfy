/**
 The service manager object. Its tables are changed in place; `sent` collects what it
 publishes and `calls` what it tells its query listeners. Each operation is tied to
 the steps on values of `Discovery`, `Correlation` and `Connectivity`.
 */
module ServiceManager {
  import opened ServiceWire
  import opened ServiceMatch
  import opened Discovery
  import C = Correlation
  import F = Find
  import M = MonitorPermits
  import opened Connectivity

  datatype Service = Service(channel: string, endpoints: Endpoints)

  function Wire(outs: seq<Msg>, extra: Meta): seq<Meta> {
    seq(|outs|, i requires 0 <= i < |outs| => ToWire(outs[i]) + extra)
  }

  lemma WireAppend(outs: seq<Msg>, m: Msg, extra: Meta)
    ensures Wire(outs + [m], extra) == Wire(outs, extra) + [ToWire(m) + extra]
  {
  }

  // What a loop has covered when `k` is taken off its worklist.
  lemma Covered<K>(all: set<K>, todo: set<K>, k: K)
    requires k in todo
    ensures all - (todo - {k}) == if k in all then all - todo + {k} else all - todo
  {
  }

  lemma NothingLeft<K>(all: set<K>, todo: set<K>)
    ensures todo == {} ==> all - todo == all
    ensures all <= todo ==> all - todo == {}
  {
  }

  // The endpoints of the registered services.
  function EndpointsOf(svc: map<nat, Service>): World {
    World(s => if s in svc then svc[s].endpoints else Endpoints({}, {}), Endpoints({}, {}))
  }

  lemma TogetherGrows(w: World, svcs: set<nat>, s: nat, r: Endpoints)
    ensures Joined(r, Together(w, svcs + {s})) == Joined(Joined(r, Together(w, svcs)), w.service(s))
    ensures Parted(r, Together(w, svcs + {s})) == Parted(Parted(r, Together(w, svcs)), w.service(s))
  {
  }

  // The asserts on the way through `receive`.
  predicate ReceiveAssertsHold(m: Manager, msg: Meta) {
    var kind := Get(msg, "type");
    && (kind == START || kind == STOP || kind == "serviceDisc" ==> FilterAssertsHold(msg))
    && ((kind == FOUND || kind == GONE) && Get(msg, "filterId") in m.localQueries ==> Get(msg, DESC + "channel") != "")
  }

  class ServiceManager {
    const e: Engine
    var localQueries: map<string, Query>
    var remoteQueries: map<string, Filter>
    var svc: map<nat, Service>
    var localSvcDesc: map<nat, Description>
    var remoteSvcDesc: map<string, Description>
    var findRequests: map<string, M.Counters>
    var findResponses: map<string, Meta>
    var nodes: set<Node>
    var calls: seq<Callback>
    var sent: seq<Meta>

    ghost function View(): Manager
      reads this
    {
      Manager(localQueries, remoteQueries, localSvcDesc, remoteSvcDesc, calls)
    }

    ghost function Lookups(): C.Table<Meta>
      reads this
    {
      C.Table(findRequests, findResponses)
    }

    ghost predicate Valid()
      reads this
    {
      svc.Keys == localSvcDesc.Keys
    }

    constructor (engine: Engine)
      ensures Valid() && View() == EMPTY && Lookups() == C.Table(map[], map[]) && nodes == {} && sent == [] && e == engine
    {
      e := engine;
      localQueries, remoteQueries, svc, localSvcDesc, remoteSvcDesc := map[], map[], map[], map[], map[];
      findRequests, findResponses, nodes, calls, sent := map[], map[], {}, [], [];
    }

    // Publishes one more message of a batch.
    method Send(m: Msg, extra: Meta, ghost outs: seq<Msg>, ghost before: seq<Meta>) returns (ghost outs': seq<Msg>)
      requires sent == before + Wire(outs, extra)
      modifies this`sent
      ensures outs' == outs + [m] && sent == before + Wire(outs', extra)
    {
      WireAppend(outs, m, extra);
      sent := sent + [ToWire(m) + extra];
      outs' := outs + [m];
    }

    method Welcome(subId: string) returns (ghost outs: seq<Msg>)
      modifies this`sent
      ensures Welcomes(View(), outs)
      ensures sent == old(sent) + Wire(outs, map["subscriber" := subId])
    {
      outs := [];
      ghost var all, done: set<string> := localQueries.Keys, {};
      var todo := localQueries.Keys;
      NothingLeft(all, todo);
      while todo != {}
        invariant todo <= all && done == all - todo
        invariant StartsFor(localQueries, done, outs)
        invariant sent == old(sent) + Wire(outs, map["subscriber" := subId])
        decreases todo
      {
        var u :| u in todo;
        Covered(all, todo, u);
        OneMoreStart(localQueries, done, outs, u);
        outs := Send(Start(localQueries[u].filter), map["subscriber" := subId], outs, old(sent));
        todo, done := todo - {u}, done + {u};
      }
      NothingLeft(all, todo);
    }

    method StartQuery(f: Filter, listener: nat)
      modifies this`localQueries, this`sent
      ensures View() == QueryStarted(old(View()), f, listener)
      ensures sent == old(sent) + [ToWire(Start(f))]
    {
      var key := if f.uuid in localQueries then localQueries[f.uuid].filter else f;
      localQueries := localQueries[f.uuid := Query(key, listener)];
      sent := sent + [EncodeFilter(f) + map["type" := START]];
    }

    method StopQuery(f: Filter)
      modifies this`localQueries, this`sent
      ensures View() == QueryStopped(old(View()), f)
      ensures sent == if f.uuid in old(localQueries) then old(sent) + [ToWire(Stop(f))] else old(sent)
    {
      if f.uuid in localQueries {
        sent := sent + [EncodeFilter(f) + map["type" := STOP]];
        localQueries := localQueries - {f.uuid};
      }
      assert f.uuid !in old(localQueries) ==> old(localQueries) - {f.uuid} == old(localQueries);
    }

    method FindLocal(f: Filter) returns (found: set<nat>)
      ensures found == Matching(e, localSvcDesc, f)
    {
      found := {};
      var todo := localSvcDesc.Keys;
      while todo != {}
        invariant todo <= localSvcDesc.Keys
        invariant found == set s | s in localSvcDesc && s !in todo && Matches(e, f, localSvcDesc[s])
        decreases todo
      {
        var s :| s in todo;
        if Matches(e, f, localSvcDesc[s]) {
          found := found + {s};
        }
        todo := todo - {s};
      }
    }

    // ---------- nodes ----------

    method AddedToNode(node: Node)
      modifies this`nodes, node
      ensures node.View() == Joined(old(node.View()), Together(EndpointsOf(svc), svc.Keys))
      ensures nodes == old(nodes) + {node}
    {
      ghost var w := EndpointsOf(svc);
      var todo := svc.Keys;
      assert svc.Keys - todo == {};
      while todo != {}
        invariant todo <= svc.Keys && nodes == old(nodes)
        invariant node.View() == Joined(old(node.View()), Together(w, svc.Keys - todo))
        decreases todo
      {
        var s :| s in todo;
        node.Connect(svc[s].endpoints);
        assert svc.Keys - (todo - {s}) == svc.Keys - todo + {s};
        TogetherGrows(w, svc.Keys - todo, s, old(node.View()));
        todo := todo - {s};
      }
      assert svc.Keys - todo == svc.Keys;
      nodes := nodes + {node};
    }

    method RemovedFromNode(node: Node)
      modifies this`nodes, node
      ensures node.View() == if node in old(nodes) then Parted(old(node.View()), Together(EndpointsOf(svc), svc.Keys))
                             else old(node.View())
      ensures nodes == old(nodes) - {node}
    {
      if node !in nodes {
        return;
      }
      ghost var w := EndpointsOf(svc);
      var todo := svc.Keys;
      assert svc.Keys - todo == {};
      while todo != {}
        invariant todo <= svc.Keys && nodes == old(nodes)
        invariant node.View() == Parted(old(node.View()), Together(w, svc.Keys - todo))
        decreases todo
      {
        var s :| s in todo;
        node.Disconnect(svc[s].endpoints);
        assert svc.Keys - (todo - {s}) == svc.Keys - todo + {s};
        TogetherGrows(w, svc.Keys - todo, s, old(node.View()));
        todo := todo - {s};
      }
      assert svc.Keys - todo == svc.Keys;
      nodes := nodes - {node};
    }

    // ---------- services ----------

    // One notice to every remote query that the description matches.
    method Announce(d: Description, kind: Kind) returns (ghost outs: seq<Msg>)
      modifies this`sent
      ensures NoticesFor(Interested(e, remoteQueries, d), d, kind, outs)
      ensures sent == old(sent) + Wire(outs, map[])
    {
      outs := [];
      ghost var all, done: set<string> := Interested(e, remoteQueries, d), {};
      var todo := remoteQueries.Keys;
      NothingLeft(all, todo);
      while todo != {}
        invariant todo <= remoteQueries.Keys && done == all - todo
        invariant NoticesFor(done, d, kind, outs)
        invariant sent == old(sent) + Wire(outs, map[])
        decreases todo
      {
        var u :| u in todo;
        Covered(all, todo, u);
        if Matches(e, remoteQueries[u], d) {
          OneMoreNotice(done, d, kind, outs, u);
          outs := Send(Notice(u, d, kind), map[], outs, old(sent));
          done := done + {u};
        }
        todo := todo - {u};
      }
      NothingLeft(all, todo);
    }

    method AddService(id: nat, service: Service, desc: Description) returns (ghost outs: seq<Msg>)
      requires Valid() && service.channel != ""
      modifies this, nodes
      ensures Valid() && nodes == old(nodes) && Lookups() == old(Lookups())
      ensures var d := desc.(channel := service.channel);
              && View() == ServiceAdded(old(View()), id, d)
              && (if id in old(svc) then outs == [] else Announces(e, old(View()), d, outs))
      ensures svc == if id in old(svc) then old(svc) else old(svc)[id := service]
      ensures sent == old(sent) + Wire(outs, map[])
      ensures forall n :: n in nodes ==>
                n.View() == if id in old(svc) then old(n.View()) else Joined(old(n.View()), service.endpoints)
    {
      outs := [];
      if id in svc {
        return;
      }
      var d := desc.(channel := service.channel);
      svc := svc[id := service];
      localSvcDesc := localSvcDesc[id := d];
      ConnectAll(service.endpoints);
      outs := Announce(d, Added);
    }

    method RemoveService(id: nat) returns (ghost outs: seq<Msg>)
      requires Valid()
      modifies this, nodes
      ensures Valid() && nodes == old(nodes) && Lookups() == old(Lookups())
      ensures View() == ServiceRemoved(old(View()), id)
      ensures if id in old(svc) then Withdraws(e, old(View()), old(localSvcDesc)[id], outs) else outs == []
      ensures svc == old(svc) - {id} && sent == old(sent) + Wire(outs, map[])
      ensures forall n :: n in nodes ==>
                n.View() == if id in old(svc) then Parted(old(n.View()), old(svc)[id].endpoints) else old(n.View())
    {
      outs := [];
      if id in svc {
        outs := Withdraw(id);
      } else {
        assert svc - {id} == svc && localSvcDesc - {id} == localSvcDesc;
      }
    }

    method Withdraw(id: nat) returns (ghost outs: seq<Msg>)
      requires Valid() && id in svc
      modifies this`svc, this`localSvcDesc, this`sent, nodes
      ensures svc == old(svc) - {id} && localSvcDesc == old(localSvcDesc) - {id}
      ensures NoticesFor(Interested(e, remoteQueries, old(localSvcDesc)[id]), old(localSvcDesc)[id], Removed, outs)
      ensures sent == old(sent) + Wire(outs, map[])
      ensures forall n :: n in nodes ==> n.View() == Parted(old(n.View()), old(svc)[id].endpoints)
    {
      DisconnectAll(svc[id].endpoints);
      assert id in localSvcDesc;
      var desc := localSvcDesc[id];
      outs := Announce(desc, Removed);
      svc := svc - {id};
      localSvcDesc := localSvcDesc - {id};
    }

    method ConnectAll(endpoints: Endpoints)
      modifies nodes
      ensures forall n :: n in nodes ==> n.View() == Joined(old(n.View()), endpoints)
    {
      var todo := nodes;
      while todo != {}
        invariant todo <= nodes
        invariant forall n :: n in todo ==> n.View() == old(n.View())
        invariant forall n :: n in nodes && n !in todo ==> n.View() == Joined(old(n.View()), endpoints)
        decreases todo
      {
        var node :| node in todo;
        node.Connect(endpoints);
        todo := todo - {node};
      }
    }

    method DisconnectAll(endpoints: Endpoints)
      modifies nodes
      ensures forall n :: n in nodes ==> n.View() == Parted(old(n.View()), endpoints)
    {
      var todo := nodes;
      while todo != {}
        invariant todo <= nodes
        invariant forall n :: n in todo ==> n.View() == old(n.View())
        invariant forall n :: n in nodes && n !in todo ==> n.View() == Parted(old(n.View()), endpoints)
        decreases todo
      {
        var node :| node in todo;
        node.Disconnect(endpoints);
        todo := todo - {node};
      }
    }

    // ---------- one-shot lookup ----------

    // `find` up to its wait.
    method OpenFind(f: Filter, reqId: string)
      modifies this`findRequests, this`sent
      ensures Lookups() == C.Opened(old(Lookups()), reqId)
      ensures sent == old(sent) + [F.FindMessage(f, reqId)]
    {
      findRequests := findRequests[reqId := M.FRESH];
      sent := sent + [EncodeFilter(f) + map["type" := "serviceDisc", "reqId" := reqId]];
    }

    // `find` after its wait.
    method CollectFind(reqId: string) returns (found: Option<Description>)
      modifies this`findRequests, this`findResponses
      ensures Lookups() == C.Closed(old(Lookups()), reqId)
      ensures found == if reqId in old(findResponses) then Some(DecodeDescription(old(findResponses)[reqId])) else None
    {
      findRequests := findRequests - {reqId};
      if reqId in findResponses {
        found := Some(DecodeDescription(findResponses[reqId]));
        findResponses := findResponses - {reqId};
      } else {
        found := None;
        assert findResponses - {reqId} == findResponses;
      }
    }

    // ---------- messages ----------

    method ReceiveFindReply(msg: Meta)
      modifies this`findRequests, this`findResponses
      ensures Lookups() == if "respId" in msg then C.Answered(old(Lookups()), msg["respId"], msg) else old(Lookups())
    {
      if "respId" in msg {
        var respId := msg["respId"];
        if respId in findRequests {
          findResponses := findResponses[respId := msg];
          findRequests := findRequests[respId := M.Signalled(findRequests[respId], 1)];
        }
      }
    }

    // Any one matching service answers a lookup.
    method AnswerFind(f: Filter, reqId: string) returns (ghost answer: Option<nat>)
      modifies this`sent
      ensures answer.None? <==> Matching(e, localSvcDesc, f) == {}
      ensures answer.Some? ==> answer.value in Matching(e, localSvcDesc, f)
      ensures sent == old(sent) + Answers(answer, reqId)
    {
      var found := FindLocal(f);
      answer := None;
      if found != {} {
        var s :| s in found;
        answer := Some(s);
        var desc := localSvcDesc[s];
        sent := sent + [EncodeDescription(desc) + map["respId" := reqId] + map[DESC + "channel" := desc.channel]];
      }
    }

    // The reply to a lookup, if one of the services answers it.
    ghost function Answers(answer: Option<nat>, reqId: string): seq<Meta>
      requires answer.Some? ==> answer.value in localSvcDesc
      reads this
    {
      if answer.Some? then [F.FoundMessage(localSvcDesc[answer.value], reqId)] else []
    }

    method ReceiveStart(f: Filter) returns (ghost outs: seq<Msg>)
      modifies this`remoteQueries, this`sent
      ensures remoteQueries == old(remoteQueries)[f.uuid := f]
      ensures RepliesFor(localSvcDesc, f.uuid, Matching(e, localSvcDesc, f), outs)
      ensures sent == old(sent) + Wire(outs, map[])
    {
      remoteQueries := remoteQueries[f.uuid := f];
      var found := FindLocal(f);
      outs := Reply(f, found);
    }

    method Reply(f: Filter, found: set<nat>) returns (ghost outs: seq<Msg>)
      requires found <= Matching(e, localSvcDesc, f)
      modifies this`sent
      ensures RepliesFor(localSvcDesc, f.uuid, found, outs)
      ensures sent == old(sent) + Wire(outs, map[])
    {
      outs := [];
      ghost var done: set<nat> := {};
      var todo := found;
      NothingLeft(found, todo);
      while todo != {}
        invariant todo <= found && done == found - todo
        invariant RepliesFor(localSvcDesc, f.uuid, done, outs)
        invariant sent == old(sent) + Wire(outs, map[])
        decreases todo
      {
        var s :| s in todo;
        Covered(found, todo, s);
        if Matches(e, f, localSvcDesc[s]) {
          OneMoreReply(localSvcDesc, f.uuid, done, outs, s);
          outs := Send(Found(f.uuid, localSvcDesc[s]), map[], outs, old(sent));
        }
        todo, done := todo - {s}, done + {s};
      }
      NothingLeft(found, todo);
    }

    method ReceiveNotice(msg: Meta, kind: Kind)
      requires Get(msg, "filterId") in localQueries ==> Get(msg, DESC + "channel") != ""
      modifies this`remoteSvcDesc, this`calls
      ensures View() == Noticed(old(View()), Get(msg, "filterId"), DecodeDescription(msg), kind)
    {
      var u, channel := Get(msg, "filterId"), Get(msg, DESC + "channel");
      if u in localQueries {
        var listener := localQueries[u].listener;
        assert channel != "";
        if channel !in remoteSvcDesc {
          remoteSvcDesc := remoteSvcDesc[channel := DecodeDescription(msg)];
        }
        calls := calls + [Callback(listener, u, remoteSvcDesc[channel], kind)];
        if kind == Removed {
          remoteSvcDesc := remoteSvcDesc - {channel};
          assert old(remoteSvcDesc)[channel := DecodeDescription(msg)] - {channel} == old(remoteSvcDesc) - {channel};
        } else {
          assert channel in old(remoteSvcDesc) ==> old(remoteSvcDesc)[channel := old(remoteSvcDesc)[channel]] == old(remoteSvcDesc);
        }
      }
    }

    method Receive(msg: Meta) returns (ghost outs: seq<Msg>, ghost answer: Option<nat>)
      requires ReceiveAssertsHold(View(), msg)
      modifies this`findRequests, this`findResponses, this`remoteQueries, this`remoteSvcDesc, this`calls, this`sent
      ensures Lookups() == if "respId" in msg then C.Answered(old(Lookups()), msg["respId"], msg) else old(Lookups())
      ensures View() == Received(old(View()), Parse(msg))
      ensures Publishes(e, old(View()), Parse(msg), outs)
      ensures AnswerIs(msg, answer)
      ensures sent == old(sent) + Wire(outs, map[]) + Answers(answer, Get(msg, "reqId"))
    {
      ghost var v := View();
      ReceiveFindReply(msg);
      assert View() == v;
      outs, answer := Dispatch(v, msg);
    }

    // A lookup is answered by one of the services it matches, if there are any; nothing else is.
    ghost predicate AnswerIs(msg: Meta, answer: Option<nat>)
      reads this
    {
      if Get(msg, "type") == "serviceDisc" && DecodeFilter(msg).Some? then
        var found := Matching(e, localSvcDesc, DecodeFilter(msg).value);
        if found == {} then answer.None? else answer.Some? && answer.value in found
      else answer.None?
    }

    // What `receive` does by the type of a message.
    method Dispatch(ghost v: Manager, msg: Meta) returns (ghost outs: seq<Msg>, ghost answer: Option<nat>)
      requires v == View() && ReceiveAssertsHold(v, msg)
      modifies this`remoteQueries, this`remoteSvcDesc, this`calls, this`sent
      ensures View() == Received(v, Parse(msg))
      ensures Publishes(e, v, Parse(msg), outs)
      ensures AnswerIs(msg, answer)
      ensures sent == old(sent) + Wire(outs, map[]) + Answers(answer, Get(msg, "reqId"))
    {
      KindsDiffer();
      assert |"serviceDisc"| == 11 && |START| == 16 && |STOP| == 15 && |FOUND| == 16 && |GONE| == 18;
      outs, answer := [], None;
      var kind := Get(msg, "type");
      if kind == "serviceDisc" {
        answer := AnswerFind(DecodeFilter(msg).value, Get(msg, "reqId"));
      }
      if kind == START {
        outs := ReceiveStart(DecodeFilter(msg).value);
      }
      if kind == STOP {
        remoteQueries := remoteQueries - {DecodeFilter(msg).value.uuid};
      }
      if kind == FOUND || kind == GONE {
        ReceiveNotice(msg, if kind == FOUND then Added else Removed);
      }
    }
  }
}
