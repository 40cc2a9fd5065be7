/**
 Which publishers and subscribers are registered at which node, when a service
 manager attaches its services to its nodes.
 */
module Connectivity {

  // The publishers and subscribers of a connectable, or those registered at a node.
  datatype Endpoints = Endpoints(pubs: set<string>, subs: set<string>)

  function Joined(r: Endpoints, c: Endpoints): Endpoints {
    Endpoints(r.pubs + c.pubs, r.subs + c.subs)
  }

  function Parted(r: Endpoints, c: Endpoints): Endpoints {
    Endpoints(r.pubs - c.pubs, r.subs - c.subs)
  }

  class Node {
    var publishers: set<string>
    var subscribers: set<string>

    ghost function View(): Endpoints
      reads this
    {
      Endpoints(publishers, subscribers)
    }

    constructor ()
      ensures View() == Endpoints({}, {})
    {
      publishers, subscribers := {}, {};
    }

    method Connect(conn: Endpoints)
      modifies this
      ensures View() == Joined(old(View()), conn)
    {
      var subs := conn.subs;
      while subs != {}
        invariant subs <= conn.subs && publishers == old(publishers)
        invariant subscribers == old(subscribers) + (conn.subs - subs)
        decreases subs
      {
        var sub :| sub in subs;
        subscribers := subscribers + {sub};
        subs := subs - {sub};
      }
      var pubs := conn.pubs;
      while pubs != {}
        invariant pubs <= conn.pubs && subscribers == old(subscribers) + conn.subs
        invariant publishers == old(publishers) + (conn.pubs - pubs)
        decreases pubs
      {
        var pub :| pub in pubs;
        publishers := publishers + {pub};
        pubs := pubs - {pub};
      }
    }

    method Disconnect(conn: Endpoints)
      modifies this
      ensures View() == Parted(old(View()), conn)
    {
      var pubs := conn.pubs;
      while pubs != {}
        invariant pubs <= conn.pubs && subscribers == old(subscribers)
        invariant publishers == old(publishers) - (conn.pubs - pubs)
        decreases pubs
      {
        var pub :| pub in pubs;
        publishers := publishers - {pub};
        pubs := pubs - {pub};
      }
      var subs := conn.subs;
      while subs != {}
        invariant subs <= conn.subs && publishers == old(publishers) - conn.pubs
        invariant subscribers == old(subscribers) - (conn.subs - subs)
        decreases subs
      {
        var sub :| sub in subs;
        subscribers := subscribers - {sub};
        subs := subs - {sub};
      }
    }
  }

  // ---------- one manager, its nodes and its services ----------

  // Endpoints by service; `manager` are the endpoints of the manager itself.
  datatype World = World(service: nat -> Endpoints, manager: Endpoints)

  ghost predicate Apart(c: Endpoints, d: Endpoints) {
    c.pubs !! d.pubs && c.subs !! d.subs
  }

  // Every service has endpoints of its own.
  ghost predicate Distinct(w: World) {
    && (forall s, t :: s != t ==> Apart(w.service(s), w.service(t)))
    && (forall s :: Apart(w.service(s), w.manager) && (w.service(s).pubs != {} || w.service(s).subs != {}))
  }

  // All endpoints of a set of services.
  function Together(w: World, svcs: set<nat>): Endpoints {
    Endpoints(set s, p | s in svcs && p in w.service(s).pubs :: p,
              set s, p | s in svcs && p in w.service(s).subs :: p)
  }

  // `nodes`, `svc` and `described` are the manager's `_nodes` and the keys of `_svc` and `_localSvcDesc`.
  datatype Net = Net(regs: map<nat, Endpoints>, nodes: set<nat>, svc: set<nat>, described: set<nat>)

  datatype Step =
    | ConnectManager(node: nat)        // Node::connect on the manager
    | DisconnectManager(node: nat)
    | AddedToNode(node: nat)
    | RemovedFromNode(node: nat)
    | AddService(service: nat)
    | RemoveService(service: nat)
    | ConnectOther(node: nat, other: Endpoints)
    | DisconnectOther(node: nat, other: Endpoints)

  function AddedTo(w: World, s: Net, n: nat): Net
    requires n in s.regs
  {
    s.(regs := s.regs[n := Joined(s.regs[n], Together(w, s.svc))], nodes := s.nodes + {n})
  }

  function RemovedFrom(w: World, s: Net, n: nat): Net
    requires n in s.regs
  {
    if n !in s.nodes then s
    else s.(regs := s.regs[n := Parted(s.regs[n], Together(w, s.svc))], nodes := s.nodes - {n})
  }

  function Attached(w: World, s: Net, svc: nat): Net {
    if svc in s.svc then s
    else Net(map n | n in s.regs :: if n in s.nodes then Joined(s.regs[n], w.service(svc)) else s.regs[n],
             s.nodes, s.svc + {svc}, s.described + {svc})
  }

  function Detached(w: World, s: Net, svc: nat): Net {
    if svc !in s.svc then s
    else Net(map n | n in s.regs :: if n in s.nodes then Parted(s.regs[n], w.service(svc)) else s.regs[n],
             s.nodes, s.svc - {svc}, s.described - {svc})
  }

  function OtherJoined(s: Net, n: nat, c: Endpoints): Net
    requires n in s.regs
  {
    s.(regs := s.regs[n := Joined(s.regs[n], c)])
  }

  function OtherParted(s: Net, n: nat, c: Endpoints): Net
    requires n in s.regs
  {
    s.(regs := s.regs[n := Parted(s.regs[n], c)])
  }

  // Services reach nodes only through the manager.
  ghost predicate Foreign(w: World, c: Endpoints) {
    forall s :: Apart(w.service(s), c)
  }

  ghost predicate Next(w: World, s: Net, step: Step, s': Net) {
    match step
    case ConnectManager(n) => n in s.regs && s' == AddedTo(w, OtherJoined(s, n, w.manager), n)
    case DisconnectManager(n) => n in s.regs && s' == RemovedFrom(w, OtherParted(s, n, w.manager), n)
    case AddedToNode(n) => n in s.regs && s' == AddedTo(w, s, n)
    case RemovedFromNode(n) => n in s.regs && s' == RemovedFrom(w, s, n)
    case AddService(svc) => s' == Attached(w, s, svc)
    case RemoveService(svc) => s' == Detached(w, s, svc)
    case ConnectOther(n, c) => n in s.regs && Foreign(w, c) && s' == OtherJoined(s, n, c)
    case DisconnectOther(n, c) => n in s.regs && Foreign(w, c) && s' == OtherParted(s, n, c)
  }

  // No service endpoint is registered anywhere yet.
  ghost predicate Init(w: World, s: Net) {
    && s.nodes == {} && s.svc == {} && s.described == {}
    && forall n :: n in s.regs ==> Foreign(w, s.regs[n])
  }

  ghost predicate IsRun(w: World, ss: seq<Net>, steps: seq<Step>) {
    && |ss| == |steps| + 1 && Init(w, ss[0])
    && forall i :: 0 <= i < |steps| ==> Next(w, ss[i], steps[i], ss[i + 1])
  }

  // Service `svc` is registered at `r` with all its endpoints, or with none.
  ghost predicate RegisteredIff(r: Endpoints, c: Endpoints, yes: bool) {
    if yes then c.pubs <= r.pubs && c.subs <= r.subs else Apart(r, c)
  }

  ghost predicate ProductAt(w: World, s: Net, n: nat, svc: nat)
    requires n in s.regs
  {
    RegisteredIff(s.regs[n], w.service(svc), n in s.nodes && svc in s.svc)
  }

  ghost predicate Product(w: World, s: Net) {
    && s.nodes <= s.regs.Keys && s.svc == s.described
    && forall n, svc :: n in s.regs ==> ProductAt(w, s, n, svc)
  }

  lemma TogetherAt(w: World, svcs: set<nat>, svc: nat)
    requires Distinct(w)
    ensures RegisteredIff(Together(w, svcs), w.service(svc), svc in svcs)
  {
    var all := Together(w, svcs);
    if svc !in svcs {
      forall p | p in all.pubs
        ensures p !in w.service(svc).pubs
      {
        var s :| s in svcs && p in w.service(s).pubs;
        assert Apart(w.service(s), w.service(svc));
      }
      forall p | p in all.subs
        ensures p !in w.service(svc).subs
      {
        var s :| s in svcs && p in w.service(s).subs;
        assert Apart(w.service(s), w.service(svc));
      }
    }
  }

  lemma StepKeepsProductAt(w: World, s: Net, step: Step, s': Net, n: nat, svc: nat)
    requires Distinct(w) && Product(w, s) && Next(w, s, step, s') && n in s'.regs
    ensures ProductAt(w, s', n, svc)
  {
    assert ProductAt(w, s, n, svc);
    TogetherAt(w, s.svc, svc);
    assert Apart(w.service(svc), w.manager);
    if (step.AddService? || step.RemoveService?) && step.service != svc {
      assert Apart(w.service(step.service), w.service(svc));
    }
    if step.ConnectOther? || step.DisconnectOther? {
      assert Apart(w.service(svc), step.other);
    }
  }

  lemma {:induction false} ProductHolds(w: World, ss: seq<Net>, steps: seq<Step>, k: nat)
    requires Distinct(w) && IsRun(w, ss, steps) && k <= |steps|
    ensures Product(w, ss[k])
  {
    if k == 0 {
      forall n, svc | n in ss[0].regs
        ensures ProductAt(w, ss[0], n, svc)
      {
        assert Foreign(w, ss[0].regs[n]);
        assert Apart(w.service(svc), ss[0].regs[n]);
      }
    } else {
      ProductHolds(w, ss, steps, k - 1);
      assert Next(w, ss[k - 1], steps[k - 1], ss[k]);
      forall n, svc | n in ss[k].regs
        ensures ProductAt(w, ss[k], n, svc)
      {
        StepKeepsProductAt(w, ss[k - 1], steps[k - 1], ss[k], n, svc);
      }
    }
  }

  /**
   In every run the attached (node, service) pairs are exactly the manager's nodes
   times its services, and a registered service always has its description, which
   is what the assert in `removeService` asks for.
   */
  lemma ConnectivityIsProduct(w: World, ss: seq<Net>, steps: seq<Step>, k: nat, n: nat, svc: nat)
    requires Distinct(w) && IsRun(w, ss, steps) && k <= |steps| && n in ss[k].regs
    ensures (w.service(svc).pubs <= ss[k].regs[n].pubs && w.service(svc).subs <= ss[k].regs[n].subs)
            <==> n in ss[k].nodes && svc in ss[k].svc
    ensures Apart(w.service(svc), ss[k].regs[n]) <==> !(n in ss[k].nodes && svc in ss[k].svc)
    ensures ss[k].svc == ss[k].described
  {
    ProductHolds(w, ss, steps, k);
    assert ProductAt(w, ss[k], n, svc);
    assert Apart(w.service(svc), w.manager);
    var c, r := w.service(svc), ss[k].regs[n];
    if p :| p in c.pubs {
    } else {
      var q :| q in c.subs;
    }
  }
}
