/**
 Any number of service managers that exchange the messages of continuous queries
 over reliable first-in first-out links.
 */
module DiscoverySystem {
  import opened ServiceWire
  import opened ServiceMatch
  import opened Discovery

  // Query ids and channel names are universally unique: each belongs to one manager.
  datatype World = World(engine: Engine, owner: string -> nat, home: string -> nat)

  // `links[(a, b)]` are the messages on their way from `a` to `b`; `started` are all query ids ever started.
  datatype System = System(mgrs: map<nat, Manager>, links: map<(nat, nat), seq<Msg>>, started: set<string>)

  datatype Step =
    | StartQuery(q: nat, filter: Filter, listener: nat)
    | StopQuery(q: nat, filter: Filter)
    | AddService(p: nat, svc: nat, desc: Description, outs: seq<Msg>)
    | RemoveService(p: nat, svc: nat, outs: seq<Msg>)
    | Connect(q: nat, p: nat, toP: seq<Msg>, toQ: seq<Msg>)
    | Greet(q: nat, p: nat, outs: seq<Msg>)              // a repeated welcome
    | Deliver(a: nat, b: nat, outs: seq<Msg>)

  // Everything a manager publishes goes to all its peers.
  function Publish(links: map<(nat, nat), seq<Msg>>, a: nat, outs: seq<Msg>): map<(nat, nat), seq<Msg>> {
    map l | l in links :: if l.0 == a then links[l] + outs else links[l]
  }

  ghost predicate ChannelFree(m: Manager, channel: string) {
    forall svc :: svc in m.services ==> m.services[svc].channel != channel
  }

  ghost predicate NextStartQuery(w: World, s: System, q: nat, f: Filter, listener: nat, s': System) {
    && q in s.mgrs && w.owner(f.uuid) == q && f.Sendable()
    && (f.uuid in s.mgrs[q].localQueries ==> s.mgrs[q].localQueries[f.uuid].filter == f)
    && s' == System(s.mgrs[q := QueryStarted(s.mgrs[q], f, listener)], Publish(s.links, q, [Start(f)]), s.started + {f.uuid})
  }

  ghost predicate NextStopQuery(w: World, s: System, q: nat, f: Filter, s': System) {
    && q in s.mgrs && w.owner(f.uuid) == q && f.Sendable()
    && var outs := if f.uuid in s.mgrs[q].localQueries then [Stop(f)] else [];
       s' == s.(mgrs := s.mgrs[q := QueryStopped(s.mgrs[q], f)], links := Publish(s.links, q, outs))
  }

  ghost predicate NextAddService(w: World, s: System, p: nat, svc: nat, d: Description, outs: seq<Msg>, s': System) {
    && p in s.mgrs
    && (if svc in s.mgrs[p].services then outs == []
        else d.channel != "" && w.home(d.channel) == p && ChannelFree(s.mgrs[p], d.channel)
             && Announces(w.engine, s.mgrs[p], d, outs))
    && s' == s.(mgrs := s.mgrs[p := ServiceAdded(s.mgrs[p], svc, d)], links := Publish(s.links, p, outs))
  }

  ghost predicate NextRemoveService(w: World, s: System, p: nat, svc: nat, outs: seq<Msg>, s': System) {
    && p in s.mgrs
    && (if svc in s.mgrs[p].services then Withdraws(w.engine, s.mgrs[p], s.mgrs[p].services[svc], outs) else outs == [])
    && s' == s.(mgrs := s.mgrs[p := ServiceRemoved(s.mgrs[p], svc)], links := Publish(s.links, p, outs))
  }

  // A link comes up in both directions, and each side greets the other.
  ghost predicate NextConnect(s: System, q: nat, p: nat, toP: seq<Msg>, toQ: seq<Msg>, s': System) {
    && q in s.mgrs && p in s.mgrs && q != p && (q, p) !in s.links && (p, q) !in s.links
    && Welcomes(s.mgrs[q], toP) && Welcomes(s.mgrs[p], toQ)
    && s' == s.(links := s.links[(q, p) := toP][(p, q) := toQ])
  }

  ghost predicate NextGreet(s: System, q: nat, p: nat, outs: seq<Msg>, s': System) {
    && (q, p) in s.links && q in s.mgrs && Welcomes(s.mgrs[q], outs)
    && s' == s.(links := s.links[(q, p) := s.links[(q, p)] + outs])
  }

  ghost predicate NextDeliver(w: World, s: System, a: nat, b: nat, outs: seq<Msg>, s': System) {
    && (a, b) in s.links && s.links[(a, b)] != [] && b in s.mgrs
    && var msg := Arrived(s.links[(a, b)][0]);
       && Publishes(w.engine, s.mgrs[b], msg, outs)
       && s' == s.(mgrs := s.mgrs[b := Received(s.mgrs[b], msg)],
                   links := Publish(s.links[(a, b) := s.links[(a, b)][1..]], b, outs))
  }

  ghost predicate Next(w: World, s: System, step: Step, s': System) {
    match step
    case StartQuery(q, f, listener) => NextStartQuery(w, s, q, f, listener, s')
    case StopQuery(q, f) => NextStopQuery(w, s, q, f, s')
    case AddService(p, svc, d, outs) => NextAddService(w, s, p, svc, d, outs, s')
    case RemoveService(p, svc, outs) => NextRemoveService(w, s, p, svc, outs, s')
    case Connect(q, p, toP, toQ) => NextConnect(s, q, p, toP, toQ, s')
    case Greet(q, p, outs) => NextGreet(s, q, p, outs, s')
    case Deliver(a, b, outs) => NextDeliver(w, s, a, b, outs, s')
  }

  ghost predicate Init(s: System) {
    s.links == map[] && s.started == {} && forall q :: q in s.mgrs ==> s.mgrs[q] == EMPTY
  }

  ghost predicate StepAt(w: World, ss: seq<System>, steps: seq<Step>, i: nat)
    requires i < |steps| < |ss|
  {
    Next(w, ss[i], steps[i], ss[i + 1])
  }

  ghost predicate IsRun(w: World, ss: seq<System>, steps: seq<Step>) {
    && |ss| == |steps| + 1 && Init(ss[0])
    && forall i :: 0 <= i < |steps| ==> StepAt(w, ss, steps, i)
  }

  // ---------- what messages in flight still have to say ----------

  function Hears(known: Option<Filter>, m: Msg, u: string): Option<Filter> {
    if m.Start? && m.filter.uuid == u then Some(m.filter)
    else if m.Stop? && m.filter.uuid == u then None
    else known
  }

  // What is known of query `u` once `ms` has been delivered.
  function HearsAll(known: Option<Filter>, ms: seq<Msg>, u: string): Option<Filter>
    decreases |ms|
  {
    if ms == [] then known else HearsAll(Hears(known, ms[0], u), ms[1..], u)
  }

  predicate Concerns(m: Msg, u: string, c: string) {
    (m.Found? || m.Gone?) && m.filterId == u && m.desc.channel == c
  }

  predicate Sees(shown: bool, m: Msg, u: string, c: string) {
    if Concerns(m, u, c) then m.Found? else shown
  }

  // Whether query `u` shows channel `c` once `ms` has been delivered.
  predicate SeesAll(shown: bool, ms: seq<Msg>, u: string, c: string)
    decreases |ms|
  {
    if ms == [] then shown else SeesAll(Sees(shown, ms[0], u, c), ms[1..], u, c)
  }

  // The last callback to the listener about channel `c` on behalf of query `u` was `added`.
  predicate Shows(calls: seq<Callback>, listener: nat, u: string, c: string) {
    if calls == [] then false
    else
      var last := calls[|calls| - 1];
      if last.listener == listener && last.filterId == u && last.desc.channel == c then last.kind == Added
      else Shows(calls[..|calls| - 1], listener, u, c)
  }

  // The same from all the listener gets to see: a callback does not say which query it is for.
  predicate Told(calls: seq<Callback>, listener: nat, c: string) {
    if calls == [] then false
    else
      var last := calls[|calls| - 1];
      if last.listener == listener && last.desc.channel == c then last.kind == Added
      else Told(calls[..|calls| - 1], listener, c)
  }

  // Only query `u` ever called the listener.
  ghost predicate Serves(calls: seq<Callback>, listener: nat, u: string) {
    forall i :: 0 <= i < |calls| && calls[i].listener == listener ==> calls[i].filterId == u
  }

  lemma {:induction false} ToldIsShown(calls: seq<Callback>, listener: nat, u: string, c: string)
    requires Serves(calls, listener, u)
    ensures Told(calls, listener, c) == Shows(calls, listener, u, c)
  {
    if calls != [] {
      ToldIsShown(calls[..|calls| - 1], listener, u, c);
    }
  }

  predicate AsksFor(m: Msg, u: string) {
    m.Start? && m.filter.uuid == u
  }

  predicate EndsQuery(m: Msg, u: string) {
    m.Stop? && m.filter.uuid == u
  }

  // No service of manager `p` can match `g`.
  ghost predicate Barren(w: World, p: nat, g: Filter) {
    forall d: Description :: d.channel != "" && w.home(d.channel) == p ==> !Matches(w.engine, g, d)
  }

  // While `ms` is delivered to `p`, query `u` is known as nothing but `f`, and `f` is not forgotten once it
  // is known. Barren filters do not count.
  ghost predicate Steady(w: World, p: nat, known: Option<Filter>, ms: seq<Msg>, u: string, f: Filter)
    decreases |ms|
  {
    && (known.Some? ==> known.value == f || Barren(w, p, known.value))
    && (ms != [] ==>
          && (known == Some(f) && !Barren(w, p, f) ==> Hears(known, ms[0], u) == known)
          && Steady(w, p, Hears(known, ms[0], u), ms[1..], u, f))
  }

  lemma {:induction false} SteadyConcat(w: World, p: nat, known: Option<Filter>, a: seq<Msg>, b: seq<Msg>, u: string, f: Filter)
    ensures Steady(w, p, known, a + b, u, f) <==> Steady(w, p, known, a, u, f) && Steady(w, p, HearsAll(known, a, u), b, u, f)
    decreases |a|
  {
    if a == [] {
      assert a + b == b;
    } else {
      assert (a + b)[1..] == a[1..] + b;
      SteadyConcat(w, p, Hears(known, a[0], u), a[1..], b, u, f);
    }
  }

  // Everything that is known of `u`, or asked for it in `ms`, is barren.
  ghost predicate OnlyBarren(w: World, p: nat, known: Option<Filter>, ms: seq<Msg>, u: string) {
    && (known.Some? ==> Barren(w, p, known.value))
    && (forall m :: m in ms && AsksFor(m, u) ==> Barren(w, p, m.filter))
  }

  lemma {:induction false} SteadyBarren(w: World, p: nat, known: Option<Filter>, ms: seq<Msg>, u: string, f: Filter)
    requires OnlyBarren(w, p, known, ms, u)
    ensures Steady(w, p, known, ms, u, f)
    decreases |ms|
  {
    if ms != [] {
      assert ms[0] in ms;
      SteadyBarren(w, p, Hears(known, ms[0], u), ms[1..], u, f);
    }
  }

  // Messages that only ask for `f` keep it known.
  lemma {:induction false} SteadyAsked(w: World, p: nat, known: Option<Filter>, ms: seq<Msg>, u: string, f: Filter)
    requires known.Some? ==> known.value == f || Barren(w, p, known.value)
    requires forall m :: m in ms && (AsksFor(m, u) || EndsQuery(m, u)) ==> m == Start(f)
    ensures Steady(w, p, known, ms, u, f)
    decreases |ms|
  {
    if ms != [] {
      assert ms[0] in ms;
      SteadyAsked(w, p, Hears(known, ms[0], u), ms[1..], u, f);
    }
  }

  lemma {:induction false} HearsAllConcat(known: Option<Filter>, a: seq<Msg>, b: seq<Msg>, u: string)
    ensures HearsAll(known, a + b, u) == HearsAll(HearsAll(known, a, u), b, u)
    decreases |a|
  {
    if a == [] {
      assert a + b == b;
    } else {
      assert (a + b)[1..] == a[1..] + b;
      HearsAllConcat(Hears(known, a[0], u), a[1..], b, u);
    }
  }

  lemma {:induction false} SeesAllConcat(shown: bool, a: seq<Msg>, b: seq<Msg>, u: string, c: string)
    ensures SeesAll(shown, a + b, u, c) == SeesAll(SeesAll(shown, a, u, c), b, u, c)
    decreases |a|
  {
    if a == [] {
      assert a + b == b;
    } else {
      assert (a + b)[1..] == a[1..] + b;
      SeesAllConcat(Sees(shown, a[0], u, c), a[1..], b, u, c);
    }
  }

  lemma {:induction false} HearsNothing(known: Option<Filter>, ms: seq<Msg>, u: string)
    requires forall m :: m in ms ==> !((m.Start? || m.Stop?) && m.filter.uuid == u)
    ensures HearsAll(known, ms, u) == known
  {
    if ms != [] {
      assert ms[0] in ms;
      HearsNothing(known, ms[1..], u);
    }
  }

  lemma {:induction false} HearsStarts(known: Option<Filter>, ms: seq<Msg>, u: string, f: Filter)
    requires forall m :: m in ms && (m.Start? || m.Stop?) && m.filter.uuid == u ==> m == Start(f)
    requires f.uuid == u
    ensures HearsAll(known, ms, u) == if Start(f) in ms then Some(f) else known
    decreases |ms|
  {
    if ms != [] {
      assert ms[0] in ms;
      HearsStarts(Hears(known, ms[0], u), ms[1..], u, f);
    }
  }

  lemma {:induction false} SeesNothing(shown: bool, ms: seq<Msg>, u: string, c: string)
    requires forall m :: m in ms ==> !Concerns(m, u, c)
    ensures SeesAll(shown, ms, u, c) == shown
  {
    if ms != [] {
      assert ms[0] in ms;
      SeesNothing(shown, ms[1..], u, c);
    }
  }

  lemma {:induction false} SeesFounds(shown: bool, ms: seq<Msg>, u: string, c: string)
    requires forall m :: m in ms ==> m.Found?
    ensures SeesAll(shown, ms, u, c) == (shown || exists m :: m in ms && Concerns(m, u, c))
    decreases |ms|
  {
    if ms != [] {
      assert ms[0] in ms;
      SeesFounds(Sees(shown, ms[0], u, c), ms[1..], u, c);
      if m :| m in ms && Concerns(m, u, c) {
        assert m == ms[0] || m in ms[1..];
      }
    }
  }

  lemma {:induction false} SeesGones(shown: bool, ms: seq<Msg>, u: string, c: string)
    requires forall m :: m in ms ==> m.Gone?
    ensures SeesAll(shown, ms, u, c) == (shown && !exists m :: m in ms && Concerns(m, u, c))
    decreases |ms|
  {
    if ms != [] {
      assert ms[0] in ms;
      SeesGones(Sees(shown, ms[0], u, c), ms[1..], u, c);
      if m :| m in ms && Concerns(m, u, c) {
        assert m == ms[0] || m in ms[1..];
      }
    }
  }

  // ---------- what each batch says ----------

  // Manager `m` has a service on channel `c` that `f` matches.
  ghost predicate Offers(e: Engine, m: Manager, f: Filter, c: string) {
    exists svc :: svc in m.services && m.services[svc].channel == c && Matches(e, f, m.services[svc])
  }

  lemma WelcomesSay(m: Manager, outs: seq<Msg>, known: Option<Filter>, u: string)
    requires Welcomes(m, outs)
    requires forall v :: v in m.localQueries ==> m.localQueries[v].filter.uuid == v
    ensures HearsAll(known, outs, u) == if u in m.localQueries then Some(m.localQueries[u].filter) else known
  {
    if u in m.localQueries {
      HearsStarts(known, outs, u, m.localQueries[u].filter);
    } else {
      HearsNothing(known, outs, u);
    }
  }

  lemma RepliesSay(e: Engine, m: Manager, f: Filter, outs: seq<Msg>, shown: bool, u: string, c: string)
    requires Replies(e, m, f, outs)
    ensures SeesAll(shown, outs, u, c) == (shown || (u == f.uuid && Offers(e, m, f, c)))
  {
    SeesFounds(shown, outs, u, c);
    if u == f.uuid && Offers(e, m, f, c) {
      var svc :| svc in m.services && m.services[svc].channel == c && Matches(e, f, m.services[svc]);
      assert svc in Matching(e, m.services, f);
      assert Concerns(Found(f.uuid, m.services[svc]), u, c);
    }
  }

  lemma AnnouncesSay(e: Engine, m: Manager, d: Description, outs: seq<Msg>, shown: bool, u: string, c: string)
    requires Announces(e, m, d, outs)
    ensures SeesAll(shown, outs, u, c) == (shown || (d.channel == c && u in Interested(e, m.remoteQueries, d)))
  {
    SeesFounds(shown, outs, u, c);
    if d.channel == c && u in Interested(e, m.remoteQueries, d) {
      assert Concerns(Notice(u, d, Added), u, c);
    }
  }

  lemma WithdrawsSay(e: Engine, m: Manager, d: Description, outs: seq<Msg>, shown: bool, u: string, c: string)
    requires Withdraws(e, m, d, outs)
    ensures SeesAll(shown, outs, u, c) == (shown && !(d.channel == c && u in Interested(e, m.remoteQueries, d)))
  {
    SeesGones(shown, outs, u, c);
    if d.channel == c && u in Interested(e, m.remoteQueries, d) {
      assert Concerns(Notice(u, d, Removed), u, c);
    }
  }
}
