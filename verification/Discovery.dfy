/**
 One service manager: what each of its operations does to its tables, which
 messages it publishes, and which callbacks its query listeners get.
 */
module Discovery {
  import opened ServiceWire
  import opened ServiceMatch

  datatype Query = Query(filter: Filter, listener: nat)

  datatype Kind = Added | Removed

  datatype Callback = Callback(listener: nat, filterId: string, desc: Description, kind: Kind)

  // `services` is `_localSvcDesc`, by service object; `calls` is what the listeners were told.
  datatype Manager = Manager(
    localQueries: map<string, Query>,
    remoteQueries: map<string, Filter>,
    services: map<nat, Description>,
    remoteDescs: map<string, Description>,
    calls: seq<Callback>)

  const EMPTY := Manager(map[], map[], map[], map[], [])

  // The messages of a continuous query. A notice carries the description as its sender knows it.
  datatype Msg =
    | Start(filter: Filter)
    | Stop(filter: Filter)
    | Found(filterId: string, desc: Description)
    | Gone(filterId: string, desc: Description)
    | Other

  // ---------- the wire form ----------

  const START := "serviceDiscStart"
  const STOP := "serviceDiscStop"
  const FOUND := "serviceDiscFound"
  const GONE := "serviceDiscRemoved"

  function NoticeMeta(u: string, d: Description, kind: string): Meta {
    EncodeDescription(d) + map["filterId" := u, "type" := kind] + map[DESC + "channel" := d.channel]
  }

  function ToWire(msg: Msg): Meta {
    match msg
    case Start(f) => EncodeFilter(f) + map["type" := START]
    case Stop(f) => EncodeFilter(f) + map["type" := STOP]
    case Found(u, d) => NoticeMeta(u, d, FOUND)
    case Gone(u, d) => NoticeMeta(u, d, GONE)
    case Other => map[]
  }

  function Parse(m: Meta): Msg {
    var kind := Get(m, "type");
    if kind == START || kind == STOP then
      match DecodeFilter(m)
      case None => Other
      case Some(f) => if kind == START then Start(f) else Stop(f)
    else if kind == FOUND then Found(Get(m, "filterId"), DecodeDescription(m))
    else if kind == GONE then Gone(Get(m, "filterId"), DecodeDescription(m))
    else Other
  }

  // What the receiver of a message gets to see.
  function Arrived(msg: Msg): Msg {
    match msg
    case Found(u, d) => Found(u, OnArrival(d))
    case Gone(u, d) => Gone(u, OnArrival(d))
    case _ => msg
  }

  ghost predicate Deliverable(msg: Msg) {
    (msg.Start? || msg.Stop?) ==> msg.filter.Sendable()
  }

  // What the transport and the greeter may add on the way.
  ghost predicate TransportMeta(extra: Meta) {
    extra.Keys <= {"subscriber", "publisher", "proc"}
  }

  lemma KindsDiffer()
    ensures START != STOP && START != FOUND && START != GONE && STOP != FOUND && STOP != GONE && FOUND != GONE
  {
    assert |START| == 16 && |STOP| == 15 && |FOUND| == 16 && |GONE| == 18;
    assert START[11] == 'S' && FOUND[11] == 'F';
  }

  // Writing the channel once more changes nothing.
  lemma NoticeIs(u: string, d: Description, kind: string)
    ensures NoticeMeta(u, d, kind) == EncodeDescription(d) + map["filterId" := u, "type" := kind]
  {
    EncodedDescriptionAt(d, "channel");
    assert (DESC + "channel")[0] == 'd' && "filterId"[0] == 'f' && "type"[0] == 't';
  }

  lemma NoticeHeader(u: string, kind: string, extra: Meta)
    requires TransportMeta(extra)
    ensures var added := map["filterId" := u, "type" := kind] + extra;
            && (forall key :: key in added ==> !(DESC <= key))
            && "type" in added && added["type"] == kind && "filterId" in added && added["filterId"] == u
  {
    var added := map["filterId" := u, "type" := kind] + extra;
    assert "filterId"[0] != "type"[0];
    assert "filterId" !in extra && "type" !in extra;
    forall key | key in added
      ensures !(DESC <= key)
    {
      MetaKeysAreForeign(key);
    }
  }

  lemma NoticeParses(u: string, d: Description, kind: string, extra: Meta)
    requires TransportMeta(extra)
    ensures var m := NoticeMeta(u, d, kind) + extra;
            Get(m, "type") == kind && Get(m, "filterId") == u && DecodeDescription(m) == OnArrival(d)
  {
    var own := map["filterId" := u, "type" := kind];
    NoticeIs(u, d, kind);
    NoticeHeader(u, kind, extra);
    var encoded := EncodeDescription(d);
    assert encoded + own + extra == encoded + (own + extra);
    DescriptionRoundTrip(d, own + extra);
  }

  /** Sending a message and parsing it yields what `Arrived` says, whatever the transport adds. */
  lemma WireRoundTrip(msg: Msg, extra: Meta)
    requires Deliverable(msg) && TransportMeta(extra)
    ensures Parse(ToWire(msg) + extra) == Arrived(msg)
  {
    KindsDiffer();
    match msg {
      case Start(f) => FilterMessageParses(f, START, extra);
      case Stop(f) => FilterMessageParses(f, STOP, extra);
      case Found(u, d) => NoticeParses(u, d, FOUND, extra);
      case Gone(u, d) => NoticeParses(u, d, GONE, extra);
      case Other => assert "type" !in extra;
    }
  }

  lemma FilterMessageParses(f: Filter, kind: string, extra: Meta)
    requires f.Sendable() && TransportMeta(extra)
    ensures var m := EncodeFilter(f) + map["type" := kind] + extra;
            Get(m, "type") == kind && DecodeFilter(m) == Some(f)
  {
    var own := map["type" := kind];
    FilterExtrasAreForeign(kind, extra);
    MetaAssociates(EncodeFilter(f), own, extra);
    FilterRoundTrip(f, own + extra);
    TypeIsRead(EncodeFilter(f), kind, extra);
  }

  lemma FilterExtrasAreForeign(kind: string, extra: Meta)
    requires TransportMeta(extra)
    ensures forall key :: key in map["type" := kind] + extra ==> ForeignToFilter(key)
  {
    forall key | key in map["type" := kind] + extra
      ensures ForeignToFilter(key)
    {
      MetaKeysAreForeign(key);
    }
  }

  lemma TypeIsRead(m: Meta, kind: string, extra: Meta)
    requires TransportMeta(extra)
    ensures Get(m + map["type" := kind] + extra, "type") == kind
  {
    assert "type" !in extra;
  }

  lemma MetaAssociates(a: Meta, b: Meta, c: Meta)
    ensures a + b + c == a + (b + c)
  {
  }

  // ---------- what the operations do ----------

  // A query that is already there keeps its filter and gets the new listener.
  function QueryStarted(m: Manager, f: Filter, listener: nat): Manager {
    var key := if f.uuid in m.localQueries then m.localQueries[f.uuid].filter else f;
    m.(localQueries := m.localQueries[f.uuid := Query(key, listener)])
  }

  function QueryStopped(m: Manager, f: Filter): Manager {
    m.(localQueries := m.localQueries - {f.uuid})
  }

  function ServiceAdded(m: Manager, svc: nat, d: Description): Manager {
    if svc in m.services then m else m.(services := m.services[svc := d])
  }

  function ServiceRemoved(m: Manager, svc: nat): Manager {
    m.(services := m.services - {svc})
  }

  // A notice reaches the listener of its query, with the description first cached for its channel.
  function Noticed(m: Manager, u: string, d: Description, kind: Kind): Manager {
    if u !in m.localQueries then m
    else
      var cached := if d.channel in m.remoteDescs then m.remoteDescs[d.channel] else d;
      m.(remoteDescs := if kind == Added then m.remoteDescs[d.channel := cached] else m.remoteDescs - {d.channel},
         calls := m.calls + [Callback(m.localQueries[u].listener, u, cached, kind)])
  }

  function Received(m: Manager, msg: Msg): Manager {
    match msg
    case Start(f) => m.(remoteQueries := m.remoteQueries[f.uuid := f])
    case Stop(f) => m.(remoteQueries := m.remoteQueries - {f.uuid})
    case Found(u, d) => Noticed(m, u, d, Added)
    case Gone(u, d) => Noticed(m, u, d, Removed)
    case Other => m
  }

  // ---------- what the operations publish ----------

  // The services a filter matches.
  function Matching(e: Engine, services: map<nat, Description>, f: Filter): set<nat> {
    set svc | svc in services && Matches(e, f, services[svc])
  }

  // The remote queries that match a description.
  function Interested(e: Engine, queries: map<string, Filter>, d: Description): set<string> {
    set u | u in queries && Matches(e, queries[u], d)
  }

  function Notice(u: string, d: Description, kind: Kind): Msg {
    if kind == Added then Found(u, d) else Gone(u, d)
  }

  // One message per key; the order within a batch is that of a map or of addresses, and left open.
  ghost predicate StartsFor(queries: map<string, Query>, us: set<string>, outs: seq<Msg>) {
    && us <= queries.Keys && |outs| == |us|
    && (forall u :: u in us ==> Start(queries[u].filter) in outs)
    && (forall x :: x in outs ==> exists u :: u in us && x == Start(queries[u].filter))
  }

  ghost predicate RepliesFor(services: map<nat, Description>, id: string, svcs: set<nat>, outs: seq<Msg>) {
    && svcs <= services.Keys && |outs| == |svcs|
    && (forall svc :: svc in svcs ==> Found(id, services[svc]) in outs)
    && (forall x :: x in outs ==> exists svc :: svc in svcs && x == Found(id, services[svc]))
  }

  ghost predicate NoticesFor(us: set<string>, d: Description, kind: Kind, outs: seq<Msg>) {
    && |outs| == |us|
    && (forall u :: u in us ==> Notice(u, d, kind) in outs)
    && (forall x :: x in outs ==> exists u :: u in us && x == Notice(u, d, kind))
  }

  lemma OneMoreStart(queries: map<string, Query>, us: set<string>, outs: seq<Msg>, u: string)
    requires StartsFor(queries, us, outs) && u in queries && u !in us
    ensures StartsFor(queries, us + {u}, outs + [Start(queries[u].filter)])
  {
  }

  lemma OneMoreReply(services: map<nat, Description>, id: string, svcs: set<nat>, outs: seq<Msg>, svc: nat)
    requires RepliesFor(services, id, svcs, outs) && svc in services && svc !in svcs
    ensures RepliesFor(services, id, svcs + {svc}, outs + [Found(id, services[svc])])
  {
  }

  lemma OneMoreNotice(us: set<string>, d: Description, kind: Kind, outs: seq<Msg>, u: string)
    requires NoticesFor(us, d, kind, outs) && u !in us
    ensures NoticesFor(us + {u}, d, kind, outs + [Notice(u, d, kind)])
  {
  }

  ghost predicate Welcomes(m: Manager, outs: seq<Msg>) {
    StartsFor(m.localQueries, m.localQueries.Keys, outs)
  }

  /**
   A query that is started again under its id, with whatever filter, goes on asking what it
   asked first: a new peer is greeted with the first filter. The new listener gets the notices.
   */
  lemma StartedAgainKeepsItsFilter(m: Manager, f: Filter, g: Filter, listener: nat, other: nat, outs: seq<Msg>)
    requires f.uuid == g.uuid && f.uuid !in m.localQueries
    requires forall v :: v in m.localQueries ==> m.localQueries[v].filter.uuid == v
    requires Welcomes(QueryStarted(QueryStarted(m, f, listener), g, other), outs)
    ensures Start(f) in outs && (g != f ==> Start(g) !in outs)
    ensures forall d, kind ::
              var told := Noticed(QueryStarted(QueryStarted(m, f, listener), g, other), f.uuid, d, kind).calls;
              told != [] && told[|told| - 1].listener == other && told[|told| - 1].kind == kind
  {
    var m' := QueryStarted(QueryStarted(m, f, listener), g, other);
    assert f.uuid in m'.localQueries;
  }

  ghost predicate Replies(e: Engine, m: Manager, f: Filter, outs: seq<Msg>) {
    RepliesFor(m.services, f.uuid, Matching(e, m.services, f), outs)
  }

  ghost predicate Announces(e: Engine, m: Manager, d: Description, outs: seq<Msg>) {
    NoticesFor(Interested(e, m.remoteQueries, d), d, Added, outs)
  }

  ghost predicate Withdraws(e: Engine, m: Manager, d: Description, outs: seq<Msg>) {
    NoticesFor(Interested(e, m.remoteQueries, d), d, Removed, outs)
  }

  ghost predicate Publishes(e: Engine, m: Manager, msg: Msg, outs: seq<Msg>) {
    if msg.Start? then Replies(e, m, msg.filter, outs) else outs == []
  }
}
