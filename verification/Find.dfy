/**
 One-shot service lookup end to end: `ServiceManager::find` at the asking manager,
 the reply in `ServiceManager::receive` at the owners, and the wire between them.
 */
module Find {
  import opened ServiceWire
  import opened ServiceMatch
  import C = Correlation

  // The message `find` sends.
  function FindMessage(f: Filter, reqId: string): Meta {
    EncodeFilter(f) + map["type" := "serviceDisc", "reqId" := reqId]
  }

  // The message an owner answers with.
  function FoundMessage(d: Description, reqId: string): Meta {
    EncodeDescription(d) + map["respId" := reqId] + map[DESC + "channel" := d.channel]
  }

  // What an owner with the service `d` may answer to the message `m`.
  ghost predicate MayAnswer(e: Engine, d: Description, m: Meta, answer: Meta) {
    && Get(m, "type") == "serviceDisc" && DecodeFilter(m).Some? && Matches(e, DecodeFilter(m).value, d)
    && answer == FoundMessage(d, Get(m, "reqId"))
  }

  // `owners[p]` are the descriptions registered at manager `p`.
  datatype State = State(core: C.State<Filter, Meta>, owners: map<nat, map<nat, Description>>)

  datatype Step =
    | Core(step: C.Step<Filter, Meta>)                      // any step but a reply
    | Reply(id: string, filter: Filter, owner: nat, service: nat)
    | AddService(owner: nat, service: nat, desc: Description)
    | RemoveService(owner: nat, service: nat)

  ghost predicate Registered(s: State, p: nat, svc: nat) {
    p in s.owners && svc in s.owners[p]
  }

  // A manager files a reply under the id that its message names.
  ghost predicate ReadsId(step: C.Step<Filter, Meta>) {
    step.Deliver? ==> "respId" in step.result && step.id == step.result["respId"]
  }

  ghost predicate Next(e: Engine, s: State, step: Step, s': State) {
    match step
    case Core(c) =>
      && !c.Respond? && (c.Begin? ==> c.query.Sendable()) && ReadsId(c)
      && C.Next(s.core, c, s'.core) && s'.owners == s.owners
    case Reply(id, f, p, svc) =>
      && (id, f) in s.core.sent && Registered(s, p, svc)
      && (exists answer :: MayAnswer(e, s.owners[p][svc], FindMessage(f, id), answer)
                           && C.Next(s.core, C.Respond(Get(answer, "respId"), f, answer), s'.core))
      && s'.owners == s.owners
    case AddService(p, svc, d) =>
      && p in s.owners
      && var descs: map<nat, Description> := s.owners[p][svc := d];
         s' == s.(owners := s.owners[p := descs])
    case RemoveService(p, svc) =>
      p in s.owners && s' == s.(owners := s.owners[p := s.owners[p] - {svc}])
  }

  ghost predicate IsRun(e: Engine, ss: seq<State>, steps: seq<Step>) {
    && |ss| == |steps| + 1 && C.Init(ss[0].core)
    && forall i :: 0 <= i < |steps| ==> Next(e, ss[i], steps[i], ss[i + 1])
  }

  // The service `svc` of owner `p` matches `filter`, and `answer` describes it.
  ghost predicate MatchedAt(e: Engine, s: State, p: nat, svc: nat, filter: Filter, answer: Meta) {
    && Registered(s, p, svc) && Matches(e, filter, s.owners[p][svc])
    && DecodeDescription(answer) == OnArrival(s.owners[p][svc])
  }

  // The reply `answer` to the lookup `id` was sent in a step before `n`, in a state in which the service it
  // describes was registered and matched.
  ghost predicate SentByMatch(e: Engine, ss: seq<State>, steps: seq<Step>, n: nat, id: string, filter: Filter, answer: Meta)
    requires n <= |steps| < |ss|
  {
    exists i: nat, p, svc :: i < n && steps[i] == Reply(id, filter, p, svc) && MatchedAt(e, ss[i], p, svc, filter, answer)
  }

  lemma FindMessageDecodes(f: Filter, id: string)
    requires f.Sendable()
    ensures DecodeFilter(FindMessage(f, id)) == Some(f)
  {
    var extra := map["type" := "serviceDisc", "reqId" := id];
    MetaKeysAreForeign("type");
    MetaKeysAreForeign("reqId");
    FilterRoundTrip(f, extra);
  }

  lemma FoundMessageDecodes(d: Description, id: string)
    ensures DecodeDescription(FoundMessage(d, id)) == OnArrival(d)
  {
    MetaKeysAreForeign("respId");
    EncodedDescriptionAt(d, "channel");
    var extra := map["respId" := id];
    assert !(DESC <= "respId");
    assert FoundMessage(d, id) == EncodeDescription(d) + extra;
    DescriptionRoundTrip(d, extra);
  }

  /**
   A lookup message is taken for one and carries its request id, and is not taken for a
   reply. Its answer is taken for a reply, and names the lookup it is for.
   */
  lemma LookupsAreTakenAsMeant(e: Engine, f: Filter, id: string, d: Description, answer: Meta)
    ensures Get(FindMessage(f, id), "type") == "serviceDisc" && "respId" !in FindMessage(f, id)
    ensures MayAnswer(e, d, FindMessage(f, id), answer) ==> "respId" in answer && answer["respId"] == id
  {
    FindMessageHeader(f, id);
    FoundMessageHeader(d, id);
  }

  lemma FindMessageHeader(f: Filter, id: string)
    ensures var m := FindMessage(f, id); Get(m, "type") == "serviceDisc" && Get(m, "reqId") == id && "respId" !in m
  {
    var own := map["type" := "serviceDisc", "reqId" := id];
    assert |"type"| == 4 && |"reqId"| == 5 && |"respId"| == 6;
    assert own["type"] == "serviceDisc" && own["reqId"] == id && "respId" !in own;
    MetaKeysAreForeign("respId");
    assert "respId" !in FilterKeys(f);
  }

  lemma FoundMessageHeader(d: Description, id: string)
    ensures var m := FoundMessage(d, id); "respId" in m && m["respId"] == id
  {
    MetaKeysAreForeign("respId");
    assert DESC <= DESC + "channel" && !(DESC <= "respId");
  }

  lemma {:induction false} CoreInv(e: Engine, ss: seq<State>, steps: seq<Step>, n: nat)
    requires IsRun(e, ss, steps) && n <= |steps|
    ensures C.Inv(ss[n].core)
    ensures forall id :: id in ss[n].core.calls ==> ss[n].core.calls[id].query.Sendable()
  {
    if n > 0 {
      CoreInv(e, ss, steps, n - 1);
      assert Next(e, ss[n - 1], steps[n - 1], ss[n]);
      match steps[n - 1] {
        case Core(c) => C.StepKeepsInv(ss[n - 1].core, c, ss[n].core);
        case Reply(id, f, p, svc) =>
          var answer :| C.Next(ss[n - 1].core, C.Respond(Get(answer, "respId"), f, answer), ss[n].core);
          C.StepKeepsInv(ss[n - 1].core, C.Respond(Get(answer, "respId"), f, answer), ss[n].core);
        case _ =>
      }
    }
  }

  lemma OnlyRepliesAreLogged(e: Engine, s: State, step: Step, s': State, entry: (string, Filter, Meta))
    requires Next(e, s, step, s') && entry in s'.core.log && entry !in s.core.log
    ensures step.Reply? && step.id == entry.0 && step.filter == entry.1
    ensures (entry.0, entry.1) in s.core.sent
    ensures Registered(s, step.owner, step.service)
    ensures MayAnswer(e, s.owners[step.owner][step.service], FindMessage(entry.1, entry.0), entry.2)
  {
    match step {
      case Core(c) => C.LogGrowsByResponding(s.core, c, s'.core);
      case Reply(id, f, p, svc) =>
        var m := FindMessage(f, id);
        var answer :| MayAnswer(e, s.owners[p][svc], m, answer) && C.Next(s.core, C.Respond(Get(answer, "respId"), f, answer), s'.core);
        LookupsAreTakenAsMeant(e, f, id, s.owners[p][svc], answer);
        C.LogGrowsByResponding(s.core, C.Respond(id, f, answer), s'.core);
      case _ =>
    }
  }

  lemma ReplyMatches(e: Engine, s: State, step: Step, s': State, entry: (string, Filter, Meta))
    requires Next(e, s, step, s') && entry in s'.core.log && entry !in s.core.log
    requires entry.1.Sendable()
    ensures step.Reply? && step == Reply(entry.0, entry.1, step.owner, step.service)
    ensures MatchedAt(e, s, step.owner, step.service, entry.1, entry.2)
  {
    OnlyRepliesAreLogged(e, s, step, s', entry);
    FindMessageDecodes(entry.1, entry.0);
    FoundMessageDecodes(s.owners[step.owner][step.service], Get(FindMessage(entry.1, entry.0), "reqId"));
  }

  lemma {:induction false} LogIsSentByMatch(e: Engine, ss: seq<State>, steps: seq<Step>, n: nat, entry: (string, Filter, Meta))
    requires IsRun(e, ss, steps) && n <= |steps| && entry in ss[n].core.log && entry.1.Sendable()
    ensures SentByMatch(e, ss, steps, n, entry.0, entry.1, entry.2)
  {
    if n > 0 {
      assert Next(e, ss[n - 1], steps[n - 1], ss[n]);
      if entry in ss[n - 1].core.log {
        LogIsSentByMatch(e, ss, steps, n - 1, entry);
      } else {
        ReplyMatches(e, ss[n - 1], steps[n - 1], ss[n], entry);
      }
    }
  }

  /**
   Whatever a lookup returns was sent in reply to that very lookup, and describes a
   service that was registered and matched the filter when the reply was sent; a lookup
   never returns empty-handed. The decoded description itself satisfies the filter if no
   rule reads a header key.
   */
  lemma FindIsSound(e: Engine, ss: seq<State>, steps: seq<Step>, n: nat, id: string)
    requires IsRun(e, ss, steps) && n <= |steps|
    requires id in ss[n].core.calls && ss[n].core.calls[id].phase.Returned?
    ensures ss[n].core.calls[id].phase.out.Some?
    ensures var f := ss[n].core.calls[id].query;
            var found := DecodeDescription(ss[n].core.calls[id].phase.out.value);
            && SentByMatch(e, ss, steps, n, id, f, ss[n].core.calls[id].phase.out.value)
            && found.name == f.name
            && (RulesAvoidHeader(f) ==> Matches(e, f, found))
  {
    CoreInv(e, ss, steps, n);
    assert C.ReturnInv(ss[n].core, id);
    var f, answer := ss[n].core.calls[id].query, ss[n].core.calls[id].phase.out.value;
    LogIsSentByMatch(e, ss, steps, n, (id, f, answer));
    var i: nat, p, svc :| i < n && steps[i] == Reply(id, f, p, svc) && MatchedAt(e, ss[i], p, svc, f, answer);
    if RulesAvoidHeader(f) {
      ArrivalMatchesAlike(e, f, ss[i].owners[p][svc]);
    }
  }

  // ---------- every lookup that somebody can answer can return ----------

  ghost predicate IsPath(e: Engine, ss: seq<State>, steps: seq<Step>) {
    |ss| == |steps| + 1 && forall i :: 0 <= i < |steps| ==> Next(e, ss[i], steps[i], ss[i + 1])
  }

  lemma OwnerCanAnswer(e: Engine, s: State, id: string, p: nat, svc: nat) returns (answer: Meta, s': State)
    requires C.Inv(s.core) && C.Awaits(s.core, id) && s.core.calls[id].query.Sendable()
    requires Registered(s, p, svc) && Matches(e, s.core.calls[id].query, s.owners[p][svc])
    ensures Next(e, s, Reply(id, s.core.calls[id].query, p, svc), s')
    ensures C.Inv(s'.core) && s'.core.calls == s.core.calls && (id, answer) in s'.core.replies
    ensures "respId" in answer && answer["respId"] == id && DecodeDescription(answer) == OnArrival(s.owners[p][svc])
  {
    var f, d := s.core.calls[id].query, s.owners[p][svc];
    assert C.ReturnInv(s.core, id);
    FindMessageDecodes(f, id);
    answer := FoundMessage(d, Get(FindMessage(f, id), "reqId"));
    LookupsAreTakenAsMeant(e, f, id, d, answer);
    FoundMessageDecodes(d, Get(FindMessage(f, id), "reqId"));
    assert MayAnswer(e, d, FindMessage(f, id), answer);
    var core := s.core.(replies := s.core.replies + {(id, answer)}, log := s.core.log + {(id, f, answer)});
    assert C.Next(s.core, C.Respond(id, f, answer), core);
    C.StepKeepsInv(s.core, C.Respond(id, f, answer), core);
    s' := s.(core := core);
  }

  // The delivery of a reply and the steps of the lookup alone, as steps of the whole.
  lemma CorePath(e: Engine, owners: map<nat, map<nat, Description>>, cores: seq<C.State<Filter, Meta>>,
                 stub: nat, id: string, answer: Meta, own: seq<C.Step<Filter, Meta>>)
    returns (ss: seq<State>, steps: seq<Step>)
    requires "respId" in answer && answer["respId"] == id
    requires C.IsPath(cores, [C.Deliver(stub, id, answer)] + own) && forall i :: 0 <= i < |own| ==> C.IsOwnStep(own[i], id)
    ensures |steps| == |own| + 1 && IsPath(e, ss, steps)
    ensures ss[0] == State(cores[0], owners) && ss[|steps|].core == cores[|steps|]
  {
    var cs := [C.Deliver(stub, id, answer)] + own;
    steps := seq(|cs|, i requires 0 <= i < |cs| => Core(cs[i]));
    ss := seq(|cores|, i requires 0 <= i < |cores| => State(cores[i], owners));
    forall i | 0 <= i < |steps|
      ensures Next(e, ss[i], steps[i], ss[i + 1])
    {
      assert C.Next(cores[i], cs[i], cores[i + 1]);
      assert i > 0 ==> C.IsOwnStep(own[i - 1], id);
    }
  }

  lemma PathGrows(e: Engine, s: State, step: Step, ss: seq<State>, steps: seq<Step>)
    ensures IsPath(e, ss, steps) && Next(e, s, step, ss[0]) ==> IsPath(e, [s] + ss, [step] + steps)
  {
    if IsPath(e, ss, steps) && Next(e, s, step, ss[0]) {
      forall i | 0 <= i < |steps| + 1
        ensures Next(e, ([s] + ss)[i], ([step] + steps)[i], ([s] + ss)[i + 1])
      {
        if i > 0 {
          assert Next(e, ss[i - 1], steps[i - 1], ss[i]);
        }
      }
    }
  }

  lemma AnsweredLookupReturns(e: Engine, s: State, id: string, answer: Meta) returns (ss: seq<State>, steps: seq<Step>)
    requires C.Inv(s.core) && C.Awaits(s.core, id) && (id, answer) in s.core.replies
    requires "respId" in answer && answer["respId"] == id
    ensures IsPath(e, ss, steps) && ss[0] == s
    ensures var last := ss[|steps|].core; id in last.calls && last.calls[id].phase == C.Returned(Some(answer))
  {
    var cores, own := C.ReplyMakesReturn(s.core, id, answer);
    ss, steps := CorePath(e, s.owners, cores, s.core.calls[id].stub, id, answer, own);
  }

  /**
   From every reachable state in which a lookup waits and some manager has a service that
   it matches, that manager can answer and the lookup return the description of that service.
   */
  lemma LookupCanReturn(e: Engine, ss: seq<State>, steps: seq<Step>, n: nat, id: string, p: nat, svc: nat)
    returns (more: seq<State>, rest: seq<Step>)
    requires IsRun(e, ss, steps) && n <= |steps| && C.Awaits(ss[n].core, id)
    requires Registered(ss[n], p, svc) && Matches(e, ss[n].core.calls[id].query, ss[n].owners[p][svc])
    ensures IsPath(e, more, rest) && more[0] == ss[n]
    ensures var last := more[|rest|].core;
            && id in last.calls && last.calls[id].phase.Returned? && last.calls[id].phase.out.Some?
            && DecodeDescription(last.calls[id].phase.out.value) == OnArrival(ss[n].owners[p][svc])
  {
    CoreInv(e, ss, steps, n);
    more, rest := WaitingLookupReturns(e, ss[n], id, p, svc);
  }

  lemma WaitingLookupReturns(e: Engine, s: State, id: string, p: nat, svc: nat) returns (more: seq<State>, rest: seq<Step>)
    requires C.Inv(s.core) && C.Awaits(s.core, id) && s.core.calls[id].query.Sendable()
    requires Registered(s, p, svc) && Matches(e, s.core.calls[id].query, s.owners[p][svc])
    ensures IsPath(e, more, rest) && more[0] == s
    ensures var last := more[|rest|].core;
            && id in last.calls && last.calls[id].phase.Returned? && last.calls[id].phase.out.Some?
            && DecodeDescription(last.calls[id].phase.out.value) == OnArrival(s.owners[p][svc])
  {
    var answer, s' := OwnerCanAnswer(e, s, id, p, svc);
    var path, last := AnsweredLookupReturns(e, s', id, answer);
    var reply := Reply(id, s.core.calls[id].query, p, svc);
    PathGrows(e, s, reply, path, last);
    more, rest := [s] + path, [reply] + last;
  }

  /** In every run the table of lookups is exactly the outstanding ones, and the replies kept are for no other. */
  lemma LookupTablesHoldOutstanding(e: Engine, ss: seq<State>, steps: seq<Step>, n: nat, i: nat)
    requires IsRun(e, ss, steps) && n <= |steps| && i in ss[n].core.tables
    ensures forall id :: id in ss[n].core.tables[i].requests <==> C.Outstanding(ss[n].core, i, id)
    ensures ss[n].core.tables[i].responses.Keys <= ss[n].core.tables[i].requests.Keys
  {
    CoreInv(e, ss, steps, n);
    C.TablesAreOutstanding(ss[n].core, i);
  }

  /** A reply to a lookup that has returned, or to one of another manager, changes nothing. */
  lemma StrayLookupReplyChangesNothing(e: Engine, ss: seq<State>, steps: seq<Step>, n: nat)
    requires IsRun(e, ss, steps) && n < |steps| && steps[n].Core? && steps[n].step.Deliver?
    requires !C.Outstanding(ss[n].core, steps[n].step.stub, steps[n].step.id)
    ensures ss[n + 1] == ss[n]
  {
    CoreInv(e, ss, steps, n);
    assert Next(e, ss[n], steps[n], ss[n + 1]);
    C.StrayIsIgnored(ss[n].core, steps[n].step, ss[n + 1].core);
  }
}
