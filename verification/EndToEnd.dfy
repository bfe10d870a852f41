/** The whole path of a request: output node, request topic, bridge worker, websocket session,
    response topic, output node. Every part takes its steps when it likes; messages may be delivered
    late, more than once or never. */
module EndToEnd {
  import opened Text
  import opened Correlation
  import WS = MatterSession

  /** A bridge worker: the request it took, and the call it made for it. */
  datatype Job = Job(request: Request, session: nat, call: nat)

  datatype World = World(
    outs: map<string, Out>,
    requests: set<Request>,
    jobs: set<Job>,
    responses: set<Response>,
    sessions: seq<WS.Session>,
    connected: bool)

  const QUIET := World(map[], {}, {}, {}, [], false)

  datatype Move =
    | Deploy(node: string)
    | NodeInput(node: string, command: string, args: string, online: bool)
    | OtherRequest(request: Request)
    | Accept(request: Request)
    | Refuse(request: Request)
    | Open
    | Lose
    | SessionStep(session: nat, step: WS.Step)
    | Answer(job: Job)
    | Hear(node: string, response: Response)
    | Expire(node: string, requestId: string)
    | Undeploy(node: string)

  /** No output node ever makes this request id. */
  ghost predicate Foreign(flow: set<string>, id: string) {
    forall node, n: nat :: node in flow && n >= 1 ==> id != Suffixed(node, n)
  }

  function CallPhase(w: World, j: Job): Option<WS.Phase> {
    if j.session < |w.sessions| && j.call in w.sessions[j.session].calls
    then Some(w.sessions[j.session].calls[j.call].phase) else None
  }

  /** Some published request carries a request id the node makes. */
  ghost predicate Claimed(w: World, node: string) {
    exists q, n: nat :: q in w.requests && n >= 1 && q.requestId == Suffixed(node, n)
  }

  /** `flow` holds the ids of all output nodes. A node is deployed, for the first time or again, while
      no published request carries one of its ids, and whoever else publishes requests keeps clear of
      those ids. */
  ghost predicate Enabled(flow: set<string>, w: World, m: Move) {
    match m
    case Deploy(node) => node in flow && !Claimed(w, node)
    case NodeInput(node, _, _, _) => node in w.outs
    case OtherRequest(q) => Foreign(flow, q.requestId)
    case Accept(q) => q in w.requests && w.connected && w.sessions != []
    case Refuse(q) => q in w.requests && !w.connected
    case Open => !w.connected
    case Lose => w.connected
    case SessionStep(k, step) => k < |w.sessions| && WS.Enabled(w.sessions[k], step)
    case Answer(j) => j in w.jobs && CallPhase(w, j).Some? && CallPhase(w, j).value.Returned?
    case Hear(node, r) => node in w.outs && r in w.responses
    case Expire(node, id) => node in w.outs && id in w.outs[node].timers
    case Undeploy(node) => node in w.outs
  }

  function Echo(id: string): Option<string> {
    if id == "" then None else Some(id)
  }

  /** The response envelope for a call's outcome. */
  function Envelope(q: Request, o: WS.Outcome): Response {
    if o.Replied? && o.reply.body.Result? then Response(q.command, Echo(q.requestId), true, o.reply.body.payload)
    else Response(q.command, Echo(q.requestId), false, "")
  }

  function SetOut(w: World, node: string, o: Out): World {
    w.(outs := w.outs[node := o])
  }

  ghost function Apply(flow: set<string>, w: World, m: Move): World
    requires Enabled(flow, w, m)
  {
    match m
    case Deploy(node) => SetOut(w, node, NewOut(node))
    case NodeInput(node, command, args, online) =>
      var w1 := SetOut(w, node, Send(w.outs[node], command, args, online));
      if command != "" && online then w1.(requests := w.requests + {Request(command, args, NextId(w.outs[node]))}) else w1
    case OtherRequest(q) => w.(requests := w.requests + {q})
    case Accept(q) =>
      var k := |w.sessions| - 1;
      var s := w.sessions[k];
      w.(sessions := w.sessions[k := WS.Apply(s, WS.Begin(q.command, q.args))], jobs := w.jobs + {Job(q, k, s.next + 1)})
    case Refuse(q) => w.(responses := w.responses + {Response(q.command, Echo(q.requestId), false, "")})
    case Open => w.(sessions := w.sessions + [WS.FRESH], connected := true)
    case Lose => w.(connected := false)
    case SessionStep(k, step) => w.(sessions := w.sessions[k := WS.Apply(w.sessions[k], step)])
    case Answer(j) => w.(responses := w.responses + {Envelope(j.request, CallPhase(w, j).value.outcome)})
    case Hear(node, r) => SetOut(w, node, OnResponse(w.outs[node], r))
    case Expire(node, id) => SetOut(w, node, OnTimeout(w.outs[node], id))
    case Undeploy(node) => SetOut(w, node, OnClose(w.outs[node]))
  }

  // ---------- responses ----------

  /** An answer goes out for every call that has returned, under the request's own id, and says success
      exactly when the server returned a result. */
  lemma AnswerResponds(flow: set<string>, w: World, j: Job) returns (r: Response)
    requires Enabled(flow, w, Answer(j))
    ensures Apply(flow, w, Answer(j)) == w.(responses := w.responses + {r})
    ensures r.command == j.request.command && r.requestId == if j.request.requestId == "" then None else Some(j.request.requestId)
    ensures var o := w.sessions[j.session].calls[j.call].phase.outcome;
      && (r.success <==> o.Replied? && o.reply.body.Result?)
      && (r.success ==> r.payload == o.reply.body.payload)
  {
    r := Envelope(j.request, CallPhase(w, j).value.outcome);
  }

  /** So does a failure, at once, for a request that finds the bridge disconnected. */
  lemma RefuseResponds(flow: set<string>, w: World, q: Request) returns (r: Response)
    requires Enabled(flow, w, Refuse(q))
    ensures Apply(flow, w, Refuse(q)) == w.(responses := w.responses + {r})
    ensures r.command == q.command && !r.success && r.requestId == if q.requestId == "" then None else Some(q.requestId)
  {
    r := Response(q.command, Echo(q.requestId), false, "");
  }

  /** A node that hears a failure under an id it waits for fails that input, and calls its `done`. */
  lemma FailureHeard(flow: set<string>, w: World, node: string, r: Response, id: string)
    requires WorldOk(flow, w) && Enabled(flow, w, Hear(node, r)) && !r.success
    requires r.requestId == Some(id) && id in w.outs[node].pending
    ensures var w' := Apply(flow, w, Hear(node, r));
      && w' == w.(outs := w'.outs) && w'.outs.Keys == w.outs.Keys
      && (forall other :: other in w.outs && other != node ==> w'.outs[other] == w.outs[other])
      && Settled(w.outs[node], id, Failed, w'.outs[node])
  {
    assert OutOk(w.outs[node]);
    ReplySettles(w.outs[node], id, r);
  }

  // ---------- invariants ----------

  ghost predicate JobOk(w: World, j: Job) {
    && j.request in w.requests
    && j.session < |w.sessions|
    && var s := w.sessions[j.session];
       j.call in s.calls && s.calls[j.call].command == j.request.command && s.calls[j.call].args == j.request.args
  }

  /** The job's call returned this result. */
  ghost predicate Answers(w: World, j: Job, payload: string) {
    && j in w.jobs && JobOk(w, j)
    && CallPhase(w, j).Some? && CallPhase(w, j).value.Returned? && CallPhase(w, j).value.outcome.Replied?
    && CallPhase(w, j).value.outcome.reply.body == WS.Result(payload)
  }

  ghost predicate ResponseOk(w: World, r: Response) {
    r.success && r.requestId.Some? ==> exists j :: Answers(w, j, r.payload) && j.request.requestId == r.requestId.value
  }

  ghost predicate InputOk(w: World, i: Input) {
    i.outcome.Succeeded? ==> exists j ::
      Answers(w, j, i.outcome.payload) && j.request == Request(i.command, i.args, i.requestId)
  }

  predicate MatchOk(q: Request, i: Input) {
    i.outcome != NoCommand && q.requestId == i.requestId ==> q == Request(i.command, i.args, i.requestId)
  }

  ghost predicate OutsOk(w: World) {
    forall node :: node in w.outs ==> w.outs[node].id == node && OutOk(w.outs[node])
  }

  ghost predicate InputsOk(w: World) {
    forall node, i :: node in w.outs && 0 <= i < |w.outs[node].inputs| ==> InputOk(w, w.outs[node].inputs[i])
  }

  ghost predicate MatchesOk(w: World) {
    forall q, node, i :: q in w.requests && node in w.outs && 0 <= i < |w.outs[node].inputs| ==> MatchOk(q, w.outs[node].inputs[i])
  }

  /** Request ids in use never run ahead of the node that makes them. */
  ghost predicate NumbersOk(flow: set<string>, w: World) {
    forall q, node, n: nat :: q in w.requests && node in flow && n >= 1 && q.requestId == Suffixed(node, n)
      ==> node in w.outs && n <= w.outs[node].seqNo
  }

  ghost predicate WorldOk(flow: set<string>, w: World) {
    && w.outs.Keys <= flow
    && (forall k :: 0 <= k < |w.sessions| ==> WS.Inv(w.sessions[k]))
    && (forall j :: j in w.jobs ==> JobOk(w, j))
    && (forall r :: r in w.responses ==> ResponseOk(w, r))
    && OutsOk(w) && InputsOk(w) && MatchesOk(w) && NumbersOk(flow, w)
  }

  // ---------- what stays true as the world moves on ----------

  ghost predicate SessionGrows(s: WS.Session, s': WS.Session) {
    forall n :: n in s.calls ==>
      && n in s'.calls && s'.calls[n].command == s.calls[n].command && s'.calls[n].args == s.calls[n].args
      && (s.calls[n].phase.Returned? ==> s'.calls[n].phase == s.calls[n].phase)
  }

  ghost predicate Grows(w: World, w': World) {
    && w.jobs <= w'.jobs && w.requests <= w'.requests && |w.sessions| <= |w'.sessions|
    && forall k :: 0 <= k < |w.sessions| ==> SessionGrows(w.sessions[k], w'.sessions[k])
  }

  lemma JobStays(w: World, w': World, j: Job)
    requires Grows(w, w') && JobOk(w, j)
    ensures JobOk(w', j)
  {
    assert SessionGrows(w.sessions[j.session], w'.sessions[j.session]);
  }

  lemma AnswerStays(w: World, w': World, j: Job, payload: string)
    requires Grows(w, w') && Answers(w, j, payload)
    ensures Answers(w', j, payload)
  {
    JobStays(w, w', j);
    assert SessionGrows(w.sessions[j.session], w'.sessions[j.session]);
  }

  lemma ResponseStays(w: World, w': World, r: Response)
    requires Grows(w, w') && ResponseOk(w, r)
    ensures ResponseOk(w', r)
  {
    if r.success && r.requestId.Some? {
      var j :| Answers(w, j, r.payload) && j.request.requestId == r.requestId.value;
      AnswerStays(w, w', j, r.payload);
    }
  }

  lemma InputStays(w: World, w': World, i: Input)
    requires Grows(w, w') && InputOk(w, i)
    ensures InputOk(w', i)
  {
    if i.outcome.Succeeded? {
      var j :| Answers(w, j, i.outcome.payload) && j.request == Request(i.command, i.args, i.requestId);
      AnswerStays(w, w', j, i.outcome.payload);
    }
  }

  lemma StepGrows(s: WS.Session, step: WS.Step)
    requires WS.Inv(s) && WS.Enabled(s, step)
    ensures SessionGrows(s, WS.Apply(s, step)) && WS.Inv(WS.Apply(s, step))
  {
    forall n | n in s.calls ensures
      var s' := WS.Apply(s, step);
      && n in s'.calls && s'.calls[n].command == s.calls[n].command && s'.calls[n].args == s.calls[n].args
      && (s.calls[n].phase.Returned? ==> s'.calls[n].phase == s.calls[n].phase)
    {
      WS.CallsOnlyGrow(s, step, n);
    }
    WS.StepKeeps(s, step);
  }

  lemma SessionSet(w: World, w': World, k: nat, s: WS.Session)
    requires k < |w.sessions| && w'.sessions == w.sessions[k := s] && w.jobs <= w'.jobs && w.requests <= w'.requests
    requires SessionGrows(w.sessions[k], s) && WS.Inv(s) && forall i :: 0 <= i < |w.sessions| ==> WS.Inv(w.sessions[i])
    ensures Grows(w, w') && forall i :: 0 <= i < |w'.sessions| ==> WS.Inv(w'.sessions[i])
  {
  }

  lemma SessionsSame(w: World, w': World)
    requires w.sessions <= w'.sessions && w.jobs <= w'.jobs && w.requests <= w'.requests
    ensures Grows(w, w')
  {
  }

  lemma AnythingGrows(flow: set<string>, w: World, m: Move)
    requires WorldOk(flow, w) && Enabled(flow, w, m)
    ensures Grows(w, Apply(flow, w, m))
    ensures forall k :: 0 <= k < |Apply(flow, w, m).sessions| ==> WS.Inv(Apply(flow, w, m).sessions[k])
  {
    var w' := Apply(flow, w, m);
    match m
    case SessionStep(k, step) =>
      StepGrows(w.sessions[k], step);
      SessionSet(w, w', k, WS.Apply(w.sessions[k], step));
    case Accept(q) =>
      var k := |w.sessions| - 1;
      StepGrows(w.sessions[k], WS.Begin(q.command, q.args));
      SessionSet(w, w', k, WS.Apply(w.sessions[k], WS.Begin(q.command, q.args)));
    case Open =>
      WS.RunSafe([WS.FRESH], [], 0);
      SessionsSame(w, w');
    case _ =>
      SessionsSame(w, w');
  }

  // ---------- move by move ----------

  /** What a move owes once growth is known: its new jobs, its new responses, and its node. */
  lemma RestStays(flow: set<string>, w: World, w': World)
    requires WorldOk(flow, w) && Grows(w, w')
    requires w'.outs.Keys <= flow && forall k :: 0 <= k < |w'.sessions| ==> WS.Inv(w'.sessions[k])
    requires forall j :: j in w'.jobs && j !in w.jobs ==> JobOk(w', j)
    requires forall r :: r in w'.responses && r !in w.responses ==> ResponseOk(w', r)
    requires OutsOk(w') && InputsOk(w') && MatchesOk(w') && NumbersOk(flow, w')
    ensures WorldOk(flow, w')
  {
    forall j | j in w'.jobs ensures JobOk(w', j) {
      if j in w.jobs {
        JobStays(w, w', j);
      }
    }
    forall r | r in w'.responses ensures ResponseOk(w', r) {
      if r in w.responses {
        ResponseStays(w, w', r);
      }
    }
  }

  lemma InputsStay(w: World, w': World)
    requires InputsOk(w) && Grows(w, w') && w'.outs == w.outs
    ensures InputsOk(w')
  {
    forall node, i | node in w'.outs && 0 <= i < |w'.outs[node].inputs| ensures InputOk(w', w'.outs[node].inputs[i]) {
      InputStays(w, w', w.outs[node].inputs[i]);
    }
  }

  /** A move of the bridge or of a session. */
  lemma BridgeMoves(flow: set<string>, w: World, m: Move)
    requires WorldOk(flow, w) && Enabled(flow, w, m)
    requires m.Accept? || m.Refuse? || m.Open? || m.Lose? || m.SessionStep? || m.Answer?
    ensures WorldOk(flow, Apply(flow, w, m))
  {
    var w' := Apply(flow, w, m);
    AnythingGrows(flow, w, m);
    BridgeFrame(flow, w, m);
    InputsStay(w, w');
    NewJobs(flow, w, m);
    NewResponses(flow, w, m);
    RestStays(flow, w, w');
  }

  lemma BridgeFrame(flow: set<string>, w: World, m: Move)
    requires Enabled(flow, w, m)
    requires m.Accept? || m.Refuse? || m.Open? || m.Lose? || m.SessionStep? || m.Answer?
    ensures Apply(flow, w, m).outs == w.outs && Apply(flow, w, m).requests == w.requests
  {
  }

  lemma NewJobs(flow: set<string>, w: World, m: Move)
    requires Enabled(flow, w, m)
    ensures forall j :: j in Apply(flow, w, m).jobs && j !in w.jobs ==> JobOk(Apply(flow, w, m), j)
  {
  }

  lemma NewResponses(flow: set<string>, w: World, m: Move)
    requires WorldOk(flow, w) && Enabled(flow, w, m) && Grows(w, Apply(flow, w, m))
    ensures forall r :: r in Apply(flow, w, m).responses && r !in w.responses ==> ResponseOk(Apply(flow, w, m), r)
  {
    if m.Answer? {
      AnswerIsOk(w, Apply(flow, w, m), m.job);
    }
  }

  lemma AnswerIsOk(w: World, w': World, j: Job)
    requires j in w.jobs && JobOk(w, j) && CallPhase(w, j).Some? && CallPhase(w, j).value.Returned? && Grows(w, w')
    ensures ResponseOk(w', Envelope(j.request, CallPhase(w, j).value.outcome))
  {
    var r := Envelope(j.request, CallPhase(w, j).value.outcome);
    if r.success && r.requestId.Some? {
      assert Answers(w, j, r.payload);
      AnswerStays(w, w', j, r.payload);
    }
  }

  lemma OtherRequests(flow: set<string>, w: World, q: Request)
    requires WorldOk(flow, w) && Foreign(flow, q.requestId)
    ensures WorldOk(flow, w.(requests := w.requests + {q}))
  {
    var w' := w.(requests := w.requests + {q});
    InputsStay(w, w');
    forall node, i | node in w.outs && 0 <= i < |w.outs[node].inputs| ensures MatchOk(q, w.outs[node].inputs[i]) {
      var inp := w.outs[node].inputs[i];
      assert NumberOk(w.outs[node], inp);
    }
    RestStays(flow, w, w');
  }

  /** A move of one output node that leaves its old inputs' identities alone and publishes nothing. */
  lemma NodeSettles(flow: set<string>, w: World, node: string, o: Out)
    requires WorldOk(flow, w) && node in w.outs && OutOk(o) && o.id == node && o.seqNo == w.outs[node].seqNo
    requires |o.inputs| == |w.outs[node].inputs|
    requires forall i :: 0 <= i < |o.inputs| ==> SameRequest(w.outs[node].inputs[i], o.inputs[i]) && InputOk(w, o.inputs[i])
    ensures WorldOk(flow, SetOut(w, node, o))
  {
    var w' := SetOut(w, node, o);
    forall n, i | n in w'.outs && 0 <= i < |w'.outs[n].inputs| ensures InputOk(w', w'.outs[n].inputs[i]) {
      if n == node {
        InputStays(w, w', o.inputs[i]);
      } else {
        InputStays(w, w', w.outs[n].inputs[i]);
      }
    }
    forall q, n, i | q in w'.requests && n in w'.outs && 0 <= i < |w'.outs[n].inputs| ensures MatchOk(q, w'.outs[n].inputs[i]) {
      assert MatchOk(q, w.outs[n].inputs[i]);
      if n == node {
        assert SameRequest(w.outs[n].inputs[i], o.inputs[i]);
      }
    }
    RestStays(flow, w, w');
  }

  predicate SameRequest(a: Input, b: Input) {
    a.command == b.command && a.args == b.args && a.requestId == b.requestId && (a.outcome == NoCommand ==> b.outcome == NoCommand)
  }

  lemma NodeHears(flow: set<string>, w: World, node: string, r: Response)
    requires WorldOk(flow, w) && node in w.outs && r in w.responses
    ensures WorldOk(flow, SetOut(w, node, OnResponse(w.outs[node], r)))
  {
    var o := w.outs[node];
    var o' := OnResponse(o, r);
    ResponseKeeps(o, r);
    forall i | 0 <= i < |o'.inputs| ensures SameRequest(o.inputs[i], o'.inputs[i]) && InputOk(w, o'.inputs[i]) {
      assert InputOk(w, o.inputs[i]);
      if o'.inputs[i] != o.inputs[i] && r.success {
        HeardInput(w, node, i, r);
      }
    }
    NodeSettles(flow, w, node, o');
  }

  /** The input a successful response settles is the one whose own request was answered. */
  lemma HeardInput(w: World, node: string, i: nat, r: Response)
    requires node in w.outs && OutOk(w.outs[node]) && MatchesOk(w) && ResponseOk(w, r) && r.success
    requires i < |w.outs[node].inputs| && OnResponse(w.outs[node], r).inputs[i] != w.outs[node].inputs[i]
    ensures OnResponse(w.outs[node], r).inputs[i] == w.outs[node].inputs[i].(outcome := Succeeded(r.payload))
    ensures InputOk(w, OnResponse(w.outs[node], r).inputs[i])
  {
    var o := w.outs[node];
    assert WaitsAs(o.inputs[o.pending[r.requestId.value]], r.requestId.value);
    var j :| Answers(w, j, r.payload) && j.request.requestId == r.requestId.value;
    assert MatchOk(j.request, o.inputs[i]);
  }

  lemma NodeExpires(flow: set<string>, w: World, node: string, id: string)
    requires WorldOk(flow, w) && node in w.outs && id in w.outs[node].timers
    ensures WorldOk(flow, SetOut(w, node, OnTimeout(w.outs[node], id)))
  {
    var o, o' := w.outs[node], OnTimeout(w.outs[node], id);
    TimeoutKeeps(o, id);
    ExpiredFrame(o, id);
    forall i | 0 <= i < |o'.inputs| ensures SameRequest(o.inputs[i], o'.inputs[i]) && InputOk(w, o'.inputs[i]) {
      assert InputOk(w, o.inputs[i]);
    }
    NodeSettles(flow, w, node, o');
  }

  lemma ExpiredFrame(o: Out, id: string)
    requires OutOk(o) && id in o.timers
    ensures var o' := OnTimeout(o, id);
      && o'.id == o.id && o'.seqNo == o.seqNo && |o'.inputs| == |o.inputs|
      && forall i :: 0 <= i < |o.inputs| ==>
           SameRequest(o.inputs[i], o'.inputs[i]) && (o'.inputs[i] == o.inputs[i] || o'.inputs[i].outcome == TimedOut)
  {
    assert WaitsAs(o.inputs[o.pending[id]], id);
  }

  lemma NodeCloses(flow: set<string>, w: World, node: string)
    requires WorldOk(flow, w) && node in w.outs
    ensures WorldOk(flow, SetOut(w, node, OnClose(w.outs[node])))
  {
    var o, o' := w.outs[node], OnClose(w.outs[node]);
    CloseKeeps(o);
    forall i | 0 <= i < |o'.inputs| ensures SameRequest(o.inputs[i], o'.inputs[i]) && InputOk(w, o'.inputs[i]) {
      assert InputOk(w, o.inputs[i]);
    }
    NodeSettles(flow, w, node, o');
  }

  lemma NodeDeploys(flow: set<string>, w: World, node: string)
    requires WorldOk(flow, w) && node in flow && !Claimed(w, node)
    ensures WorldOk(flow, SetOut(w, node, NewOut(node)))
  {
    var w' := SetOut(w, node, NewOut(node));
    forall n, i | n in w'.outs && 0 <= i < |w'.outs[n].inputs| ensures InputOk(w', w'.outs[n].inputs[i]) {
      InputStays(w, w', w.outs[n].inputs[i]);
    }
    RestStays(flow, w, w');
  }

  lemma SentInput(o: Out, command: string, args: string, online: bool)
    ensures var o' := Send(o, command, args, online);
      && |o'.inputs| == |o.inputs| + 1 && o'.id == o.id && o.seqNo <= o'.seqNo
      && (forall i :: 0 <= i < |o.inputs| ==> o'.inputs[i] == o.inputs[i])
      && var inp := o'.inputs[|o.inputs|];
         if command == "" then inp.outcome == NoCommand
         else o'.seqNo == o.seqNo + 1 && inp == Input(command, args, NextId(o), if online then Waiting else NotPublished)
  {
  }

  /** The request of a new input matches that input and no older one, of this node or another. */
  lemma NewRequestMatches(flow: set<string>, w: World, node: string, q: Request, other: string, i: nat)
    requires WorldOk(flow, w) && node in w.outs && q.requestId == NextId(w.outs[node])
    requires other in w.outs && i < |w.outs[other].inputs|
    ensures MatchOk(q, w.outs[other].inputs[i])
  {
    var inp := w.outs[other].inputs[i];
    assert NumberOk(w.outs[other], inp);
    if inp.outcome != NoCommand && q.requestId == inp.requestId {
      var n: nat :| 1 <= n <= w.outs[other].seqNo && inp.requestId == Suffixed(w.outs[other].id, n);
      SuffixedInjective(node, w.outs[node].seqNo + 1, other, n);
    }
  }

  /** No request already published carries the next request id of a node. */
  lemma NextIdUnused(flow: set<string>, w: World, node: string, q: Request)
    requires WorldOk(flow, w) && node in w.outs && q in w.requests
    ensures q.requestId != NextId(w.outs[node])
  {
    assert w.outs[node].id == node;
  }

  lemma SentNumbers(flow: set<string>, w: World, node: string, w': World)
    requires WorldOk(flow, w) && node in w.outs && w'.outs.Keys == w.outs.Keys
    requires forall n :: n in w.outs ==> w.outs[n].seqNo <= w'.outs[n].seqNo
    requires forall q :: q in w'.requests && q !in w.requests ==>
      q.requestId == NextId(w.outs[node]) && w'.outs[node].seqNo == w.outs[node].seqNo + 1
    ensures NumbersOk(flow, w')
  {
    forall q, n, k: nat | q in w'.requests && n in flow && k >= 1 && q.requestId == Suffixed(n, k)
      ensures n in w'.outs && k <= w'.outs[n].seqNo
    {
      if q !in w.requests {
        SuffixedInjective(n, k, node, w.outs[node].seqNo + 1);
      }
    }
  }

  lemma SentMatches(flow: set<string>, w: World, node: string, command: string, args: string, online: bool, w': World)
    requires WorldOk(flow, w) && node in w.outs
    requires w' == Apply(flow, w, NodeInput(node, command, args, online))
    ensures MatchesOk(w')
  {
    var o := w.outs[node];
    SentInput(o, command, args, online);
    forall q, n, i | q in w'.requests && n in w'.outs && 0 <= i < |w'.outs[n].inputs| ensures MatchOk(q, w'.outs[n].inputs[i]) {
      if n == node && i == |o.inputs| {
        if q in w.requests {
          NextIdUnused(flow, w, node, q);
        }
      } else {
        assert w'.outs[n].inputs[i] == w.outs[n].inputs[i];
        if q !in w.requests {
          NewRequestMatches(flow, w, node, q, n, i);
        }
      }
    }
  }

  lemma SentInputs(w: World, node: string, command: string, args: string, online: bool, w': World)
    requires InputsOk(w) && Grows(w, w') && node in w.outs
    requires w'.outs == w.outs[node := Send(w.outs[node], command, args, online)]
    ensures InputsOk(w')
  {
    SentInput(w.outs[node], command, args, online);
    forall n, i | n in w'.outs && 0 <= i < |w'.outs[n].inputs| ensures InputOk(w', w'.outs[n].inputs[i]) {
      if n != node || i < |w.outs[node].inputs| {
        InputStays(w, w', w.outs[n].inputs[i]);
      }
    }
  }

  lemma SentOuts(w: World, node: string, command: string, args: string, online: bool)
    requires OutsOk(w) && node in w.outs
    ensures OutsOk(SetOut(w, node, Send(w.outs[node], command, args, online)))
  {
    SendKeeps(w.outs[node], command, args, online);
    SentInput(w.outs[node], command, args, online);
  }

  lemma NodeSends(flow: set<string>, w: World, node: string, command: string, args: string, online: bool)
    requires WorldOk(flow, w) && node in w.outs
    ensures WorldOk(flow, Apply(flow, w, NodeInput(node, command, args, online)))
  {
    var w' := Apply(flow, w, NodeInput(node, command, args, online));
    var o := w.outs[node];
    SentOuts(w, node, command, args, online);
    SentInput(o, command, args, online);
    SessionsSame(w, w');
    SentInputs(w, node, command, args, online, w');
    SentMatches(flow, w, node, command, args, online, w');
    SentNumbers(flow, w, node, w');
    RestStays(flow, w, w');
  }

  lemma MoveKeeps(flow: set<string>, w: World, m: Move)
    requires WorldOk(flow, w) && Enabled(flow, w, m)
    ensures WorldOk(flow, Apply(flow, w, m))
  {
    match m
    case Deploy(node) => NodeDeploys(flow, w, node);
    case NodeInput(node, command, args, online) => NodeSends(flow, w, node, command, args, online);
    case OtherRequest(q) => OtherRequests(flow, w, q);
    case Hear(node, r) => NodeHears(flow, w, node, r);
    case Expire(node, id) => NodeExpires(flow, w, node, id);
    case Undeploy(node) => NodeCloses(flow, w, node);
    case _ => BridgeMoves(flow, w, m);
  }

  // ---------- the theorem ----------

  ghost predicate Moves(flow: set<string>, w: World, m: Move, w': World) {
    Enabled(flow, w, m) && w' == Apply(flow, w, m)
  }

  ghost predicate IsPath(flow: set<string>, ws: seq<World>, moves: seq<Move>) {
    |ws| == |moves| + 1 && forall i :: 0 <= i < |moves| ==> Moves(flow, ws[i], moves[i], ws[i + 1])
  }

  ghost predicate IsRun(flow: set<string>, ws: seq<World>, moves: seq<Move>) {
    IsPath(flow, ws, moves) && ws[0] == QUIET
  }

  lemma {:induction false} PathSafe(flow: set<string>, ws: seq<World>, moves: seq<Move>, k: nat)
    requires IsPath(flow, ws, moves) && WorldOk(flow, ws[0]) && k < |ws|
    ensures WorldOk(flow, ws[k])
  {
    if k == 0 {
    } else {
      PathSafe(flow, ws, moves, k - 1);
      assert Moves(flow, ws[k - 1], moves[k - 1], ws[k - 1 + 1]);
      MoveKeeps(flow, ws[k - 1], moves[k - 1]);
    }
  }

  lemma RunSafe(flow: set<string>, ws: seq<World>, moves: seq<Move>, k: nat)
    requires IsRun(flow, ws, moves) && k < |ws|
    ensures WorldOk(flow, ws[k])
  {
    PathSafe(flow, ws, moves, k);
  }

  /** The server sent this result under the number of a call the bridge made for this command and
      these arguments. */
  ghost predicate ServerSaid(w: World, command: string, args: string, payload: string) {
    exists k: nat, n: nat :: SaidIn(w, k, n, command, args, payload)
  }

  ghost predicate SaidIn(w: World, k: nat, n: nat, command: string, args: string, payload: string) {
    && k < |w.sessions| && n in w.sessions[k].calls
    && w.sessions[k].calls[n].command == command && w.sessions[k].calls[n].args == args
    && WS.WasRead(w.sessions[k], WS.Reply(Decimal(n), WS.Result(payload)))
  }

  /** In every reachable world, an input that completed successfully carries the server's result for
      a call made with that input's own command and arguments. */
  lemma Correlated(flow: set<string>, ws: seq<World>, moves: seq<Move>, k: nat, node: string, i: nat)
    requires IsRun(flow, ws, moves) && k < |ws| && node in ws[k].outs && i < |ws[k].outs[node].inputs|
    ensures var input := ws[k].outs[node].inputs[i];
      input.outcome.Succeeded? ==> ServerSaid(ws[k], input.command, input.args, input.outcome.payload)
  {
    RunSafe(flow, ws, moves, k);
    WorldCorrelated(flow, ws[k], node, i);
  }

  lemma WorldCorrelated(flow: set<string>, w: World, node: string, i: nat)
    requires WorldOk(flow, w) && node in w.outs && i < |w.outs[node].inputs|
    ensures var input := w.outs[node].inputs[i];
      input.outcome.Succeeded? ==> ServerSaid(w, input.command, input.args, input.outcome.payload)
  {
    var input := w.outs[node].inputs[i];
    assert InputOk(w, input);
    if input.outcome.Succeeded? {
      var j :| Answers(w, j, input.outcome.payload) && j.request == Request(input.command, input.args, input.requestId);
      WS.ReturnedReply(w.sessions[j.session], j.call);
      assert SaidIn(w, j.session, j.call, input.command, input.args, input.outcome.payload);
    }
  }

  /** Every output node of every reachable world has each input in exactly one state, and called
      `done` exactly once for each completed one. */
  lemma ExactlyOnce(flow: set<string>, ws: seq<World>, moves: seq<Move>, k: nat, node: string, i: nat)
    requires IsRun(flow, ws, moves) && k < |ws| && node in ws[k].outs && i < |ws[k].outs[node].inputs|
    ensures var o := ws[k].outs[node];
      && Count(o.dones, i) == (if Completed(o.inputs[i].outcome) then 1 else 0)
      && (o.inputs[i].outcome == Waiting <==> o.inputs[i].requestId in o.pending && o.pending[o.inputs[i].requestId] == i)
      && o.timers == o.pending.Keys
  {
    RunSafe(flow, ws, moves, k);
    var o := ws[k].outs[node];
    assert OutOk(o);
    if o.inputs[i].requestId in o.pending {
      assert WaitsAs(o.inputs[o.pending[o.inputs[i].requestId]], o.inputs[i].requestId);
    }
  }
}
