/** What can become of a request: every ending is within reach, so nothing on the way swallows it. */
module Progress {
  import opened Text
  import opened Correlation
  import opened EndToEnd
  import opened Reaching
  import WS = MatterSession

  /** The world after an output node has sent a request. */
  ghost function Sent(flow: set<string>, w: World, node: string, command: string, args: string): World
    requires node in w.outs
  {
    Apply(flow, w, NodeInput(node, command, args, true))
  }

  /** Some reachable world gives the node's `i`-th input this outcome. */
  ghost predicate CanEnd(flow: set<string>, w: World, node: string, i: nat, outcome: Outcome) {
    exists w' :: Reaches(flow, w, w') && EndsAs(w', node, i, outcome)
  }

  predicate EndsAs(w: World, node: string, i: nat, outcome: Outcome) {
    node in w.outs && i < |w.outs[node].inputs| && w.outs[node].inputs[i].outcome == outcome
  }

  lemma SentWaits(flow: set<string>, w: World, node: string, command: string, args: string)
    requires WorldOk(flow, w) && node in w.outs && command != ""
    ensures var w1, o := Sent(flow, w, node, command, args), w.outs[node];
      var id := NextId(o);
      && Request(command, args, id) in w1.requests && node in w1.outs && id != ""
      && id in w1.outs[node].pending && w1.outs[node].pending[id] == |o.inputs| && OutOk(w1.outs[node])
  {
    SendLeaves(w.outs[node], command, args, true);
    SendKeeps(w.outs[node], command, args, true);
    FreshId(w.outs[node]);
  }

  lemma HearEnds(flow: set<string>, w0: World, w: World, node: string, id: string, r: Response)
    requires Reaches(flow, w0, w) && node in w.outs && OutOk(w.outs[node]) && id in w.outs[node].pending
    requires r in w.responses && r.requestId == Some(id)
    ensures CanEnd(flow, w0, node, w.outs[node].pending[id], if r.success then Succeeded(r.payload) else Failed)
  {
    ReachesMore(flow, w0, w, Hear(node, r));
    var w' := Apply(flow, w, Hear(node, r));
    ReplySettles(w.outs[node], id, r);
    assert EndsAs(w', node, w.outs[node].pending[id], if r.success then Succeeded(r.payload) else Failed);
  }

  /** Whatever the server says to a request, the input it was made for can end that way: with the result,
      or failed if the server rejects it. */
  lemma CanBeAnswered(flow: set<string>, w: World, node: string, command: string, args: string, body: WS.Body)
    requires WorldOk(flow, w) && node in w.outs && command != ""
    ensures CanEnd(flow, Sent(flow, w, node, command, args), node, |w.outs[node].inputs|,
      if body.Result? then Succeeded(body.payload) else Failed)
  {
    var w1, q := Sent(flow, w, node, command, args), Request(command, args, NextId(w.outs[node]));
    SentWaits(flow, w, node, command, args);
    ReachesItself(flow, w1);
    var w2 := AnswerLate(flow, w1, w1, q, body);
    HearEnds(flow, w1, w2, node, q.requestId, Reported(q, body));
  }

  /** With the bridge disconnected it can fail without any session taking part. */
  lemma CanBeRefused(flow: set<string>, w: World, node: string, command: string, args: string)
    requires WorldOk(flow, w) && node in w.outs && command != "" && !w.connected
    ensures var w1 := Sent(flow, w, node, command, args);
      exists w' :: Reaches(flow, w1, w') && w'.sessions == w.sessions && EndsAs(w', node, |w.outs[node].inputs|, Failed)
  {
    var w1, q := Sent(flow, w, node, command, args), Request(command, args, NextId(w.outs[node]));
    SentWaits(flow, w, node, command, args);
    ReachesItself(flow, w1);
    ReachesMore(flow, w1, w1, Refuse(q));
    var r := RefuseResponds(flow, w1, q);
    var w2 := Apply(flow, w1, Refuse(q));
    ReachesMore(flow, w1, w2, Hear(node, r));
    ReplySettles(w2.outs[node], q.requestId, r);
    assert EndsAs(Apply(flow, w2, Hear(node, r)), node, |w.outs[node].inputs|, Failed);
  }

  /** And it can time out, or be dropped with its node. */
  lemma CanExpireOrDrop(flow: set<string>, w: World, node: string, command: string, args: string)
    requires WorldOk(flow, w) && node in w.outs && command != ""
    ensures CanEnd(flow, Sent(flow, w, node, command, args), node, |w.outs[node].inputs|, TimedOut)
    ensures CanEnd(flow, Sent(flow, w, node, command, args), node, |w.outs[node].inputs|, Dropped)
  {
    var w1, id, i := Sent(flow, w, node, command, args), NextId(w.outs[node]), |w.outs[node].inputs|;
    SentWaits(flow, w, node, command, args);
    WaitingUnder(w1.outs[node], id);
    ReachesItself(flow, w1);
    ReachesMore(flow, w1, w1, Expire(node, id));
    TimeoutSettles(w1.outs[node], id);
    assert EndsAs(Apply(flow, w1, Expire(node, id)), node, i, TimedOut);
    ReachesMore(flow, w1, w1, Undeploy(node));
    CloseDrops(w1.outs[node], i);
    assert EndsAs(Apply(flow, w1, Undeploy(node)), node, i, Dropped);
  }
}
