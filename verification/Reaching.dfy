/** Reaching one world from another, move by move, and how a request gets its answer on the way. */
module Reaching {
  import opened Text
  import opened Correlation
  import opened EndToEnd
  import WS = MatterSession

  // ---------- reaching a world ----------

  ghost predicate Reaches(flow: set<string>, w: World, w': World) {
    exists ws, moves :: IsPath(flow, ws, moves) && ws[0] == w && ws[|moves|] == w'
  }

  lemma ReachesItself(flow: set<string>, w: World)
    ensures Reaches(flow, w, w)
  {
    var ws, moves: seq<Move> := [w], [];
    assert IsPath(flow, ws, moves) && ws[0] == w && ws[|moves|] == w;
  }

  lemma ReachesMore(flow: set<string>, w: World, w': World, m: Move)
    requires Reaches(flow, w, w') && Enabled(flow, w', m)
    ensures Reaches(flow, w, Apply(flow, w', m))
  {
    var ws, moves :| IsPath(flow, ws, moves) && ws[0] == w && ws[|moves|] == w';
    PathMore(flow, ws, moves, m, Apply(flow, w', m));
  }

  lemma PathMore(flow: set<string>, ws: seq<World>, moves: seq<Move>, m: Move, w': World)
    requires IsPath(flow, ws, moves) && Moves(flow, ws[|moves|], m, w')
    ensures Reaches(flow, ws[0], w')
  {
    var ws', moves' := ws + [w'], moves + [m];
    forall i | 0 <= i < |moves'| ensures Moves(flow, ws'[i], moves'[i], ws'[i + 1]) {
      if i < |moves| {
        assert moves'[i] == moves[i] && ws'[i] == ws[i] && ws'[i + 1] == ws[i + 1];
      }
    }
    assert IsPath(flow, ws', moves') && ws'[0] == ws[0] && ws'[|moves'|] == w';
  }

  lemma ReachesSafe(flow: set<string>, w: World, w': World)
    requires Reaches(flow, w, w') && WorldOk(flow, w)
    ensures WorldOk(flow, w')
  {
    var ws, moves :| IsPath(flow, ws, moves) && ws[0] == w && ws[|moves|] == w';
    PathSafe(flow, ws, moves, |moves|);
  }

  // ---------- driving one session ----------

  ghost predicate Runs(s: WS.Session, steps: seq<WS.Step>)
    decreases |steps|
  {
    steps == [] || (WS.Enabled(s, steps[0]) && Runs(WS.Apply(s, steps[0]), steps[1..]))
  }

  ghost function After(s: WS.Session, steps: seq<WS.Step>): WS.Session
    requires Runs(s, steps)
    decreases |steps|
  {
    if steps == [] then s else After(WS.Apply(s, steps[0]), steps[1..])
  }

  lemma {:induction false} Drive(flow: set<string>, w0: World, w: World, k: nat, steps: seq<WS.Step>)
    requires Reaches(flow, w0, w) && k < |w.sessions| && Runs(w.sessions[k], steps)
    ensures Reaches(flow, w0, w.(sessions := w.sessions[k := After(w.sessions[k], steps)]))
    decreases |steps|
  {
    if steps == [] {
      assert w.sessions[k := w.sessions[k]] == w.sessions;
    } else {
      var m := SessionStep(k, steps[0]);
      var w1 := Apply(flow, w, m);
      ReachesMore(flow, w0, w, m);
      Drive(flow, w0, w1, k, steps[1..]);
      assert w1.sessions[k := After(w1.sessions[k], steps[1..])] == w.sessions[k := After(w.sessions[k], steps)];
    }
  }

  function FirstReply(body: WS.Body): WS.Reply {
    WS.Reply(Decimal(1), body)
  }

  /** A fresh session in which one call has just begun. */
  function Begun(command: string, args: string): WS.Session {
    WS.Apply(WS.FRESH, WS.Begin(command, args))
  }

  lemma Then(s: WS.Session, step: WS.Step, rest: seq<WS.Step>)
    requires WS.Enabled(s, step) && Runs(WS.Apply(s, step), rest)
    ensures Runs(s, [step] + rest) && After(s, [step] + rest) == After(WS.Apply(s, step), rest)
  {
    assert ([step] + rest)[1..] == rest;
  }

  /** The request is written and answered, and the read pump has delivered the answer. */
  function Delivered(command: string, args: string, body: WS.Body): WS.Session {
    var r := FirstReply(body);
    var c := WS.Call(command, args, WS.Waiting, Some(r));
    WS.FRESH.(next := 1, calls := map[1 := c], began := map[1 := 0], pending := map[Decimal(1) := 1], written := [1], read := [WS.ReplyFrame(r)])
  }

  function Returned(command: string, args: string, body: WS.Body): WS.Session {
    var r := FirstReply(body);
    var c := WS.Call(command, args, WS.Returned(WS.Replied(r)), None);
    WS.FRESH.(next := 1, calls := map[1 := c], began := map[1 := 0], pending := map[], written := [1], read := [WS.ReplyFrame(r)])
  }

  lemma SentAndAnswered(command: string, args: string, body: WS.Body, rest: seq<WS.Step>)
    requires Runs(Delivered(command, args, body), rest)
    ensures var steps := [WS.Enqueue(1)] + ([WS.Write] + ([WS.Read(WS.ReplyFrame(FirstReply(body)))] + ([WS.Deliver] + rest)));
      Runs(Begun(command, args), steps) && After(Begun(command, args), steps) == After(Delivered(command, args, body), rest)
  {
    var r := FirstReply(body);
    var s0 := Begun(command, args);
    var s1 := WS.Apply(s0, WS.Enqueue(1));
    var s2 := WS.Apply(s1, WS.Write);
    var s3 := WS.Apply(s2, WS.Read(WS.ReplyFrame(r)));
    var s4 := WS.Apply(s3, WS.Deliver);
    assert s4 == Delivered(command, args, body);
    Then(s3, WS.Deliver, rest);
    Then(s2, WS.Read(WS.ReplyFrame(r)), [WS.Deliver] + rest);
    Then(s1, WS.Write, [WS.Read(WS.ReplyFrame(r))] + ([WS.Deliver] + rest));
    Then(s0, WS.Enqueue(1), [WS.Write] + ([WS.Read(WS.ReplyFrame(r))] + ([WS.Deliver] + rest)));
  }

  lemma TakenAndReturned(command: string, args: string, body: WS.Body)
    ensures var steps := [WS.Take(1)] + ([WS.Leave(1)] + []);
      Runs(Delivered(command, args, body), steps)
      && After(Delivered(command, args, body), steps) == Returned(command, args, body)
  {
    var s0 := Delivered(command, args, body);
    var s1 := WS.Apply(s0, WS.Take(1));
    var s2 := WS.Apply(s1, WS.Leave(1));
    assert s2 == Returned(command, args, body);
    Then(s1, WS.Leave(1), []);
    Then(s0, WS.Take(1), [WS.Leave(1)] + []);
  }

  /** A call that has just begun in a fresh session can run its course and return any result or rejection. */
  lemma Exchange(command: string, args: string, body: WS.Body) returns (steps: seq<WS.Step>)
    ensures Runs(Begun(command, args), steps) && After(Begun(command, args), steps) == Returned(command, args, body)
  {
    TakenAndReturned(command, args, body);
    var rest := [WS.Take(1)] + ([WS.Leave(1)] + []);
    SentAndAnswered(command, args, body, rest);
    steps := [WS.Enqueue(1)] + ([WS.Write] + ([WS.Read(WS.ReplyFrame(FirstReply(body)))] + ([WS.Deliver] + rest)));
  }

  // ---------- answering a request ----------

  /** What goes out for a request, given what the server said. */
  function Reported(q: Request, body: WS.Body): Response {
    Response(q.command, if q.requestId == "" then None else Some(q.requestId), body.Result?, if body.Result? then body.payload else "")
  }

  /** The bridge can always open a session, take a published request and answer it there. */
  lemma AnswerLate(flow: set<string>, w0: World, w: World, q: Request, body: WS.Body) returns (w': World)
    requires Reaches(flow, w0, w) && q in w.requests
    ensures Reaches(flow, w0, w') && w'.outs == w.outs
    ensures w'.sessions == w.sessions + [Returned(q.command, q.args, body)]
    ensures Reported(q, body) in w'.responses
  {
    var w1 := Disconnected(flow, w0, w);
    ReachesMore(flow, w0, w1, Open);
    var w2 := Apply(flow, w1, Open);
    ReachesMore(flow, w0, w2, Accept(q));
    var w3 := Apply(flow, w2, Accept(q));
    var k := |w.sessions|;
    assert w3.sessions[k] == Begun(q.command, q.args);
    var steps := Exchange(q.command, q.args, body);
    Drive(flow, w0, w3, k, steps);
    var w4 := w3.(sessions := w3.sessions[k := Returned(q.command, q.args, body)]);
    assert w4.sessions == w.sessions + [Returned(q.command, q.args, body)];
    w' := AnswerJob(flow, w0, w4, Job(q, k, 1), body);
  }

  lemma Disconnected(flow: set<string>, w0: World, w: World) returns (w': World)
    requires Reaches(flow, w0, w)
    ensures Reaches(flow, w0, w') && w' == w.(connected := false)
  {
    w' := w;
    if w.connected {
      ReachesMore(flow, w0, w, Lose);
      w' := Apply(flow, w, Lose);
    }
  }

  lemma AnswerJob(flow: set<string>, w0: World, w: World, j: Job, body: WS.Body) returns (w': World)
    requires Reaches(flow, w0, w) && j in w.jobs && CallPhase(w, j) == Some(WS.Returned(WS.Replied(FirstReply(body))))
    ensures Reaches(flow, w0, w') && w' == w.(responses := w.responses + {Reported(j.request, body)})
  {
    ReachesMore(flow, w0, w, Answer(j));
    w' := Apply(flow, w, Answer(j));
  }
}
