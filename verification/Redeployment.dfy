/** Deploying an output node again: when its restarted numbering is safe, and when a late reply can
    complete the wrong input. */
module Redeployment {
  import opened Text
  import opened Correlation
  import opened EndToEnd
  import opened Reaching
  import WS = MatterSession

  /** An input completed successfully with something the server never said to its command. */
  ghost predicate Misdelivered(w: World, node: string, i: nat) {
    && node in w.outs && i < |w.outs[node].inputs|
    && var input := w.outs[node].inputs[i];
       input.outcome.Succeeded? && !ServerSaid(w, input.command, input.args, input.outcome.payload)
  }

  ghost predicate CanMisdeliver(flow: set<string>, w: World) {
    exists w', node, i: nat :: Reaches(flow, w, w') && Misdelivered(w', node, i)
  }

  function Redeployed(w: World, node: string): World {
    SetOut(w, node, NewOut(node))
  }

  /** The redeployed node makes its first `n` requests over again. */
  lemma {:induction false} SendAgain(flow: set<string>, w: World, node: string, command: string, n: nat) returns (w': World)
    requires command != ""
    ensures Reaches(flow, Redeployed(w, node), w') && w'.sessions == w.sessions && w.requests <= w'.requests
    ensures node in w'.outs && SentBy(w'.outs[node], node, command, n)
  {
    if n == 0 {
      w' := Redeployed(w, node);
      ReachesItself(flow, w');
    } else {
      var w1 := SendAgain(flow, w, node, command, n - 1);
      var m := NodeInput(node, command, "", true);
      ReachesMore(flow, Redeployed(w, node), w1, m);
      w' := Apply(flow, w1, m);
      SendOnce(w1.outs[node], node, command, n - 1);
    }
  }

  /** `n` inputs with the same command, all still waiting. */
  ghost predicate SentBy(o: Out, node: string, command: string, n: nat) {
    && o.id == node && o.seqNo == n && |o.inputs| == n
    && (n >= 1 ==> Suffixed(node, n) in o.pending && o.pending[Suffixed(node, n)] == n - 1 && o.inputs[n - 1].command == command)
  }

  lemma SendOnce(o: Out, node: string, command: string, n: nat)
    requires SentBy(o, node, command, n) && command != ""
    ensures SentBy(Send(o, command, "", true), node, command, n + 1)
  {
  }

  /** A command no call was ever made with. */
  lemma FreshCommand(commands: set<string>) returns (c: string)
    ensures c != "" && c !in commands
  {
    var n := LongerThanAll(commands);
    c := seq(n + 1, i => 'x');
  }

  lemma {:induction false} LongerThanAll(words: set<string>) returns (n: nat)
    ensures forall s :: s in words ==> |s| <= n
  {
    if words == {} {
      n := 0;
    } else {
      var s :| s in words;
      n := LongerThanAll(words - {s});
      if n < |s| {
        n := |s|;
      }
    }
  }

  function Commands(w: World): set<string> {
    set k, n | 0 <= k < |w.sessions| && n in w.sessions[k].calls :: w.sessions[k].calls[n].command
  }

  /** Deployed again while a published request carries the id of its `n`-th request, a node makes `n`
      requests, and a late reply to the old one completes the newest. */
  lemma RedeployMisdelivers(flow: set<string>, w: World, node: string, q: Request, n: nat)
    requires q in w.requests && n >= 1 && q.requestId == Suffixed(node, n)
    ensures CanMisdeliver(flow, Redeployed(w, node))
  {
    var c := FreshCommand(Commands(w) + {q.command});
    var w1 := SendAgain(flow, w, node, c, n);
    var w2 := AnswerLate(flow, Redeployed(w, node), w1, q, WS.Result(""));
    var r := Response(q.command, Echo(q.requestId), true, "");
    DecimalValue(n);
    ReachesMore(flow, Redeployed(w, node), w2, Hear(node, r));
    var w3 := Apply(flow, w2, Hear(node, r));
    NeverAsked(w, w3, q, c);
    assert Misdelivered(w3, node, n - 1);
  }

  lemma NeverAsked(w: World, w': World, q: Request, c: string)
    requires w'.sessions == w.sessions + [Returned(q.command, q.args, WS.Result(""))] && c !in Commands(w) && c != q.command
    ensures forall args, payload :: !ServerSaid(w', c, args, payload)
  {
    forall k: nat, n: nat | k < |w'.sessions| && n in w'.sessions[k].calls ensures w'.sessions[k].calls[n].command != c {
      if k < |w.sessions| {
        assert w.sessions[k].calls[n].command in Commands(w);
      }
    }
  }

  /** Deploying a node again is safe exactly while no published request carries one of its ids. */
  lemma RedeployIff(flow: set<string>, w: World, node: string)
    requires WorldOk(flow, w) && node in flow
    ensures CanMisdeliver(flow, Redeployed(w, node)) <==> Claimed(w, node)
  {
    if Claimed(w, node) {
      var q, n: nat :| q in w.requests && n >= 1 && q.requestId == Suffixed(node, n);
      RedeployMisdelivers(flow, w, node, q, n);
    } else {
      NodeDeploys(flow, w, node);
      forall w', other, i: nat | Reaches(flow, Redeployed(w, node), w') ensures !Misdelivered(w', other, i) {
        ReachesSafe(flow, Redeployed(w, node), w');
        if other in w'.outs && i < |w'.outs[other].inputs| {
          WorldCorrelated(flow, w', other, i);
        }
      }
    }
  }
}
