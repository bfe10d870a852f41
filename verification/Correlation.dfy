/** One output node in request mode: its pending requests, their timers, and the inputs it has
    completed. */
module Correlation {
  import opened Text

  // ---------- an output node ----------

  datatype Outcome =
    | Waiting
    | Succeeded(payload: string)
    | Failed
    | TimedOut
    | NotPublished
    | NoCommand
    | Dropped

  datatype Input = Input(command: string, args: string, requestId: string, outcome: Outcome)

  /** `pending` maps a request id to the input it was made for; `timers` holds the request ids with
      a running timer; `dones` lists the inputs whose `done` was called, in order. */
  datatype Out = Out(
    id: string,
    seqNo: nat,
    inputs: seq<Input>,
    pending: map<string, nat>,
    timers: set<string>,
    dones: seq<nat>,
    closed: bool)

  function NewOut(id: string): Out {
    Out(id, 0, [], map[], {}, [], false)
  }

  /** A reply on the response topic, as the bridge encodes it; `_request_id` is left out when empty. */
  datatype Response = Response(command: string, requestId: Option<string>, success: bool, payload: string)

  datatype Request = Request(command: string, args: string, requestId: string)

  function Settle(o: Out, i: nat, outcome: Outcome): Out
    requires i < |o.inputs|
  {
    o.(inputs := o.inputs[i := o.inputs[i].(outcome := outcome)], dones := if outcome.Dropped? then o.dones else o.dones + [i])
  }

  function NextId(o: Out): string {
    Suffixed(o.id, o.seqNo + 1)
  }

  /** An input without a command fails at once; otherwise it gets the next request id, a timer and a
      pending entry, all of which are undone when publishing fails. */
  function Send(o: Out, command: string, args: string, online: bool): Out {
    var i := |o.inputs|;
    if command == "" then Settle(o.(inputs := o.inputs + [Input("", args, "", Waiting)]), i, NoCommand)
    else
      var id := NextId(o);
      var o1 := o.(seqNo := o.seqNo + 1, inputs := o.inputs + [Input(command, args, id, Waiting)]);
      if online then o1.(pending := o.pending[id := i], timers := o.timers + {id})
      else Settle(o1.(pending := o.pending - {id}, timers := o.timers - {id}), i, NotPublished)
  }

  function Forget(o: Out, id: string): Out {
    o.(pending := o.pending - {id}, timers := o.timers - {id})
  }

  function OnResponse(o: Out, r: Response): Out {
    if r.requestId.None? || r.requestId.value !in o.pending || o.pending[r.requestId.value] >= |o.inputs| then o
    else
      var i := o.pending[r.requestId.value];
      Settle(Forget(o, r.requestId.value), i, if r.success then Succeeded(r.payload) else Failed)
  }

  function OnTimeout(o: Out, id: string): Out {
    if id !in o.timers then o
    else if id !in o.pending || o.pending[id] >= |o.inputs| then Forget(o, id)
    else Settle(Forget(o, id), o.pending[id], TimedOut)
  }

  /** Closing drops what is pending without calling anybody's `done`. */
  function OnClose(o: Out): Out {
    o.(inputs := seq(|o.inputs|, i requires 0 <= i < |o.inputs| =>
         if o.inputs[i].outcome == Waiting then o.inputs[i].(outcome := Dropped) else o.inputs[i]),
       pending := map[], timers := {}, closed := true)
  }

  predicate Completed(outcome: Outcome) {
    !outcome.Waiting? && !outcome.Dropped?
  }

  function Count(s: seq<nat>, i: nat): nat {
    if s == [] then 0 else Count(s[..|s| - 1], i) + if s[|s| - 1] == i then 1 else 0
  }

  /** Every input is in exactly one state: waiting with a pending entry and a timer, or settled with
      neither; and `done` was called once for each completed input and for no other. */
  ghost predicate OutOk(o: Out) {
    PendingOk(o) && NumbersOk(o) && DonesOk(o)
  }

  ghost predicate PendingOk(o: Out) {
    && o.timers == o.pending.Keys
    && (forall id :: id in o.pending ==> o.pending[id] < |o.inputs| && WaitsAs(o.inputs[o.pending[id]], id))
    && (forall i :: 0 <= i < |o.inputs| && o.inputs[i].outcome == Waiting ==>
          o.inputs[i].requestId in o.pending && o.pending[o.inputs[i].requestId] == i)
  }

  ghost predicate NumbersOk(o: Out) {
    forall i :: 0 <= i < |o.inputs| ==> NumberOk(o, o.inputs[i])
  }

  ghost predicate NumberOk(o: Out, i: Input) {
    if i.outcome == NoCommand then i.requestId == "" else NumberedIn(o, i.requestId)
  }

  ghost predicate DonesOk(o: Out) {
    forall i: nat :: Count(o.dones, i) == if i < |o.inputs| && Completed(o.inputs[i].outcome) then 1 else 0
  }

  predicate WaitsAs(i: Input, id: string) {
    i.outcome == Waiting && i.requestId == id
  }

  ghost predicate NumberedIn(o: Out, id: string) {
    exists n: nat :: 1 <= n <= o.seqNo && id == Suffixed(o.id, n)
  }

  lemma CountAppend(s: seq<nat>, x: nat, i: nat)
    ensures Count(s + [x], i) == Count(s, i) + if x == i then 1 else 0
  {
    assert (s + [x])[..|s|] == s;
  }

  /** Settling a waiting input whose entry has been forgotten. */
  lemma SettleKeeps(o: Out, id: string, outcome: Outcome)
    requires OutOk(o) && id in o.pending && Completed(outcome) && outcome != NoCommand
    ensures OutOk(Settle(Forget(o, id), o.pending[id], outcome))
  {
    var i := o.pending[id];
    var o' := Settle(Forget(o, id), i, outcome);
    assert WaitsAs(o.inputs[i], id);
    forall k: nat ensures Count(o'.dones, k) == Count(o.dones, k) + if k == i then 1 else 0 {
      CountAppend(o.dones, i, k);
    }
    forall j | j in o'.pending ensures o'.pending[j] < |o'.inputs| && WaitsAs(o'.inputs[o'.pending[j]], j) {
      assert WaitsAs(o.inputs[o.pending[j]], j);
    }
    forall k | 0 <= k < |o'.inputs| ensures NumberOk(o', o'.inputs[k]) {
      assert NumberOk(o, o.inputs[k]);
    }
  }

  lemma FreshId(o: Out)
    requires OutOk(o)
    ensures NextId(o) !in o.pending && NextId(o) != ""
    ensures forall i :: 0 <= i < |o.inputs| ==> o.inputs[i].requestId != NextId(o)
  {
    forall i | 0 <= i < |o.inputs| ensures o.inputs[i].requestId != NextId(o) {
      assert NumberOk(o, o.inputs[i]);
      if o.inputs[i].outcome != NoCommand {
        var n: nat :| 1 <= n <= o.seqNo && o.inputs[i].requestId == Suffixed(o.id, n);
        if Suffixed(o.id, n) == NextId(o) {
          SuffixedInjective(o.id, n, o.id, o.seqNo + 1);
        }
      }
    }
    forall id | id in o.pending ensures id != NextId(o) {
      assert WaitsAs(o.inputs[o.pending[id]], id);
    }
  }

  lemma MoreNumbers(o: Out, o': Out, id: string)
    requires NumberedIn(o, id) && o'.id == o.id && o'.seqNo >= o.seqNo
    ensures NumberedIn(o', id)
  {
  }

  ghost predicate Appends(o: Out, inp: Input, o': Out) {
    o'.inputs == o.inputs + [inp] && o'.id == o.id && o'.seqNo >= o.seqNo
  }

  lemma AppendNumbers(o: Out, inp: Input, o': Out)
    requires NumbersOk(o) && Appends(o, inp, o') && NumberOk(o', inp)
    ensures NumbersOk(o')
  {
    forall k | 0 <= k < |o'.inputs| ensures NumberOk(o', o'.inputs[k]) {
      if k < |o.inputs| && o.inputs[k].outcome != NoCommand {
        MoreNumbers(o, o', o.inputs[k].requestId);
      }
    }
  }

  lemma AppendDones(o: Out, inp: Input, o': Out)
    requires DonesOk(o) && Appends(o, inp, o')
    requires o'.dones == if Completed(inp.outcome) then o.dones + [|o.inputs|] else o.dones
    ensures DonesOk(o')
  {
    forall k: nat ensures Count(o'.dones, k) == if k < |o'.inputs| && Completed(o'.inputs[k].outcome) then 1 else 0 {
      CountAppend(o.dones, |o.inputs|, k);
      assert k < |o.inputs| ==> o'.inputs[k] == o.inputs[k];
    }
  }

  lemma AppendPending(o: Out, inp: Input, o': Out)
    requires PendingOk(o) && Appends(o, inp, o') && inp.requestId !in o.pending && !inp.outcome.Dropped?
    requires o'.pending == if inp.outcome == Waiting then o.pending[inp.requestId := |o.inputs|] else o.pending
    requires o'.timers == o'.pending.Keys
    ensures PendingOk(o')
  {
    forall j | j in o'.pending ensures o'.pending[j] < |o'.inputs| && WaitsAs(o'.inputs[o'.pending[j]], j) {
      assert j in o.pending ==> WaitsAs(o.inputs[o.pending[j]], j);
    }
    forall k | 0 <= k < |o'.inputs| && o'.inputs[k].outcome == Waiting
      ensures o'.inputs[k].requestId in o'.pending && o'.pending[o'.inputs[k].requestId] == k
    {
      assert k < |o.inputs| ==> o'.inputs[k] == o.inputs[k];
    }
  }

  lemma NoEmptyPending(o: Out)
    requires OutOk(o)
    ensures "" !in o.pending
  {
    forall id | id in o.pending ensures id != "" {
      assert WaitsAs(o.inputs[o.pending[id]], id) && NumberOk(o, o.inputs[o.pending[id]]);
    }
  }

  lemma AppendKeeps(o: Out, inp: Input, o': Out)
    requires OutOk(o) && Appends(o, inp, o') && NumberOk(o', inp)
    requires inp.requestId !in o.pending && !inp.outcome.Dropped?
    requires o'.dones == if Completed(inp.outcome) then o.dones + [|o.inputs|] else o.dones
    requires o'.pending == if inp.outcome == Waiting then o.pending[inp.requestId := |o.inputs|] else o.pending
    requires o'.timers == o'.pending.Keys
    ensures OutOk(o')
  {
    AppendNumbers(o, inp, o');
    AppendDones(o, inp, o');
    AppendPending(o, inp, o');
  }

  lemma NextNumbered(o: Out, o': Out)
    requires o'.id == o.id && o'.seqNo == o.seqNo + 1
    ensures NumberedIn(o', NextId(o))
  {
    assert NextId(o) == Suffixed(o'.id, o'.seqNo);
  }

  lemma SendEmptyKeeps(o: Out, args: string, online: bool)
    requires OutOk(o)
    ensures OutOk(Send(o, "", args, online))
  {
    NoEmptyPending(o);
    AppendKeeps(o, Input("", args, "", NoCommand), Send(o, "", args, online));
  }

  lemma SendOnlineKeeps(o: Out, command: string, args: string)
    requires OutOk(o) && command != ""
    ensures OutOk(Send(o, command, args, true))
  {
    var o' := Send(o, command, args, true);
    FreshId(o);
    NextNumbered(o, o');
    AppendKeeps(o, Input(command, args, NextId(o), Waiting), o');
  }

  lemma SendOfflineKeeps(o: Out, command: string, args: string)
    requires OutOk(o) && command != ""
    ensures OutOk(Send(o, command, args, false))
  {
    var o' := Send(o, command, args, false);
    FreshId(o);
    NextNumbered(o, o');
    assert o'.inputs == o.inputs + [Input(command, args, NextId(o), NotPublished)];
    assert o'.pending == o.pending;
    AppendKeeps(o, Input(command, args, NextId(o), NotPublished), o');
  }

  lemma SendKeeps(o: Out, command: string, args: string, online: bool)
    requires OutOk(o)
    ensures OutOk(Send(o, command, args, online))
  {
    if command == "" {
      SendEmptyKeeps(o, args, online);
    } else if online {
      SendOnlineKeeps(o, command, args);
    } else {
      SendOfflineKeeps(o, command, args);
    }
  }

  lemma ResponseKeeps(o: Out, r: Response)
    requires OutOk(o)
    ensures OutOk(OnResponse(o, r))
  {
    if r.requestId.Some? && r.requestId.value in o.pending {
      SettleKeeps(o, r.requestId.value, if r.success then Succeeded(r.payload) else Failed);
    }
  }

  lemma TimeoutKeeps(o: Out, id: string)
    requires OutOk(o)
    ensures OutOk(OnTimeout(o, id))
  {
    if id in o.timers {
      SettleKeeps(o, id, TimedOut);
    }
  }

  lemma CloseKeeps(o: Out)
    requires OutOk(o)
    ensures OutOk(OnClose(o)) && OnClose(o).timers == {} && OnClose(o).dones == o.dones
  {
    var o' := OnClose(o);
    forall k | 0 <= k < |o'.inputs| ensures NumberOk(o', o'.inputs[k]) {
      assert NumberOk(o, o.inputs[k]);
    }
  }

  /** The input that waited under `id` has this outcome now and its `done` has been called, the entry and
      the timer are gone, and every other input is as it was. */
  ghost predicate Settled(o: Out, id: string, outcome: Outcome, o': Out) {
    && id in o.pending && o.pending[id] < |o.inputs|
    && o'.inputs == o.inputs[o.pending[id] := o.inputs[o.pending[id]].(outcome := outcome)]
    && o'.dones == o.dones + [o.pending[id]]
    && o'.pending == o.pending - {id} && o'.timers == o.timers - {id}
    && o'.id == o.id && o'.seqNo == o.seqNo && o'.closed == o.closed
  }

  /** The index under which an input waits. */
  lemma WaitingUnder(o: Out, id: string)
    requires OutOk(o) && id in o.pending
    ensures o.pending[id] < |o.inputs| && o.inputs[o.pending[id]].requestId == id && o.inputs[o.pending[id]].outcome == Waiting
    ensures id in o.timers
  {
    assert WaitsAs(o.inputs[o.pending[id]], id);
  }

  /** A timer that fires times out the input that waits under its id, and no other. */
  lemma TimeoutSettles(o: Out, id: string)
    requires OutOk(o) && id in o.timers
    ensures Settled(o, id, TimedOut, OnTimeout(o, id))
  {
    WaitingUnder(o, id);
  }

  /** A reply settles the input that waits under its id, and no other: with the payload if it succeeded,
      as failed if it did not. */
  lemma ReplySettles(o: Out, id: string, r: Response)
    requires OutOk(o) && id in o.pending && r.requestId == Some(id)
    ensures r.success ==> Settled(o, id, Succeeded(r.payload), OnResponse(o, r))
    ensures !r.success ==> Settled(o, id, Failed, OnResponse(o, r))
  {
    WaitingUnder(o, id);
  }

  /** What sending leaves: a waiting input with an entry and a timer; or, offline, an input that failed at
      once; or, without a command, one that failed before it got an id. */
  lemma SendLeaves(o: Out, command: string, args: string, online: bool)
    requires OutOk(o)
    ensures var o', i := Send(o, command, args, online), |o.inputs|;
      var id := Suffixed(o.id, o.seqNo + 1);
      && o'.id == o.id && |o'.inputs| == i + 1 && o'.inputs[..i] == o.inputs && o'.closed == o.closed
      && (command == "" ==>
            o'.inputs[i].outcome == NoCommand && o'.dones == o.dones + [i] && o'.pending == o.pending && o'.timers == o.timers && o'.seqNo == o.seqNo)
      && (command != "" ==> o'.seqNo == o.seqNo + 1 && o'.inputs[i] == Input(command, args, id, if online then Waiting else NotPublished))
      && (command != "" && online ==> o'.pending == o.pending[id := i] && o'.timers == o.timers + {id} && o'.dones == o.dones)
      && (command != "" && !online ==> o'.pending == o.pending && o'.timers == o.timers && o'.dones == o.dones + [i])
  {
    FreshId(o);
    var o' := Send(o, command, args, online);
    assert o'.inputs[..|o.inputs|] == o.inputs;
  }

  /** Closing drops every input that waits and touches no other. */
  lemma CloseDrops(o: Out, i: nat)
    requires OutOk(o) && i < |o.inputs|
    ensures var o' := OnClose(o);
      && |o'.inputs| == |o.inputs| && o'.pending == map[] && o'.timers == {} && o'.dones == o.dones && o'.closed
      && o'.inputs[i] == if o.inputs[i].outcome == Waiting then o.inputs[i].(outcome := Dropped) else o.inputs[i]
  {
  }

  /** A reply to a request this node is not waiting for changes nothing: another node's, another
      Node-RED instance's, a second copy, or one that comes after the timeout. */
  lemma ForeignResponse(o: Out, r: Response)
    requires OutOk(o)
    requires forall i :: 0 <= i < |o.inputs| && o.inputs[i].outcome == Waiting ==> r.requestId != Some(o.inputs[i].requestId)
    ensures OnResponse(o, r) == o
  {
    forall id | id in o.pending ensures r.requestId != Some(id) {
      assert WaitsAs(o.inputs[o.pending[id]], id);
    }
  }

  lemma EnteredWithdrawn(o: Out, command: string, args: string)
    requires command != ""
    ensures Settle(Forget(Send(o, command, args, true), NextId(o)), |o.inputs|, NotPublished) == Send(o, command, args, false)
  {
    var id := NextId(o);
    assert o.pending[id := |o.inputs|] - {id} == o.pending - {id};
    assert o.timers + {id} - {id} == o.timers - {id};
  }

  // ---------- the object ----------

  /** The request mode of an output node, method by method. */
  class MatterOut {
    const id: string
    var seqNo: nat
    var pending: map<string, nat>
    var timers: set<string>
    var closed: bool
    /** Every input so far and what became of it, and the inputs whose `done` was called. */
    var inputs: seq<Input>
    var dones: seq<nat>

    ghost function State(): Out
      reads this
    {
      Out(id, seqNo, inputs, pending, timers, dones, closed)
    }

    constructor (id: string)
      ensures State() == NewOut(id) && OutOk(State())
    {
      this.id := id;
      seqNo, pending, timers, closed, inputs, dones := 0, map[], {}, false, [], [];
    }

    method Complete(i: nat, outcome: Outcome)
      requires i < |inputs|
      modifies this`inputs, this`dones
      ensures inputs == old(inputs)[i := old(inputs)[i].(outcome := outcome)] && dones == old(dones) + [i]
    {
      inputs := inputs[i := inputs[i].(outcome := outcome)];
      dones := dones + [i];
    }

    /** Returns the request to publish, if there is one. */
    method OnInput(command: string, args: string, online: bool) returns (sent: Option<Request>)
      requires OutOk(State())
      modifies this
      ensures State() == Send(old(State()), command, args, online) && OutOk(State())
      ensures sent == if command != "" && online then Some(Request(command, args, NextId(old(State())))) else None
    {
      SendKeeps(State(), command, args, online);
      if command == "" {
        Reject(args);
        return None;
      }
      var requestId := Enter(command, args);
      if !online {
        EnteredWithdrawn(old(State()), command, args);
        Withdraw(|inputs| - 1, requestId);
        return None;
      }
      return Some(Request(command, args, requestId));
    }

    method Reject(args: string)
      modifies this
      ensures State() == Send(old(State()), "", args, true)
    {
      var i := |inputs|;
      inputs := inputs + [Input("", args, "", Waiting)];
      Complete(i, NoCommand);
    }

    method Enter(command: string, args: string) returns (requestId: string)
      requires command != ""
      modifies this
      ensures State() == Send(old(State()), command, args, true) && requestId == NextId(old(State()))
    {
      var i := |inputs|;
      seqNo := seqNo + 1;
      requestId := Suffixed(id, seqNo);
      inputs := inputs + [Input(command, args, requestId, Waiting)];
      timers := timers + {requestId};
      pending := pending[requestId := i];
    }

    /** Publishing failed: the timer and the entry go again. */
    method Withdraw(i: nat, requestId: string)
      requires i < |inputs|
      modifies this
      ensures State() == Settle(Forget(old(State()), requestId), i, NotPublished)
    {
      timers := timers - {requestId};
      pending := pending - {requestId};
      Complete(i, NotPublished);
    }

    method OnReply(r: Response)
      requires OutOk(State())
      modifies this
      ensures State() == OnResponse(old(State()), r) && OutOk(State())
    {
      ResponseKeeps(State(), r);
      if r.requestId.None? || r.requestId.value !in pending {
        return;
      }
      var i := pending[r.requestId.value];
      pending := pending - {r.requestId.value};
      timers := timers - {r.requestId.value};
      Complete(i, if r.success then Succeeded(r.payload) else Failed);
    }

    method OnTimer(requestId: string)
      requires OutOk(State()) && requestId in timers
      modifies this
      ensures State() == OnTimeout(old(State()), requestId) && OutOk(State())
    {
      TimeoutKeeps(State(), requestId);
      var i := pending[requestId];
      timers := timers - {requestId};
      pending := pending - {requestId};
      Complete(i, TimedOut);
    }

    method Close()
      requires OutOk(State())
      modifies this
      ensures State() == OnClose(old(State())) && OutOk(State())
      ensures pending == map[] && timers == {} && dones == old(dones)
    {
      CloseKeeps(State());
      ghost var before := State();
      for i := 0 to |inputs|
        invariant |inputs| == |before.inputs| && dones == before.dones && seqNo == before.seqNo
        invariant forall k :: i <= k < |inputs| ==> inputs[k] == before.inputs[k]
        invariant forall k :: 0 <= k < i ==> inputs[k] == OnClose(before).inputs[k]
      {
        if inputs[i].outcome == Waiting {
          inputs := inputs[i := inputs[i].(outcome := Dropped)];
        }
      }
      assert inputs == OnClose(before).inputs;
      timers, pending, closed := {}, map[], true;
    }
  }
}
