/** The pattern policy in front of a whole turn: what runs is what it allows. */
module PolicySafety {
  import opened Base
  import opened Canonical
  import opened Conversation
  import opened ToolPhase
  import opened TurnLoop
  import A = Approver

  /** A verdict on one tool and input. */
  type Permits = (string, Input) -> bool

  /** Whenever the approver does not deny, the input is permitted. */
  ghost predicate Enforces(w: World, permits: Permits) {
    forall t, name, input, sid :: !w.approve(t, name, input, sid).denied ==> permits(name, input)
  }

  /** Every approval on record is of a permitted input. */
  ghost predicate Approved(permits: Permits, events: seq<Event>) {
    forall i :: 0 <= i < |events| && events[i].Asked? && !events[i].denied ==> permits(events[i].name, events[i].input)
  }

  /** Every execution is of a permitted input. */
  ghost predicate Obeys(permits: Permits, events: seq<Event>) {
    forall i :: 0 <= i < |events| && events[i].Executes? ==> permits(events[i].name, events[i].input)
  }

  lemma GuardedObeys(w: World, permits: Permits, events: seq<Event>)
    requires Guarded(w, events) && Approved(permits, events)
    ensures Obeys(permits, events)
  {
    forall k | 0 <= k < |events| && events[k].Executes?
      ensures permits(events[k].name, events[k].input)
    {
      assert ApprovedBefore(events, k);
      var j :| 0 <= j < k && events[j] == Asked(events[k].name, events[k].input, false);
    }
  }

  lemma ModifyApproved(w: World, permits: Permits, t: nat, call: Call, sid: string, modified: Option<Input>, sofar: seq<Event>)
    requires Enforces(w, permits) && Approved(permits, sofar)
    ensures Approved(permits, ApplyModify(w, t, call, sid, modified, sofar).events)
  {
  }

  lemma HookApproved(w: World, permits: Permits, t: nat, call: Call, sid: string, sofar: seq<Event>)
    requires Enforces(w, permits) && Approved(permits, sofar)
    ensures Approved(permits, HookThenExecute(w, t, call, sid, sofar).events)
  {
    if w.hooks.Some? && w.marshals(sid, call.name, call.input) {
      var hooked := sofar + [Hooked(call.name, call.input)];
      match w.hooks.value(t, sid, call.name, call.input)
      case HookModify(modified) => ModifyApproved(w, permits, t + 1, call, sid, modified, hooked);
      case _ =>
    }
  }

  lemma CallApproved(w: World, permits: Permits, t: nat, call: Call, sid: string)
    requires Enforces(w, permits)
    ensures Approved(permits, RunOneTool(w, t, call, sid).events)
  {
    if w.registered(call.name) && CanonicalInput(w.fold, call.input).Some? {
      var c := call.(input := CanonicalInput(w.fold, call.input).value);
      var ruling := w.approve(t, c.name, c.input, sid);
      if !ruling.denied {
        HookApproved(w, permits, t + 1, c, sid, [Asked(c.name, c.input, false)]);
      }
    }
  }

  lemma {:induction false} PhaseApproved(w: World, permits: Permits, run: Runner, t: nat, calls: seq<Call>)
    requires forall u, call :: Approved(permits, run(u, call).events)
    ensures Approved(permits, Phase(w.gate, run, t, calls).events)
    decreases |calls|
  {
    if calls != [] && w.gate(t).None? {
      var one := run(t + 1, calls[0]);
      assert Approved(permits, one.events);
      PhaseApproved(w, permits, run, one.clock, calls[1..]);
    }
  }

  lemma RoundApproved(w: World, permits: Permits, t: nat, ms: seq<Msg>, sid: string)
    requires Enforces(w, permits)
    ensures Approved(permits, OneRound(w, t, ms, sid).events)
  {
    var asked := ms + UserTexts(w.drain(t + 1));
    if w.complete(t + 2, asked).Some? {
      var m := w.complete(t + 2, asked).value.message;
      forall u, call
        ensures Approved(permits, RunnerOf(w, sid)(u, call).events)
      {
        CallApproved(w, permits, u, call, sid);
      }
      PhaseApproved(w, permits, RunnerOf(w, sid), t + 3, Uses(m));
    }
  }

  lemma {:induction false} LoopApproved(permits: Permits, round: Rounds, t: nat, ms: seq<Msg>, left: nat)
    requires forall u, m :: Approved(permits, round(u, m).events)
    ensures Approved(permits, Loop(round, t, ms, left).events)
    decreases left
  {
    if left > 0 {
      var r := round(t, ms);
      assert Approved(permits, r.events);
      if r.exit.None? {
        LoopApproved(permits, round, r.clock, r.messages, left - 1);
      }
    }
  }

  lemma {:induction false} TurnObeys(w: World, permits: Permits, t: nat, ms: seq<Msg>, maxIterations: int, sid: string)
    requires Enforces(w, permits)
    ensures Obeys(permits, Turn(w, t, ms, maxIterations, sid).events)
  {
    if ms != [] {
      forall u, m
        ensures Approved(permits, RoundsOf(w, sid)(u, m).events)
      {
        RoundApproved(w, permits, u, m, sid);
      }
      LoopApproved(permits, RoundsOf(w, sid), t + 1, w.compress(t, ms), Budget(maxIterations));
    }
    TurnGuarded(w, t, ms, maxIterations, sid);
    GuardedObeys(w, permits, Turn(w, t, ms, maxIterations, sid).events);
  }

  /** The world's approver is the pattern approver, each consultation with map
      orders of its own. */
  ghost predicate UsesPolicy(w: World, compile: A.Compiler, p: A.Policy) {
    forall t, name, input, sid :: !w.approve(t, name, input, sid).denied ==> PolicySays(w, compile, p, name, input)
  }

  /** The approver returned allow, under some orders. */
  ghost predicate PolicySays(w: World, compile: A.Compiler, p: A.Policy, name: string, input: Input) {
    exists d: A.Orders, a: A.Orders :: SaysUnder(w, compile, p, name, input, d, a)
  }

  ghost predicate SaysUnder(w: World, compile: A.Compiler, p: A.Policy, name: string, input: Input, d: A.Orders, a: A.Orders) {
    && (CanonicalInput(w.fold, input).Some? ==>
          var fields := A.TopObject(CanonicalInput(w.fold, input).value);
          A.AreOrders(d, fields) && A.AreOrders(a, fields))
    && A.Approve(w.fold, compile, p, name, input, d, a) == A.Allow
  }

  /** Every execution is one the policy allows. */
  ghost predicate ObeysPolicy(w: World, compile: A.Compiler, p: A.Policy, events: seq<Event>) {
    forall k :: 0 <= k < |events| && events[k].Executes? ==> A.Allows(w.fold, compile, p, events[k].name, events[k].input)
  }

  /** End to end: with the pattern approver in front, nothing runs in a turn but
      inputs that the policy allows, whatever the model asks for, the hooks
      rewrite and the order the approver's maps are walked in. */
  lemma {:induction false} TurnObeysPolicy(w: World, compile: A.Compiler, p: A.Policy, t: nat, ms: seq<Msg>, maxIterations: int, sid: string)
    requires UsesPolicy(w, compile, p)
    ensures ObeysPolicy(w, compile, p, Turn(w, t, ms, maxIterations, sid).events)
  {
    var permits: Permits := (name: string, input: Input) => A.Allows(w.fold, compile, p, name, input);
    forall u, name, input, s | !w.approve(u, name, input, s).denied
      ensures permits(name, input)
    {
      assert PolicySays(w, compile, p, name, input);
      var d: A.Orders, a: A.Orders :| SaysUnder(w, compile, p, name, input, d, a);
      A.ApproveIsAllows(w.fold, compile, p, name, input, d, a);
    }
    TurnObeys(w, permits, t, ms, maxIterations, sid);
  }
}
