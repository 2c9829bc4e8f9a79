/** The tool phase: resolve, canonicalise, approve, hook, execute.

    Everything the loop consults is an arbitrary function. Calls are numbered by
    a clock, so two consultations may get different answers even for equal
    arguments, and every run of nondeterministic collaborators is one `World`. */
module ToolPhase {
  import opened Base
  import opened Folding
  import opened Canonical
  import opened Conversation

  datatype Ruling = Ruling(denied: bool, reason: string)

  /** A PreToolUse verdict; `None` in a modify is an empty payload. */
  datatype HookVerdict = HookAllow | HookDeny(reason: string) | HookModify(modified: Option<Input>)

  datatype Executed = Executed(output: string, error: Option<string>)

  datatype Stop = EndTurn | ToolUse | MaxTokens | OtherStop

  datatype Reply = Reply(message: Msg, stop: Stop)

  datatype World = World(
    fold: Fold,
    registered: string -> bool,
    notFound: string -> string,                           // the text fed back for an unknown tool
    approve: (nat, string, Input, string) -> Ruling,
    hooks: Option<(nat, string, string, Input) -> HookVerdict>,
    marshals: (string, string, Input) -> bool,            // the hook payload could be built
    execute: (nat, string, Input) -> Executed,
    bound: string -> string,                              // boundOutput
    gate: nat -> Option<string>,                          // Some: the error of a cancelled gate
    drain: nat -> seq<string>,
    complete: (nat, seq<Msg>) -> Option<Reply>,           // None: the provider failed
    compress: (nat, seq<Msg>) -> seq<Msg>)

  /** What happened, in order. */
  datatype Event =
    | Asked(name: string, input: Input, denied: bool)     // the approver
    | Hooked(name: string, input: Input)
    | Executes(name: string, input: Input, failed: bool)  // the tool, and whether it reported an error
    | Entered(passed: bool)                               // the gate of an iteration
    | Gated(passed: bool)                                 // the gate of a tool
    | Drained(texts: seq<string>)
    | Called(messages: seq<Msg>)                          // the provider
    | Checkpointed(messages: seq<Msg>)

  /** One call's outcome: the input it is left with, its result, the events. */
  datatype CallRun = CallRun(clock: nat, input: Input, result: ToolResult, events: seq<Event>)

  function ErrorResult(id: string, text: string): ToolResult {
    ToolResult(id, text, true)
  }

  const BLOCKED := "tool call blocked: "
  const BLOCKED_BY_HOOK := "tool call blocked by hook: "
  const BY_POLICY := "denied by policy"
  const BY_HOOK := "denied by hook"
  const BAD_REWRITE := "modified input is not valid JSON or repeats a key"
  const CANCELLED := "tool call cancelled before it ran: "
  const NOT_CANONICAL := "tool input is not valid JSON or repeats a key"

  function OrElse(reason: string, default: string): string {
    if reason == "" then default else reason
  }

  /** executeTool. */
  function ExecuteTool(w: World, t: nat, call: Call, sofar: seq<Event>): CallRun {
    var x := w.execute(t, call.name, call.input);
    var result := match x.error
                  case None => ToolResult(call.id, w.bound(x.output), false)
                  case Some(e) => ToolResult(call.id, w.bound(e), true);
    CallRun(t + 1, call.input, result, sofar + [Executes(call.name, call.input, x.error.Some?)])
  }

  function Denied(t: nat, call: Call, text: string, sofar: seq<Event>): CallRun {
    CallRun(t, call.input, ErrorResult(call.id, text), sofar)
  }

  /** applyHookModify: a rewritten input must be canonical and approved again,
      unless it is the one already approved. */
  function ApplyModify(w: World, t: nat, call: Call, sid: string, modified: Option<Input>, sofar: seq<Event>): CallRun {
    match modified
    case None => ExecuteTool(w, t, call, sofar)
    case Some(raw) =>
      match CanonicalInput(w.fold, raw)
      case None => Denied(t, call, BLOCKED_BY_HOOK + BAD_REWRITE, sofar)
      case Some(canonical) =>
        if canonical == call.input then ExecuteTool(w, t, call, sofar)
        else
          var ruling := w.approve(t, call.name, canonical, sid);
          var asked := sofar + [Asked(call.name, canonical, ruling.denied)];
          if ruling.denied then Denied(t + 1, call, BLOCKED + OrElse(ruling.reason, BY_POLICY), asked)
          else ExecuteTool(w, t + 1, call.(input := canonical), asked)
  }

  /** preToolHook and what follows it. */
  function HookThenExecute(w: World, t: nat, call: Call, sid: string, sofar: seq<Event>): CallRun {
    if w.hooks.None? || !w.marshals(sid, call.name, call.input) then ExecuteTool(w, t, call, sofar)
    else
      var hooked := sofar + [Hooked(call.name, call.input)];
      match w.hooks.value(t, sid, call.name, call.input)
      case HookAllow => ExecuteTool(w, t + 1, call, hooked)
      case HookDeny(reason) => Denied(t + 1, call, BLOCKED_BY_HOOK + OrElse(reason, BY_HOOK), hooked)
      case HookModify(modified) => ApplyModify(w, t + 1, call, sid, modified, hooked)
  }

  /** runOneTool. */
  function RunOneTool(w: World, t: nat, call: Call, sid: string): CallRun {
    if !w.registered(call.name) then Denied(t, call, w.notFound(call.name), [])
    else
      match CanonicalInput(w.fold, call.input)
      case None => Denied(t, call, BLOCKED + NOT_CANONICAL, [])
      case Some(canonical) =>
        var c := call.(input := canonical);
        var ruling := w.approve(t, c.name, canonical, sid);
        var asked := [Asked(c.name, canonical, ruling.denied)];
        if ruling.denied then Denied(t + 1, c, BLOCKED + OrElse(ruling.reason, BY_POLICY), asked)
        else HookThenExecute(w, t + 1, c, sid, asked)
  }

  // ---- nothing runs that was not approved ----

  /** The execution at `k` comes after an approval of the same tool on the same
      input, with no other execution, gate or model call in between. */
  ghost predicate ApprovedBefore(events: seq<Event>, k: nat)
    requires k < |events| && events[k].Executes?
  {
    exists j :: 0 <= j < k && events[j] == Asked(events[k].name, events[k].input, false)
             && forall l :: j < l < k ==> events[l].Asked? || events[l].Hooked?
  }

  ghost predicate Guarded(w: World, events: seq<Event>) {
    forall k :: 0 <= k < |events| && events[k].Executes? ==>
      ApprovedBefore(events, k) && CanonicalInput(w.fold, events[k].input) == Some(events[k].input)
  }

  /** Only consultations so far. */
  predicate Asking(events: seq<Event>) {
    forall i :: 0 <= i < |events| ==> events[i].Asked? || events[i].Hooked?
  }

  /** The call as it stands is canonical and has been approved. */
  ghost predicate Cleared(w: World, call: Call, sofar: seq<Event>) {
    && CanonicalInput(w.fold, call.input) == Some(call.input)
    && Asking(sofar)
    && Asked(call.name, call.input, false) in sofar
  }

  /** An execution is the last event of its call, runs exactly the input left in
      the call, and was approved; a call that did not run failed. */
  ghost predicate CallOk(w: World, call: Call, r: CallRun) {
    && r.result.toolUseId == call.id
    && Guarded(w, r.events)
    && ((Asking(r.events) && r.result.isError)
        || (|r.events| > 0 && Asking(r.events[..|r.events| - 1])
            && r.events[|r.events| - 1] == Executes(call.name, r.input, r.result.isError)))
  }

  lemma ExecuteOk(w: World, t: nat, call: Call, sofar: seq<Event>)
    requires Cleared(w, call, sofar)
    ensures CallOk(w, call, ExecuteTool(w, t, call, sofar))
  {
    var all := ExecuteTool(w, t, call, sofar).events;
    assert all[..|sofar|] == sofar;
    var j :| 0 <= j < |sofar| && sofar[j] == Asked(call.name, call.input, false);
    assert all[j] == sofar[j];
    assert ApprovedBefore(all, |sofar|);
  }

  lemma ModifyOk(w: World, t: nat, call: Call, sid: string, modified: Option<Input>, sofar: seq<Event>)
    requires Cleared(w, call, sofar)
    ensures CallOk(w, call, ApplyModify(w, t, call, sid, modified, sofar))
  {
    match modified
    case None => ExecuteOk(w, t, call, sofar);
    case Some(raw) =>
      match CanonicalInput(w.fold, raw)
      case None =>
      case Some(canonical) =>
        if canonical == call.input {
          ExecuteOk(w, t, call, sofar);
        } else {
          var ruling := w.approve(t, call.name, canonical, sid);
          var asked := sofar + [Asked(call.name, canonical, ruling.denied)];
          if !ruling.denied {
            CanonicalIdempotent(w.fold, raw);
            assert asked[|sofar|] == Asked(call.name, canonical, false);
            ExecuteOk(w, t + 1, call.(input := canonical), asked);
          }
        }
  }

  lemma HookOk(w: World, t: nat, call: Call, sid: string, sofar: seq<Event>)
    requires Cleared(w, call, sofar)
    ensures CallOk(w, call, HookThenExecute(w, t, call, sid, sofar))
  {
    if w.hooks.None? || !w.marshals(sid, call.name, call.input) {
      ExecuteOk(w, t, call, sofar);
    } else {
      var hooked := sofar + [Hooked(call.name, call.input)];
      assert Cleared(w, call, hooked);
      match w.hooks.value(t, sid, call.name, call.input)
      case HookAllow => ExecuteOk(w, t + 1, call, hooked);
      case HookDeny(_) =>
      case HookModify(modified) => ModifyOk(w, t + 1, call, sid, modified, hooked);
    }
  }

  /** One call, whatever approver, hooks and tool answer. */
  lemma {:induction false} CallGuarded(w: World, t: nat, call: Call, sid: string)
    ensures CallOk(w, call, RunOneTool(w, t, call, sid))
  {
    if w.registered(call.name) {
      match CanonicalInput(w.fold, call.input)
      case None =>
      case Some(canonical) =>
        CanonicalIdempotent(w.fold, call.input);
        var c := call.(input := canonical);
        var ruling := w.approve(t, c.name, canonical, sid);
        if !ruling.denied {
          HookOk(w, t + 1, c, sid, [Asked(c.name, canonical, false)]);
        }
    }
  }

  // ---- the whole phase ----

  /** What became of a call: `None` when it did not run, else whether it failed. */
  type Outcome = Option<bool>

  datatype PhaseRun = PhaseRun(clock: nat, calls: seq<Call>, results: seq<ToolResult>, outcomes: seq<Outcome>,
                               events: seq<Event>, error: Option<string>)

  function Cancelled(calls: seq<Call>, error: string): seq<ToolResult> {
    seq(|calls|, i requires 0 <= i < |calls| =>
      ErrorResult(calls[i].id, CANCELLED + error))
  }

  function OutcomeOf(r: CallRun): Outcome {
    if r.events != [] && r.events[|r.events| - 1].Executes? then Some(r.events[|r.events| - 1].failed) else None
  }

  /** What runs one call at a given time. */
  type Runner = (nat, Call) -> CallRun

  /** A gate before each call; a closed gate answers the rest. */
  function Phase(gate: nat -> Option<string>, run: Runner, t: nat, calls: seq<Call>): PhaseRun
    decreases |calls|
  {
    if calls == [] then PhaseRun(t, [], [], [], [], None)
    else
      match gate(t)
      case Some(e) =>
        PhaseRun(t + 1, calls, Cancelled(calls, e), seq(|calls|, _ => None), [Gated(false)], Some(e))
      case None =>
        var one := run(t + 1, calls[0]);
        var others := Phase(gate, run, one.clock, calls[1..]);
        PhaseRun(others.clock,
                 [calls[0].(input := one.input)] + others.calls,
                 [one.result] + others.results,
                 [OutcomeOf(one)] + others.outcomes,
                 [Gated(true)] + one.events + others.events,
                 others.error)
  }

  function RunnerOf(w: World, sid: string): Runner {
    (t: nat, call: Call) => RunOneTool(w, t, call, sid)
  }

  /** runTools. */
  function RunTools(w: World, t: nat, calls: seq<Call>, sid: string): PhaseRun {
    Phase(w.gate, RunnerOf(w, sid), t, calls)
  }

  ghost predicate RunnerOk(w: World, run: Runner) {
    forall t, call :: CallOk(w, call, run(t, call))
  }

  lemma RunnerOfOk(w: World, sid: string)
    ensures RunnerOk(w, RunnerOf(w, sid))
  {
    forall t, call
      ensures CallOk(w, call, RunnerOf(w, sid)(t, call))
    {
      CallGuarded(w, t, call, sid);
    }
  }

  /** One result per call, same ids, same order, on every path; ids and names of
      the calls do not change, and a call that was not run has an error result. */
  lemma PhaseAnswers(w: World, t: nat, calls: seq<Call>, sid: string)
    ensures Answered(calls, RunTools(w, t, calls, sid))
  {
    RunnerOfOk(w, sid);
    PhaseAnswersAny(w, RunnerOf(w, sid), t, calls);
  }

  predicate Answered(calls: seq<Call>, r: PhaseRun) {
    && |r.results| == |r.calls| == |r.outcomes| == |calls|
    && forall i :: 0 <= i < |calls| ==>
         && r.results[i].toolUseId == calls[i].id
         && r.calls[i] == calls[i].(input := r.calls[i].input)
         && (r.results[i].isError <==> r.outcomes[i] != Some(false))
  }

  lemma {:induction false} PhaseAnswersAny(w: World, run: Runner, t: nat, calls: seq<Call>)
    requires RunnerOk(w, run)
    ensures Answered(calls, Phase(w.gate, run, t, calls))
    decreases |calls|
  {
    if calls != [] && w.gate(t).None? {
      var one := run(t + 1, calls[0]);
      assert CallOk(w, calls[0], one);
      PhaseAnswersAny(w, run, one.clock, calls[1..]);
    }
  }

  datatype Execution = Execution(name: string, input: Input, failed: bool)

  /** The executions among the events, in order. */
  function Executions(events: seq<Event>): seq<Execution> {
    if events == [] then []
    else
      var e := events[0];
      (if e.Executes? then [Execution(e.name, e.input, e.failed)] else []) + Executions(events[1..])
  }

  /** The calls that ran, with the inputs they hold now and how they came out. */
  function RanCalls(calls: seq<Call>, outcomes: seq<Outcome>): seq<Execution>
    requires |calls| == |outcomes|
  {
    if calls == [] then []
    else
      (match outcomes[0]
       case None => []
       case Some(failed) => [Execution(calls[0].name, calls[0].input, failed)])
      + RanCalls(calls[1..], outcomes[1..])
  }

  lemma {:induction false} ExecutionsConcat(a: seq<Event>, b: seq<Event>)
    ensures Executions(a + b) == Executions(a) + Executions(b)
  {
    if a == [] {
      assert a + b == b;
    } else {
      ExecutionsConcat(a[1..], b);
      assert (a + b)[1..] == a[1..] + b && (a + b)[0] == a[0];
      var first: seq<Execution> := if a[0].Executes? then [Execution(a[0].name, a[0].input, a[0].failed)] else [];
      Assoc(first, Executions(a[1..]), Executions(b));
    }
  }

  lemma {:induction false} AskingExecutesNothing(events: seq<Event>)
    requires Asking(events)
    ensures Executions(events) == []
  {
    if events != [] {
      AskingExecutesNothing(events[1..]);
    }
  }

  lemma CallExecutions(w: World, call: Call, r: CallRun)
    requires CallOk(w, call, r)
    ensures Executions(r.events) == RanCalls([call.(input := r.input)], [OutcomeOf(r)])
  {
    if Asking(r.events) {
      AskingExecutesNothing(r.events);
    } else {
      var front, last := r.events[..|r.events| - 1], [r.events[|r.events| - 1]];
      assert r.events == front + last;
      ExecutionsConcat(front, last);
      AskingExecutesNothing(front);
      assert Executions(last) == [Execution(call.name, r.input, r.result.isError)] + Executions([]);
    }
  }

  lemma GateExecutesNothing(passed: bool, one: seq<Event>, others: seq<Event>)
    ensures Executions([Gated(passed)] + one + others) == Executions(one) + Executions(others)
  {
    var all := [Gated(passed)] + one + others;
    assert all[1..] == one + others;
    ExecutionsConcat(one, others);
  }

  lemma RanCallsCons(call: Call, outcome: Outcome, calls: seq<Call>, outcomes: seq<Outcome>)
    requires |calls| == |outcomes|
    ensures RanCalls([call] + calls, [outcome] + outcomes) == RanCalls([call], [outcome]) + RanCalls(calls, outcomes)
  {
    assert ([call] + calls)[1..] == calls && ([outcome] + outcomes)[1..] == outcomes;
  }

  /** What the session holds afterwards is what ran: the executions are, in
      order, the calls marked as run with the very inputs left in them. */
  lemma StoredIsExecuted(w: World, t: nat, calls: seq<Call>, sid: string)
    ensures var r := RunTools(w, t, calls, sid);
      |r.calls| == |r.outcomes| && Executions(r.events) == RanCalls(r.calls, r.outcomes)
  {
    RunnerOfOk(w, sid);
    StoredIsExecutedAny(w, RunnerOf(w, sid), t, calls);
  }

  lemma {:induction false} StoredIsExecutedAny(w: World, run: Runner, t: nat, calls: seq<Call>)
    requires RunnerOk(w, run)
    ensures var r := Phase(w.gate, run, t, calls);
      |r.calls| == |r.outcomes| && Executions(r.events) == RanCalls(r.calls, r.outcomes)
    decreases |calls|
  {
    PhaseAnswersAny(w, run, t, calls);
    if calls == [] {
    } else if w.gate(t).Some? {
      var r := Phase(w.gate, run, t, calls);
      NoneRan(r.calls, r.outcomes);
      GateExecutesNothing(false, [], []);
      assert r.events == [Gated(false)] + [] + [];
    } else {
      var one := run(t + 1, calls[0]);
      assert CallOk(w, calls[0], one);
      CallExecutions(w, calls[0], one);
      var others := Phase(w.gate, run, one.clock, calls[1..]);
      StoredIsExecutedAny(w, run, one.clock, calls[1..]);
      GateExecutesNothing(true, one.events, others.events);
      RanCallsCons(calls[0].(input := one.input), OutcomeOf(one), others.calls, others.outcomes);
    }
  }

  lemma {:induction false} NoneRan(calls: seq<Call>, outcomes: seq<Outcome>)
    requires |calls| == |outcomes| && forall i :: 0 <= i < |outcomes| ==> outcomes[i].None?
    ensures RanCalls(calls, outcomes) == []
  {
    if calls != [] {
      NoneRan(calls[1..], outcomes[1..]);
    }
  }

  /** Guardedness survives concatenation. */
  lemma GuardedConcat(w: World, a: seq<Event>, b: seq<Event>)
    requires Guarded(w, a) && Guarded(w, b)
    ensures Guarded(w, a + b)
  {
    var all := a + b;
    forall k | 0 <= k < |all| && all[k].Executes?
      ensures ApprovedBefore(all, k) && CanonicalInput(w.fold, all[k].input) == Some(all[k].input)
    {
      if k < |a| {
        assert ApprovedBefore(a, k);
        var j :| 0 <= j < k && a[j] == Asked(a[k].name, a[k].input, false)
              && forall l :: j < l < k ==> a[l].Asked? || a[l].Hooked?;
        assert all[j] == a[j];
      } else {
        var k' := k - |a|;
        assert ApprovedBefore(b, k');
        var j :| 0 <= j < k' && b[j] == Asked(b[k'].name, b[k'].input, false)
              && forall l :: j < l < k' ==> b[l].Asked? || b[l].Hooked?;
        assert all[|a| + j] == b[j];
        forall l | |a| + j < l < k
          ensures all[l].Asked? || all[l].Hooked?
        {
          assert all[l] == b[l - |a|];
        }
      }
    }
  }

  lemma PhaseGuarded(w: World, t: nat, calls: seq<Call>, sid: string)
    ensures Guarded(w, RunTools(w, t, calls, sid).events)
  {
    RunnerOfOk(w, sid);
    PhaseGuardedAny(w, RunnerOf(w, sid), t, calls);
  }

  lemma {:induction false} PhaseGuardedAny(w: World, run: Runner, t: nat, calls: seq<Call>)
    requires RunnerOk(w, run)
    ensures Guarded(w, Phase(w.gate, run, t, calls).events)
    decreases |calls|
  {
    if calls != [] && w.gate(t).None? {
      var one := run(t + 1, calls[0]);
      assert CallOk(w, calls[0], one);
      PhaseGuardedAny(w, run, one.clock, calls[1..]);
      GuardedConcat(w, [Gated(true)], one.events);
      GuardedConcat(w, [Gated(true)] + one.events, Phase(w.gate, run, one.clock, calls[1..]).events);
    }
  }
}
