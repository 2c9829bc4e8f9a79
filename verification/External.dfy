/** Tool calls that a provider subprocess executes itself. */
module External {
  import opened Base
  import opened Canonical
  import opened Conversation
  import opened ToolPhase

  const NO_REWRITE := "a PreToolUse hook asked to modify this input, which cannot be applied to externally executed tools"

  /** DecideExternal: the approver, then the hook; a hook that wants a rewrite
      did not accept the original. */
  function DecideExternal(w: World, t: nat, name: string, input: Input, sid: string): Ruling {
    var ruling := w.approve(t, name, input, sid);
    if ruling.denied then Ruling(true, OrElse(ruling.reason, BY_POLICY))
    else if w.hooks.None? || !w.marshals(sid, name, input) then Ruling(false, "")
    else
      match w.hooks.value(t + 1, sid, name, input)
      case HookAllow => Ruling(false, "")
      case HookDeny(reason) => Ruling(true, OrElse(reason, BY_HOOK))
      case HookModify(_) => Ruling(true, NO_REWRITE)
  }

  /** Approver and hooks answer the same question the same way at any time. */
  ghost predicate Steady(w: World) {
    && (forall t, u, n, x, s :: w.approve(t, n, x, s) == w.approve(u, n, x, s))
    && (w.hooks.Some? ==> forall t, u, n, x, s :: w.hooks.value(t, s, n, x) == w.hooks.value(u, s, n, x))
  }

  /** The PreToolUse hook is consulted and answers with a modify. */
  predicate AsksRewrite(w: World, t: nat, name: string, input: Input, sid: string) {
    w.hooks.Some? && w.marshals(sid, name, input) && w.hooks.value(t, sid, name, input).HookModify?
  }

  /** One execution, of this call's tool on its very input. */
  predicate RunsOnly(events: seq<Event>, call: Call) {
    var ran := Executions(events);
    |ran| == 1 && ran[0].name == call.name && ran[0].input == call.input
  }

  /** The external path allows exactly when the native path would run this very
      input and no hook asked for a rewrite: it is never laxer, and stricter only
      about hooks that answer modify. */
  lemma ExternalIsStricter(w: World, t: nat, u: nat, call: Call, sid: string)
    requires Steady(w) && w.registered(call.name)
    requires CanonicalInput(w.fold, call.input) == Some(call.input)
    ensures !DecideExternal(w, t, call.name, call.input, sid).denied <==> (
              && RunsOnly(RunOneTool(w, u, call, sid).events, call)
              && RunOneTool(w, u, call, sid).input == call.input
              && !AsksRewrite(w, t + 1, call.name, call.input, sid))
  {
    SteadyAnswers(w, t, u, call, sid);
    var ruling := w.approve(u, call.name, call.input, sid);
    var asked := [Asked(call.name, call.input, ruling.denied)];
    NativeCall(w, u, call, sid);
    if ruling.denied {
      AskingExecutesNothing(asked);
    } else {
      ApprovedIff(w, t, u, call, sid, asked);
      assert RunOneTool(w, u, call, sid) == HookThenExecute(w, u + 1, call, sid, asked);
    }
  }

  /** Both paths after the approver has let the call pass. */
  lemma ApprovedIff(w: World, t: nat, u: nat, call: Call, sid: string, asked: seq<Event>)
    requires Steady(w) && Asking(asked) && !w.approve(t, call.name, call.input, sid).denied
    ensures var r := HookThenExecute(w, u + 1, call, sid, asked);
      !DecideExternal(w, t, call.name, call.input, sid).denied <==> (
        RunsOnly(r.events, call) && r.input == call.input && !AsksRewrite(w, t + 1, call.name, call.input, sid))
  {
    SteadyAnswers(w, t, u, call, sid);
    NativeAfterApproval(w, u + 1, call, sid, asked);
    DecidesByHook(w, t, call, sid);
    var r := HookThenExecute(w, u + 1, call, sid, asked);
    assert RunsOnly(r.events, call) ==> Executions(r.events) != [];
  }

  lemma DecidesByHook(w: World, t: nat, call: Call, sid: string)
    requires !w.approve(t, call.name, call.input, sid).denied
    ensures DecideExternal(w, t, call.name, call.input, sid).denied
       <==> w.hooks.Some? && w.marshals(sid, call.name, call.input)
            && !w.hooks.value(t + 1, sid, call.name, call.input).HookAllow?
  {
  }

  /** The native path on a registered tool and a canonical input. */
  lemma NativeCall(w: World, u: nat, call: Call, sid: string)
    requires w.registered(call.name) && CanonicalInput(w.fold, call.input) == Some(call.input)
    ensures var ruling := w.approve(u, call.name, call.input, sid);
      var asked := [Asked(call.name, call.input, ruling.denied)];
      var r := RunOneTool(w, u, call, sid);
      if ruling.denied then r.events == asked else r == HookThenExecute(w, u + 1, call, sid, asked)
  {
    assert call.(input := call.input) == call;
  }

  lemma OneExecution(sofar: seq<Event>, call: Call, failed: bool)
    requires Asking(sofar)
    ensures RunsOnly(sofar + [Executes(call.name, call.input, failed)], call)
  {
    AskingExecutesNothing(sofar);
    ExecutionsConcat(sofar, [Executes(call.name, call.input, failed)]);
    assert [Executes(call.name, call.input, failed)][1..] == [];
  }

  lemma SteadyAnswers(w: World, t: nat, u: nat, call: Call, sid: string)
    requires Steady(w)
    ensures w.approve(t, call.name, call.input, sid) == w.approve(u, call.name, call.input, sid)
    ensures w.hooks.Some? ==>
      w.hooks.value(t + 1, sid, call.name, call.input) == w.hooks.value(u + 1, sid, call.name, call.input)
  {
  }

  /** After an approval, the native path runs the unmodified input unless a hook
      is consulted and denies or asks for a rewrite. */
  lemma NativeAfterApproval(w: World, t: nat, call: Call, sid: string, asked: seq<Event>)
    requires Asking(asked)
    ensures var r := HookThenExecute(w, t, call, sid, asked);
      var consulted := w.hooks.Some? && w.marshals(sid, call.name, call.input);
      && (!consulted || w.hooks.value(t, sid, call.name, call.input).HookAllow? ==>
            r.input == call.input && RunsOnly(r.events, call))
      && (consulted && w.hooks.value(t, sid, call.name, call.input).HookDeny? ==>
            Executions(r.events) == [])
  {
    var hooked := asked + [Hooked(call.name, call.input)];
    AskingExecutesNothing(asked);
    AskingExecutesNothing(hooked);
    OneExecution(asked, call, w.execute(t, call.name, call.input).error.Some?);
    OneExecution(hooked, call, w.execute(t + 1, call.name, call.input).error.Some?);
  }
}
