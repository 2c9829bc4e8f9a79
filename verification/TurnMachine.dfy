/** One in-flight turn: the state every control verb acts on, one function per
    critical section, and what every section keeps. */
module TurnMachine {
  import opened Base
  import opened Text

  datatype State = Running | Paused | Cancelled | Done

  datatype Turn = Turn(
    key: string,
    state: State,
    resume: Option<nat>,     // the channel a paused checkpoint waits on
    closes: seq<nat>,        // for every channel Pause made: how often it was closed
    steer: seq<string>,      // accepted and not yet drained
    checkpoints: nat,
    ctxDone: bool,           // the turn's context has been cancelled
    // history
    accepted: seq<string>,   // every text Steer answered true for, in lock order
    delivered: seq<string>,  // every text handed to the turn's goroutine
    dropped: seq<string>,    // every text thrown away
    finished: bool,          // DrainOrFinish marked it done
    ended: bool)             // End has run its critical section

  function NewTurn(key: string): Turn {
    Turn(key, Running, None, [], [], 0, false, [], [], [], false, false)
  }

  predicate Terminal(t: Turn) {
    t.state.Cancelled? || t.state.Done?
  }

  /** One critical section on the turn's mutex, or a change of its context. */
  datatype Op =
    | Steer(text: string)
    | Pause
    | Resume
    | CancelMark      // Cancel, up to the unlock
    | CancelContext   // Cancel, the call to cancel after the unlock
    | ParentDone      // the caller's context ends
    | EndMark         // End, up to the unlock
    | Drain
    | DrainOrFinish
    | Pass            // the default branch of Checkpoint

  function CloseResume(t: Turn): Turn {
    match t.resume
    case None => t
    case Some(c) =>
      t.(resume := None, closes := if c < |t.closes| then t.closes[c := t.closes[c] + 1] else t.closes)
  }

  predicate Accepts(t: Turn, text: string) {
    TrimSpace(text) != "" && !Terminal(t)
  }

  function Deliver(t: Turn): Turn {
    t.(steer := [], delivered := t.delivered + t.steer)
  }

  function DeliverOrFinish(t: Turn): Turn {
    if t.state.Cancelled? then t.(steer := [], dropped := t.dropped + t.steer)
    else if t.steer != [] then Deliver(t)
    else t.(state := Done, finished := true)
  }

  function Step(t: Turn, op: Op): Turn {
    match op
    case Steer(text) =>
      if Accepts(t, text)
      then t.(steer := t.steer + [TrimSpace(text)], accepted := t.accepted + [TrimSpace(text)])
      else t
    case Pause =>
      if t.state.Running?
      then t.(state := Paused, resume := Some(|t.closes|), closes := t.closes + [0])
      else t
    case Resume =>
      if t.state.Paused? then CloseResume(t.(state := Running)) else t
    case CancelMark =>
      if Terminal(t) then t else CloseResume(t.(state := Cancelled))
    case CancelContext => t.(ctxDone := true)
    case ParentDone => t.(ctxDone := true)
    case EndMark =>
      CloseResume(t.(state := if t.state.Cancelled? then Cancelled else Done)).(ctxDone := true, ended := true)
    case Drain => Deliver(t)
    case DrainOrFinish => DeliverOrFinish(t)
    case Pass => t.(checkpoints := t.checkpoints + 1)
  }

  /** What DrainOrFinish returns. */
  function Leftover(t: Turn): seq<string> {
    if t.state.Cancelled? then [] else t.steer
  }

  // ---- what holds between any two critical sections ----

  /** Every channel ever made has been closed exactly once, except the one
      waiters block on, which is open; a running turn has none. */
  ghost predicate ChannelsOk(t: Turn) {
    && (t.resume.Some? ==> t.resume.value + 1 == |t.closes|)
    && (t.resume.Some? ==> t.state.Paused? || t.state.Done?)
    && (t.state.Paused? ==> t.resume.Some?)
    && (forall i :: 0 <= i < |t.closes| ==> t.closes[i] == if t.resume == Some(i) then 0 else 1)
  }

  /** Nothing accepted is lost or duplicated: it was delivered, then dropped,
      or is still pending, in that order; only a cancelled turn drops. */
  ghost predicate SteeringOk(t: Turn) {
    && t.accepted == t.delivered + t.dropped + t.steer
    && (t.dropped != [] ==> t.state.Cancelled? && t.steer == [])
    && (t.finished ==> t.state.Done? && t.steer == [] && t.dropped == [])
  }

  ghost predicate EndOk(t: Turn) {
    t.ended ==> Terminal(t) && t.ctxDone && t.resume.None?
  }

  ghost predicate TurnOk(t: Turn) {
    ChannelsOk(t) && SteeringOk(t) && EndOk(t)
  }

  lemma StepKeepsChannels(t: Turn, op: Op)
    requires ChannelsOk(t)
    ensures ChannelsOk(Step(t, op))
  {
  }

  lemma DeliverKeepsSteering(t: Turn)
    requires SteeringOk(t)
    ensures SteeringOk(Deliver(t))
  {
    MovePending(t);
  }

  lemma FinishKeepsSteering(t: Turn)
    requires SteeringOk(t)
    ensures SteeringOk(DeliverOrFinish(t))
  {
    DeliverKeepsSteering(t);
    assert t.accepted == t.delivered + (t.dropped + t.steer) + [];
  }

  lemma AcceptKeepsSteering(t: Turn, text: string)
    requires SteeringOk(t)
    ensures SteeringOk(Step(t, Steer(text)))
  {
    var r := Step(t, Steer(text));
    if Accepts(t, text) {
      assert t.delivered + t.dropped + r.steer == t.accepted + [TrimSpace(text)];
    }
  }

  lemma StepKeepsSteering(t: Turn, op: Op)
    requires SteeringOk(t)
    ensures SteeringOk(Step(t, op))
  {
    match op
    case Steer(text) => AcceptKeepsSteering(t, text);
    case Drain => DeliverKeepsSteering(t);
    case DrainOrFinish => FinishKeepsSteering(t);
    case _ =>
  }

  lemma MovePending(t: Turn)
    requires SteeringOk(t)
    ensures t.accepted == (t.delivered + t.steer) + t.dropped + []
  {
    if t.dropped != [] {
      assert t.steer == [];
    }
  }

  lemma StepKeepsTurnOk(t: Turn, op: Op)
    requires TurnOk(t)
    ensures TurnOk(Step(t, op))
  {
    StepKeepsChannels(t, op);
    StepKeepsSteering(t, op);
  }

  /** Terminal states are absorbing, whatever happens to the turn later. */
  lemma TerminalAbsorbs(t: Turn, op: Op)
    requires Terminal(t)
    ensures Step(t, op).state == t.state
  {
  }

  // ---- any history of one turn ----

  function Run(t: Turn, ops: seq<Op>): Turn {
    if ops == [] then t else Step(Run(t, ops[..|ops| - 1]), ops[|ops| - 1])
  }

  lemma {:induction false} RunKeepsTurnOk(key: string, ops: seq<Op>)
    ensures TurnOk(Run(NewTurn(key), ops))
  {
    if ops != [] {
      var front := ops[..|ops| - 1];
      RunKeepsTurnOk(key, front);
      StepKeepsTurnOk(Run(NewTurn(key), front), ops[|ops| - 1]);
    }
  }

  /** Over every history: accepted texts are the delivered ones, then the
      dropped ones, then the pending ones; only cancelled turns drop; a turn
      that DrainOrFinish marked done has delivered everything it accepted; no
      channel was closed twice, none is left open after End, and a running turn
      holds none. */
  lemma SteeringConservation(key: string, ops: seq<Op>)
    ensures var t := Run(NewTurn(key), ops);
      && t.accepted == t.delivered + t.dropped + t.steer
      && (t.dropped != [] ==> t.state.Cancelled?)
      && (t.finished ==> t.delivered == t.accepted)
      && (forall c <- t.closes :: c <= 1)
      && (t.ended ==> forall c <- t.closes :: c == 1)
      && (t.state.Running? ==> t.resume.None?)
  {
    RunKeepsTurnOk(key, ops);
    var t := Run(NewTurn(key), ops);
    assert t.finished ==> t.delivered + [] + [] == t.delivered;
  }

  // ---- what is lost, and when a finished turn can still go on ----

  predicate Drains(op: Op) {
    op.Drain? || op.DrainOrFinish?
  }

  function AfterHistory(key: string, ops: seq<Op>): Turn {
    Run(NewTurn(key), ops)
  }

  /** The texts accepted since the history's last drain. */
  function AcceptedSinceDrain(key: string, ops: seq<Op>): seq<string> {
    if ops == [] || Drains(ops[|ops| - 1]) then []
    else
      var front, last := ops[..|ops| - 1], ops[|ops| - 1];
      AcceptedSinceDrain(key, front)
        + if last.Steer? && Accepts(AfterHistory(key, front), last.text) then [TrimSpace(last.text)] else []
  }

  lemma StepPending(t: Turn, op: Op)
    ensures Step(t, op).steer
         == if Drains(op) then []
            else t.steer + if op.Steer? && Accepts(t, op.text) then [TrimSpace(op.text)] else []
  {
  }

  lemma {:induction false} PendingIsSinceDrain(key: string, ops: seq<Op>)
    ensures AfterHistory(key, ops).steer == AcceptedSinceDrain(key, ops)
  {
    if ops != [] {
      var front := ops[..|ops| - 1];
      PendingIsSinceDrain(key, front);
      StepPending(AfterHistory(key, front), ops[|ops| - 1]);
    }
  }

  /** Over every history: all accepted texts have been delivered or dropped
      exactly when none was accepted after the last drain, and those that were
      are what is missing. */
  lemma AllHandledIff(key: string, ops: seq<Op>)
    ensures var t := AfterHistory(key, ops);
      && t.accepted == t.delivered + t.dropped + AcceptedSinceDrain(key, ops)
      && (t.delivered + t.dropped == t.accepted <==> AcceptedSinceDrain(key, ops) == [])
  {
    var t := AfterHistory(key, ops);
    RunKeepsTurnOk(key, ops);
    PendingIsSinceDrain(key, ops);
    assert |t.accepted| == |t.delivered + t.dropped| + |t.steer|;
  }

  /** Ends the turn's context. */
  predicate EndsContext(op: Op) {
    op.CancelContext? || op.ParentDone? || op.EndMark?
  }

  /** Some DrainOrFinish found nothing to drain in a turn that was not cancelled. */
  ghost predicate FoundNothing(key: string, ops: seq<Op>) {
    exists i :: FoundNothingAt(key, ops, i)
  }

  predicate FoundNothingAt(key: string, ops: seq<Op>, i: int) {
    && 0 <= i < |ops| && ops[i].DrainOrFinish?
    && AcceptedSinceDrain(key, ops[..i]) == [] && !AfterHistory(key, ops[..i]).state.Cancelled?
  }

  lemma FoundNothingSnoc(key: string, ops: seq<Op>)
    requires ops != []
    ensures FoundNothing(key, ops)
       <==> FoundNothing(key, ops[..|ops| - 1]) || FoundNothingAt(key, ops, |ops| - 1)
  {
    var front := ops[..|ops| - 1];
    forall i | 0 <= i < |front|
      ensures FoundNothingAt(key, ops, i) == FoundNothingAt(key, front, i)
    {
      assert front[..i] == ops[..i];
    }
    if FoundNothing(key, front) {
      var i :| FoundNothingAt(key, front, i);
      assert FoundNothingAt(key, ops, i);
    }
  }

  lemma StepFlags(t: Turn, op: Op)
    requires TurnOk(t)
    ensures Step(t, op).ctxDone == (t.ctxDone || EndsContext(op))
    ensures Step(t, op).finished == (t.finished || (op.DrainOrFinish? && t.steer == [] && !t.state.Cancelled?))
    ensures (t.state.Done? ==> t.finished || t.ended) ==>
      (Step(t, op).state.Done? ==> Step(t, op).finished || Step(t, op).ended)
  {
  }

  ghost predicate ContextEnded(ops: seq<Op>) {
    exists i :: 0 <= i < |ops| && EndsContext(ops[i])
  }

  lemma ContextEndedSnoc(ops: seq<Op>)
    requires ops != []
    ensures ContextEnded(ops) <==> ContextEnded(ops[..|ops| - 1]) || EndsContext(ops[|ops| - 1])
  {
    var front := ops[..|ops| - 1];
    if ContextEnded(front) {
      var i :| 0 <= i < |front| && EndsContext(front[i]);
      assert EndsContext(ops[i]);
    }
    if i :| 0 <= i < |front| && EndsContext(ops[i]) {
      assert EndsContext(front[i]);
    }
  }

  lemma {:induction false} HistoryFlags(key: string, ops: seq<Op>)
    ensures var t := AfterHistory(key, ops);
      && t.ctxDone == ContextEnded(ops)
      && t.finished == FoundNothing(key, ops)
      && (t.state.Done? ==> t.finished || t.ended)
  {
    if ops != [] {
      var front, last := ops[..|ops| - 1], ops[|ops| - 1];
      HistoryFlags(key, front);
      RunKeepsTurnOk(key, front);
      PendingIsSinceDrain(key, front);
      FoundNothingSnoc(key, ops);
      ContextEndedSnoc(ops);
      StepFlags(AfterHistory(key, front), last);
    }
  }

  /** Over every history: a turn is done while its context is still live exactly
      when some DrainOrFinish found nothing to drain in a turn that was not
      cancelled, and no cancel call, caller or End has ended the context. */
  lemma DoneWithLiveContextIff(key: string, ops: seq<Op>)
    ensures var t := AfterHistory(key, ops);
      (t.state.Done? && !t.ctxDone) <==> (FoundNothing(key, ops) && !ContextEnded(ops))
  {
    HistoryFlags(key, ops);
    RunKeepsTurnOk(key, ops);
  }

  /** Both happen: a text accepted by a turn that ends without another drain
      stays pending for ever, and a turn that DrainOrFinish marked done still has
      a live context. */
  lemma EndLeavesPending()
    ensures var t := Run(NewTurn("k"), [Steer("hi"), EndMark]);
      t.accepted == ["hi"] && t.delivered == [] && t.steer == ["hi"] && t.ended
    ensures var t := Run(NewTurn("k"), [DrainOrFinish]); t.state.Done? && !t.ctxDone
  {
    var a := Step(NewTurn("k"), Steer("hi"));
    assert TrimSpace("hi") == "hi";
    assert [Steer("hi"), EndMark][..1] == [Steer("hi")];
    assert [Steer("hi")][..0] == [];
    assert Run(NewTurn("k"), [Steer("hi")]) == a;
    assert [DrainOrFinish][..0] == [];
  }
}
