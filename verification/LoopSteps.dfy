/** The loop's message-level specification as a run of the goroutine in
    `Protocol`: every turn is one of the interleavings that it covers. */
module LoopSteps {
  import opened Base
  import opened Text
  import opened Conversation
  import opened ToolPhase
  import opened TurnLoop
  import M = TurnMachine
  import P = Protocol

  // ---- what the goroutine's log shows of a turn's events ----

  function SteeredEntries(texts: seq<string>): seq<P.Entry> {
    seq(|texts|, i requires 0 <= i < |texts| => P.Steered(texts[i]))
  }

  function EntriesOf(e: Event): seq<P.Entry> {
    match e
    case Drained(texts) => SteeredEntries(texts)
    case Called(_) => [P.ModelCall]
    case Gated(passed) => if passed then [P.ToolCall] else []
    case _ => []
  }

  function Entries(events: seq<Event>): seq<P.Entry> {
    if events == [] then [] else EntriesOf(events[0]) + Entries(events[1..])
  }

  lemma {:induction false} EntriesConcat(a: seq<Event>, b: seq<Event>)
    ensures Entries(a + b) == Entries(a) + Entries(b)
  {
    if a == [] {
      assert a + b == b;
    } else {
      EntriesConcat(a[1..], b);
      assert (a + b)[1..] == a[1..] + b && (a + b)[0] == a[0];
      Assoc(EntriesOf(a[0]), Entries(a[1..]), Entries(b));
    }
  }

  lemma {:induction false} CallLeavesNoEntries(events: seq<Event>)
    requires forall i :: 0 <= i < |events| ==> events[i].Asked? || events[i].Hooked? || events[i].Executes? || events[i].Checkpointed?
    ensures Entries(events) == []
  {
    if events != [] {
      CallLeavesNoEntries(events[1..]);
    }
  }

  // ---- moves of one goroutine and of the threads around it ----

  datatype Move = Do(choice: P.Choice) | In(op: M.Op)

  predicate MoveOk(p: P.Proc, m: Move) {
    match m
    case Do(c) => P.LoopEnabled(p, c)
    case In(op) => P.InboundEnabled(p, op)
  }

  function MoveStep(p: P.Proc, m: Move): P.Proc {
    match m
    case Do(c) => P.LoopStep(p, c)
    case In(op) => P.InboundStep(p, op)
  }

  function Go(p: P.Proc, moves: seq<Move>): Option<P.Proc>
    decreases |moves|
  {
    if moves == [] then Some(p)
    else if !MoveOk(p, moves[0]) then None
    else Go(MoveStep(p, moves[0]), moves[1..])
  }

  lemma {:induction false} GoThen(p: P.Proc, a: seq<Move>, b: seq<Move>)
    requires Go(p, a).Some?
    ensures Go(p, a + b) == Go(Go(p, a).value, b)
    decreases |a|
  {
    if a == [] {
      assert a + b == b;
    } else {
      assert (a + b)[1..] == a[1..] + b;
      GoThen(MoveStep(p, a[0]), a[1..], b);
    }
  }

  /** Running, with nothing pending. */
  predicate Ready(p: P.Proc) {
    p.turn.state.Running? && !p.turn.ctxDone && p.turn.steer == []
  }

  /** Only the log and the place in the code have moved. */
  predicate Reaches(p: P.Proc, moves: seq<Move>, q: P.Proc, added: seq<P.Entry>, pc: P.Pc) {
    Go(p, moves) == Some(q) && q.log == p.log + added && q.pc == pc
  }

  lemma Chain(p: P.Proc, a: seq<Move>, q: P.Proc, x: seq<P.Entry>, b: seq<Move>, r: P.Proc, y: seq<P.Entry>, pc: P.Pc)
    requires Reaches(p, a, q, x, q.pc) && Reaches(q, b, r, y, pc)
    ensures Reaches(p, a + b, r, x + y, pc)
  {
    GoThen(p, a, b);
    assert p.log + x + y == p.log + (x + y);
  }

  lemma One(p: P.Proc, m: Move)
    requires MoveOk(p, m)
    ensures Go(p, [m]) == Some(MoveStep(p, m))
  {
    assert [m][1..] == [];
  }

  // ---- gates ----

  /** A gate that lets the goroutine through. */
  lemma PassGate(p: P.Proc, at: P.At, c: P.Choice) returns (moves: seq<Move>, q: P.Proc)
    requires Ready(p) && p.pc == P.GateContext(at)
    ensures Reaches(p, moves, q, [], if at.Tool? then P.RunTool(at.left) else P.DrainSteered) && Ready(q)
  {
    var a := P.LoopStep(p, c);
    var b := P.LoopStep(a, c);
    q := P.LoopStep(b, c);
    One(p, Do(c));
    One(a, Do(c));
    One(b, Do(c));
    GoThen(p, [Do(c)], [Do(c)]);
    GoThen(p, [Do(c)] + [Do(c)], [Do(c)]);
    moves := [Do(c)] + [Do(c)] + [Do(c)];
    assert p.log + [] == p.log;
  }

  /** A gate that fails: the caller's context has ended. */
  lemma CloseGate(p: P.Proc, at: P.At, c: P.Choice) returns (moves: seq<Move>, q: P.Proc)
    requires Ready(p) && p.pc == P.GateContext(at)
    ensures Reaches(p, moves, q, [], P.Returned(true))
  {
    var a := P.InboundStep(p, M.ParentDone);
    q := P.LoopStep(a, c);
    One(p, In(M.ParentDone));
    One(a, Do(c));
    GoThen(p, [In(M.ParentDone)], [Do(c)]);
    moves := [In(M.ParentDone)] + [Do(c)];
    assert p.log + [] == p.log;
  }

  // ---- the tool phase ----

  /** One call the gate let through. */
  lemma RunOne(p: P.Proc, left: nat, c: P.Choice) returns (moves: seq<Move>, q: P.Proc)
    requires Ready(p) && p.pc == P.GateContext(P.Tool(left)) && left > 0
    ensures Reaches(p, moves, q, [P.ToolCall], if left > 1 then P.GateContext(P.Tool(left - 1)) else P.NextIteration(c.budget))
    ensures Ready(q)
  {
    var a, b;
    a, b := PassGate(p, P.Tool(left), c);
    q := P.LoopStep(b, c);
    One(b, Do(c));
    Chain(p, a, b, [], [Do(c)], q, [P.ToolCall], q.pc);
    moves := a + [Do(c)];
    assert [] + [P.ToolCall] == [P.ToolCall];
  }

  lemma {:induction false} PhaseSteps(w: World, run: Runner, t: nat, calls: seq<Call>, p: P.Proc, c: P.Choice)
      returns (moves: seq<Move>, q: P.Proc)
    requires RunnerOk(w, run) && calls != [] && Ready(p) && p.pc == P.GateContext(P.Tool(|calls|))
    ensures var r := Phase(w.gate, run, t, calls);
      && Reaches(p, moves, q, Entries(r.events), if r.error.Some? then P.Returned(true) else P.NextIteration(c.budget))
      && (r.error.None? ==> Ready(q))
    decreases |calls|
  {
    PhaseEntries(w, run, t, calls);
    if w.gate(t).Some? {
      moves, q := CloseGate(p, P.Tool(|calls|), c);
    } else {
      var one := run(t + 1, calls[0]);
      var a, b := RunOne(p, |calls|, c);
      var rest := Phase(w.gate, run, one.clock, calls[1..]);
      if |calls| == 1 {
        moves, q := a, b;
        assert rest == PhaseRun(one.clock, [], [], [], [], None);
        assert [P.ToolCall] + Entries([]) == [P.ToolCall];
      } else {
        var more;
        more, q := PhaseSteps(w, run, one.clock, calls[1..], b, c);
        Chain(p, a, b, [P.ToolCall], more, q, Entries(rest.events), q.pc);
        moves := a + more;
      }
    }
  }

  /** What the first call of a phase shows in the log. */
  lemma PhaseEntries(w: World, run: Runner, t: nat, calls: seq<Call>)
    requires RunnerOk(w, run) && calls != []
    ensures var r := Phase(w.gate, run, t, calls);
      if w.gate(t).Some? then r.error.Some? && Entries(r.events) == []
      else
        var rest := Phase(w.gate, run, run(t + 1, calls[0]).clock, calls[1..]);
        r.error == rest.error && Entries(r.events) == [P.ToolCall] + Entries(rest.events)
  {
    if w.gate(t).Some? {
      EntriesOfOne(Gated(false));
    } else {
      var one := run(t + 1, calls[0]);
      assert CallOk(w, calls[0], one);
      CallEntries(w, calls[0], one);
      ExchangeEntries(one.events, Phase(w.gate, run, one.clock, calls[1..]).events);
    }
  }

  lemma CallEntries(w: World, call: Call, r: CallRun)
    requires CallOk(w, call, r)
    ensures Entries(r.events) == []
  {
    assert forall i :: 0 <= i < |r.events| ==> !r.events[i].Gated? by {
      if !Asking(r.events) {
        var front := r.events[..|r.events| - 1];
        assert forall i :: 0 <= i < |front| ==> r.events[i] == front[i];
      }
    }
    CallOnly(w, call, r);
    CallLeavesNoEntries(r.events);
  }

  lemma ExchangeEntries(one: seq<Event>, rest: seq<Event>)
    requires Entries(one) == []
    ensures Entries([Gated(true)] + one + rest) == [P.ToolCall] + Entries(rest)
  {
    var gate := [Gated(true)];
    EntriesOfOne(Gated(true));
    EntriesConcat(gate + one, rest);
    EntriesConcat(gate, one);
    assert Entries(gate) + [] == Entries(gate);
  }

  lemma EntriesOfOne(e: Event)
    ensures Entries([e]) == EntriesOf(e)
  {
    assert [e][1..] == [];
  }

  // ---- one iteration ----

  /** Texts as Steer keeps them. */
  predicate Acceptable(texts: seq<string>) {
    forall i :: 0 <= i < |texts| ==> texts[i] != "" && TrimSpace(texts[i]) == texts[i]
  }

  ghost predicate Deliverable(w: World) {
    forall t :: Acceptable(w.drain(t))
  }

  /** The texts arrive just before they are drained. */
  lemma {:induction false} SteerAll(p: P.Proc, texts: seq<string>) returns (moves: seq<Move>, q: P.Proc)
    requires p.turn.state.Running? && !p.turn.ctxDone && Acceptable(texts)
    ensures Reaches(p, moves, q, [], p.pc)
    ensures q.turn.state.Running? && !q.turn.ctxDone && q.turn.steer == p.turn.steer + texts
    decreases |texts|
  {
    if texts == [] {
      moves, q := [], p;
      assert p.log + [] == p.log && p.turn.steer + [] == p.turn.steer;
    } else {
      var a := P.InboundStep(p, M.Steer(texts[0]));
      assert a.turn.steer == p.turn.steer + [texts[0]];
      var more;
      more, q := SteerAll(a, texts[1..]);
      One(p, In(M.Steer(texts[0])));
      assert p.log + [] == p.log;
      Chain(p, [In(M.Steer(texts[0]))], a, [], more, q, [], q.pc);
      moves := [In(M.Steer(texts[0]))] + more;
      assert [texts[0]] + texts[1..] == texts;
      assert p.turn.steer + [texts[0]] + texts[1..] == p.turn.steer + texts;
    }
  }

  lemma {:induction false} AppendAll(p: P.Proc, held: seq<string>, c: P.Choice) returns (moves: seq<Move>, q: P.Proc)
    requires Ready(p) && p.pc == P.AppendSteered(held)
    ensures Reaches(p, moves, q, SteeredEntries(held), P.CallProvider) && Ready(q)
    decreases |held|
  {
    var a := P.LoopStep(p, c);
    One(p, Do(c));
    if held == [] {
      moves, q := [Do(c)], a;
      assert p.log + SteeredEntries(held) == p.log;
    } else {
      var more;
      more, q := AppendAll(a, held[1..], c);
      Chain(p, [Do(c)], a, [P.Steered(held[0])], more, q, SteeredEntries(held[1..]), P.CallProvider);
      moves := [Do(c)] + more;
      assert [P.Steered(held[0])] + SteeredEntries(held[1..]) == SteeredEntries(held);
    }
  }

  /** From the gate of an iteration to the model call, with these texts drained. */
  lemma ReachCall(p: P.Proc, texts: seq<string>, c: P.Choice) returns (moves: seq<Move>, q: P.Proc)
    requires Ready(p) && p.pc == P.GateContext(P.Iteration) && Acceptable(texts)
    ensures Reaches(p, moves, q, SteeredEntries(texts), P.CallProvider) && Ready(q)
  {
    var m1, q1 := PassGate(p, P.Iteration, c);
    var m2, q2 := SteerAll(q1, texts);
    var q3 := P.LoopStep(q2, c);
    One(q2, Do(c));
    assert q2.log + [] == q2.log && [] + texts == texts;
    var m4, q4 := AppendAll(q3, texts, c);
    Chain(p, m1, q1, [], m2, q2, [], q2.pc);
    Chain(p, m1 + m2, q2, [] + [], [Do(c)], q3, [], q3.pc);
    Chain(p, m1 + m2 + [Do(c)], q3, [] + [] + [], m4, q4, SteeredEntries(texts), P.CallProvider);
    moves, q := m1 + m2 + [Do(c)] + m4, q4;
    assert [] + [] + [] + SteeredEntries(texts) == SteeredEntries(texts);
  }

  /** Where the goroutine stands after an iteration. */
  function PcAfter(exit: Option<Exit>, budget: bool): P.Pc {
    match exit
    case None => P.NextIteration(budget)
    case Some(e) => P.Returned(!e.Finished?)
  }

  lemma CallStep(p: P.Proc, c: P.Choice)
    requires Ready(p) && p.pc.CallProvider?
    ensures var q := P.LoopStep(p, c); Reaches(p, [Do(c)], q, [P.ModelCall], P.AfterCall(c)) && Ready(q)
  {
    One(p, Do(c));
  }

  lemma CallPrefix(texts: seq<string>, asked: seq<Msg>)
    ensures Entries([Entered(true), Drained(texts), Called(asked)]) == SteeredEntries(texts) + [P.ModelCall]
  {
    var e := [Entered(true), Drained(texts), Called(asked)];
    assert e[1..] == [Drained(texts), Called(asked)];
    assert [Drained(texts), Called(asked)][1..] == [Called(asked)];
    assert [Called(asked)][1..] == [];
    assert Entries([Called(asked)]) == [P.ModelCall];
    assert Entries([Drained(texts), Called(asked)]) == SteeredEntries(texts) + [P.ModelCall];
  }

  /** From a reply that asks for tools to the end of the iteration. */
  lemma ToolSteps(w: World, t: nat, m: Msg, sid: string, p: P.Proc, c: P.Choice) returns (moves: seq<Move>, q: P.Proc)
    requires Ready(p) && p.pc == (if Uses(m) != [] then P.GateContext(P.Tool(|Uses(m)|)) else P.NextIteration(c.budget))
    ensures var r := RunPhase(w, t, m, sid);
      && Reaches(p, moves, q, Entries(r.events), if r.error.Some? then P.Returned(true) else P.NextIteration(c.budget))
      && (r.error.None? ==> Ready(q))
  {
    if Uses(m) == [] {
      moves, q := [], p;
      assert RunPhase(w, t, m, sid) == PhaseRun(t, [], [], [], [], None);
      assert p.log + Entries([]) == p.log;
    } else {
      RunnerOfOk(w, sid);
      moves, q := PhaseSteps(w, RunnerOf(w, sid), t, Uses(m), p, c);
    }
  }

  lemma ToolRoundEntries(texts: seq<string>, asked: seq<Msg>, r: PhaseRun, after: seq<Msg>)
    ensures Entries([Entered(true), Drained(texts), Called(asked)] + r.events + Checkpoint(r, after))
         == SteeredEntries(texts) + [P.ModelCall] + Entries(r.events)
  {
    var before := [Entered(true), Drained(texts), Called(asked)];
    EntriesConcat(before + r.events, Checkpoint(r, after));
    EntriesConcat(before, r.events);
    CallPrefix(texts, asked);
    CallLeavesNoEntries(Checkpoint(r, after));
  }

  lemma RoundSteps(w: World, t: nat, ms: seq<Msg>, sid: string, p: P.Proc, budget: bool) returns (moves: seq<Move>, q: P.Proc)
    requires Deliverable(w) && Ready(p) && p.pc == P.GateContext(P.Iteration)
    ensures var r := OneRound(w, t, ms, sid);
      && Reaches(p, moves, q, Entries(r.events), PcAfter(r.exit, budget))
      && (r.exit.None? ==> Ready(q))
  {
    if w.gate(t).Some? {
      moves, q := CloseGate(p, P.Iteration, P.Choice(P.Fails, budget, false));
      assert [Entered(false)][1..] == [];
      assert Entries([Entered(false)]) == [];
    } else {
      var texts := w.drain(t + 1);
      var asked := ms + UserTexts(texts);
      CallPrefix(texts, asked);
      var answer := w.complete(t + 2, asked);
      var c := P.Choice(if answer.None? then P.Fails
                        else if answer.value.stop == ToolUse then P.Tools(|Uses(answer.value.message)|)
                        else P.Final, budget, false);
      var m1, q1 := ReachCall(p, texts, c);
      var q2 := P.LoopStep(q1, c);
      CallStep(q1, c);
      Chain(p, m1, q1, SteeredEntries(texts), [Do(c)], q2, [P.ModelCall], P.AfterCall(c));
      if answer.Some? && answer.value.stop == ToolUse {
        var m := answer.value.message;
        var m3;
        m3, q := ToolSteps(w, t + 3, m, sid, q2, c);
        var r := RunPhase(w, t + 3, m, sid);
        Chain(p, m1 + [Do(c)], q2, SteeredEntries(texts) + [P.ModelCall], m3, q, Entries(r.events), q.pc);
        ToolRoundEntries(texts, asked, r, AfterPhase(asked, m, r));
        moves := m1 + [Do(c)] + m3;
      } else {
        moves, q := m1 + [Do(c)], q2;
      }
    }
  }

  // ---- a whole turn ----

  lemma {:induction false} IterateSteps(w: World, t: nat, ms: seq<Msg>, left: nat, sid: string, p: P.Proc) returns (moves: seq<Move>, q: P.Proc)
    requires Deliverable(w) && Ready(p) && p.pc == P.NextIteration(left > 0)
    ensures var r := Loop(RoundsOf(w, sid), t, ms, left);
      Reaches(p, moves, q, Entries(r.events), P.Returned(!r.exit.Finished?))
    decreases left
  {
    if left == 0 {
      moves, q := [], p;
      assert p.log + Entries([]) == p.log;
    } else {
      var r := OneRound(w, t, ms, sid);
      assert RoundsOf(w, sid)(t, ms) == r;
      var a, b := RoundSteps(w, t, ms, sid, p, left > 1);
      if r.exit.None? {
        var rest := Loop(RoundsOf(w, sid), r.clock, r.messages, left - 1);
        var more;
        more, q := IterateSteps(w, r.clock, r.messages, left - 1, sid, b);
        Chain(p, a, b, Entries(r.events), more, q, Entries(rest.events), q.pc);
        EntriesConcat(r.events, rest.events);
        moves := a + more;
      } else {
        moves, q := a, b;
      }
    }
  }

  /** Every turn the loop specification allows, with texts that Steer would keep,
      is a run of the goroutine: what its log gains is the compression and then
      the turn's drains, calls and tools, in order. */
  lemma {:induction false} TurnSteps(w: World, t: nat, ms: seq<Msg>, maxIterations: int, sid: string, p: P.Proc)
      returns (moves: seq<Move>, q: P.Proc)
    requires ms != [] && Deliverable(w) && Ready(p) && p.pc == P.Begin
    ensures var r := Turn(w, t, ms, maxIterations, sid);
      Reaches(p, moves, q, [P.Compression] + Entries(r.events), P.Returned(!r.exit.Finished?))
  {
    var left := Budget(maxIterations);
    var c := P.Choice(P.Fails, left > 0, false);
    var a := P.LoopStep(p, c);
    One(p, Do(c));
    var more;
    more, q := IterateSteps(w, t + 1, w.compress(t, ms), left, sid, a);
    var r := Turn(w, t, ms, maxIterations, sid);
    assert r == Loop(RoundsOf(w, sid), t + 1, w.compress(t, ms), left);
    Chain(p, [Do(c)], a, [P.Compression], more, q, Entries(r.events), P.Returned(!r.exit.Finished?));
    moves := [Do(c)] + more;
  }

  // ---- inside the whole system ----

  function Acting(i: nat, m: Move): P.Action {
    match m
    case Do(c) => P.Loop(i, c)
    case In(op) => P.Inbound(i, op)
  }

  lemma {:induction false} GoIsExec(actions: seq<P.Action>, s: P.Sys, i: nat, moves: seq<Move>) returns (more: seq<P.Action>)
    requires P.Exec(actions) == Some(s) && i < |s.procs| && Go(s.procs[i], moves).Some?
    ensures P.Exec(actions + more) == Some(s.(procs := s.procs[i := Go(s.procs[i], moves).value]))
    decreases |moves|
  {
    if moves == [] {
      more := [];
      assert actions + [] == actions && s.procs[i := s.procs[i]] == s.procs;
    } else {
      var a := Acting(i, moves[0]);
      P.ExecOneMore(actions, s, a);
      var next := P.Next(s, a);
      assert next == s.(procs := s.procs[i := MoveStep(s.procs[i], moves[0])]);
      var rest := GoIsExec(actions + [a], next, i, moves[1..]);
      more := [a] + rest;
      assert actions + [a] + rest == actions + more;
      assert next.procs[i := Go(s.procs[i], moves).value] == s.procs[i := Go(s.procs[i], moves).value];
    }
  }

  function DrainedTexts(events: seq<Event>): seq<string> {
    if events == [] then []
    else (if events[0].Drained? then events[0].texts else []) + DrainedTexts(events[1..])
  }

  lemma {:induction false} LogTextsConcat(a: seq<P.Entry>, b: seq<P.Entry>)
    ensures P.LogTexts(a + b) == P.LogTexts(a) + P.LogTexts(b)
  {
    if b == [] {
      assert a + b == a;
    } else {
      var front, last := b[..|b| - 1], b[|b| - 1];
      LogTextsConcat(a, front);
      P.LogTextsSnoc(a + front, last);
      P.LogTextsSnoc(front, last);
      Assoc(a, front, [last]);
      assert b == front + [last];
      Assoc(P.LogTexts(a), P.LogTexts(front), P.EntryTexts(last));
    }
  }

  lemma SteeredSnoc(texts: seq<string>, last: string)
    ensures P.LogTexts(SteeredEntries(texts + [last])) == P.LogTexts(SteeredEntries(texts)) + [last]
  {
    assert SteeredEntries(texts + [last]) == SteeredEntries(texts) + [P.Steered(last)];
    P.LogTextsSnoc(SteeredEntries(texts), P.Steered(last));
  }

  lemma {:induction false} TextsOfEntries(texts: seq<string>)
    ensures P.LogTexts(SteeredEntries(texts)) == texts
  {
    if texts != [] {
      var front, last := texts[..|texts| - 1], texts[|texts| - 1];
      TextsOfEntries(front);
      SteeredSnoc(front, last);
      assert front + [last] == texts;
    }
  }

  lemma {:induction false} TextsOfEvents(events: seq<Event>)
    ensures P.LogTexts(Entries(events)) == DrainedTexts(events)
  {
    if events != [] {
      TextsOfEvents(events[1..]);
      LogTextsConcat(EntriesOf(events[0]), Entries(events[1..]));
      match events[0]
      case Drained(texts) => TextsOfEntries(texts);
      case Called(_) => NoText(P.ModelCall);
      case Gated(_) => NoText(P.ToolCall);
      case _ =>
    }
  }

  /** From any reachable state in which a turn is about to begin, every specified
      turn is reachable. The texts its log gains are those the turn drains; each
      batch is in the message list at the model call right after, one user message
      each, in order and last, and that list is the front of the session. */
  lemma {:induction false} TurnIsReachable(actions: seq<P.Action>, s: P.Sys, i: nat,
                                           w: World, t: nat, ms: seq<Msg>, maxIterations: int, sid: string)
      returns (more: seq<P.Action>)
    requires P.Exec(actions) == Some(s) && i < |s.procs| && Ready(s.procs[i]) && s.procs[i].pc == P.Begin
    requires ms != [] && Deliverable(w)
    ensures P.Exec(actions + more).Some? && |P.Exec(actions + more).value.procs| == |s.procs|
    ensures var r := Turn(w, t, ms, maxIterations, sid);
      var q := P.Exec(actions + more).value.procs[i];
      && q.log == s.procs[i].log + ([P.Compression] + Entries(r.events))
      && q.pc == P.Returned(!r.exit.Finished?)
      && P.LogTexts(q.log) == P.LogTexts(s.procs[i].log) + DrainedTexts(r.events)
      && SteeredFirst(r.events) && KeepsCalled(r.events, r.messages)
  {
    var r := Turn(w, t, ms, maxIterations, sid);
    var moves, q := TurnSteps(w, t, ms, maxIterations, sid, s.procs[i]);
    more := GoIsExec(actions, s, i, moves);
    TurnSteered(w, t, ms, maxIterations, sid);
    TurnKeepsCalled(w, t, ms, maxIterations, sid);
    TextsGained(s.procs[i].log, r.events);
  }

  lemma TextsGained(log: seq<P.Entry>, events: seq<Event>)
    ensures P.LogTexts(log + ([P.Compression] + Entries(events))) == P.LogTexts(log) + DrainedTexts(events)
  {
    TextsAfter(log, P.Compression, Entries(events));
    TextsOfEvents(events);
  }

  lemma TextsAfter(log: seq<P.Entry>, e: P.Entry, rest: seq<P.Entry>)
    requires P.EntryTexts(e) == []
    ensures P.LogTexts(log + ([e] + rest)) == P.LogTexts(log) + P.LogTexts(rest)
  {
    LogTextsConcat(log, [e] + rest);
    LogTextsConcat([e], rest);
    NoText(e);
  }

  lemma NoText(e: P.Entry)
    requires P.EntryTexts(e) == []
    ensures P.LogTexts([e]) == []
  {
    P.LogTextsSnoc([], e);
    assert [] + [e] == [e];
  }
}
