/** Turns, their loops, the inbound threads and the registry, interleaved.

    Every critical section is one atomic step, and so is every stretch of code
    between two of them; any thread may step at any time. A turn's goroutine is
    a program counter through the agent loop and the supervisor's follow-ups. */
module Protocol {
  import opened Base
  import opened TurnMachine
  import opened Text

  // ---- one turn and the goroutine that runs it ----

  /** Which safe point a gate guards: an iteration, or a tool with `left` to go. */
  datatype At = Iteration | Tool(left: nat)

  datatype Pc =
    | Begin                                    // about to compress
    | GateContext(at: At)                      // gate: read the context
    | GateLock(at: At)                         // Checkpoint: about to lock
    | GateWait(at: At, channel: nat)           // Checkpoint: blocked while paused
    | GateRead(at: At, late: bool)             // Checkpoint: unlocked, read the context
    | DrainSteered
    | AppendSteered(held: seq<string>)
    | CallProvider
    | RunTool(left: nat)
    | Returned(failed: bool)                   // the agent loop has returned
    | Left                                     // the supervisor has returned; only End remains

  /** What the goroutine did, in order. Texts are messages of the session. */
  datatype Entry = Compression | ModelCall | ToolCall | Steered(text: string) | FollowUp(texts: seq<string>)

  datatype Proc = Proc(
    turn: Turn,
    pc: Pc,
    log: seq<Entry>,
    followUps: nat,
    // history
    seen: nat,             // how many texts were accepted at the last drain that handed texts over
    mark: nat,             // the length of the log when a pause last took effect
    sincePause: nat,       // actions started since then
    inThisLoop: nat,       // those of them in the current run of the agent loop
    followed: bool,        // a follow-up began since that pause
    cancelled: bool,       // a Cancel has answered true
    sinceCancel: nat,      // actions started since a cancel took effect
    checks: seq<(bool, bool)>)  // per checkpoint: decided after a cancel or an end, returned nil

  const MAX_FOLLOW_UPS := 4

  function NewProc(key: string): Proc {
    Proc(NewTurn(key), Begin, [], 0, 0, 0, 0, 0, false, false, 0, [])
  }

  /** How the world answers the goroutine's next step. */
  datatype Answer = Fails | Final | Tools(n: nat)

  datatype Choice = Choice(answer: Answer, budget: bool, byContext: bool)

  /** Start an action: compression, provider call or tool execution. */
  function Act(p: Proc, e: Entry): Proc {
    var paused := if p.turn.state.Paused? then 1 else 0;
    p.(log := p.log + [e],
       sincePause := p.sincePause + paused,
       inThisLoop := p.inThisLoop + paused,
       sinceCancel := p.sinceCancel + if p.turn.state.Cancelled? then 1 else 0)
  }

  function NextIteration(budget: bool): Pc {
    if budget then GateContext(Iteration) else Returned(true)
  }

  predicate LoopEnabled(p: Proc, c: Choice) {
    match p.pc
    case GateWait(_, ch) => if c.byContext then p.turn.ctxDone else ch < |p.turn.closes| && p.turn.closes[ch] > 0
    case Left => false
    case _ => true
  }

  /** A cancel or an end has already happened. */
  predicate Late(p: Proc) {
    p.cancelled || p.turn.ended
  }

  /** Checkpoint under the lock. */
  function LockStep(p: Proc, at: At): Proc {
    match p.turn.state
    case Cancelled => p.(pc := Returned(true), checks := p.checks + [(Late(p), false)])
    case Paused => p.(pc := GateWait(at, if p.turn.resume.Some? then p.turn.resume.value else 0))
    case _ => p.(turn := p.turn.(checkpoints := p.turn.checkpoints + 1), pc := GateRead(at, Late(p)))
  }

  /** Checkpoint while paused: woken to look again, or the context ended. */
  function WaitStep(p: Proc, at: At, byContext: bool): Proc {
    if byContext then p.(pc := Returned(true), checks := p.checks + [(Late(p), false)])
    else p.(pc := GateLock(at))
  }

  /** Checkpoint after the unlock: the context decides. */
  function ReadStep(p: Proc, at: At, late: bool): Proc {
    p.(checks := p.checks + [(late, !p.turn.ctxDone)],
       pc := if p.turn.ctxDone then Returned(true)
             else if at.Tool? then RunTool(at.left)
             else DrainSteered)
  }

  function DrainStep(p: Proc): Proc {
    p.(turn := Deliver(p.turn), pc := AppendSteered(p.turn.steer), seen := |p.turn.accepted|)
  }

  function AppendStep(p: Proc, held: seq<string>): Proc {
    if held == [] then p.(pc := CallProvider)
    else p.(log := p.log + [Steered(held[0])], pc := AppendSteered(held[1..]))
  }

  /** The supervisor: answer what is left over as a follow-up, or leave. */
  function ReturnStep(p: Proc, failed: bool): Proc {
    if failed || p.followUps >= MAX_FOLLOW_UPS then p.(pc := Left)
    else
      var q := p.(turn := DeliverOrFinish(p.turn),
                  seen := if p.turn.state.Cancelled? then p.seen else |p.turn.accepted|);
      if Leftover(p.turn) == [] then q.(pc := Left)
      else q.(pc := Begin, log := p.log + [FollowUp(Leftover(p.turn))],
              followUps := p.followUps + 1, inThisLoop := 0, followed := true)
  }

  function AfterCall(c: Choice): Pc {
    match c.answer
    case Fails => Returned(true)
    case Final => Returned(false)
    case Tools(n) => if n > 0 then GateContext(Tool(n)) else NextIteration(c.budget)
  }

  function LoopStep(p: Proc, c: Choice): Proc {
    match p.pc
    case Begin => Act(p, Compression).(pc := NextIteration(c.budget))
    case GateContext(at) => p.(pc := if p.turn.ctxDone then Returned(true) else GateLock(at))
    case GateLock(at) => LockStep(p, at)
    case GateWait(at, _) => WaitStep(p, at, c.byContext)
    case GateRead(at, late) => ReadStep(p, at, late)
    case DrainSteered => DrainStep(p)
    case AppendSteered(held) => AppendStep(p, held)
    case CallProvider => Act(p, ModelCall).(pc := AfterCall(c))
    case RunTool(left) =>
      Act(p, ToolCall).(pc := if left > 1 then GateContext(Tool(left - 1)) else NextIteration(c.budget))
    case Returned(failed) => ReturnStep(p, failed)
    case Left => p
  }

  /** What other threads can do to the turn. */
  predicate InboundEnabled(p: Proc, op: Op) {
    match op
    case Drain => false
    case DrainOrFinish => false
    case Pass => false
    case CancelContext => p.turn.state.Cancelled?
    case _ => true
  }

  function InboundStep(p: Proc, op: Op): Proc {
    var q := p.(turn := Step(p.turn, op));
    if op.Pause? && p.turn.state.Running? then q.(mark := |p.log|, sincePause := 0, inThisLoop := 0, followed := false)
    else if op.CancelMark? && !Terminal(p.turn) then q.(cancelled := true)
    else q
  }

  // ---- what every step of one turn keeps ----

  /** The texts in the session, in order. */
  function LogTexts(log: seq<Entry>): seq<string> {
    if log == [] then []
    else
      LogTexts(log[..|log| - 1]) + EntryTexts(log[|log| - 1])
  }

  function EntryTexts(e: Entry): seq<string> {
    match e
    case Steered(text) => [text]
    case FollowUp(texts) => texts
    case _ => []
  }

  /** Drained and not yet appended. */
  function Held(pc: Pc): seq<string> {
    if pc.AppendSteered? then pc.held else []
  }

  /** The goroutine may start an action without passing another lock. */
  predicate Armed(pc: Pc) {
    pc.Begin? || pc.GateRead? || pc.DrainSteered? || pc.AppendSteered? || pc.CallProvider? || pc.RunTool?
  }

  predicate AtGate(pc: Pc) {
    pc.GateContext? || pc.GateLock? || pc.GateWait?
  }

  ghost predicate TextsOk(p: Proc) {
    && p.turn.delivered == LogTexts(p.log) + Held(p.pc)
    && (p.turn.finished ==> p.pc.Left?)
    && (p.turn.dropped != [] ==> p.pc.Left?)
    && p.seen <= |p.turn.accepted| && p.turn.delivered == p.turn.accepted[..p.seen]
  }

  ghost predicate WaitOk(p: Proc) {
    p.pc.GateWait? ==> p.pc.channel < |p.turn.closes|
  }

  ghost predicate StopOk(p: Proc) {
    && (p.turn.state.Paused? ==>
          && p.inThisLoop + (if Armed(p.pc) then 1 else 0) <= 1
          && (!p.followed ==> p.sincePause == p.inThisLoop)
          && (p.followed ==> p.sincePause <= 1 + p.inThisLoop)
          && (p.followed ==> p.pc.Begin? || AtGate(p.pc) || p.pc == Returned(true) || p.pc.Left?))
    && (p.turn.state.Cancelled? ==> p.sinceCancel + (if Armed(p.pc) then 1 else 0) <= 1)
    && (!p.turn.state.Cancelled? ==> p.sinceCancel == 0)
  }

  ghost predicate ChecksOk(p: Proc) {
    && (p.cancelled <==> p.turn.state.Cancelled?)
    && (forall c <- p.checks :: c.0 ==> !c.1)
    && (p.pc.GateRead? && p.pc.late ==> p.turn.ctxDone)
  }

  /** The compressions, calls and follow-ups of a log; texts left out. */
  function Doings(log: seq<Entry>): seq<Entry> {
    if log == [] then []
    else
      Doings(log[..|log| - 1]) + if log[|log| - 1].Steered? then [] else [log[|log| - 1]]
  }

  /** At rest under a pause: no action without another gate. */
  predicate Stopped(pc: Pc) {
    AtGate(pc) || pc == Returned(true) || pc.Left?
  }

  /** What can have been done since a pause took effect, how many actions that
      is, and where the goroutine then stands. */
  predicate PauseShape(done: seq<Entry>, actions: nat, pc: Pc) {
    || (|done| == 0 && actions == 0)
    || (|done| == 1 && done[0] in {Compression, ToolCall} && actions == 1 && Stopped(pc))
    || (|done| == 1 && done[0] == ModelCall && actions == 1 && (Stopped(pc) || pc.Returned?))
    || (|done| == 1 && done[0].FollowUp? && actions == 0 && pc.Begin?)
    || (|done| == 2 && done[0].FollowUp? && done[1] == Compression && actions == 1 && Stopped(pc))
    || (|done| == 2 && done[0] == ModelCall && done[1].FollowUp? && actions == 1 && pc.Begin?)
    || (|done| == 3 && done[0] == ModelCall && done[1].FollowUp? && done[2] == Compression && actions == 2 && Stopped(pc))
  }

  /** What was done since the pause that now stands. */
  function SincePause(p: Proc): seq<Entry> {
    if p.mark <= |p.log| then Doings(p.log[p.mark..]) else []
  }

  ghost predicate PauseOk(p: Proc) {
    p.turn.state.Paused? ==> p.mark <= |p.log| && PauseShape(SincePause(p), p.sincePause, p.pc)
  }

  ghost predicate ProcOk(p: Proc) {
    TurnOk(p.turn) && TextsOk(p) && WaitOk(p) && StopOk(p) && ChecksOk(p) && PauseOk(p)
  }

  lemma LogTextsSnoc(log: seq<Entry>, e: Entry)
    ensures LogTexts(log + [e]) == LogTexts(log) + EntryTexts(e)
  {
    assert (log + [e])[..|log|] == log;
  }

  /** Every loop step changes the turn by one of its critical sections. */
  lemma LoopIsStep(p: Proc, c: Choice) returns (op: Option<Op>)
    ensures LoopStep(p, c).turn == if op.None? then p.turn else Step(p.turn, op.value)
  {
    match p.pc
    case GateLock(_) => op := if p.turn.state.Cancelled? || p.turn.state.Paused? then None else Some(Pass);
    case DrainSteered => op := Some(Drain);
    case Returned(failed) =>
      op := if failed || p.followUps >= MAX_FOLLOW_UPS then None else Some(DrainOrFinish);
    case _ => op := None;
  }

  lemma LoopKeepsTurnOk(p: Proc, c: Choice)
    requires TurnOk(p.turn)
    ensures TurnOk(LoopStep(p, c).turn)
  {
    var op := LoopIsStep(p, c);
    if op.Some? {
      StepKeepsTurnOk(p.turn, op.value);
    }
  }

  lemma ActionKeepsTexts(p: Proc, e: Entry, pc: Pc)
    requires TextsOk(p) && Held(p.pc) == [] && !p.pc.Left?
    requires e in {Compression, ModelCall, ToolCall}
    requires !pc.AppendSteered? && !pc.CallProvider?
    ensures TextsOk(Act(p, e).(pc := pc))
  {
    LogTextsSnoc(p.log, e);
  }

  lemma DrainKeepsTexts(p: Proc)
    requires SteeringOk(p.turn) && TextsOk(p) && p.pc.DrainSteered?
    ensures TextsOk(DrainStep(p))
  {
    var q := DrainStep(p);
    assert p.turn.accepted == p.turn.delivered + p.turn.steer;
    assert q.turn.delivered == p.turn.accepted[..q.seen];
  }

  lemma AppendKeepsTexts(p: Proc)
    requires TextsOk(p) && p.pc.AppendSteered?
    ensures TextsOk(AppendStep(p, p.pc.held))
  {
    var held := p.pc.held;
    if held != [] {
      LogTextsSnoc(p.log, Steered(held[0]));
      assert LogTexts(p.log) + held == LogTexts(p.log) + [held[0]] + held[1..];
    }
  }

  lemma FollowKeepsTexts(p: Proc)
    requires SteeringOk(p.turn) && TextsOk(p) && p.pc == Returned(false)
    requires p.followUps < MAX_FOLLOW_UPS && Leftover(p.turn) != []
    ensures TextsOk(ReturnStep(p, false))
  {
    var q, t := ReturnStep(p, false), p.turn;
    LogTextsSnoc(p.log, FollowUp(t.steer));
    assert t.accepted == t.delivered + t.steer;
    assert q.turn == Deliver(t) && q.log == p.log + [FollowUp(t.steer)];
    assert LogTexts(p.log) + [] == LogTexts(p.log) && LogTexts(q.log) + [] == LogTexts(q.log);
  }

  lemma ReturnKeepsTexts(p: Proc)
    requires SteeringOk(p.turn) && TextsOk(p) && p.pc.Returned?
    ensures TextsOk(ReturnStep(p, p.pc.failed))
  {
    if !p.pc.failed && p.followUps < MAX_FOLLOW_UPS && Leftover(p.turn) != [] {
      FollowKeepsTexts(p);
    } else {
      assert p.turn.accepted == p.turn.delivered + p.turn.dropped + p.turn.steer;
    }
  }

  lemma TextsFrame(p: Proc, q: Proc)
    requires TextsOk(p) && !p.pc.AppendSteered? && !q.pc.AppendSteered? && !q.pc.CallProvider? && !p.pc.Left?
    requires q.log == p.log && q.turn.delivered == p.turn.delivered && q.turn.accepted == p.turn.accepted
    requires q.turn.finished == p.turn.finished && q.turn.dropped == p.turn.dropped && q.seen == p.seen
    ensures TextsOk(q)
  {
  }

  /** A gate touches neither texts nor log. */
  lemma GateFrames(p: Proc, c: Choice)
    requires AtGate(p.pc) || p.pc.GateRead?
    ensures var q := LoopStep(p, c);
      && q.log == p.log && q.seen == p.seen && q.turn == p.turn.(checkpoints := q.turn.checkpoints)
      && !q.pc.AppendSteered? && !q.pc.CallProvider?
  {
  }

  lemma LoopKeepsTexts(p: Proc, c: Choice)
    requires SteeringOk(p.turn) && TextsOk(p)
    ensures TextsOk(LoopStep(p, c))
  {
    var pc := LoopStep(p, c).pc;
    if AtGate(p.pc) || p.pc.GateRead? {
      GateFrames(p, c);
      TextsFrame(p, LoopStep(p, c));
    } else if p.pc.DrainSteered? {
      DrainKeepsTexts(p);
    } else if p.pc.AppendSteered? {
      AppendKeepsTexts(p);
    } else if p.pc.Returned? {
      ReturnKeepsTexts(p);
    } else if !p.pc.Left? {
      var e := if p.pc.Begin? then Compression else if p.pc.CallProvider? then ModelCall else ToolCall;
      ActionKeepsTexts(p, e, pc);
    }
  }

  lemma LoopKeepsWait(p: Proc, c: Choice)
    requires ChannelsOk(p.turn) && WaitOk(p) && LoopEnabled(p, c)
    ensures WaitOk(LoopStep(p, c))
  {
  }

  /** What a step of the loop leaves alone, the supervisor's drain apart. */
  predicate SameTurnState(p: Proc, q: Proc) {
    && q.turn.state == p.turn.state && q.turn.ended == p.turn.ended && q.turn.ctxDone == p.turn.ctxDone
    && q.cancelled == p.cancelled && q.followed == p.followed
  }

  lemma ActionFrames(p: Proc, e: Entry, pc: Pc)
    ensures SameTurnState(p, Act(p, e).(pc := pc))
  {
  }

  lemma CheckpointFrames(p: Proc, at: At, late: bool, byContext: bool)
    ensures SameTurnState(p, LockStep(p, at)) && SameTurnState(p, WaitStep(p, at, byContext)) && SameTurnState(p, ReadStep(p, at, late))
  {
  }

  lemma LoopFrames(p: Proc, c: Choice)
    requires !p.pc.Returned?
    ensures SameTurnState(p, LoopStep(p, c))
  {
    match p.pc
    case Begin => ActionFrames(p, Compression, NextIteration(c.budget));
    case CallProvider => ActionFrames(p, ModelCall, AfterCall(c));
    case RunTool(_) => ActionFrames(p, ToolCall, LoopStep(p, c).pc);
    case GateLock(at) => CheckpointFrames(p, at, false, false);
    case GateWait(at, _) => CheckpointFrames(p, at, false, c.byContext);
    case GateRead(at, late) => CheckpointFrames(p, at, late, false);
    case _ =>
  }

  lemma ActionKeepsStops(p: Proc, e: Entry, pc: Pc)
    requires StopOk(p) && Armed(p.pc)
    requires AtGate(pc) || pc == Returned(true) || (p.pc.CallProvider? && pc.Returned?)
    ensures StopOk(Act(p, e).(pc := pc))
  {
  }

  lemma ReturnKeepsStops(p: Proc)
    requires StopOk(p) && p.pc.Returned?
    ensures StopOk(ReturnStep(p, p.pc.failed))
  {
  }

  lemma QuietKeepsStops(p: Proc, c: Choice)
    requires StopOk(p) && !p.pc.Begin? && !p.pc.CallProvider? && !p.pc.RunTool? && !p.pc.Returned?
    ensures StopOk(LoopStep(p, c))
  {
    LoopFrames(p, c);
    var q := LoopStep(p, c);
    assert q.sincePause == p.sincePause && q.inThisLoop == p.inThisLoop && q.sinceCancel == p.sinceCancel;
  }

  lemma LoopKeepsStops(p: Proc, c: Choice)
    requires StopOk(p)
    ensures StopOk(LoopStep(p, c))
  {
    var pc := LoopStep(p, c).pc;
    match p.pc
    case Begin => ActionKeepsStops(p, Compression, pc);
    case CallProvider => ActionKeepsStops(p, ModelCall, pc);
    case RunTool(_) => ActionKeepsStops(p, ToolCall, pc);
    case Returned(_) => ReturnKeepsStops(p);
    case _ => QuietKeepsStops(p, c);
  }

  lemma ChecksAppend(checks: seq<(bool, bool)>, late: bool, passed: bool)
    requires (forall c <- checks :: c.0 ==> !c.1) && (late ==> !passed)
    ensures forall c <- checks + [(late, passed)] :: c.0 ==> !c.1
  {
  }

  lemma ReturnKeepsChecks(p: Proc)
    requires ChecksOk(p) && p.pc.Returned?
    ensures ChecksOk(ReturnStep(p, p.pc.failed))
  {
  }

  lemma GateKeepsChecks(p: Proc, c: Choice)
    requires EndOk(p.turn) && ChecksOk(p) && (p.pc.GateLock? || p.pc.GateWait? || p.pc.GateRead?)
    ensures ChecksOk(LoopStep(p, c))
  {
    match p.pc
    case GateLock(at) =>
      ChecksAppend(p.checks, Late(p), false);
      assert LoopStep(p, c) == LockStep(p, at);
    case GateWait(at, _) =>
      ChecksAppend(p.checks, Late(p), false);
      assert LoopStep(p, c) == WaitStep(p, at, c.byContext);
    case GateRead(at, late) =>
      ChecksAppend(p.checks, late, !p.turn.ctxDone);
      assert LoopStep(p, c) == ReadStep(p, at, late);
  }

  lemma LoopKeepsChecks(p: Proc, c: Choice)
    requires EndOk(p.turn) && ChecksOk(p)
    ensures ChecksOk(LoopStep(p, c))
  {
    match p.pc
    case Returned(_) => ReturnKeepsChecks(p);
    case GateRead(_, _) => GateKeepsChecks(p, c);
    case GateLock(_) => GateKeepsChecks(p, c);
    case GateWait(_, _) => GateKeepsChecks(p, c);
    case _ =>
      LoopFrames(p, c);
      assert LoopStep(p, c).checks == p.checks && !LoopStep(p, c).pc.GateRead?;
  }

  lemma DoingsSnoc(log: seq<Entry>, mark: nat, e: Entry)
    requires mark <= |log|
    ensures Doings((log + [e])[mark..]) == Doings(log[mark..]) + if e.Steered? then [] else [e]
  {
    assert (log + [e])[mark..] == log[mark..] + [e];
    assert (log[mark..] + [e])[..|log[mark..]|] == log[mark..];
  }

  predicate Starts(pc: Pc, e: Entry) {
    (pc.Begin? && e == Compression) || (pc.CallProvider? && e == ModelCall) || (pc.RunTool? && e == ToolCall)
  }

  lemma ShapeActs(done: seq<Entry>, actions: nat, pc: Pc, e: Entry, next: Pc)
    requires PauseShape(done, actions, pc) && Starts(pc, e)
    requires Stopped(next) || (e == ModelCall && next.Returned?)
    ensures PauseShape(done + [e], actions + 1, next)
  {
  }

  lemma ActionKeepsPause(p: Proc, e: Entry, pc: Pc)
    requires PauseOk(p) && Starts(p.pc, e)
    requires Stopped(pc) || (e == ModelCall && pc.Returned?)
    ensures PauseOk(Act(p, e).(pc := pc))
  {
    if p.turn.state.Paused? {
      DoingsSnoc(p.log, p.mark, e);
      ShapeActs(SincePause(p), p.sincePause, p.pc, e, pc);
    }
  }

  lemma AppendKeepsPause(p: Proc)
    requires PauseOk(p) && p.pc.AppendSteered?
    ensures PauseOk(AppendStep(p, p.pc.held))
  {
    var q := AppendStep(p, p.pc.held);
    if p.turn.state.Paused? {
      if p.pc.held != [] {
        DoingsSnoc(p.log, p.mark, Steered(p.pc.held[0]));
      }
      assert |SincePause(p)| == 0 && SincePause(q) == SincePause(p);
    }
  }

  lemma ShapeFollows(done: seq<Entry>, actions: nat, texts: seq<string>)
    requires PauseShape(done, actions, Returned(false))
    ensures PauseShape(done + [FollowUp(texts)], actions, Begin)
  {
  }

  lemma ReturnKeepsPause(p: Proc)
    requires PauseOk(p) && p.pc.Returned?
    ensures PauseOk(ReturnStep(p, p.pc.failed))
  {
    var q := ReturnStep(p, p.pc.failed);
    if p.turn.state.Paused? && q.turn.state.Paused? {
      if q.pc.Begin? {
        DoingsSnoc(p.log, p.mark, FollowUp(Leftover(p.turn)));
        ShapeFollows(SincePause(p), p.sincePause, Leftover(p.turn));
      } else {
        assert SincePause(q) == SincePause(p) && q.sincePause == p.sincePause;
      }
    }
  }

  /** The other steps leave the log and the pause alone. */
  lemma QuietKeepsPause(p: Proc, c: Choice)
    requires PauseOk(p) && (AtGate(p.pc) || p.pc.GateRead? || p.pc.DrainSteered? || p.pc.Left?)
    ensures PauseOk(LoopStep(p, c))
  {
    var q := LoopStep(p, c);
    assert q.log == p.log && q.mark == p.mark && q.sincePause == p.sincePause;
    assert q.turn.state == p.turn.state;
  }

  lemma LoopKeepsPause(p: Proc, c: Choice)
    requires PauseOk(p)
    ensures PauseOk(LoopStep(p, c))
  {
    var pc := LoopStep(p, c).pc;
    match p.pc
    case Begin => ActionKeepsPause(p, Compression, pc);
    case CallProvider => ActionKeepsPause(p, ModelCall, pc);
    case RunTool(_) => ActionKeepsPause(p, ToolCall, pc);
    case AppendSteered(_) => AppendKeepsPause(p);
    case Returned(_) => ReturnKeepsPause(p);
    case _ => QuietKeepsPause(p, c);
  }

  lemma LoopKeepsProcOk(p: Proc, c: Choice)
    requires ProcOk(p) && LoopEnabled(p, c)
    ensures ProcOk(LoopStep(p, c))
  {
    LoopKeepsTurnOk(p, c);
    LoopKeepsTexts(p, c);
    LoopKeepsWait(p, c);
    LoopKeepsStops(p, c);
    LoopKeepsChecks(p, c);
    LoopKeepsPause(p, c);
  }

  /** From outside, texts can only be accepted. */
  lemma InboundOnlyAccepts(t: Turn, op: Op)
    requires !Drains(op)
    ensures var u := Step(t, op);
      u.delivered == t.delivered && u.dropped == t.dropped && u.finished == t.finished && t.accepted <= u.accepted
  {
  }

  lemma InboundKeepsTexts(p: Proc, op: Op)
    requires TextsOk(p) && InboundEnabled(p, op)
    ensures TextsOk(InboundStep(p, op))
  {
    InboundOnlyAccepts(p.turn, op);
    var q := InboundStep(p, op);
    assert q.turn == Step(p.turn, op) && q.log == p.log && q.pc == p.pc && q.seen == p.seen;
  }

  lemma InboundKeepsFlags(p: Proc, op: Op)
    requires ProcOk(p) && InboundEnabled(p, op)
    ensures var q := InboundStep(p, op); WaitOk(q) && StopOk(q) && ChecksOk(q) && PauseOk(q)
  {
  }

  lemma InboundKeepsProcOk(p: Proc, op: Op)
    requires ProcOk(p) && InboundEnabled(p, op)
    ensures ProcOk(InboundStep(p, op))
  {
    StepKeepsTurnOk(p.turn, op);
    InboundKeepsTexts(p, op);
    InboundKeepsFlags(p, op);
  }

  // ---- the whole system ----

  /** Every turn ever begun, the registry map, and the key that a TryBegin has
      found free while it still holds the registry's mutex. */
  datatype Sys = Sys(procs: seq<Proc>, reg: map<string, nat>, claim: Option<string>)

  const START := Sys([], map[], None)

  datatype Action =
    | Check(key: string)        // TryBegin: registry locked, slot found free or stale
    | Install                   // TryBegin: the new turn takes the slot, unlock
    | Inbound(i: nat, op: Op)
    | Detach(i: nat)            // End: remove, any time after its first section
    | Loop(i: nat, choice: Choice)

  predicate Free(s: Sys, key: string) {
    key !in s.reg || s.reg[key] >= |s.procs| || Terminal(s.procs[s.reg[key]].turn)
  }

  predicate Enabled(s: Sys, a: Action) {
    match a
    case Check(key) => s.claim.None? && Free(s, key)
    case Install => s.claim.Some?
    case Inbound(i, op) => i < |s.procs| && InboundEnabled(s.procs[i], op)
    case Detach(i) => i < |s.procs| && s.procs[i].turn.ended && s.claim.None?
    case Loop(i, c) => i < |s.procs| && LoopEnabled(s.procs[i], c)
  }

  function Next(s: Sys, a: Action): Sys
    requires Enabled(s, a)
  {
    match a
    case Check(key) => s.(claim := Some(key))
    case Install =>
      Sys(s.procs + [NewProc(s.claim.value)], s.reg[s.claim.value := |s.procs|], None)
    case Inbound(i, op) => s.(procs := s.procs[i := InboundStep(s.procs[i], op)])
    case Detach(i) =>
      var key := s.procs[i].turn.key;
      if key in s.reg && s.reg[key] == i then s.(reg := s.reg - {key}) else s
    case Loop(i, c) => s.(procs := s.procs[i := LoopStep(s.procs[i], c)])
  }

  /** The state after a sequence of actions, if each was possible. */
  function Exec(actions: seq<Action>): Option<Sys> {
    if actions == [] then Some(START)
    else
      match Exec(actions[..|actions| - 1])
      case None => None
      case Some(s) =>
        var a := actions[|actions| - 1];
        if Enabled(s, a) then Some(Next(s, a)) else None
  }

  /** Every live turn is the registered one of its key; a claimed key is free. */
  ghost predicate RegistryOk(s: Sys) {
    && (forall k :: k in s.reg ==> s.reg[k] < |s.procs| && s.procs[s.reg[k]].turn.key == k)
    && (forall i :: 0 <= i < |s.procs| && !Terminal(s.procs[i].turn) ==>
          s.procs[i].turn.key in s.reg && s.reg[s.procs[i].turn.key] == i)
    && (s.claim.Some? ==> Free(s, s.claim.value))
  }

  ghost predicate SysOk(s: Sys) {
    RegistryOk(s) && forall i :: 0 <= i < |s.procs| ==> ProcOk(s.procs[i])
  }

  lemma StepKeepsIdentity(t: Turn, op: Op)
    ensures Step(t, op).key == t.key
    ensures Terminal(t) ==> Terminal(Step(t, op))
  {
  }

  /** A step inside one turn leaves the registry's promise intact, because a
      turn that has become terminal stays so. */
  lemma ProcStepKeepsRegistry(s: Sys, i: nat, q: Proc)
    requires SysOk(s) && i < |s.procs|
    requires q.turn.key == s.procs[i].turn.key
    requires Terminal(s.procs[i].turn) ==> Terminal(q.turn)
    ensures RegistryOk(s.(procs := s.procs[i := q]))
  {
  }

  lemma NewProcOk(key: string)
    ensures ProcOk(NewProc(key))
  {
  }

  lemma InstallKeepsSysOk(s: Sys)
    requires SysOk(s) && Enabled(s, Install)
    ensures SysOk(Next(s, Install))
  {
    NewProcOk(s.claim.value);
  }

  lemma DetachKeepsSysOk(s: Sys, i: nat)
    requires SysOk(s) && Enabled(s, Detach(i))
    ensures SysOk(Next(s, Detach(i)))
  {
    assert ProcOk(s.procs[i]);
  }

  lemma LoopKeepsIdentity(p: Proc, c: Choice)
    ensures LoopStep(p, c).turn.key == p.turn.key
    ensures Terminal(p.turn) ==> Terminal(LoopStep(p, c).turn)
  {
    var op := LoopIsStep(p, c);
    if op.Some? {
      StepKeepsIdentity(p.turn, op.value);
    }
  }

  lemma NextKeepsSysOk(s: Sys, a: Action)
    requires SysOk(s) && Enabled(s, a)
    ensures SysOk(Next(s, a))
  {
    match a
    case Check(_) =>
    case Install => InstallKeepsSysOk(s);
    case Detach(i) => DetachKeepsSysOk(s, i);
    case Inbound(i, op) =>
      InboundKeepsProcOk(s.procs[i], op);
      StepKeepsIdentity(s.procs[i].turn, op);
      ProcStepKeepsRegistry(s, i, InboundStep(s.procs[i], op));
    case Loop(i, c) =>
      LoopKeepsProcOk(s.procs[i], c);
      LoopKeepsIdentity(s.procs[i], c);
      ProcStepKeepsRegistry(s, i, LoopStep(s.procs[i], c));
  }

  lemma {:induction false} EveryRunIsOk(actions: seq<Action>)
    requires Exec(actions).Some?
    ensures SysOk(Exec(actions).value)
  {
    if actions != [] {
      var front := actions[..|actions| - 1];
      EveryRunIsOk(front);
      NextKeepsSysOk(Exec(front).value, actions[|actions| - 1]);
    }
  }

  // ---- the guarantees, over every run ----

  /** At most one live turn per key among all turns ever begun, and it is the
      registered one. */
  lemma OneLiveTurn(actions: seq<Action>, i: nat, j: nat)
    requires Exec(actions).Some?
    requires i < |Exec(actions).value.procs| && j < |Exec(actions).value.procs|
    ensures var s := Exec(actions).value;
      !Terminal(s.procs[i].turn) ==>
        && s.procs[i].turn.key in s.reg && s.reg[s.procs[i].turn.key] == i
        && (!Terminal(s.procs[j].turn) && s.procs[j].turn.key == s.procs[i].turn.key ==> i == j)
  {
    EveryRunIsOk(actions);
  }

  /** Neither a slow End nor an eviction removes a live turn from the registry,
      and an End never removes a turn other than its own. */
  lemma RemovalSparesLive(actions: seq<Action>, a: Action, k: string)
    requires Exec(actions + [a]).Some? && (a.Detach? || a.Install?)
    ensures Exec(actions).Some? && Enabled(Exec(actions).value, a)
    ensures var s := Exec(actions).value;
      k in s.reg ==>
        && s.reg[k] < |s.procs|
        && (!Terminal(s.procs[s.reg[k]].turn) || (a.Detach? && s.reg[k] != a.i) ==>
              k in Next(s, a).reg && Next(s, a).reg[k] == s.reg[k])
  {
    assert (actions + [a])[..|actions|] == actions;
    EveryRunIsOk(actions);
  }

  /** End to end: what Steer accepted is what the session received, what the
      goroutine holds for it, what a cancel dropped and what is pending, in that
      order. A turn that DrainOrFinish marked done has put everything into the
      session. */
  lemma {:induction false} SteeringReachesSession(actions: seq<Action>, i: nat)
    requires Exec(actions).Some? && i < |Exec(actions).value.procs|
    ensures var p := Exec(actions).value.procs[i];
      && p.turn.accepted == LogTexts(p.log) + Held(p.pc) + p.turn.dropped + p.turn.steer
      && (p.turn.dropped != [] ==> p.turn.state.Cancelled?)
      && (p.turn.finished ==> LogTexts(p.log) == p.turn.accepted)
  {
    EveryRunIsOk(actions);
    var p := Exec(actions).value.procs[i];
    if p.turn.finished {
      assert LogTexts(p.log) + [] + [] + [] == LogTexts(p.log);
    }
  }

  /** When the model is called, the session holds every text that was accepted
      before the loop's drain, in order, and nothing else that was steered. */
  lemma {:induction false} ModelSeesDrained(actions: seq<Action>, i: nat)
    requires Exec(actions).Some? && i < |Exec(actions).value.procs|
    requires Exec(actions).value.procs[i].pc.CallProvider?
    ensures var p := Exec(actions).value.procs[i];
      p.seen <= |p.turn.accepted| && LogTexts(p.log) == p.turn.accepted[..p.seen]
  {
    EveryRunIsOk(actions);
    var p := Exec(actions).value.procs[i];
    assert LogTexts(p.log) + [] == LogTexts(p.log);
  }

  /** While a pause stands, one run of the agent loop starts at most one more
      action, two in all if a follow-up run began under the pause; after a
      cancel there is at most one. */
  lemma {:induction false} StopsWithinOneAction(actions: seq<Action>, i: nat)
    requires Exec(actions).Some? && i < |Exec(actions).value.procs|
    ensures var p := Exec(actions).value.procs[i];
      && (p.turn.state.Paused? ==> p.inThisLoop <= 1 && p.sincePause <= if p.followed then 2 else 1)
      && (p.turn.state.Cancelled? ==> p.sinceCancel <= 1)
  {
    EveryRunIsOk(actions);
  }

  /** Exactly when a pause costs more than one action: the model call already
      under way was the last of its run, the supervisor found text steered in
      and began a follow-up, and the follow-up compressed. */
  lemma {:induction false} PauseCostsTwoIff(actions: seq<Action>, i: nat)
    requires Exec(actions).Some? && i < |Exec(actions).value.procs|
    requires Exec(actions).value.procs[i].turn.state.Paused?
    ensures var p := Exec(actions).value.procs[i];
      && p.mark <= |p.log| && p.sincePause <= 2
      && (p.sincePause > 1 <==> exists texts :: Doings(p.log[p.mark..]) == [ModelCall, FollowUp(texts), Compression])
  {
    EveryRunIsOk(actions);
    var p := Exec(actions).value.procs[i];
    assert ProcOk(p);
    ShapeCostsTwoIff(SincePause(p), p.sincePause, p.pc);
  }

  lemma ShapeCostsTwoIff(done: seq<Entry>, actions: nat, pc: Pc)
    requires PauseShape(done, actions, pc)
    ensures actions <= 2 && (actions > 1 <==> exists texts :: done == [ModelCall, FollowUp(texts), Compression])
  {
    if actions > 1 {
      assert done == [ModelCall, FollowUp(done[1].texts), Compression];
    }
  }

  /** Exactly which texts are lost when the goroutine has left: those accepted
      after its last drain, whatever made it leave. The session holds the others. */
  lemma {:induction false} LostIff(actions: seq<Action>, i: nat)
    requires Exec(actions).Some? && i < |Exec(actions).value.procs|
    requires Exec(actions).value.procs[i].pc.Left?
    ensures var p := Exec(actions).value.procs[i];
      && p.seen <= |p.turn.accepted|
      && LogTexts(p.log) == p.turn.accepted[..p.seen]
      && p.turn.dropped + p.turn.steer == p.turn.accepted[p.seen..]
      && (LogTexts(p.log) == p.turn.accepted <==> p.seen == |p.turn.accepted|)
  {
    EveryRunIsOk(actions);
    var p := Exec(actions).value.procs[i];
    assert ProcOk(p);
    assert LogTexts(p.log) + [] == LogTexts(p.log);
    var handed := p.turn.accepted[..p.seen];
    assert p.turn.accepted == handed + (p.turn.dropped + p.turn.steer);
  }

  /** A checkpoint decided after a cancel or an end never lets the loop go on:
      the cancelled state is never left, and an end cancels the context before
      it unlocks. */
  lemma LateCheckpointsFail(actions: seq<Action>, i: nat, n: nat)
    requires Exec(actions).Some? && i < |Exec(actions).value.procs|
    requires n < |Exec(actions).value.procs[i].checks|
    ensures var c := Exec(actions).value.procs[i].checks[n]; c.0 ==> !c.1
  {
    EveryRunIsOk(actions);
    var p := Exec(actions).value.procs[i];
    assert p.checks[n] in p.checks;
  }

  lemma WaiterFreed(p: Proc)
    requires ChannelsOk(p.turn) && p.pc.GateWait? && p.pc.channel < |p.turn.closes|
    ensures p.turn.closes[p.pc.channel] == 1 || p.turn.resume == Some(p.pc.channel)
    ensures Step(p.turn, EndMark).closes[p.pc.channel] == 1
    ensures p.turn.state.Paused? ==>
      && Step(p.turn, Resume).closes[p.pc.channel] == 1
      && Step(p.turn, CancelMark).closes[p.pc.channel] == 1
  {
  }

  /** A waiter is never stranded: the channel it blocks on is already closed, or
      it is the one that the next Resume, Cancel or End closes. No channel is
      ever closed twice, and after End every channel is closed. */
  lemma {:induction false} NoStrandedWaiter(actions: seq<Action>, i: nat)
    requires Exec(actions).Some? && i < |Exec(actions).value.procs|
    ensures var p := Exec(actions).value.procs[i];
      && (forall n :: 0 <= n < |p.turn.closes| ==> p.turn.closes[n] <= 1)
      && (p.turn.ended ==> forall n :: 0 <= n < |p.turn.closes| ==> p.turn.closes[n] == 1)
      && (p.pc.GateWait? ==>
            && p.pc.channel < |p.turn.closes|
            && (p.turn.closes[p.pc.channel] == 1 || p.turn.resume == Some(p.pc.channel))
            && Step(p.turn, EndMark).closes[p.pc.channel] == 1
            && (p.turn.state.Paused? ==>
                  && Step(p.turn, Resume).closes[p.pc.channel] == 1
                  && Step(p.turn, CancelMark).closes[p.pc.channel] == 1))
  {
    EveryRunIsOk(actions);
    var p := Exec(actions).value.procs[i];
    assert ProcOk(p);
    if p.pc.GateWait? {
      WaiterFreed(p);
    }
  }

  // ---- the bound under a pause is tight ----

  lemma ExecOneMore(actions: seq<Action>, s: Sys, a: Action)
    requires Exec(actions) == Some(s) && Enabled(s, a)
    ensures Exec(actions + [a]) == Some(Next(s, a))
  {
    assert (actions + [a])[..|actions|] == actions;
  }

  lemma TrimHi()
    ensures TrimSpace("hi") == "hi"
  {
  }

  /** A fresh turn that has compressed, passed its gate and drained nothing. */
  lemma ReachModelCall() returns (actions: seq<Action>, s: Sys)
    ensures Exec(actions) == Some(s) && |s.procs| == 1
    ensures var p := s.procs[0];
      && p.turn.state.Running? && p.turn.steer == [] && p.followUps == 0 && p.pc.CallProvider?
  {
    var c := Choice(Final, true, false);
    actions, s := [], START;
    ExecOneMore(actions, s, Check("k"));
    s, actions := Next(s, Check("k")), actions + [Check("k")];
    ExecOneMore(actions, s, Install);
    s, actions := Next(s, Install), actions + [Install];
    assert s.procs == [NewProc("k")];
    var p := NewProc("k");
    p, s, actions := OneLoopStep(p, s, actions, c);
    assert p.pc == GateContext(Iteration);
    p, s, actions := OneLoopStep(p, s, actions, c);
    p, s, actions := OneLoopStep(p, s, actions, c);
    assert p.pc == GateRead(Iteration, false);
    p, s, actions := OneLoopStep(p, s, actions, c);
    p, s, actions := OneLoopStep(p, s, actions, c);
    assert p.pc == AppendSteered([]);
    p, s, actions := OneLoopStep(p, s, actions, c);
  }

  lemma ExecLoop(actions: seq<Action>, s: Sys, c: Choice)
    requires Exec(actions) == Some(s) && |s.procs| == 1 && LoopEnabled(s.procs[0], c)
    ensures Exec(actions + [Loop(0, c)]) == Some(s.(procs := [LoopStep(s.procs[0], c)]))
  {
    ExecOneMore(actions, s, Loop(0, c));
    assert s.procs[0 := LoopStep(s.procs[0], c)] == [LoopStep(s.procs[0], c)];
  }

  lemma ExecInbound(actions: seq<Action>, s: Sys, op: Op)
    requires Exec(actions) == Some(s) && |s.procs| == 1 && InboundEnabled(s.procs[0], op)
    ensures Exec(actions + [Inbound(0, op)]) == Some(s.(procs := [InboundStep(s.procs[0], op)]))
  {
    ExecOneMore(actions, s, Inbound(0, op));
    assert s.procs[0 := InboundStep(s.procs[0], op)] == [InboundStep(s.procs[0], op)];
  }

  /** A pause that takes effect while the last model call is about to start, with
      a text already steered in: the call runs, the supervisor begins a follow-up
      without passing a gate, and the follow-up compresses. */
  lemma PauseCanCostTwo() returns (actions: seq<Action>)
    ensures Exec(actions).Some? && |Exec(actions).value.procs| == 1
    ensures var p := Exec(actions).value.procs[0]; p.turn.state.Paused? && p.sincePause == 2
  {
    var go := Choice(Final, true, false);
    var s;
    actions, s := ReachModelCall();
    TrimHi();
    ExecInbound(actions, s, Steer("hi"));
    var p := InboundStep(s.procs[0], Steer("hi"));
    s, actions := s.(procs := [p]), actions + [Inbound(0, Steer("hi"))];
    ExecInbound(actions, s, Pause);
    p := InboundStep(p, Pause);
    s, actions := s.(procs := [p]), actions + [Inbound(0, Pause)];
    assert p.turn.state.Paused? && p.turn.steer == ["hi"] && p.sincePause == 0;
    CostsTwo(p, go);
    p, s, actions := OneLoopStep(p, s, actions, go);
    p, s, actions := OneLoopStep(p, s, actions, go);
    p, s, actions := OneLoopStep(p, s, actions, go);
  }

  /** The last model call, the supervisor, the compression of its follow-up. */
  lemma CostsTwo(p: Proc, c: Choice)
    requires p.pc.CallProvider? && p.turn.state.Paused? && p.turn.steer != [] && p.followUps < MAX_FOLLOW_UPS
    requires c.answer.Final? && c.budget
    ensures var q := LoopStep(p, c);
      q.pc == Returned(false) && LoopStep(q, c).pc == Begin
      && LoopStep(LoopStep(q, c), c).turn.state.Paused?
      && LoopStep(LoopStep(q, c), c).sincePause == p.sincePause + 2
  {
    var q := LoopStep(p, c);
    assert q == Act(p, ModelCall).(pc := Returned(false));
    var next := LoopStep(q, c);
    assert next == ReturnStep(q, false);
    assert next.pc == Begin && next.turn.state.Paused? && next.sincePause == q.sincePause;
  }

  lemma OneLoopStep(p: Proc, s: Sys, actions: seq<Action>, c: Choice) returns (q: Proc, t: Sys, more: seq<Action>)
    requires Exec(actions) == Some(s) && s.procs == [p] && LoopEnabled(p, c)
    ensures q == LoopStep(p, c) && Exec(more) == Some(t) && t.procs == [q]
  {
    ExecLoop(actions, s, c);
    q := LoopStep(p, c);
    t, more := s.(procs := [q]), actions + [Loop(0, c)];
  }
}
