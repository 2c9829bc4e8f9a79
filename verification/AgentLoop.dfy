/** The agent loop as it runs: a session object whose messages share their tool
    calls with the tool phase, which overwrites a call's input in place. */
module AgentLoop {
  import opened Base
  import opened Canonical
  import opened Conversation
  import opened ToolPhase
  import T = TurnLoop

  class ToolUse {
    const id: string
    const name: string
    var input: Input

    constructor (c: Call)
      ensures View() == c
    {
      id, name, input := c.id, c.name, c.input;
    }

    function View(): Call
      reads this
    {
      Call(id, name, input)
    }
  }

  type Block = Content<ToolUse>
  type HeapMsg = Message<ToolUse>

  function ViewUses(uses: seq<ToolUse>): seq<Call>
    reads uses
  {
    seq(|uses|, i requires 0 <= i < |uses| reads uses => uses[i].View())
  }

  function FootBlock(c: Block): set<ToolUse> {
    if HoldsUse(c) then {c.use.value} else {}
  }

  function FootBlocks(cs: seq<Block>): set<ToolUse> {
    if cs == [] then {} else FootBlocks(cs[..|cs| - 1]) + FootBlock(cs[|cs| - 1])
  }

  function FootAll(ms: seq<HeapMsg>): set<ToolUse> {
    if ms == [] then {} else FootAll(ms[..|ms| - 1]) + FootBlocks(ms[|ms| - 1].content)
  }

  function ViewBlock(c: Block): Content<Call>
    reads FootBlock(c)
  {
    match c
    case TextBlock(s) => TextBlock(s)
    case ImageBlock(d) => ImageBlock(d)
    case UseBlock(u) => UseBlock(if u.Some? then Some(u.value.View()) else None)
    case ResultBlock(r) => ResultBlock(r)
  }

  function ViewBlocks(cs: seq<Block>): seq<Content<Call>>
    reads FootBlocks(cs)
  {
    if cs == [] then [] else ViewBlocks(cs[..|cs| - 1]) + [ViewBlock(cs[|cs| - 1])]
  }

  function ViewMsg(m: HeapMsg): Msg
    reads FootBlocks(m.content)
  {
    Message(m.role, ViewBlocks(m.content))
  }

  function ViewAll(ms: seq<HeapMsg>): seq<Msg>
    reads FootAll(ms)
  {
    if ms == [] then [] else ViewAll(ms[..|ms| - 1]) + [ViewMsg(ms[|ms| - 1])]
  }

  ghost predicate Distinct(uses: seq<ToolUse>) {
    forall i, j :: 0 <= i < j < |uses| ==> uses[i] != uses[j]
  }

  // ---- views ----

  lemma {:induction false} UsesInFoot(cs: seq<Block>)
    ensures forall u :: u in UsesIn(cs) <==> u in FootBlocks(cs)
    ensures forall i :: 0 <= i < |UsesIn(cs)| ==> UsesIn(cs)[i] in FootBlocks(cs)
  {
    if cs != [] {
      UsesInFoot(cs[..|cs| - 1]);
    }
  }

  lemma {:induction false} UsesOfView(cs: seq<Block>)
    ensures UsesIn(ViewBlocks(cs)) == ViewUses(UsesIn(cs))
  {
    if cs != [] {
      var front, last := cs[..|cs| - 1], cs[|cs| - 1];
      UsesOfView(front);
      UsesInSnoc(ViewBlocks(front), ViewBlock(last));
    }
  }

  lemma {:induction false} FootBlocksAllocated(cs: seq<Block>)
    ensures forall u <- FootBlocks(cs) :: allocated(u)
  {
    if cs != [] {
      FootBlocksAllocated(cs[..|cs| - 1]);
    }
  }

  lemma {:induction false} FootAllAllocated(ms: seq<HeapMsg>)
    ensures forall u <- FootAll(ms) :: allocated(u)
  {
    if ms != [] {
      FootAllAllocated(ms[..|ms| - 1]);
      FootBlocksAllocated(ms[|ms| - 1].content);
    }
  }

  lemma ViewBlocksSnoc(cs: seq<Block>, c: Block)
    ensures FootBlocks(cs + [c]) == FootBlocks(cs) + FootBlock(c)
    ensures ViewBlocks(cs + [c]) == ViewBlocks(cs) + [ViewBlock(c)]
    ensures UsesIn(cs + [c]) == UsesIn(cs) + if HoldsUse(c) then [c.use.value] else []
  {
    assert (cs + [c])[..|cs|] == cs;
  }

  lemma ViewAllSnoc(ms: seq<HeapMsg>, m: HeapMsg)
    ensures FootAll(ms + [m]) == FootAll(ms) + FootBlocks(m.content)
    ensures ViewAll(ms + [m]) == ViewAll(ms) + [ViewMsg(m)]
  {
    assert (ms + [m])[..|ms|] == ms;
  }

  /** `bs` is a view of `cs` in some state: only the calls may differ. */
  predicate ShapeOf(bs: seq<Content<Call>>, cs: seq<Block>) {
    && |bs| == |cs|
    && forall i :: 0 <= i < |cs| ==>
         && HoldsUse(bs[i]) == HoldsUse(cs[i])
         && (!HoldsUse(cs[i]) ==> bs[i] == ViewBlock(cs[i]))
  }

  lemma {:induction false} ViewHasShape(cs: seq<Block>)
    ensures ShapeOf(ViewBlocks(cs), cs)
  {
    if cs != [] {
      ViewHasShape(cs[..|cs| - 1]);
    }
  }

  /** An older view refilled with what the shared calls hold now is the current
      view. */
  lemma {:induction false} RefillIsView(bs: seq<Content<Call>>, cs: seq<Block>)
    requires ShapeOf(bs, cs)
    ensures |UsesIn(bs)| == |UsesIn(cs)|
    ensures T.Refill(bs, ViewUses(UsesIn(cs))) == ViewBlocks(cs)
  {
    if cs != [] {
      var front, last := cs[..|cs| - 1], cs[|cs| - 1];
      RefillIsView(bs[..|bs| - 1], front);
      var calls := ViewUses(UsesIn(cs));
      assert HoldsUse(bs[|bs| - 1]) == HoldsUse(last);
      assert (if HoldsUse(last) then calls[..|calls| - 1] else calls) == ViewUses(UsesIn(front));
    }
  }

  // ---- one call ----

  method ExecuteTool(w: World, t: nat, use: ToolUse, sofar: seq<Event>) returns (r: CallRun)
    ensures r == ToolPhase.ExecuteTool(w, t, use.View(), sofar)
  {
    var x := w.execute(t, use.name, use.input);
    var result := ToolResult(use.id, w.bound(x.output), false);
    if x.error.Some? {
      result := ToolResult(use.id, w.bound(x.error.value), true);
    }
    r := CallRun(t + 1, use.input, result, sofar + [Executes(use.name, use.input, x.error.Some?)]);
  }

  method ApplyHookModify(w: World, t: nat, use: ToolUse, sid: string, modified: Option<Input>, sofar: seq<Event>)
    returns (r: CallRun)
    modifies use
    ensures r == ApplyModify(w, t, old(use.View()), sid, modified, sofar) && use.input == r.input
  {
    if modified.None? {
      r := ExecuteTool(w, t, use, sofar);
      return;
    }
    var canonical := CanonicalInput(w.fold, modified.value);
    if canonical.None? {
      r := Denied(t, use.View(), BLOCKED_BY_HOOK + BAD_REWRITE, sofar);
      return;
    }
    if canonical.value == use.input {
      r := ExecuteTool(w, t, use, sofar);
      return;
    }
    var ruling := w.approve(t, use.name, canonical.value, sid);
    var asked := sofar + [Asked(use.name, canonical.value, ruling.denied)];
    if ruling.denied {
      r := Denied(t + 1, use.View(), BLOCKED + OrElse(ruling.reason, BY_POLICY), asked);
      return;
    }
    use.input := canonical.value;
    r := ExecuteTool(w, t + 1, use, asked);
  }

  method PreToolHook(w: World, t: nat, use: ToolUse, sid: string, sofar: seq<Event>) returns (r: CallRun)
    modifies use
    ensures r == HookThenExecute(w, t, old(use.View()), sid, sofar) && use.input == r.input
  {
    if w.hooks.None? || !w.marshals(sid, use.name, use.input) {
      r := ExecuteTool(w, t, use, sofar);
      return;
    }
    var hooked := sofar + [Hooked(use.name, use.input)];
    match w.hooks.value(t, sid, use.name, use.input)
    case HookAllow =>
      r := ExecuteTool(w, t + 1, use, hooked);
    case HookDeny(reason) =>
      r := Denied(t + 1, use.View(), BLOCKED_BY_HOOK + OrElse(reason, BY_HOOK), hooked);
    case HookModify(modified) =>
      r := ApplyHookModify(w, t + 1, use, sid, modified, hooked);
  }

  method RunOneTool(w: World, t: nat, use: ToolUse, sid: string) returns (r: CallRun)
    modifies use
    ensures r == ToolPhase.RunOneTool(w, t, old(use.View()), sid) && use.input == r.input
  {
    if !w.registered(use.name) {
      r := Denied(t, use.View(), w.notFound(use.name), []);
      return;
    }
    var canonical := CanonicalInput(w.fold, use.input);
    if canonical.None? {
      r := Denied(t, use.View(), BLOCKED + NOT_CANONICAL, []);
      return;
    }
    use.input := canonical.value;
    var ruling := w.approve(t, use.name, use.input, sid);
    var asked := [Asked(use.name, use.input, ruling.denied)];
    if ruling.denied {
      r := Denied(t + 1, use.View(), BLOCKED + OrElse(ruling.reason, BY_POLICY), asked);
      return;
    }
    r := PreToolHook(w, t + 1, use, sid, asked);
  }

  // ---- the tool phase ----

  /** What has been done so far, followed by the rest of the phase. */
  ghost function Join(sofar: PhaseRun, rest: PhaseRun): PhaseRun {
    PhaseRun(rest.clock, sofar.calls + rest.calls, sofar.results + rest.results, sofar.outcomes + rest.outcomes,
             sofar.events + rest.events, rest.error)
  }

  /** One more call has been run. */
  function Extend(sofar: PhaseRun, call: Call, one: CallRun): PhaseRun {
    PhaseRun(one.clock, sofar.calls + [call.(input := one.input)], sofar.results + [one.result],
             sofar.outcomes + [OutcomeOf(one)], sofar.events + ([Gated(true)] + one.events), None)
  }

  /** The gate closed: the calls left get cancelled results. */
  function CloseOff(sofar: PhaseRun, rest: seq<Call>, error: string): PhaseRun {
    PhaseRun(sofar.clock + 1, sofar.calls + rest, sofar.results + Cancelled(rest, error),
             sofar.outcomes + seq(|rest|, _ => None), sofar.events + [Gated(false)], Some(error))
  }

  lemma JoinOne(gate: nat -> Option<string>, run: Runner, rest: seq<Call>, sofar: PhaseRun)
    requires rest != [] && gate(sofar.clock).None?
    ensures var next := Extend(sofar, rest[0], run(sofar.clock + 1, rest[0]));
      Join(sofar, Phase(gate, run, sofar.clock, rest)) == Join(next, Phase(gate, run, next.clock, rest[1..]))
  {
    var one := run(sofar.clock + 1, rest[0]);
    var others := Phase(gate, run, one.clock, rest[1..]);
    var call := rest[0].(input := one.input);
    assert sofar.calls + ([call] + others.calls) == sofar.calls + [call] + others.calls;
    assert sofar.results + ([one.result] + others.results) == sofar.results + [one.result] + others.results;
    assert sofar.outcomes + ([OutcomeOf(one)] + others.outcomes) == sofar.outcomes + [OutcomeOf(one)] + others.outcomes;
    assert sofar.events + ([Gated(true)] + one.events + others.events)
        == sofar.events + ([Gated(true)] + one.events) + others.events;
  }

  lemma JoinClosed(gate: nat -> Option<string>, run: Runner, rest: seq<Call>, sofar: PhaseRun)
    requires rest != [] && gate(sofar.clock).Some?
    ensures Join(sofar, Phase(gate, run, sofar.clock, rest)) == CloseOff(sofar, rest, gate(sofar.clock).value)
  {
  }

  lemma JoinEnd(gate: nat -> Option<string>, run: Runner, sofar: PhaseRun)
    requires sofar.error.None?
    ensures Join(sofar, Phase(gate, run, sofar.clock, [])) == sofar
  {
  }

  /** The first `done` calls have been run and hold `done`; the others still hold
      what they held at the start. */
  ghost predicate Progress(uses: seq<ToolUse>, calls: seq<Call>, done: seq<Call>)
    reads uses
  {
    && |uses| == |calls| && |done| <= |uses|
    && (forall j :: 0 <= j < |done| ==> uses[j].View() == done[j])
    && (forall j :: |done| <= j < |uses| ==> uses[j].View() == calls[j])
  }

  lemma ProgressView(uses: seq<ToolUse>, calls: seq<Call>, done: seq<Call>)
    requires Progress(uses, calls, done)
    ensures ViewUses(uses) == done + calls[|done|..]
    ensures ViewUses(uses[|done|..]) == calls[|done|..]
  {
  }

  method RunNext(w: World, t: nat, uses: seq<ToolUse>, sid: string, i: nat, ghost calls: seq<Call>, ghost done: seq<Call>)
    returns (one: CallRun)
    requires Distinct(uses) && Progress(uses, calls, done) && i == |done| < |uses|
    modifies uses[i]
    ensures one == RunnerOf(w, sid)(t, calls[i])
    ensures Progress(uses, calls, done + [calls[i].(input := one.input)])
  {
    one := RunOneTool(w, t, uses[i], sid);
  }

  /** runTools: the calls are left holding the inputs the phase ended with. */
  method RunTools(w: World, t: nat, uses: seq<ToolUse>, sid: string) returns (r: PhaseRun)
    requires Distinct(uses)
    modifies uses
    ensures r == Phase(w.gate, RunnerOf(w, sid), t, old(ViewUses(uses)))
    ensures ViewUses(uses) == r.calls
  {
    ghost var calls := ViewUses(uses);
    ghost var run := RunnerOf(w, sid);
    r := PhaseRun(t, [], [], [], [], None);
    assert calls[0..] == calls;
    for i := 0 to |uses|
      invariant |r.calls| == i && r.error.None? && Progress(uses, calls, r.calls)
      invariant Phase(w.gate, run, t, calls) == Join(r, Phase(w.gate, run, r.clock, calls[i..]))
    {
      ghost var rest := calls[i..];
      assert rest[0] == calls[i] && rest[1..] == calls[i + 1..];
      var closed := w.gate(r.clock);
      if closed.Some? {
        ProgressView(uses, calls, r.calls);
        JoinClosed(w.gate, run, rest, r);
        r := CloseOff(r, ViewUses(uses[i..]), closed.value);
        return;
      }
      JoinOne(w.gate, run, rest, r);
      var call := uses[i].View();
      var one := RunNext(w, r.clock + 1, uses, sid, i, calls, r.calls);
      r := Extend(r, call, one);
    }
    ProgressView(uses, calls, r.calls);
    JoinEnd(w.gate, run, r);
  }

  // ---- the session and the loop ----

  class Session {
    const id: string
    var messages: seq<HeapMsg>

    constructor (id: string)
      ensures this.id == id && messages == []
    {
      this.id, messages := id, [];
    }

    method Append(m: HeapMsg)
      modifies this
      ensures messages == old(messages) + [m]
      ensures ViewAll(messages) == old(ViewAll(messages)) + [ViewMsg(m)]
      ensures ViewMsg(m) == old(ViewMsg(m))
    {
      ViewAllSnoc(messages, m);
      FootAllAllocated(messages);
      FootBlocksAllocated(m.content);
      messages := messages + [m];
    }
  }

  method NewBlock(c: Content<Call>) returns (b: Block)
    ensures ViewBlock(b) == c && fresh(FootBlock(b))
  {
    match c
    case TextBlock(s) => b := TextBlock(s);
    case ImageBlock(d) => b := ImageBlock(d);
    case ResultBlock(r) => b := ResultBlock(r);
    case UseBlock(u) =>
      if u.Some? {
        var use := new ToolUse(u.value);
        b := UseBlock(Some(use));
      } else {
        b := UseBlock(None);
      }
  }

  method AppendBlock(cs: seq<Block>, c: Content<Call>) returns (next: seq<Block>)
    requires Distinct(UsesIn(cs))
    ensures ViewBlocks(next) == old(ViewBlocks(cs)) + [c] && Distinct(UsesIn(next))
    ensures forall u <- FootBlocks(next) :: u in FootBlocks(cs) || fresh(u)
  {
    FootBlocksAllocated(cs);
    var b := NewBlock(c);
    UsesInFoot(cs);
    ViewBlocksSnoc(cs, b);
    if HoldsUse(b) {
      assert b.use.value in FootBlock(b);
      assert b.use.value !in UsesIn(cs);
    }
    next := cs + [b];
  }

  /** A message as the provider hands it over: every call is an object of its own. */
  method Materialise(m: Msg) returns (h: HeapMsg)
    ensures ViewMsg(h) == m && Distinct(UsesIn(h.content))
    ensures fresh(FootBlocks(h.content))
  {
    var cs: seq<Block> := [];
    for i := 0 to |m.content|
      invariant ViewBlocks(cs) == m.content[..i] && Distinct(UsesIn(cs))
      invariant fresh(FootBlocks(cs))
    {
      assert m.content[..i + 1] == m.content[..i] + [m.content[i]];
      cs := AppendBlock(cs, m.content[i]);
    }
    assert m.content[..|m.content|] == m.content;
    h := Message(m.role, cs);
  }

  method AppendNew(s: Session, m: Msg)
    modifies s
    ensures ViewAll(s.messages) == old(ViewAll(s.messages)) + [m]
    ensures old(s.messages) <= s.messages
  {
    FootAllAllocated(s.messages);
    var h := Materialise(m);
    s.Append(h);
  }

  lemma UserTextsSnoc(texts: seq<string>, i: nat)
    requires i < |texts|
    ensures T.UserTexts(texts[..i + 1]) == T.UserTexts(texts[..i]) + [UserText(texts[i])]
  {
  }

  method AppendTexts(s: Session, texts: seq<string>)
    modifies s
    ensures ViewAll(s.messages) == old(ViewAll(s.messages)) + T.UserTexts(texts)
    ensures old(s.messages) <= s.messages
  {
    ghost var before, view := ViewAll(s.messages), ViewAll(s.messages);
    for i := 0 to |texts|
      invariant view == ViewAll(s.messages) && view == before + T.UserTexts(texts[..i])
      invariant old(s.messages) <= s.messages
    {
      UserTextsSnoc(texts, i);
      AppendNew(s, UserText(texts[i]));
      view := view + [UserText(texts[i])];
    }
    assert texts[..|texts|] == texts;
  }

  lemma {:induction false} ResultBlocksView(cs: seq<Block>)
    requires forall i :: 0 <= i < |cs| ==> cs[i].ResultBlock?
    ensures FootBlocks(cs) == {}
    ensures |ViewBlocks(cs)| == |cs| && forall i :: 0 <= i < |cs| ==> ViewBlocks(cs)[i] == ResultBlock(cs[i].result)
  {
    if cs != [] {
      ResultBlocksView(cs[..|cs| - 1]);
    }
  }

  method AppendResults(s: Session, results: seq<ToolResult>)
    modifies s
    ensures ViewAll(s.messages) == old(ViewAll(s.messages)) + [T.ResultMessage(results)]
    ensures old(s.messages) <= s.messages
  {
    var h: HeapMsg := Message(User, seq(|results|, i requires 0 <= i < |results| => ResultBlock(Some(results[i]))));
    ResultBlocksView(h.content);
    assert ViewMsg(h) == T.ResultMessage(results);
    s.Append(h);
  }

  /** Append the model's message as a new heap message. */
  method AppendModelMessage(s: Session, m: Msg) returns (h: HeapMsg)
    modifies s
    ensures s.messages == old(s.messages) + [h]
    ensures ViewAll(old(s.messages)) == old(ViewAll(s.messages)) && ViewMsg(h) == m
    ensures ViewAll(s.messages) == old(ViewAll(s.messages)) + [m]
    ensures Distinct(UsesIn(h.content)) && forall i :: 0 <= i < |UsesIn(h.content)| ==> fresh(UsesIn(h.content)[i])
    ensures FootAll(old(s.messages)) !! FootBlocks(h.content)
  {
    ghost var front := s.messages;
    FootAllAllocated(front);
    h := Materialise(m);
    s.Append(h);
    ViewAllSnoc(front, h);
    UsesInFoot(h.content);
  }

  /** The session after the phase, in terms of what the shared calls hold now. */
  lemma ViewAfterCalls(front: seq<HeapMsg>, h: HeapMsg, m: Msg)
    requires ShapeOf(m.content, h.content) && m.role == h.role
    ensures |UsesIn(m.content)| == |UsesIn(h.content)|
    ensures ViewAll(front + [h])
         == ViewAll(front) + [m.(content := T.Refill(m.content, ViewUses(UsesIn(h.content))))]
  {
    RefillIsView(m.content, h.content);
    ViewAllSnoc(front, h);
  }

  /** The phase on shared calls leaves messages that do not hold them alone. */
  method RunUses(w: World, t: nat, uses: seq<ToolUse>, sid: string, ghost front: seq<HeapMsg>) returns (r: PhaseRun)
    requires Distinct(uses) && forall i :: 0 <= i < |uses| ==> uses[i] !in FootAll(front)
    modifies uses
    ensures r == Phase(w.gate, RunnerOf(w, sid), t, old(ViewUses(uses)))
    ensures ViewUses(uses) == r.calls && ViewAll(front) == old(ViewAll(front))
  {
    FootAllAllocated(front);
    r := RunTools(w, t, uses, sid);
  }

  /** Run the calls of the message just appended, in place. */
  method RunInPlace(w: World, t: nat, s: Session, ghost front: seq<HeapMsg>, h: HeapMsg, ghost m: Msg)
    returns (r: PhaseRun)
    requires s.messages == front + [h] && ViewMsg(h) == m
    requires Distinct(UsesIn(h.content)) && FootAll(front) !! FootBlocks(h.content)
    modifies UsesIn(h.content)
    ensures r == T.RunPhase(w, t, m, s.id)
    ensures ViewAll(s.messages) == old(ViewAll(front)) + [m.(content := T.Refill(m.content, r.calls))]
  {
    var uses := UsesIn(h.content);
    UsesOfView(h.content);
    UsesInFoot(h.content);
    ViewHasShape(h.content);
    assert ViewUses(uses) == Uses(m);
    r := RunUses(w, t, uses, s.id, front);
    ViewAfterCalls(front, h, m);
  }

  /** Append the model's message, run its calls in place, append the results. */
  method RunCalls(w: World, t: nat, s: Session, m: Msg) returns (r: PhaseRun)
    modifies s
    ensures r == T.RunPhase(w, t, m, s.id)
    ensures ViewAll(s.messages) == T.AfterPhase(old(ViewAll(s.messages)), m, r)
    ensures old(s.messages) <= s.messages
  {
    ghost var front := s.messages;
    var h := AppendModelMessage(s, m);
    r := RunInPlace(w, t, s, front, h, m);
    if |r.results| > 0 {
      AppendResults(s, r.results);
    }
  }

  /** One pass of the loop body. */
  method RunRound(w: World, t: nat, s: Session) returns (r: T.Round)
    modifies s
    ensures r == T.OneRound(w, t, old(ViewAll(s.messages)), s.id)
    ensures ViewAll(s.messages) == r.messages
    ensures old(s.messages) <= s.messages
  {
    var closed := w.gate(t);
    if closed.Some? {
      return T.Round(t + 1, ViewAll(s.messages), [Entered(false)], Some(T.GateFailed(closed.value)));
    }
    var texts := w.drain(t + 1);
    AppendTexts(s, texts);
    var asked := ViewAll(s.messages);
    var before := [Entered(true), Drained(texts), Called(asked)];
    var answer := w.complete(t + 2, asked);
    if answer.None? {
      return T.Round(t + 3, asked, before, Some(T.ProviderFailed));
    }
    var reply := answer.value;
    if reply.stop != ToolUse {
      var h := AppendModelMessage(s, reply.message);
      return T.Round(t + 3, ViewAll(s.messages), before, Some(T.Finished(reply)));
    }
    r := RunToolRound(w, t + 3, s, reply.message, before);
  }

  method RunToolRound(w: World, t: nat, s: Session, m: Msg, before: seq<Event>) returns (r: T.Round)
    modifies s
    ensures r == T.ToolRound(w, t, old(ViewAll(s.messages)), m, s.id, before)
    ensures ViewAll(s.messages) == r.messages
    ensures old(s.messages) <= s.messages
  {
    var p := RunCalls(w, t, s, m);
    var after := ViewAll(s.messages);
    r := T.Round(p.clock, after, before + p.events + T.Checkpoint(p, after),
                 if p.error.Some? then Some(T.ToolsCancelled(p.error.value)) else None);
  }

  /** The compressor rewrites the session; its messages are new objects. */
  method Rewrite(s: Session, ms: seq<Msg>)
    modifies s
    ensures ViewAll(s.messages) == ms
  {
    s.messages := [];
    for i := 0 to |ms|
      invariant ViewAll(s.messages) == ms[..i]
    {
      AppendNew(s, ms[i]);
      assert ms[..i + 1] == ms[..i] + [ms[i]];
    }
  }

  /** `round` is the iteration of this world and session. */
  ghost predicate IsRound(round: T.Rounds, w: World, sid: string) {
    forall t: nat, ms {:trigger T.OneRound(w, t, ms, sid)} :: round(t, ms) == T.OneRound(w, t, ms, sid)
  }

  method NextRound(w: World, t: nat, s: Session, ghost round: T.Rounds) returns (r: T.Round)
    requires IsRound(round, w, s.id)
    modifies s
    ensures r == round(t, old(ViewAll(s.messages)))
    ensures ViewAll(s.messages) == r.messages
    ensures old(s.messages) <= s.messages
  {
    r := RunRound(w, t, s);
  }

  /** The loop of turnWithStats. */
  method RunLoop(w: World, t: nat, s: Session, iterations: nat, ghost round: T.Rounds) returns (r: T.TurnRun)
    requires IsRound(round, w, s.id)
    modifies s
    ensures r == T.Loop(round, t, old(ViewAll(s.messages)), iterations)
    ensures ViewAll(s.messages) == r.messages
    ensures old(s.messages) <= s.messages
  {
    var clock, left := t, iterations;
    var events: seq<Event> := [];
    ghost var whole := T.Loop(round, t, ViewAll(s.messages), iterations);
    assert [] + whole.events == whole.events;
    while left > 0
      invariant whole == Prepend(events, T.Loop(round, clock, ViewAll(s.messages), left))
      invariant old(s.messages) <= s.messages
    {
      PrependRound(round, events, clock, ViewAll(s.messages), left);
      var one := NextRound(w, clock, s, round);
      clock, events, left := one.clock, events + one.events, left - 1;
      if one.exit.Some? {
        return T.TurnRun(clock, one.messages, events, one.exit.value);
      }
    }
    r := T.TurnRun(clock, ViewAll(s.messages), events, T.BudgetExhausted);
  }

  /** turnWithStats: the session ends as the loop specification says. */
  method TurnWithStats(w: World, t: nat, s: Session, maxIterations: int) returns (r: T.TurnRun)
    modifies s
    ensures r == T.Turn(w, t, old(ViewAll(s.messages)), maxIterations, s.id)
    ensures ViewAll(s.messages) == r.messages
  {
    if |s.messages| == 0 {
      return T.TurnRun(t, [], [], T.EmptySession);
    }
    Rewrite(s, w.compress(t, ViewAll(s.messages)));
    r := RunLoop(w, t + 1, s, T.Budget(maxIterations), T.RoundsOf(w, s.id));
  }

  ghost function Prepend(events: seq<Event>, rest: T.TurnRun): T.TurnRun {
    rest.(events := events + rest.events)
  }

  lemma PrependRound(round: T.Rounds, events: seq<Event>, t: nat, ms: seq<Msg>, left: nat)
    requires left > 0
    ensures var r := round(t, ms);
      Prepend(events, T.Loop(round, t, ms, left))
      == if r.exit.Some? then T.TurnRun(r.clock, r.messages, events + r.events, r.exit.value)
         else Prepend(events + r.events, T.Loop(round, r.clock, r.messages, left - 1))
  {
    var r := round(t, ms);
    var rest := T.Loop(round, r.clock, r.messages, left - 1);
    assert events + (r.events + rest.events) == events + r.events + rest.events;
  }
}
