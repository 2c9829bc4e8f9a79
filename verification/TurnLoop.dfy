/** The agent loop: compress, then (gate, drain, model call, tool phase)*. */
module TurnLoop {
  import opened Base
  import opened Conversation
  import opened ToolPhase

  datatype Exit =
    | EmptySession
    | GateFailed(error: string)
    | ProviderFailed
    | Finished(reply: Reply)
    | ToolsCancelled(error: string)
    | BudgetExhausted

  datatype TurnRun = TurnRun(clock: nat, messages: seq<Msg>, events: seq<Event>, exit: Exit)

  function UserTexts(texts: seq<string>): seq<Msg> {
    seq(|texts|, i requires 0 <= i < |texts| => UserText(texts[i]))
  }

  /** The message as the session holds it once the phase has rewritten inputs:
      the calls are shared, so the k-th call block shows the k-th call's input. */
  function Refill(content: seq<Content<Call>>, calls: seq<Call>): seq<Content<Call>>
    requires |calls| == |UsesIn(content)|
  {
    if content == [] then []
    else
      var front, last := content[..|content| - 1], content[|content| - 1];
      if HoldsUse(last)
      then Refill(front, calls[..|calls| - 1]) + [UseBlock(Some(calls[|calls| - 1]))]
      else Refill(front, calls) + [last]
  }

  function ResultMessage(results: seq<ToolResult>): Msg {
    Message(User, seq(|results|, i requires 0 <= i < |results| => ResultBlock(Some(results[i]))))
  }

  /** The session after the model's message and the phase's results. */
  function AfterPhase(ms: seq<Msg>, m: Msg, r: PhaseRun): seq<Msg>
    requires |r.calls| == |Uses(m)|
  {
    var kept := ms + [m.(content := Refill(m.content, r.calls))];
    if r.results == [] then kept else kept + [ResultMessage(r.results)]
  }

  function RunPhase(w: World, t: nat, m: Msg, sid: string): (r: PhaseRun)
    ensures Answered(Uses(m), r)
  {
    PhaseAnswers(w, t, Uses(m), sid);
    RunTools(w, t, Uses(m), sid)
  }

  /** One iteration; `exit` is set when the turn ends in it. */
  datatype Round = Round(clock: nat, messages: seq<Msg>, events: seq<Event>, exit: Option<Exit>)

  function Checkpoint(r: PhaseRun, after: seq<Msg>): seq<Event> {
    if r.results == [] then [] else [Checkpointed(after)]
  }

  /** From a reply that asks for tools to the end of the iteration. */
  function ToolRound(w: World, t: nat, asked: seq<Msg>, m: Msg, sid: string, before: seq<Event>): Round {
    var r := RunPhase(w, t, m, sid);
    var after := AfterPhase(asked, m, r);
    Round(r.clock, after, before + r.events + Checkpoint(r, after),
          match r.error case None => None case Some(e) => Some(ToolsCancelled(e)))
  }

  function OneRound(w: World, t: nat, ms: seq<Msg>, sid: string): Round {
    match w.gate(t)
    case Some(e) => Round(t + 1, ms, [Entered(false)], Some(GateFailed(e)))
    case None =>
      var texts := w.drain(t + 1);
      var asked := ms + UserTexts(texts);
      var before := [Entered(true), Drained(texts), Called(asked)];
      match w.complete(t + 2, asked)
      case None => Round(t + 3, asked, before, Some(ProviderFailed))
      case Some(reply) =>
        if reply.stop == ToolUse then ToolRound(w, t + 3, asked, reply.message, sid, before)
        else Round(t + 3, asked + [reply.message], before, Some(Finished(reply)))
  }

  type Rounds = (nat, seq<Msg>) -> Round

  /** Rounds until one ends the turn or `left` are used up. */
  function Loop(round: Rounds, t: nat, ms: seq<Msg>, left: nat): TurnRun
    decreases left
  {
    if left == 0 then TurnRun(t, ms, [], BudgetExhausted)
    else
      var r := round(t, ms);
      match r.exit
      case Some(exit) => TurnRun(r.clock, r.messages, r.events, exit)
      case None =>
        var rest := Loop(round, r.clock, r.messages, left - 1);
        rest.(events := r.events + rest.events)
  }

  function RoundsOf(w: World, sid: string): Rounds {
    (t: nat, ms: seq<Msg>) => OneRound(w, t, ms, sid)
  }

  /** The agent loop with `left` iterations to go. */
  function Iterate(w: World, t: nat, ms: seq<Msg>, left: nat, sid: string): TurnRun {
    Loop(RoundsOf(w, sid), t, ms, left)
  }

  /** A zero iteration budget means 32, a negative one none. */
  function Budget(maxIterations: int): nat {
    if maxIterations == 0 then 32 else if maxIterations < 0 then 0 else maxIterations
  }

  /** turnWithStats. */
  function Turn(w: World, t: nat, ms: seq<Msg>, maxIterations: int, sid: string): TurnRun {
    if ms == [] then TurnRun(t, ms, [], EmptySession)
    else
      var left := Budget(maxIterations);
      Iterate(w, t + 1, w.compress(t, ms), left, sid)
  }

  const TRUNCATED := "\n\n[reply cut off at the model's output limit; ask to continue]"

  /** finalMessage: the reply as delivered; the session keeps the model's own. */
  function FinalMessage(reply: Reply): Msg {
    if reply.stop == MaxTokens
    then reply.message.(content := reply.message.content + [TextBlock(TRUNCATED)])
    else reply.message
  }

  /** The message delivered keeps the model's blocks; only a reply cut off at the
      output limit gets one block more, which says so. */
  lemma DeliveredKeepsBlocks(reply: Reply)
    ensures var m := FinalMessage(reply);
      && m.role == reply.message.role && reply.message.content <= m.content
      && m.content[|reply.message.content|..] == if reply.stop == MaxTokens then [TextBlock(TRUNCATED)] else []
  {
  }

  ghost predicate StoresReply(messages: seq<Msg>, exit: Exit) {
    exit.Finished? ==> messages != [] && messages[|messages| - 1] == exit.reply.message
  }

  lemma {:induction false} LoopStoresReply(round: Rounds, t: nat, ms: seq<Msg>, left: nat)
    requires forall u, m :: round(u, m).exit.Some? ==> StoresReply(round(u, m).messages, round(u, m).exit.value)
    ensures StoresReply(Loop(round, t, ms, left).messages, Loop(round, t, ms, left).exit)
    decreases left
  {
    if left > 0 {
      var r := round(t, ms);
      if r.exit.None? {
        LoopStoresReply(round, r.clock, r.messages, left - 1);
      }
    }
  }

  /** The session keeps the model's own message, marker or not. */
  lemma {:induction false} TurnStoresReply(w: World, t: nat, ms: seq<Msg>, maxIterations: int, sid: string)
    ensures var r := Turn(w, t, ms, maxIterations, sid); StoresReply(r.messages, r.exit)
  {
    if ms != [] {
      forall u, m
        ensures var r := RoundsOf(w, sid)(u, m); r.exit.Some? ==> StoresReply(r.messages, r.exit.value)
      {
        assert RoundsOf(w, sid)(u, m) == OneRound(w, u, m, sid);
      }
      LoopStoresReply(RoundsOf(w, sid), t + 1, w.compress(t, ms), Budget(maxIterations));
    }
  }

  // ---- pairing ----

  /** A model's message never carries tool results. */
  ghost predicate NoStrayResults(w: World) {
    forall t, ms :: w.complete(t, ms).Some? ==> !CarriesResults(w.complete(t, ms).value.message)
  }

  /** A model that asks for tools says so in the stop reason. */
  ghost predicate ReportsToolUse(w: World) {
    forall t, ms :: w.complete(t, ms).Some? && Uses(w.complete(t, ms).value.message) != []
      ==> w.complete(t, ms).value.stop == ToolUse
  }

  /** The session was well-formed whenever it was sent to the model or saved. */
  predicate AlwaysPaired(events: seq<Event>) {
    forall i :: 0 <= i < |events| ==>
      && (events[i].Called? ==> Paired(events[i].messages))
      && (events[i].Checkpointed? ==> Paired(events[i].messages))
  }

  lemma {:induction false} RefillUses(content: seq<Content<Call>>, calls: seq<Call>)
    requires |calls| == |UsesIn(content)|
    ensures UsesIn(Refill(content, calls)) == calls
  {
    if content != [] {
      var front, last := content[..|content| - 1], content[|content| - 1];
      if HoldsUse(last) {
        var init, end := calls[..|calls| - 1], calls[|calls| - 1];
        RefillUses(front, init);
        UsesInSnoc(Refill(front, init), UseBlock(Some(end)));
        assert init + [end] == calls;
      } else {
        RefillUses(front, calls);
        UsesInSnoc(Refill(front, calls), last);
      }
    }
  }

  lemma {:induction false} RefillShape(content: seq<Content<Call>>, calls: seq<Call>)
    requires |calls| == |UsesIn(content)|
    ensures |Refill(content, calls)| == |content|
    ensures forall i :: 0 <= i < |content| ==> Refill(content, calls)[i].ResultBlock? == content[i].ResultBlock?
  {
    if content != [] {
      var front, last := content[..|content| - 1], content[|content| - 1];
      RefillShape(front, if HoldsUse(last) then calls[..|calls| - 1] else calls);
    }
  }

  lemma {:induction false} AppendTexts(ms: seq<Msg>, texts: seq<string>)
    requires Paired(ms)
    ensures Paired(ms + UserTexts(texts))
  {
    if texts == [] {
      assert ms + UserTexts(texts) == ms;
    } else {
      var front, last := texts[..|texts| - 1], texts[|texts| - 1];
      AppendTexts(ms, front);
      UserTextPlain(last);
      AppendPlain(ms + UserTexts(front), UserText(last));
      assert ms + UserTexts(texts) == ms + UserTexts(front) + [UserText(last)];
    }
  }

  lemma AlwaysPairedConcat(a: seq<Event>, b: seq<Event>)
    requires AlwaysPaired(a) && AlwaysPaired(b)
    ensures AlwaysPaired(a + b)
  {
  }

  /** Events of the tool phase only. */
  predicate OnlyPhase(events: seq<Event>) {
    forall i :: 0 <= i < |events| ==> events[i].Gated? || events[i].Asked? || events[i].Hooked? || events[i].Executes?
  }

  /** The tool phase neither drains, nor calls the model, nor saves. */
  lemma PhaseOnly(w: World, t: nat, calls: seq<Call>, sid: string)
    ensures OnlyPhase(RunTools(w, t, calls, sid).events)
  {
    RunnerOfOk(w, sid);
    PhaseOnlyAny(w, RunnerOf(w, sid), t, calls);
  }

  lemma {:induction false} PhaseOnlyAny(w: World, run: Runner, t: nat, calls: seq<Call>)
    requires RunnerOk(w, run)
    ensures OnlyPhase(Phase(w.gate, run, t, calls).events)
    decreases |calls|
  {
    if calls != [] && w.gate(t).None? {
      var one := run(t + 1, calls[0]);
      assert CallOk(w, calls[0], one);
      CallOnly(w, calls[0], one);
      PhaseOnlyAny(w, run, one.clock, calls[1..]);
    }
  }

  lemma CallOnly(w: World, call: Call, r: CallRun)
    requires CallOk(w, call, r)
    ensures OnlyPhase(r.events)
  {
    if !Asking(r.events) {
      var front := r.events[..|r.events| - 1];
      assert forall i :: 0 <= i < |front| ==> r.events[i] == front[i];
    }
  }

  /** What the session shows of the model's message is what ran: its calls are
      the calls of the phase with their final inputs, and the executions are
      those of them that ran, in order. */
  lemma SessionShowsWhatRan(w: World, t: nat, ms: seq<Msg>, m: Msg, sid: string)
    ensures var r := RunPhase(w, t, m, sid);
      var after := AfterPhase(ms, m, r);
      && |after| > |ms| && Uses(after[|ms|]) == r.calls && |r.calls| == |r.outcomes|
      && Executions(r.events) == RanCalls(Uses(after[|ms|]), r.outcomes)
  {
    var r := RunPhase(w, t, m, sid);
    RefillUses(m.content, r.calls);
    StoredIsExecuted(w, t, Uses(m), sid);
  }

  /** Every phase leaves the session well-formed, cancelled or not. */
  lemma AfterPhasePaired(w: World, t: nat, ms: seq<Msg>, m: Msg, sid: string)
    requires Paired(ms) && !CarriesResults(m)
    ensures Paired(AfterPhase(ms, m, RunPhase(w, t, m, sid)))
  {
    var r := RunPhase(w, t, m, sid);
    PhaseAnswers(w, t, Uses(m), sid);
    RefillUses(m.content, r.calls);
    RefillShape(m.content, r.calls);
    var kept := m.(content := Refill(m.content, r.calls));
    assert Uses(kept) == r.calls && !CarriesResults(kept);
    if r.results == [] {
      AppendPlain(ms, kept);
    } else {
      AppendExchange(ms, kept, ResultMessage(r.results));
      assert ms + [kept] + [ResultMessage(r.results)] == ms + [kept, ResultMessage(r.results)];
    }
  }

  /** The turn ended on a message that asks for tools without saying so. */
  predicate EndsDangling(exit: Exit) {
    exit.Finished? && Uses(exit.reply.message) != []
  }

  lemma ToolRoundPaired(w: World, t: nat, asked: seq<Msg>, m: Msg, sid: string, before: seq<Event>)
    requires Paired(asked) && !CarriesResults(m) && AlwaysPaired(before)
    ensures AlwaysPaired(ToolRound(w, t, asked, m, sid, before).events)
    ensures Paired(ToolRound(w, t, asked, m, sid, before).messages)
  {
    var r := RunPhase(w, t, m, sid);
    var after := AfterPhase(asked, m, r);
    AfterPhasePaired(w, t, asked, m, sid);
    PhaseOnly(w, t, Uses(m), sid);
    AlwaysPairedConcat(before, r.events);
    AlwaysPairedConcat(before + r.events, Checkpoint(r, after));
  }

  /** What one iteration does to a well-formed session. */
  ghost predicate RoundOk(r: Round) {
    && AlwaysPaired(r.events)
    && (Paired(r.messages) <==> !(r.exit.Some? && EndsDangling(r.exit.value)))
  }

  lemma RoundPaired(w: World, t: nat, ms: seq<Msg>, sid: string)
    requires Paired(ms) && NoStrayResults(w)
    ensures RoundOk(OneRound(w, t, ms, sid))
  {
    if w.gate(t).None? {
      var texts := w.drain(t + 1);
      var asked := ms + UserTexts(texts);
      AppendTexts(ms, texts);
      match w.complete(t + 2, asked)
      case None =>
      case Some(reply) =>
        if reply.stop == ToolUse {
          ToolRoundPaired(w, t + 3, asked, reply.message, sid, [Entered(true), Drained(texts), Called(asked)]);
        } else {
          EndPaired(asked, reply.message);
        }
    }
  }

  lemma {:induction false} LoopPaired(round: Rounds, t: nat, ms: seq<Msg>, left: nat)
    requires Paired(ms) && forall u, m :: Paired(m) ==> RoundOk(round(u, m))
    ensures AlwaysPaired(Loop(round, t, ms, left).events)
    ensures Paired(Loop(round, t, ms, left).messages) <==> !EndsDangling(Loop(round, t, ms, left).exit)
    decreases left
  {
    if left > 0 {
      var r := round(t, ms);
      assert RoundOk(r);
      if r.exit.None? {
        LoopPaired(round, r.clock, r.messages, left - 1);
        AlwaysPairedConcat(r.events, Loop(round, r.clock, r.messages, left - 1).events);
      }
    }
  }

  /** From any well-formed session, on every path: the session is well-formed at
      every model call and every checkpoint, and it is well-formed at the exit
      exactly when the turn did not end on a message with tool calls whose stop
      reason was not tool use. */
  lemma IteratePaired(w: World, t: nat, ms: seq<Msg>, left: nat, sid: string)
    requires Paired(ms) && NoStrayResults(w)
    ensures AlwaysPaired(Iterate(w, t, ms, left, sid).events)
    ensures Paired(Iterate(w, t, ms, left, sid).messages) <==> !EndsDangling(Iterate(w, t, ms, left, sid).exit)
  {
    forall u, m | Paired(m)
      ensures RoundOk(RoundsOf(w, sid)(u, m))
    {
      RoundPaired(w, u, m, sid);
    }
    LoopPaired(RoundsOf(w, sid), t, ms, left);
  }

  lemma EndPaired(ms: seq<Msg>, m: Msg)
    requires Paired(ms) && !CarriesResults(m)
    ensures Paired(ms + [m]) <==> Uses(m) == []
  {
    if Uses(m) == [] {
      AppendPlain(ms, m);
    } else {
      DanglingCalls(ms, m);
    }
  }

  lemma {:induction false} LoopNeverDangling(round: Rounds, t: nat, ms: seq<Msg>, left: nat)
    requires forall u, m :: round(u, m).exit.Some? ==> !EndsDangling(round(u, m).exit.value)
    ensures !EndsDangling(Loop(round, t, ms, left).exit)
    decreases left
  {
    if left > 0 {
      var r := round(t, ms);
      if r.exit.None? {
        LoopNeverDangling(round, r.clock, r.messages, left - 1);
      }
    }
  }

  /** With a model that reports tool use, no turn ends on unanswered calls. */
  lemma NeverDangling(w: World, t: nat, ms: seq<Msg>, left: nat, sid: string)
    requires ReportsToolUse(w)
    ensures !EndsDangling(Iterate(w, t, ms, left, sid).exit)
  {
    forall u, m
      ensures var r := RoundsOf(w, sid)(u, m); r.exit.Some? ==> !EndsDangling(r.exit.value)
    {
      assert RoundsOf(w, sid)(u, m) == OneRound(w, u, m, sid);
    }
    LoopNeverDangling(RoundsOf(w, sid), t, ms, left);
  }

  /** A whole turn, given a compressor that keeps well-formedness. */
  lemma {:induction false} TurnPaired(w: World, t: nat, ms: seq<Msg>, maxIterations: int, sid: string)
    requires Paired(ms) && NoStrayResults(w) && Paired(w.compress(t, ms))
    ensures var r := Turn(w, t, ms, maxIterations, sid);
      && AlwaysPaired(r.events)
      && (Paired(r.messages) <==> !EndsDangling(r.exit))
      && (ReportsToolUse(w) ==> Paired(r.messages))
  {
    if ms != [] {
      var left := Budget(maxIterations);
      IteratePaired(w, t + 1, w.compress(t, ms), left, sid);
      if ReportsToolUse(w) {
        NeverDangling(w, t + 1, w.compress(t, ms), left, sid);
      }
    }
  }

  // ---- steering ----

  /** The session ends with these texts, one user message each, in order. */
  predicate EndsWithTexts(ms: seq<Msg>, texts: seq<string>) {
    && |texts| <= |ms|
    && forall j :: 0 <= j < |texts| ==> ms[|ms| - |texts| + j] == UserText(texts[j])
  }

  /** Every drain is for the model call right after it, which sees what was
      drained; every model call comes right after a drain. */
  predicate SteeredFirst(events: seq<Event>) {
    && (forall i :: 0 <= i < |events| && events[i].Called? ==>
          i > 0 && events[i - 1].Drained? && EndsWithTexts(events[i].messages, events[i - 1].texts))
    && (forall i :: 0 <= i < |events| && events[i].Drained? ==> i + 1 < |events| && events[i + 1].Called?)
  }

  lemma SteeredConcat(a: seq<Event>, b: seq<Event>)
    requires SteeredFirst(a) && SteeredFirst(b)
    ensures SteeredFirst(a + b)
  {
    var all := a + b;
    forall i | 0 <= i < |all| && all[i].Called?
      ensures i > 0 && all[i - 1].Drained? && EndsWithTexts(all[i].messages, all[i - 1].texts)
    {
      if i >= |a| {
        assert all[i] == b[i - |a|] && all[i - 1] == b[i - |a| - 1];
      }
    }
    forall i | 0 <= i < |all| && all[i].Drained?
      ensures i + 1 < |all| && all[i + 1].Called?
    {
      if i >= |a| {
        assert all[i] == b[i - |a|] && all[i + 1] == b[i - |a| + 1];
      }
    }
  }

  lemma PhaseSteered(before: seq<Event>, r: PhaseRun, after: seq<Msg>)
    requires SteeredFirst(before) && OnlyPhase(r.events)
    ensures SteeredFirst(before + r.events + Checkpoint(r, after))
  {
    assert SteeredFirst(r.events) && SteeredFirst(Checkpoint(r, after));
    SteeredConcat(before, r.events);
    SteeredConcat(before + r.events, Checkpoint(r, after));
  }

  lemma DrainSteered(ms: seq<Msg>, texts: seq<string>)
    ensures SteeredFirst([Entered(true), Drained(texts), Called(ms + UserTexts(texts))])
  {
    assert EndsWithTexts(ms + UserTexts(texts), texts);
  }

  lemma ToolRoundSteered(w: World, t: nat, asked: seq<Msg>, m: Msg, sid: string, before: seq<Event>)
    requires SteeredFirst(before)
    ensures SteeredFirst(ToolRound(w, t, asked, m, sid, before).events)
  {
    var r := RunPhase(w, t, m, sid);
    PhaseOnly(w, t, Uses(m), sid);
    PhaseSteered(before, r, AfterPhase(asked, m, r));
  }

  lemma RoundSteered(w: World, t: nat, ms: seq<Msg>, sid: string)
    ensures SteeredFirst(OneRound(w, t, ms, sid).events)
  {
    if w.gate(t).None? {
      var texts := w.drain(t + 1);
      var asked := ms + UserTexts(texts);
      DrainSteered(ms, texts);
      match w.complete(t + 2, asked)
      case None =>
      case Some(reply) =>
        if reply.stop == ToolUse {
          ToolRoundSteered(w, t + 3, asked, reply.message, sid, [Entered(true), Drained(texts), Called(asked)]);
        }
    }
  }

  lemma {:induction false} LoopSteered(round: Rounds, t: nat, ms: seq<Msg>, left: nat)
    requires forall u, m :: SteeredFirst(round(u, m).events)
    ensures SteeredFirst(Loop(round, t, ms, left).events)
    decreases left
  {
    if left > 0 {
      var r := round(t, ms);
      assert SteeredFirst(r.events);
      if r.exit.None? {
        LoopSteered(round, r.clock, r.messages, left - 1);
        SteeredConcat(r.events, Loop(round, r.clock, r.messages, left - 1).events);
      }
    }
  }

  /** In every turn, whatever is drained is in the session, in order and last,
      when the model is called next; nothing is drained that no call will see. */
  lemma {:induction false} TurnSteered(w: World, t: nat, ms: seq<Msg>, maxIterations: int, sid: string)
    ensures SteeredFirst(Turn(w, t, ms, maxIterations, sid).events)
  {
    if ms != [] {
      forall u, m
        ensures SteeredFirst(RoundsOf(w, sid)(u, m).events)
      {
        RoundSteered(w, u, m, sid);
      }
      LoopSteered(RoundsOf(w, sid), t + 1, w.compress(t, ms), Budget(maxIterations));
    }
  }

  // ---- the loop only appends ----

  lemma RoundExtends(w: World, t: nat, ms: seq<Msg>, sid: string)
    ensures ms <= OneRound(w, t, ms, sid).messages
  {
  }

  ghost predicate Extends(round: Rounds) {
    forall u, m :: m <= round(u, m).messages
  }

  /** The loop only appends. */
  lemma {:induction false} LoopExtends(round: Rounds, t: nat, ms: seq<Msg>, left: nat)
    requires Extends(round)
    ensures ms <= Loop(round, t, ms, left).messages
    decreases left
  {
    if left > 0 {
      var r := round(t, ms);
      assert ms <= r.messages;
      if r.exit.None? {
        LoopExtends(round, r.clock, r.messages, left - 1);
      }
    }
  }

  /** What the model was shown is still there, at the front of the session. */
  predicate KeepsCalled(events: seq<Event>, messages: seq<Msg>) {
    forall i :: 0 <= i < |events| && events[i].Called? ==> events[i].messages <= messages
  }

  lemma RoundKeepsCalled(w: World, t: nat, ms: seq<Msg>, sid: string)
    ensures KeepsCalled(OneRound(w, t, ms, sid).events, OneRound(w, t, ms, sid).messages)
  {
    var asked := ms + UserTexts(w.drain(t + 1));
    if w.gate(t).None? && w.complete(t + 2, asked).Some? {
      var m := w.complete(t + 2, asked).value.message;
      PhaseOnly(w, t + 3, Uses(m), sid);
    }
  }

  lemma {:induction false} LoopKeepsCalled(round: Rounds, t: nat, ms: seq<Msg>, left: nat)
    requires Extends(round) && forall u, m :: KeepsCalled(round(u, m).events, round(u, m).messages)
    ensures KeepsCalled(Loop(round, t, ms, left).events, Loop(round, t, ms, left).messages)
    decreases left
  {
    if left > 0 {
      var r := round(t, ms);
      assert KeepsCalled(r.events, r.messages);
      if r.exit.None? {
        LoopExtends(round, r.clock, r.messages, left - 1);
        LoopKeepsCalled(round, r.clock, r.messages, left - 1);
      }
    }
  }

  /** Every message list a model call saw is a prefix of the session at the end. */
  lemma {:induction false} TurnKeepsCalled(w: World, t: nat, ms: seq<Msg>, maxIterations: int, sid: string)
    ensures var r := Turn(w, t, ms, maxIterations, sid); KeepsCalled(r.events, r.messages)
  {
    if ms != [] {
      forall u, m
        ensures m <= RoundsOf(w, sid)(u, m).messages
        ensures KeepsCalled(RoundsOf(w, sid)(u, m).events, RoundsOf(w, sid)(u, m).messages)
      {
        RoundExtends(w, u, m, sid);
        RoundKeepsCalled(w, u, m, sid);
      }
      LoopKeepsCalled(RoundsOf(w, sid), t + 1, w.compress(t, ms), Budget(maxIterations));
    }
  }

  // ---- approval over the whole turn ----

  lemma NoExecutionsGuarded(w: World, events: seq<Event>)
    requires forall e <- events :: !e.Executes?
    ensures Guarded(w, events)
  {
  }

  lemma RoundGuarded(w: World, t: nat, ms: seq<Msg>, sid: string)
    ensures Guarded(w, OneRound(w, t, ms, sid).events)
  {
    var texts := w.drain(t + 1);
    var asked := ms + UserTexts(texts);
    var before := [Entered(true), Drained(texts), Called(asked)];
    NoExecutionsGuarded(w, [Entered(false)]);
    NoExecutionsGuarded(w, before);
    if w.complete(t + 2, asked).Some? {
      var m := w.complete(t + 2, asked).value.message;
      var r := RunPhase(w, t + 3, m, sid);
      var saved := Checkpoint(r, AfterPhase(asked, m, r));
      PhaseGuarded(w, t + 3, Uses(m), sid);
      NoExecutionsGuarded(w, saved);
      GuardedConcat(w, before, r.events);
      GuardedConcat(w, before + r.events, saved);
    }
  }

  lemma {:induction false} LoopGuarded(w: World, round: Rounds, t: nat, ms: seq<Msg>, left: nat)
    requires forall u, m :: Guarded(w, round(u, m).events)
    ensures Guarded(w, Loop(round, t, ms, left).events)
    decreases left
  {
    if left > 0 {
      var r := round(t, ms);
      if r.exit.None? {
        LoopGuarded(w, round, r.clock, r.messages, left - 1);
        GuardedConcat(w, r.events, Loop(round, r.clock, r.messages, left - 1).events);
      }
    }
  }

  /** Over a whole turn, whatever the collaborators answer: every execution comes
      right after an approval of the same tool on the same canonical input. */
  lemma {:induction false} TurnGuarded(w: World, t: nat, ms: seq<Msg>, maxIterations: int, sid: string)
    ensures Guarded(w, Turn(w, t, ms, maxIterations, sid).events)
  {
    if ms != [] {
      forall u, m
        ensures Guarded(w, RoundsOf(w, sid)(u, m).events)
      {
        RoundGuarded(w, u, m, sid);
      }
      LoopGuarded(w, RoundsOf(w, sid), t + 1, w.compress(t, ms), Budget(maxIterations));
    }
  }
}
