/** A whole turn with the summarising compressor in front. */
module CompressedTurn {
  import opened Base
  import opened Conversation
  import opened ToolPhase
  import opened TurnLoop
  import C = Compressor
  import A = AgentLoop
  import L = Ledger
  import G = LedgerTruth

  /** The second message answers calls the first does not make. */
  predicate Stray(ms: seq<Msg>) {
    |ms| > 1 && CarriesResults(ms[1]) && Uses(ms[0]) == []
  }

  lemma StrayStays(ms: seq<Msg>, longer: seq<Msg>)
    requires Stray(ms) && ms <= longer
    ensures !Paired(longer)
  {
    assert !PairedAt(longer, 1);
  }

  /** For a model that reports tool use: a turn on a well-formed session leaves it
      well-formed, on every exit, exactly when the compressor did not cut between
      calls and their results. A cut in the wrong place is never repaired. */
  lemma {:induction false} TurnPairedIff(c: C.Config, est: C.Estimate, summary: Option<string>,
                      w: World, t: nat, ms: seq<Msg>, maxIterations: int, sid: string)
    requires ms != [] && Paired(ms) && NoStrayResults(w) && ReportsToolUse(w)
    requires w.compress(t, ms) == C.Compress(c, est, ms, summary)
    ensures Paired(Turn(w, t, ms, maxIterations, sid).messages)
       <==> !(C.Passes(c, est, ms, summary) && CarriesResults(ms[|ms| - C.Keep(c)]))
  {
    var start := C.Compress(c, est, ms, summary);
    var passes := C.Passes(c, est, ms, summary);
    if passes {
      C.PassPairingIff(c, est, ms, summary);
    }
    if passes && CarriesResults(ms[|ms| - C.Keep(c)]) {
      C.PassShape(c, est, ms, summary);
      assert start[1] == start[1..][0];
      forall u, m
        ensures m <= RoundsOf(w, sid)(u, m).messages
      {
        RoundExtends(w, u, m, sid);
      }
      LoopExtends(RoundsOf(w, sid), t + 1, start, Budget(maxIterations));
      StrayStays(start, Turn(w, t, ms, maxIterations, sid).messages);
    } else {
      TurnPaired(w, t, ms, maxIterations, sid);
    }
  }

  // ---- a cut in the wrong place ----

  const ASK: Msg := Message(Assistant, [UseBlock(Some(Call("1", "ls", [])))])
  const ANSWER: Msg := Message(User, [ResultBlock(Some(ToolResult("1", "", false)))])
  const EXCHANGE: seq<Msg> := [UserText("x"), ASK, ANSWER, UserText("y")]
  const KEEP_TWO := C.Config(true, 2, 0, 2, "")

  /** A well-formed session that a pass cuts between a call and its result. */
  lemma CutFallsInExchange(est: C.Estimate, summary: string)
    ensures Paired(EXCHANGE) && C.Passes(KEEP_TWO, est, EXCHANGE, Some(summary))
    ensures CarriesResults(EXCHANGE[|EXCHANGE| - C.Keep(KEEP_TWO)])
  {
    var none: seq<Msg> := [];
    UsesInSnoc([], ASK.content[0]);
    assert [] + [ASK.content[0]] == ASK.content;
    assert UsesIn<Call>([]) == [];
    assert Uses(ASK) == [Call("1", "ls", [])];
    assert ANSWER.content[0].ResultBlock?;
    UserTextPlain("x");
    UserTextPlain("y");
    AppendPlain(none, UserText("x"));
    AppendExchange(none + [UserText("x")], ASK, ANSWER);
    AppendPlain(none + [UserText("x")] + [ASK, ANSWER], UserText("y"));
    assert none + [UserText("x")] + [ASK, ANSWER] + [UserText("y")] == EXCHANGE;
    assert C.Marker(KEEP_TWO)[0] == '[' && UserText("x").content[0].text[0] == 'x';
    assert EXCHANGE[2] == ANSWER;
  }

  /** Any turn that starts with that pass ends on a session that is not
      well-formed, on every exit. */
  lemma {:induction false} TurnStaysBroken(est: C.Estimate, summary: string, w: World, t: nat, maxIterations: int, sid: string)
    requires NoStrayResults(w) && ReportsToolUse(w)
    requires w.compress(t, EXCHANGE) == C.Compress(KEEP_TWO, est, EXCHANGE, Some(summary))
    ensures !Paired(Turn(w, t, EXCHANGE, maxIterations, sid).messages)
  {
    CutFallsInExchange(est, summary);
    TurnPairedIff(KEEP_TWO, est, Some(summary), w, t, EXCHANGE, maxIterations, sid);
  }

  // ---- the ledger ----

  /** A pass keeps at least one message, so the last one stays. */
  lemma LastIsKept(c: C.Config, est: C.Estimate, ms: seq<Msg>, summary: Option<string>)
    requires ms != []
    ensures var r := C.Compress(c, est, ms, summary); r != [] && r[|r| - 1] == ms[|ms| - 1]
  {
  }

  /** After a turn on a session that ends with the sender's message, compressed
      or not, the ledger tells the truth, and covers the turn exactly when
      nothing ran before text was last steered in. */
  lemma {:induction false} CompressedLedger(sum: L.Summary, c: C.Config, est: C.Estimate, summary: Option<string>,
                                            w: World, t: nat, ms: seq<Msg>, maxIterations: int, sid: string)
    requires ms != [] && L.SenderWrote(ms[|ms| - 1]) && G.Assists(w)
    requires w.compress(t, ms) == C.Compress(c, est, ms, summary)
    ensures var r := Turn(w, t, ms, maxIterations, sid);
      exists outcomes :: G.CoversBy(sum, r.messages, r.events, outcomes)
  {
    LastIsKept(c, est, ms, summary);
    G.LedgerCoversTurnIff(sum, w, t, ms, maxIterations, sid);
  }

  // ---- on the session object ----

  /** The messages a pass keeps (all of them without one) are the same objects. */
  ghost predicate KeepsObjects(before: seq<A.HeapMsg>, after: seq<A.HeapMsg>, passes: bool, keep: nat) {
    if passes then keep < |after| && keep <= |before| && after[1..keep + 1] == before[|before| - keep..]
    else before <= after
  }

  lemma KeptByPass(before: seq<A.HeapMsg>, compressed: seq<A.HeapMsg>, after: seq<A.HeapMsg>, passes: bool, keep: nat)
    requires compressed <= after
    requires if passes then |compressed| == keep + 1 <= |before| && compressed[1..] == before[|before| - keep..]
             else compressed == before
    ensures KeepsObjects(before, after, passes, keep)
  {
    if passes {
      assert after[1..keep + 1] == compressed[1..];
    }
  }

  lemma TurnIsLoop(w: World, t: nat, ms: seq<Msg>, maxIterations: int, sid: string)
    requires ms != []
    ensures Turn(w, t, ms, maxIterations, sid)
         == Loop(RoundsOf(w, sid), t + 1, w.compress(t, ms), Budget(maxIterations))
  {
  }

  /** turnWithStats with this compressor: the specified turn. */
  method TurnWithCompressor(c: C.Config, est: C.Estimate, summary: Option<string>,
                            w: World, t: nat, s: A.Session, maxIterations: int) returns (r: TurnRun)
    requires w.compress(t, A.ViewAll(s.messages)) == C.Compress(c, est, A.ViewAll(s.messages), summary)
    modifies s
    ensures r == Turn(w, t, old(A.ViewAll(s.messages)), maxIterations, s.id)
    ensures A.ViewAll(s.messages) == r.messages
    ensures KeepsObjects(old(s.messages), s.messages, C.Passes(c, est, old(A.ViewAll(s.messages)), summary), C.Keep(c))
  {
    C.SameLength(s.messages);
    if |s.messages| == 0 {
      return TurnRun(t, [], [], EmptySession);
    }
    TurnIsLoop(w, t, A.ViewAll(s.messages), maxIterations, s.id);
    var changed := C.CompressSession(c, est, s, summary);
    ghost var compressed := s.messages;
    r := A.RunLoop(w, t + 1, s, Budget(maxIterations), RoundsOf(w, s.id));
    KeptByPass(old(s.messages), compressed, s.messages, changed, C.Keep(c));
  }
}
