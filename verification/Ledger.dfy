/** The side-effect ledger: what ran since the sender last wrote, and whether it
    failed, rebuilt from the message list alone. */
module Ledger {
  import opened Canonical
  import opened Conversation
  import P = ToolPhase
  import L = TurnLoop

  datatype Entry = Entry(tool: string, detail: string, failed: bool)

  /** The short human form of a call's input. */
  type Summary = (string, Input) -> string

  type Blocks = seq<Content<Call>>

  predicate OnlyToolResults(m: Msg) {
    |m.content| > 0 && forall i :: 0 <= i < |m.content| ==> m.content[i].ResultBlock?
  }

  predicate SenderWrote(m: Msg) {
    m.role.User? && !OnlyToolResults(m)
  }

  function Flatten(ms: seq<Msg>): Blocks {
    if ms == [] then [] else Flatten(ms[..|ms| - 1]) + ms[|ms| - 1].content
  }

  predicate IsResult(c: Content<Call>) {
    c.ResultBlock? && c.result.Some?
  }

  // ---- the scan ----

  datatype State = State(out: seq<Entry>, index: map<string, nat>)

  function ScanOne(sum: Summary, s: State, c: Content<Call>): State {
    if HoldsUse(c) then
      var u := c.use.value;
      State(s.out + [Entry(u.name, sum(u.name, u.input), true)], s.index[u.id := |s.out|])
    else if IsResult(c) && c.result.value.toolUseId in s.index && s.index[c.result.value.toolUseId] < |s.out| then
      var i := s.index[c.result.value.toolUseId];
      s.(out := s.out[i := s.out[i].(failed := c.result.value.isError)])
    else s
  }

  function Scan(sum: Summary, cs: Blocks): State {
    if cs == [] then State([], map[]) else ScanOne(sum, Scan(sum, cs[..|cs| - 1]), cs[|cs| - 1])
  }

  // ---- what the ledger should say ----

  /** No call with id `x` strictly between two places. */
  ghost predicate NoCall(cs: Blocks, x: string, lo: int, hi: int) {
    forall q :: 0 <= q < |cs| && lo < q < hi && HoldsUse(cs[q]) ==> cs[q].use.value.id != x
  }

  /** The result at `k` answers the call at `p`: same id, later, and no call with
      that id in between. */
  ghost predicate Answers(cs: Blocks, p: int, k: int) {
    && 0 <= p < k < |cs| && HoldsUse(cs[p]) && IsResult(cs[k])
    && cs[k].result.value.toolUseId == cs[p].use.value.id
    && NoCall(cs, cs[p].use.value.id, p, k)
  }

  ghost predicate NoAnswerAfter(cs: Blocks, p: int, k: int) {
    forall l :: k < l ==> !Answers(cs, p, l)
  }

  /** The last answer to the call at `p` is a success. */
  ghost predicate Succeeded(cs: Blocks, p: int) {
    exists k :: Answers(cs, p, k) && !cs[k].result.value.isError && NoAnswerAfter(cs, p, k)
  }

  /** The entry of the call at `p` is numbered by the calls before it. */
  function Rank(cs: Blocks, p: nat): nat
    requires p <= |cs|
  {
    |UsesIn(cs[..p])|
  }

  ghost predicate ListsCalls(sum: Summary, cs: Blocks, out: seq<Entry>) {
    && |out| == |UsesIn(cs)|
    && forall j :: 0 <= j < |out| ==>
         && out[j].tool == UsesIn(cs)[j].name
         && out[j].detail == sum(UsesIn(cs)[j].name, UsesIn(cs)[j].input)
  }

  ghost predicate MarksFailures(cs: Blocks, out: seq<Entry>) {
    forall p :: 0 <= p < |cs| && HoldsUse(cs[p]) ==>
      Rank(cs, p) < |out| && out[Rank(cs, p)].failed == !Succeeded(cs, p)
  }

  // ---- the same verdict, block by block ----

  ghost predicate LastUse(cs: Blocks, x: string, p: int) {
    0 <= p < |cs| && HoldsUse(cs[p]) && cs[p].use.value.id == x && NoCall(cs, x, p, |cs|)
  }

  /** The last block answers the call at `p`. */
  ghost predicate LastAnswers(cs: Blocks, p: nat)
    requires p < |cs|
  {
    var front, last := cs[..|cs| - 1], cs[|cs| - 1];
    IsResult(last) && p < |front| && LastUse(front, last.result.value.toolUseId, p)
  }

  ghost predicate Fails(cs: Blocks, p: nat)
    requires p < |cs|
  {
    if p == |cs| - 1 then true
    else if LastAnswers(cs, p) then cs[|cs| - 1].result.value.isError
    else Fails(cs[..|cs| - 1], p)
  }

  lemma FrontAnswers(cs: Blocks, p: int, k: int)
    requires cs != [] && k < |cs| - 1
    ensures Answers(cs, p, k) == Answers(cs[..|cs| - 1], p, k)
  {
    var front := cs[..|cs| - 1];
    if 0 <= p < k {
      assert front[p] == cs[p] && front[k] == cs[k];
      if Answers(front, p, k) {
        forall q | 0 <= q < |cs| && p < q < k && HoldsUse(cs[q])
          ensures cs[q].use.value.id != cs[p].use.value.id
        {
          assert front[q] == cs[q];
        }
      }
    }
  }

  lemma LastAnswersIs(cs: Blocks, p: nat)
    requires p < |cs| - 1 && HoldsUse(cs[p])
    ensures LastAnswers(cs, p) == Answers(cs, p, |cs| - 1)
  {
    var front := cs[..|cs| - 1];
    var x := cs[p].use.value.id;
    assert front[p] == cs[p];
    assert NoCall(front, x, p, |front|) ==> NoCall(cs, x, p, |cs| - 1) by {
      if NoCall(front, x, p, |front|) {
        forall q | 0 <= q < |cs| && p < q < |cs| - 1 && HoldsUse(cs[q])
          ensures cs[q].use.value.id != x
        {
          assert front[q] == cs[q];
        }
      }
    }
  }

  lemma {:induction false} FailsIsNotSucceeded(cs: Blocks, p: nat)
    requires p < |cs| && HoldsUse(cs[p])
    ensures Fails(cs, p) == !Succeeded(cs, p)
  {
    if p < |cs| - 1 {
      var front, end := cs[..|cs| - 1], |cs| - 1;
      assert front[p] == cs[p];
      FailsIsNotSucceeded(front, p);
      LastAnswersIs(cs, p);
      if LastAnswers(cs, p) {
        assert NoAnswerAfter(cs, p, end);
        if Succeeded(cs, p) {
          var k :| Answers(cs, p, k) && !cs[k].result.value.isError && NoAnswerAfter(cs, p, k);
          assert k == end;
        }
      } else {
        forall k
          ensures Answers(cs, p, k) == Answers(front, p, k)
        {
          if k < end {
            FrontAnswers(cs, p, k);
          }
        }
        assert forall k :: NoAnswerAfter(cs, p, k) == NoAnswerAfter(front, p, k);
      }
    }
  }

  // ---- the scan meets the block-by-block verdict ----

  ghost predicate Verdicts(cs: Blocks, out: seq<Entry>) {
    forall p :: 0 <= p < |cs| && HoldsUse(cs[p]) ==> Rank(cs, p) < |out| && out[Rank(cs, p)].failed == Fails(cs, p)
  }

  /** The index maps an id to the last call that has it. */
  ghost predicate Indexes(cs: Blocks, index: map<string, nat>) {
    && (forall p :: 0 <= p < |cs| && HoldsUse(cs[p]) ==> cs[p].use.value.id in index)
    && (forall x :: x in index ==> Indexed(cs, x, index[x]))
  }

  ghost predicate Indexed(cs: Blocks, x: string, i: nat) {
    exists p :: LastUse(cs, x, p) && i == Rank(cs, p)
  }

  ghost predicate ScanOk(sum: Summary, cs: Blocks, s: State) {
    ListsCalls(sum, cs, s.out) && Verdicts(cs, s.out) && Indexes(cs, s.index)
  }

  lemma RankSnoc(cs: Blocks, c: Content<Call>, p: nat)
    requires p <= |cs|
    ensures Rank(cs + [c], p) == Rank(cs, p)
  {
    assert (cs + [c])[..p] == cs[..p];
  }

  lemma {:induction false} RankAtMost(cs: Blocks, q: nat)
    requires q <= |cs|
    ensures Rank(cs, q) <= |UsesIn(cs)|
    decreases |cs| - q
  {
    if q == |cs| {
      assert cs[..q] == cs;
    } else {
      RankAtMost(cs, q + 1);
      assert cs[..q + 1][..q] == cs[..q];
    }
  }

  /** A call's rank is below that of every later place. */
  lemma {:induction false} RankBelow(cs: Blocks, p: nat, q: nat)
    requires p < q <= |cs| && HoldsUse(cs[p])
    ensures Rank(cs, p) < Rank(cs, q)
    decreases q
  {
    assert cs[..q][..q - 1] == cs[..q - 1] && cs[..q][q - 1] == cs[q - 1];
    if q > p + 1 {
      RankBelow(cs, p, q - 1);
    }
  }

  lemma LastUseSnoc(cs: Blocks, c: Content<Call>, x: string, p: int)
    requires LastUse(cs, x, p) && !(HoldsUse(c) && c.use.value.id == x)
    ensures LastUse(cs + [c], x, p)
  {
  }

  lemma FailsSnoc(cs: Blocks, c: Content<Call>, p: nat)
    requires p < |cs|
    ensures Fails(cs + [c], p)
         == if IsResult(c) && LastUse(cs, c.result.value.toolUseId, p) then c.result.value.isError else Fails(cs, p)
  {
    assert (cs + [c])[..|cs|] == cs;
  }

  lemma IndexesSnoc(cs: Blocks, index: map<string, nat>, c: Content<Call>)
    requires Indexes(cs, index)
    ensures Indexes(cs + [c], if HoldsUse(c) then index[c.use.value.id := |UsesIn(cs)|] else index)
  {
    var all := cs + [c];
    var next := if HoldsUse(c) then index[c.use.value.id := |UsesIn(cs)|] else index;
    assert all[..|cs|] == cs;
    forall x | x in next
      ensures Indexed(all, x, next[x])
    {
      if HoldsUse(c) && x == c.use.value.id {
        assert LastUse(all, x, |cs|);
      } else {
        assert Indexed(cs, x, index[x]);
        var p :| LastUse(cs, x, p) && index[x] == Rank(cs, p);
        RankSnoc(cs, c, p);
        LastUseSnoc(cs, c, x, p);
      }
    }
    forall p | 0 <= p < |all| && HoldsUse(all[p])
      ensures all[p].use.value.id in next
    {
      if p < |cs| {
        assert HoldsUse(cs[p]);
      }
    }
  }

  lemma ListsUse(sum: Summary, cs: Blocks, s: State, c: Content<Call>)
    requires ListsCalls(sum, cs, s.out) && HoldsUse(c)
    ensures ListsCalls(sum, cs + [c], ScanOne(sum, s, c).out)
  {
    UsesInSnoc(cs, c);
  }

  lemma VerdictsUse(sum: Summary, cs: Blocks, s: State, c: Content<Call>)
    requires |s.out| == |UsesIn(cs)| && Verdicts(cs, s.out) && HoldsUse(c)
    ensures Verdicts(cs + [c], ScanOne(sum, s, c).out)
  {
    var all, out := cs + [c], ScanOne(sum, s, c).out;
    forall p | 0 <= p < |all| && HoldsUse(all[p])
      ensures Rank(all, p) < |out| && out[Rank(all, p)].failed == Fails(all, p)
    {
      RankSnoc(cs, c, p);
      if p < |cs| {
        assert HoldsUse(cs[p]);
        FailsSnoc(cs, c, p);
      } else {
        assert cs[..p] == cs;
      }
    }
  }

  lemma ScanUse(sum: Summary, cs: Blocks, s: State, c: Content<Call>)
    requires ScanOk(sum, cs, s) && HoldsUse(c)
    ensures ScanOk(sum, cs + [c], ScanOne(sum, s, c))
  {
    ListsUse(sum, cs, s, c);
    VerdictsUse(sum, cs, s, c);
    IndexesSnoc(cs, s.index, c);
  }

  /** Which entry a result changes: that of the last call with its id. */
  lemma ResultHitsOwner(cs: Blocks, index: map<string, nat>, x: string, p: nat)
    requires Indexes(cs, index) && p < |cs| && HoldsUse(cs[p])
    ensures x in index && index[x] == Rank(cs, p) <==> LastUse(cs, x, p)
    ensures x in index ==> index[x] < |UsesIn(cs)|
  {
    if x in index {
      assert Indexed(cs, x, index[x]);
      var owner: nat :| LastUse(cs, x, owner) && index[x] == Rank(cs, owner);
      RankBelow(cs, owner, |cs|);
      assert cs[..|cs|] == cs;
      RankInjective(cs, p, owner);
    }
  }

  lemma RankInjective(cs: Blocks, p: nat, q: nat)
    requires p < |cs| && q < |cs| && HoldsUse(cs[p]) && HoldsUse(cs[q])
    ensures Rank(cs, p) == Rank(cs, q) <==> p == q
  {
    if p < q {
      RankBelow(cs, p, q);
    } else if q < p {
      RankBelow(cs, q, p);
    }
  }

  lemma VerdictsOther(sum: Summary, cs: Blocks, s: State, c: Content<Call>)
    requires |s.out| == |UsesIn(cs)| && Verdicts(cs, s.out) && Indexes(cs, s.index) && !HoldsUse(c)
    ensures Verdicts(cs + [c], ScanOne(sum, s, c).out)
  {
    var all, out := cs + [c], ScanOne(sum, s, c).out;
    forall p | 0 <= p < |all| && HoldsUse(all[p])
      ensures Rank(all, p) < |out| && out[Rank(all, p)].failed == Fails(all, p)
    {
      assert p < |cs| && HoldsUse(cs[p]);
      RankSnoc(cs, c, p);
      FailsSnoc(cs, c, p);
      if IsResult(c) {
        ResultHitsOwner(cs, s.index, c.result.value.toolUseId, p);
      }
    }
  }

  lemma ListsOther(sum: Summary, cs: Blocks, s: State, c: Content<Call>)
    requires ListsCalls(sum, cs, s.out) && !HoldsUse(c)
    ensures ListsCalls(sum, cs + [c], ScanOne(sum, s, c).out)
  {
    UsesInSnoc(cs, c);
  }

  lemma ScanOther(sum: Summary, cs: Blocks, s: State, c: Content<Call>)
    requires ScanOk(sum, cs, s) && !HoldsUse(c)
    ensures ScanOk(sum, cs + [c], ScanOne(sum, s, c))
  {
    ListsOther(sum, cs, s, c);
    VerdictsOther(sum, cs, s, c);
    IndexesSnoc(cs, s.index, c);
  }

  lemma {:induction false} ScanMeetsVerdicts(sum: Summary, cs: Blocks)
    ensures ScanOk(sum, cs, Scan(sum, cs))
  {
    if cs != [] {
      var front, last := cs[..|cs| - 1], cs[|cs| - 1];
      ScanMeetsVerdicts(sum, front);
      assert cs == front + [last];
      if HoldsUse(last) {
        ScanUse(sum, front, Scan(sum, front), last);
      } else {
        ScanOther(sum, front, Scan(sum, front), last);
      }
    }
  }

  /** For any blocks, even with repeated ids: the scan lists exactly the calls, in
      order, and marks a call not failed exactly when its last answer succeeded. */
  lemma ScanExact(sum: Summary, cs: Blocks)
    ensures ListsCalls(sum, cs, Scan(sum, cs).out) && MarksFailures(cs, Scan(sum, cs).out)
  {
    ScanMeetsVerdicts(sum, cs);
    forall p | 0 <= p < |cs| && HoldsUse(cs[p])
      ensures Fails(cs, p) == !Succeeded(cs, p)
    {
      FailsIsNotSucceeded(cs, p);
    }
  }

  // ---- the latest turn of a session ----

  function LastSender(ms: seq<Msg>): (i: int)
    ensures -1 <= i < |ms|
    ensures i >= 0 ==> SenderWrote(ms[i])
    ensures forall j :: i < j < |ms| ==> !SenderWrote(ms[j])
  {
    if ms == [] then -1
    else if SenderWrote(ms[|ms| - 1]) then |ms| - 1
    else LastSender(ms[..|ms| - 1])
  }

  function LatestTurn(ms: seq<Msg>): seq<Msg> {
    ms[LastSender(ms) + 1..]
  }

  /** No two calls share an id. */
  ghost predicate DistinctIds(cs: Blocks) {
    forall p, q :: 0 <= p < q < |cs| && HoldsUse(cs[p]) && HoldsUse(cs[q]) ==> cs[p].use.value.id != cs[q].use.value.id
  }

  ghost predicate Matches(cs: Blocks, p: int, k: int) {
    && 0 <= p < k < |cs| && HoldsUse(cs[p]) && IsResult(cs[k])
    && cs[k].result.value.toolUseId == cs[p].use.value.id
  }

  /** The last matching later result is a success. */
  ghost predicate LastMatchSucceeds(cs: Blocks, p: int) {
    exists k :: Matches(cs, p, k) && !cs[k].result.value.isError && forall l :: k < l ==> !Matches(cs, p, l)
  }

  lemma DistinctMatches(cs: Blocks, p: int)
    requires DistinctIds(cs) && 0 <= p < |cs| && HoldsUse(cs[p])
    ensures Succeeded(cs, p) == LastMatchSucceeds(cs, p)
  {
    forall k
      ensures Answers(cs, p, k) == Matches(cs, p, k)
    {
    }
    if Succeeded(cs, p) {
      var k :| Answers(cs, p, k) && !cs[k].result.value.isError && NoAnswerAfter(cs, p, k);
      assert Matches(cs, p, k);
    }
    if LastMatchSucceeds(cs, p) {
      var k :| Matches(cs, p, k) && !cs[k].result.value.isError && forall l :: k < l ==> !Matches(cs, p, l);
      assert Answers(cs, p, k) && NoAnswerAfter(cs, p, k);
    }
  }

  function LedgerOf(sum: Summary, ms: seq<Msg>): seq<Entry> {
    Scan(sum, Flatten(LatestTurn(ms))).out
  }

  /** With distinct ids: exactly the calls since the sender last wrote, in order,
      each marked not failed exactly when its last matching later result is a
      success. */
  lemma LedgerExact(sum: Summary, ms: seq<Msg>)
    requires DistinctIds(Flatten(LatestTurn(ms)))
    ensures var cs, out := Flatten(LatestTurn(ms)), LedgerOf(sum, ms);
      && ListsCalls(sum, cs, out)
      && forall p :: 0 <= p < |cs| && HoldsUse(cs[p]) ==>
           Rank(cs, p) < |out| && out[Rank(cs, p)].failed == !LastMatchSucceeds(cs, p)
  {
    var cs, out := Flatten(LatestTurn(ms)), LedgerOf(sum, ms);
    ScanExact(sum, cs);
    forall p | 0 <= p < |cs| && HoldsUse(cs[p])
      ensures Rank(cs, p) < |out| && out[Rank(cs, p)].failed == !LastMatchSucceeds(cs, p)
    {
      DistinctMatches(cs, p);
    }
  }

  // ---- after a checkpoint nothing is open ----

  lemma FlattenSnoc(ms: seq<Msg>, m: Msg)
    ensures Flatten(ms + [m]) == Flatten(ms) + m.content
  {
    assert (ms + [m])[..|ms|] == ms;
  }

  /** Block `j` of message `i` is the block at `p` of the flattened list. */
  ghost predicate LiesAt(ms: seq<Msg>, p: int, i: int, j: int) {
    && 0 <= i < |ms| && 0 <= j < |ms[i].content|
    && p == |Flatten(ms[..i])| + j && p < |Flatten(ms)|
    && Flatten(ms)[p] == ms[i].content[j]
  }

  lemma {:induction false} BlockLiesAt(ms: seq<Msg>, i: nat, j: nat)
    requires i < |ms| && j < |ms[i].content|
    ensures LiesAt(ms, |Flatten(ms[..i])| + j, i, j)
    decreases |ms|
  {
    var front := ms[..|ms| - 1];
    if i < |front| {
      BlockLiesAt(front, i, j);
      assert front[..i] == ms[..i];
    }
  }

  lemma {:induction false} Locate(ms: seq<Msg>, p: nat) returns (i: nat, j: nat)
    requires p < |Flatten(ms)|
    ensures LiesAt(ms, p, i, j)
  {
    var front := ms[..|ms| - 1];
    if p < |Flatten(front)| {
      i, j := Locate(front, p);
      assert front[..i] == ms[..i];
    } else {
      i, j := |ms| - 1, p - |Flatten(front)|;
    }
  }

  lemma FlattenUpTo(ms: seq<Msg>, i: nat)
    requires i < |ms|
    ensures Flatten(ms[..i + 1]) == Flatten(ms[..i]) + ms[i].content
  {
    FlattenSnoc(ms[..i], ms[i]);
    assert ms[..i] + [ms[i]] == ms[..i + 1];
  }

  lemma {:induction false} UseIsListed(content: Blocks, j: nat) returns (u: nat)
    requires j < |content| && HoldsUse(content[j])
    ensures u < |UsesIn(content)| && UsesIn(content)[u] == content[j].use.value
  {
    var front := content[..|content| - 1];
    if j < |front| {
      u := UseIsListed(front, j);
    } else {
      u := |UsesIn(front)|;
    }
  }

  ghost predicate HasMatch(cs: Blocks, p: int) {
    exists k :: Matches(cs, p, k)
  }

  /** In a well-formed session every call of the latest turn has a later result
      with its id. */
  lemma PairedHasResults(ms: seq<Msg>, p: nat)
    requires Paired(ms)
    requires p < |Flatten(LatestTurn(ms))| && HoldsUse(Flatten(LatestTurn(ms))[p])
    ensures HasMatch(Flatten(LatestTurn(ms)), p)
  {
    var turn, from := LatestTurn(ms), LastSender(ms) + 1;
    var i, j := Locate(turn, p);
    var u := UseIsListed(turn[i].content, j);
    assert PairedAt(ms, from + i) && turn[i] == ms[from + i];
    assert i + 1 < |turn| && AnswersCalls(turn[i + 1], Uses(turn[i]));
    BlockLiesAt(turn, i + 1, u);
    FlattenUpTo(turn, i);
    assert Matches(Flatten(turn), p, |Flatten(turn[..i + 1])| + u);
  }

  /** Every call the ledger of `ms` lists has a result. */
  ghost predicate AllHaveResults(ms: seq<Msg>) {
    var cs := Flatten(LatestTurn(ms));
    forall p :: 0 <= p < |cs| && HoldsUse(cs[p]) ==> HasMatch(cs, p)
  }

  ghost predicate SavedWithResults(events: seq<P.Event>) {
    forall k :: 0 <= k < |events| && events[k].Checkpointed? ==> AllHaveResults(events[k].messages)
  }

  /** At every checkpoint of a turn, every call the ledger lists has a result. */
  lemma {:induction false} CheckpointsHaveResults(w: P.World, t: nat, ms: seq<Msg>, maxIterations: int, sid: string)
    requires Paired(ms) && L.NoStrayResults(w) && Paired(w.compress(t, ms))
    ensures SavedWithResults(L.Turn(w, t, ms, maxIterations, sid).events)
  {
    var events := L.Turn(w, t, ms, maxIterations, sid).events;
    L.TurnPaired(w, t, ms, maxIterations, sid);
    forall k, p | 0 <= k < |events| && events[k].Checkpointed?
                  && 0 <= p < |Flatten(LatestTurn(events[k].messages))| && HoldsUse(Flatten(LatestTurn(events[k].messages))[p])
      ensures HasMatch(Flatten(LatestTurn(events[k].messages)), p)
    {
      PairedHasResults(events[k].messages, p);
    }
  }

  // ---- the loops ----

  method OnlyToolResultsLoop(m: Msg) returns (only: bool)
    ensures only == OnlyToolResults(m)
  {
    for i := 0 to |m.content|
      invariant forall j :: 0 <= j < i ==> m.content[j].ResultBlock?
    {
      if !m.content[i].ResultBlock? {
        return false;
      }
    }
    return |m.content| > 0;
  }

  method LastSenderMessage(ms: seq<Msg>) returns (i: int)
    ensures i == LastSender(ms)
  {
    i := |ms| - 1;
    assert ms[..|ms|] == ms;
    while i >= 0
      invariant -1 <= i < |ms|
      invariant LastSender(ms) == LastSender(ms[..i + 1])
    {
      var only := OnlyToolResultsLoop(ms[i]);
      assert ms[..i + 1][..i] == ms[..i];
      if ms[i].role.User? && !only {
        return;
      }
      i := i - 1;
    }
  }

  lemma ScanSnoc(sum: Summary, cs: Blocks, c: Content<Call>)
    ensures Scan(sum, cs + [c]) == ScanOne(sum, Scan(sum, cs), c)
  {
    assert (cs + [c])[..|cs|] == cs;
  }

  lemma ScanIndexed(sum: Summary, cs: Blocks, x: string)
    requires x in Scan(sum, cs).index
    ensures Scan(sum, cs).index[x] < |Scan(sum, cs).out|
  {
    ScanMeetsVerdicts(sum, cs);
    var s := Scan(sum, cs);
    assert Indexed(cs, x, s.index[x]);
    var p: nat :| LastUse(cs, x, p) && s.index[x] == Rank(cs, p);
    assert Verdicts(cs, s.out);
  }

  /** One message's blocks, onto what the earlier ones left. */
  method ScanMessage(sum: Summary, ghost before: Blocks, m: Msg, out0: seq<Entry>, index0: map<string, nat>)
      returns (out: seq<Entry>, index: map<string, nat>)
    requires State(out0, index0) == Scan(sum, before)
    ensures State(out, index) == Scan(sum, before + m.content)
  {
    out, index := out0, index0;
    assert before + m.content[..0] == before;
    for j := 0 to |m.content|
      invariant State(out, index) == Scan(sum, before + m.content[..j])
    {
      var c := m.content[j];
      ghost var so := before + m.content[..j];
      assert before + m.content[..j + 1] == so + [c];
      ScanSnoc(sum, so, c);
      if c.UseBlock? && c.use.Some? {
        var u := c.use.value;
        index := index[u.id := |out|];
        out := out + [Entry(u.name, sum(u.name, u.input), true)];
      } else if c.ResultBlock? && c.result.Some? {
        var id := c.result.value.toolUseId;
        if id in index {
          ScanIndexed(sum, so, id);
          out := out[index[id] := out[index[id]].(failed := c.result.value.isError)];
        }
      }
    }
    assert m.content[..|m.content|] == m.content;
  }

  /** The messages of the turn, one after another. */
  method ScanTurn(sum: Summary, turn: seq<Msg>) returns (out: seq<Entry>)
    ensures out == Scan(sum, Flatten(turn)).out
  {
    var index: map<string, nat> := map[];
    ghost var so: Blocks := [];
    out := [];
    for i := 0 to |turn|
      invariant so == Flatten(turn[..i])
      invariant State(out, index) == Scan(sum, so)
    {
      FlattenUpTo(turn, i);
      out, index := ScanMessage(sum, so, turn[i], out, index);
      so := so + turn[i].content;
    }
    assert turn[..|turn|] == turn;
  }

  /** TurnLedger as it runs. */
  method TurnLedger(sum: Summary, ms: seq<Msg>) returns (out: seq<Entry>)
    ensures out == LedgerOf(sum, ms)
  {
    var from := LastSenderMessage(ms);
    out := ScanTurn(sum, ms[from + 1..]);
  }
}
