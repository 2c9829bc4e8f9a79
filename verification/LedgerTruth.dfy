/** The ledger against the turn it describes: what it lists and what ran. */
module LedgerTruth {
  import opened Base
  import opened Json
  import opened Folding
  import opened Canonical
  import opened Conversation
  import opened ToolPhase
  import opened TurnLoop
  import opened Ledger

  /** The calls since the sender last wrote. */
  function Calls(ms: seq<Msg>): seq<Call> {
    UsesIn(Flatten(LatestTurn(ms)))
  }

  predicate Steers(e: Event) {
    e.Drained? && e.texts != []
  }

  predicate Quiet(events: seq<Event>) {
    forall i :: 0 <= i < |events| ==> !Steers(events[i])
  }

  /** The events since text was last steered in. */
  function Since(events: seq<Event>): seq<Event> {
    if events == [] then []
    else if Steers(events[|events| - 1]) then []
    else Since(events[..|events| - 1]) + [events[|events| - 1]]
  }

  /** No two calls share an id. */
  predicate Distinct(calls: seq<Call>) {
    forall i, j :: 0 <= i < j < |calls| ==> calls[i].id != calls[j].id
  }

  /** No call is marked a success unless it ran and its tool reported no error;
      with distinct ids every such call is. */
  predicate MarkedAs(calls: seq<Call>, out: seq<Entry>, outcomes: seq<Outcome>)
    requires |calls| == |out| == |outcomes|
  {
    && (forall j :: 0 <= j < |out| ==> !out[j].failed ==> outcomes[j] == Some(false))
    && (Distinct(calls) ==> forall j :: 0 <= j < |out| ==> out[j].failed == (outcomes[j] != Some(false)))
  }

  ghost predicate TruthfulBy(sum: Summary, ms: seq<Msg>, events: seq<Event>, outcomes: seq<Outcome>) {
    var out := LedgerOf(sum, ms);
    && |out| == |Calls(ms)| == |outcomes|
    && (forall j :: 0 <= j < |out| ==>
          out[j].tool == Calls(ms)[j].name && out[j].detail == sum(Calls(ms)[j].name, Calls(ms)[j].input))
    && RanCalls(Calls(ms), outcomes) == Executions(Since(events))
    && MarkedAs(Calls(ms), out, outcomes)
  }

  /** The ledger lists, in order, every call that ran since the sender last
      wrote, and marks a call not failed only if it ran and its tool reported no
      error; with distinct ids, exactly then. */
  ghost predicate Truthful(sum: Summary, ms: seq<Msg>, events: seq<Event>) {
    exists outcomes :: TruthfulBy(sum, ms, events, outcomes)
  }

  /** A model answers as the assistant and brings no tool results of its own. */
  ghost predicate Assists(w: World) {
    && NoStrayResults(w)
    && forall t, ms :: w.complete(t, ms).Some? ==> !w.complete(t, ms).value.message.role.User?
  }

  // ---- the latest turn as messages are appended ----

  lemma AfterSender(ms: seq<Msg>, m: Msg)
    requires SenderWrote(m)
    ensures LatestTurn(ms + [m]) == []
  {
  }

  lemma AfterOther(ms: seq<Msg>, m: Msg)
    requires !SenderWrote(m)
    ensures LatestTurn(ms + [m]) == LatestTurn(ms) + [m]
    ensures Flatten(LatestTurn(ms + [m])) == Flatten(LatestTurn(ms)) + m.content
  {
    assert (ms + [m])[..|ms|] == ms;
    FlattenSnoc(LatestTurn(ms), m);
  }

  lemma {:induction false} UsesInConcat(a: Blocks, b: Blocks)
    ensures UsesIn(a + b) == UsesIn(a) + UsesIn(b)
  {
    if b == [] {
      assert a + b == a;
    } else {
      var front, last := b[..|b| - 1], b[|b| - 1];
      UsesInConcat(a, front);
      UsesInSnoc(a + front, last);
      assert a + b == a + front + [last];
    }
  }

  lemma {:induction false} SinceQuiet(a: seq<Event>, b: seq<Event>)
    requires Quiet(b)
    ensures Since(a + b) == Since(a) + b
  {
    if b == [] {
      assert a + b == a;
    } else {
      var front, last := b[..|b| - 1], b[|b| - 1];
      assert b == front + [last];
      SinceQuiet(a, front);
      assert (a + b)[..|a + b| - 1] == a + front;
      assert Since(a) + front + [last] == Since(a) + b;
    }
  }

  lemma SinceSteered(a: seq<Event>, e: Event)
    requires Steers(e)
    ensures Since(a + [e]) == []
  {
  }

  lemma {:induction false} RanCallsConcat(a: seq<Call>, x: seq<Outcome>, b: seq<Call>, y: seq<Outcome>)
    requires |a| == |x| && |b| == |y|
    ensures RanCalls(a + b, x + y) == RanCalls(a, x) + RanCalls(b, y)
  {
    if a == [] {
      assert a + b == b && x + y == y;
    } else {
      RanCallsConcat(a[1..], x[1..], b, y);
      assert a + b == [a[0]] + (a[1..] + b) && x + y == [x[0]] + (x[1..] + y);
      RanCallsCons(a[0], x[0], a[1..] + b, x[1..] + y);
      RanCallsCons(a[0], x[0], a[1..], x[1..]);
      assert [a[0]] + a[1..] == a && [x[0]] + x[1..] == x;
    }
  }

  // ---- the scan over one exchange ----

  function ScanFrom(sum: Summary, s: State, cs: Blocks): State {
    if cs == [] then s else ScanOne(sum, ScanFrom(sum, s, cs[..|cs| - 1]), cs[|cs| - 1])
  }

  lemma {:induction false} ScanConcat(sum: Summary, a: Blocks, b: Blocks)
    ensures Scan(sum, a + b) == ScanFrom(sum, Scan(sum, a), b)
  {
    if b == [] {
      assert a + b == a;
    } else {
      var front, last := b[..|b| - 1], b[|b| - 1];
      ScanConcat(sum, a, front);
      ScanSnoc(sum, a + front, last);
      assert a + b == a + front + [last];
    }
  }

  /** `s` has the entries of `before`, then a failed one per call; every id maps
      to the last of these calls that has it. */
  ghost predicate Opened(sum: Summary, before: seq<Entry>, calls: seq<Call>, s: State) {
    && |s.out| == |before| + |calls|
    && (forall j :: 0 <= j < |before| ==> s.out[j] == before[j])
    && (forall v :: 0 <= v < |calls| ==> s.out[|before| + v] == Entry(calls[v].name, sum(calls[v].name, calls[v].input), true))
    && forall v :: 0 <= v < |calls| ==> Owned(calls, s.index, |before|, v)
  }

  predicate Owned(calls: seq<Call>, index: map<string, nat>, base: nat, v: nat)
    requires v < |calls|
  {
    && calls[v].id in index
    && v <= index[calls[v].id] - base < |calls|
    && calls[index[calls[v].id] - base].id == calls[v].id
  }

  lemma {:induction false} ScanOpens(sum: Summary, s: State, content: Blocks)
    requires forall i :: 0 <= i < |content| ==> !content[i].ResultBlock?
    ensures Opened(sum, s.out, UsesIn(content), ScanFrom(sum, s, content))
  {
    if content != [] {
      var front, last := content[..|content| - 1], content[|content| - 1];
      ScanOpens(sum, s, front);
      var mid, calls := ScanFrom(sum, s, front), UsesIn(front);
      if HoldsUse(last) {
        assert last == UseBlock(Some(last.use.value));
        OpenOne(sum, s.out, calls, mid, last.use.value);
      } else {
        assert UsesIn(content) == calls;
      }
    }
  }

  lemma OpenOne(sum: Summary, before: seq<Entry>, calls: seq<Call>, s: State, u: Call)
    requires Opened(sum, before, calls, s)
    ensures Opened(sum, before, calls + [u], ScanOne(sum, s, UseBlock(Some(u))))
  {
    var n, all := ScanOne(sum, s, UseBlock(Some(u))), calls + [u];
    forall v | 0 <= v < |all|
      ensures Owned(all, n.index, |before|, v)
    {
      if v < |calls| {
        assert Owned(calls, s.index, |before|, v);
      }
    }
  }

  /** After the first `i` results: earlier entries are as before, none of the
      first `i` is marked not failed unless its own result is a success, and a
      call that another one with its id follows stays failed. */
  ghost predicate Closed(before: seq<Entry>, calls: seq<Call>, results: seq<ToolResult>, mid: State, i: nat, s: State)
    requires i <= |results| == |calls|
  {
    && s.index == mid.index && |s.out| == |mid.out| == |before| + |calls|
    && (forall j :: 0 <= j < |s.out| ==> s.out[j].tool == mid.out[j].tool && s.out[j].detail == mid.out[j].detail)
    && (forall j :: 0 <= j < |before| ==> s.out[j] == before[j])
    && (forall v :: 0 <= v < i ==> !s.out[|before| + v].failed ==> !results[v].isError)
    && forall v :: 0 <= v < |calls| && calls[v].id in s.index && s.index[calls[v].id] != |before| + v ==> s.out[|before| + v].failed
  }

  /** With distinct ids each of the first `i` is marked as its own result says. */
  predicate Exact(base: nat, calls: seq<Call>, results: seq<ToolResult>, i: nat, out: seq<Entry>)
    requires i <= |results| == |calls| && |out| == base + |calls|
  {
    Distinct(calls) ==> forall v :: 0 <= v < i ==> out[base + v].failed == results[v].isError
  }

  lemma {:induction false} ScanCloses(sum: Summary, before: seq<Entry>, calls: seq<Call>, results: seq<ToolResult>, mid: State, i: nat)
    requires Opened(sum, before, calls, mid)
    requires i <= |results| == |calls| && forall v :: 0 <= v < |calls| ==> results[v].toolUseId == calls[v].id
    ensures var s := ScanFrom(sum, mid, ResultMessage(results[..i]).content);
      Closed(before, calls, results, mid, i, s) && Exact(|before|, calls, results, i, s.out)
  {
    if i > 0 {
      ScanCloses(sum, before, calls, results, mid, i - 1);
      var front := ResultMessage(results[..i - 1]).content;
      OneMoreResult(results, i - 1);
      ScanFromSnoc(sum, mid, front, ResultBlock(Some(results[i - 1])));
      CloseOne(sum, before, calls, results, mid, i - 1, ScanFrom(sum, mid, front));
      CloseOneExact(sum, before, calls, results, mid, i - 1, ScanFrom(sum, mid, front));
    }
  }

  lemma OneMoreResult(results: seq<ToolResult>, i: nat)
    requires i < |results|
    ensures ResultMessage(results[..i + 1]).content == ResultMessage(results[..i]).content + [ResultBlock(Some(results[i]))]
  {
  }

  lemma ScanFromSnoc(sum: Summary, s: State, cs: Blocks, c: Content<Call>)
    ensures ScanFrom(sum, s, cs + [c]) == ScanOne(sum, ScanFrom(sum, s, cs), c)
  {
    assert (cs + [c])[..|cs|] == cs;
  }

  lemma CloseOne(sum: Summary, before: seq<Entry>, calls: seq<Call>, results: seq<ToolResult>, mid: State, i: nat, s: State)
    requires Opened(sum, before, calls, mid)
    requires i < |results| == |calls| && results[i].toolUseId == calls[i].id
    requires Closed(before, calls, results, mid, i, s)
    ensures Closed(before, calls, results, mid, i + 1, ScanOne(sum, s, ResultBlock(Some(results[i]))))
  {
    assert Owned(calls, mid.index, |before|, i);
  }

  lemma CloseOneExact(sum: Summary, before: seq<Entry>, calls: seq<Call>, results: seq<ToolResult>, mid: State, i: nat, s: State)
    requires Opened(sum, before, calls, mid)
    requires i < |results| == |calls| && results[i].toolUseId == calls[i].id
    requires Closed(before, calls, results, mid, i, s) && Exact(|before|, calls, results, i, s.out)
    ensures Exact(|before|, calls, results, i + 1, ScanOne(sum, s, ResultBlock(Some(results[i]))).out)
  {
    assert Owned(calls, mid.index, |before|, i);
    if Distinct(calls) {
      assert s.index[calls[i].id] == |before| + i;
    }
  }

  /** The results of a phase against its outcomes. */
  predicate Results(calls: seq<Call>, results: seq<ToolResult>, outcomes: seq<Outcome>) {
    && |results| == |outcomes| == |calls|
    && forall v :: 0 <= v < |results| ==>
         results[v].toolUseId == calls[v].id && (results[v].isError <==> outcomes[v] != Some(false))
  }

  /** `longer` adds to `out` one entry per call, marked as it came out. */
  predicate Adds(calls: seq<Call>, out: seq<Entry>, longer: seq<Entry>, outcomes: seq<Outcome>) {
    && |longer| == |out| + |calls| && |outcomes| == |calls|
    && longer[..|out|] == out
    && MarkedAs(calls, longer[|out|..], outcomes)
  }

  /** One exchange: a message with calls and the results of its phase. */
  lemma ExchangeScanned(sum: Summary, before: Blocks, content: Blocks, results: seq<ToolResult>, outcomes: seq<Outcome>)
    requires forall i :: 0 <= i < |content| ==> !content[i].ResultBlock?
    requires Results(UsesIn(content), results, outcomes)
    ensures Adds(UsesIn(content), Scan(sum, before).out,
                 Scan(sum, before + content + ResultMessage(results).content).out, outcomes)
  {
    var start, mid, calls := Scan(sum, before), Scan(sum, before + content), UsesIn(content);
    ScanConcat(sum, before, content);
    ScanOpens(sum, start, content);
    ScanConcat(sum, before + content, ResultMessage(results).content);
    assert results[..|results|] == results;
    ScanCloses(sum, start.out, calls, results, mid, |results|);
    ClosedAdds(start.out, calls, results, outcomes, mid, Scan(sum, before + content + ResultMessage(results).content));
  }

  lemma ClosedAdds(before: seq<Entry>, calls: seq<Call>, results: seq<ToolResult>, outcomes: seq<Outcome>, mid: State, s: State)
    requires Results(calls, results, outcomes) && Closed(before, calls, results, mid, |results|, s)
    requires Exact(|before|, calls, results, |results|, s.out)
    ensures Adds(calls, before, s.out, outcomes)
  {
    var added := s.out[|before|..];
    assert forall v :: 0 <= v < |added| ==> added[v] == s.out[|before| + v];
    assert s.out[..|before|] == before;
  }

  // ---- over the rounds of a turn ----

  /** Truth, less the part every scan has. */
  predicate Marks(calls: seq<Call>, out: seq<Entry>, acts: seq<Execution>, outcomes: seq<Outcome>) {
    && |out| == |calls| == |outcomes|
    && RanCalls(calls, outcomes) == acts
    && MarkedAs(calls, out, outcomes)
  }

  ghost predicate Marked(sum: Summary, ms: seq<Msg>, events: seq<Event>) {
    exists outcomes :: Marks(Calls(ms), LedgerOf(sum, ms), Executions(Since(events)), outcomes)
  }

  lemma MarkedAsConcat(calls: seq<Call>, out: seq<Entry>, x: seq<Outcome>, more: seq<Call>, added: seq<Entry>, y: seq<Outcome>)
    requires |calls| == |out| == |x| && |more| == |added| == |y|
    requires MarkedAs(calls, out, x) && MarkedAs(more, added, y)
    ensures MarkedAs(calls + more, out + added, x + y)
  {
    var all := calls + more;
    if Distinct(all) {
      assert Distinct(calls) by {
        forall i, j | 0 <= i < j < |calls|
          ensures calls[i].id != calls[j].id
        {
          assert all[i] == calls[i] && all[j] == calls[j];
        }
      }
      assert Distinct(more) by {
        forall i, j | 0 <= i < j < |more|
          ensures more[i].id != more[j].id
        {
          assert all[|calls| + i] == more[i] && all[|calls| + j] == more[j];
        }
      }
    }
  }

  lemma MarksGrow(calls: seq<Call>, out: seq<Entry>, acts: seq<Execution>, x: seq<Outcome>,
                  more: seq<Call>, longer: seq<Entry>, y: seq<Outcome>)
    requires Marks(calls, out, acts, x) && Adds(more, out, longer, y)
    ensures Marks(calls + more, longer, acts + RanCalls(more, y), x + y)
  {
    RanCallsConcat(calls, x, more, y);
    MarkedAsConcat(calls, out, x, more, longer[|out|..], y);
    assert longer == out + longer[|out|..];
  }

  lemma MarkedGrows(sum: Summary, ms: seq<Msg>, events: seq<Event>, ns: seq<Msg>, later: seq<Event>, more: seq<Call>, y: seq<Outcome>)
    requires Marked(sum, ms, events) && Adds(more, LedgerOf(sum, ms), LedgerOf(sum, ns), y)
    requires Calls(ns) == Calls(ms) + more
    requires Executions(Since(later)) == Executions(Since(events)) + RanCalls(more, y)
    ensures Marked(sum, ns, later)
  {
    var x :| Marks(Calls(ms), LedgerOf(sum, ms), Executions(Since(events)), x);
    MarksGrow(Calls(ms), LedgerOf(sum, ms), Executions(Since(events)), x, more, LedgerOf(sum, ns), y);
  }

  lemma MarkedIsTruthful(sum: Summary, ms: seq<Msg>, events: seq<Event>)
    requires Marked(sum, ms, events)
    ensures Truthful(sum, ms, events)
  {
    var outcomes :| Marks(Calls(ms), LedgerOf(sum, ms), Executions(Since(events)), outcomes);
    ScanExact(sum, Flatten(LatestTurn(ms)));
    assert TruthfulBy(sum, ms, events, outcomes);
  }

  lemma {:induction false} NothingExecuted(events: seq<Event>)
    requires forall i :: 0 <= i < |events| ==> !events[i].Executes?
    ensures Executions(events) == []
  {
    if events != [] {
      NothingExecuted(events[1..]);
    }
  }

  lemma ExecutionsSince(events: seq<Event>, more: seq<Event>)
    requires Quiet(more)
    ensures Executions(Since(events + more)) == Executions(Since(events)) + Executions(more)
  {
    SinceQuiet(events, more);
    ExecutionsConcat(Since(events), more);
  }

  /** Events that execute nothing and steer nothing change nothing. */
  lemma QuietEvents(sum: Summary, ms: seq<Msg>, events: seq<Event>, more: seq<Event>)
    requires Marked(sum, ms, events)
    requires forall i :: 0 <= i < |more| ==> !Steers(more[i]) && !more[i].Executes?
    ensures Marked(sum, ms, events + more)
  {
    NothingExecuted(more);
    ExecutionsSince(events, more);
    assert Executions(Since(events)) + [] == Executions(Since(events));
    var outcomes :| Marks(Calls(ms), LedgerOf(sum, ms), Executions(Since(events)), outcomes);
    assert Marks(Calls(ms), LedgerOf(sum, ms), Executions(Since(events + more)), outcomes);
  }

  /** Nothing is listed right after the sender wrote. */
  lemma FreshTurn(sum: Summary, ms: seq<Msg>, m: Msg, events: seq<Event>)
    requires SenderWrote(m) && Since(events) == []
    ensures Marked(sum, ms + [m], events)
  {
    AfterSender(ms, m);
    assert Marks(Calls(ms + [m]), LedgerOf(sum, ms + [m]), Executions(Since(events)), []);
  }

  lemma SenderText(text: string)
    ensures SenderWrote(UserText(text))
  {
    assert !UserText(text).content[0].ResultBlock?;
  }

  lemma SteeredMarked(sum: Summary, ms: seq<Msg>, text: string, sofar: seq<Event>, drained: Event, called: Event)
    requires Steers(drained) && called.Called?
    ensures Marked(sum, ms + [UserText(text)], sofar + [drained] + [called])
  {
    SenderText(text);
    SinceSteered(sofar, drained);
    FreshTurn(sum, ms, UserText(text), sofar + [drained]);
    QuietEvents(sum, ms + [UserText(text)], sofar + [drained], [called]);
  }

  lemma DrainMarked(sum: Summary, ms: seq<Msg>, events: seq<Event>, texts: seq<string>)
    requires Marked(sum, ms, events)
    ensures var asked := ms + UserTexts(texts);
      Marked(sum, asked, events + [Entered(true), Drained(texts), Called(asked)])
  {
    if texts == [] {
      assert ms + UserTexts(texts) == ms;
      QuietEvents(sum, ms, events, [Entered(true), Drained(texts), Called(ms + UserTexts(texts))]);
    } else {
      TextsMarked(sum, ms, events, texts);
    }
  }

  lemma TextsMarked(sum: Summary, ms: seq<Msg>, events: seq<Event>, texts: seq<string>)
    requires texts != []
    ensures var asked := ms + UserTexts(texts);
      Marked(sum, asked, events + [Entered(true), Drained(texts), Called(asked)])
  {
    var front, last := texts[..|texts| - 1], texts[|texts| - 1];
    var asked := ms + UserTexts(texts);
    SteeredMarked(sum, ms + UserTexts(front), last, events + [Entered(true)], Drained(texts), Called(asked));
    assert asked == ms + UserTexts(front) + [UserText(last)];
    Regroup(events, [Entered(true)], [Drained(texts)], [Called(asked)]);
    assert [Entered(true)] + [Drained(texts)] + [Called(asked)] == [Entered(true), Drained(texts), Called(asked)];
  }

  lemma CallsAfter(ms: seq<Msg>, m: Msg)
    requires !SenderWrote(m)
    ensures Calls(ms + [m]) == Calls(ms) + Uses(m)
  {
    AfterOther(ms, m);
    UsesInConcat(Flatten(LatestTurn(ms)), m.content);
  }

  function NoneOf(calls: seq<Call>): seq<Outcome> {
    seq(|calls|, _ => None)
  }

  lemma OpenedAdds(sum: Summary, before: seq<Entry>, calls: seq<Call>, s: State)
    requires Opened(sum, before, calls, s)
    ensures Adds(calls, before, s.out, NoneOf(calls))
  {
    var added := s.out[|before|..];
    forall v | 0 <= v < |calls|
      ensures added[v].failed
    {
      assert s.out[|before| + v] == Entry(calls[v].name, sum(calls[v].name, calls[v].input), true);
    }
    assert s.out[..|before|] == before;
  }

  lemma EndScanned(sum: Summary, ms: seq<Msg>, m: Msg)
    requires !m.role.User? && !CarriesResults(m)
    ensures Adds(Uses(m), LedgerOf(sum, ms), LedgerOf(sum, ms + [m]), NoneOf(Uses(m)))
  {
    var start := Scan(sum, Flatten(LatestTurn(ms)));
    AfterOther(ms, m);
    ScanConcat(sum, Flatten(LatestTurn(ms)), m.content);
    ScanOpens(sum, start, m.content);
    OpenedAdds(sum, start.out, Uses(m), Scan(sum, Flatten(LatestTurn(ms + [m]))));
  }

  /** A reply that ends the turn: calls it may carry did not run. */
  lemma EndMarked(sum: Summary, ms: seq<Msg>, events: seq<Event>, m: Msg)
    requires Marked(sum, ms, events) && !m.role.User? && !CarriesResults(m)
    ensures Marked(sum, ms + [m], events)
  {
    CallsAfter(ms, m);
    EndScanned(sum, ms, m);
    NoneRan(Uses(m), NoneOf(Uses(m)));
    MarkedGrows(sum, ms, events, ms + [m], events, Uses(m), NoneOf(Uses(m)));
  }

  lemma ResultsAreNotTheSender(results: seq<ToolResult>)
    requires results != []
    ensures !SenderWrote(ResultMessage(results))
  {
  }

  lemma CallsAfterExchange(ms: seq<Msg>, m: Msg, results: seq<ToolResult>)
    requires !m.role.User? && results != []
    ensures Calls(ms + [m] + [ResultMessage(results)]) == Calls(ms) + Uses(m)
    ensures Flatten(LatestTurn(ms + [m] + [ResultMessage(results)]))
         == Flatten(LatestTurn(ms)) + m.content + ResultMessage(results).content
  {
    ResultsAreNotTheSender(results);
    CallsAfter(ms, m);
    CallsAfter(ms + [m], ResultMessage(results));
    OnlyResultsNoUses(ResultMessage(results).content);
    AfterOther(ms, m);
    AfterOther(ms + [m], ResultMessage(results));
  }

  lemma ExchangeMarked(sum: Summary, ms: seq<Msg>, events: seq<Event>, m: Msg, results: seq<ToolResult>, outcomes: seq<Outcome>, more: seq<Event>)
    requires Marked(sum, ms, events) && !m.role.User? && !CarriesResults(m)
    requires results != [] && Results(Uses(m), results, outcomes)
    requires Quiet(more) && Executions(more) == RanCalls(Uses(m), outcomes)
    ensures Marked(sum, ms + [m] + [ResultMessage(results)], events + more)
  {
    CallsAfterExchange(ms, m, results);
    ExchangeScanned(sum, Flatten(LatestTurn(ms)), m.content, results, outcomes);
    ExecutionsSince(events, more);
    MarkedGrows(sum, ms, events, ms + [m] + [ResultMessage(results)], events + more, Uses(m), outcomes);
  }

  /** What the phase hands back, in terms of the message as the session keeps it. */
  lemma PhaseFacts(w: World, t: nat, m: Msg, sid: string)
    requires !CarriesResults(m)
    ensures var r := RunPhase(w, t, m, sid);
      var kept := m.(content := Refill(m.content, r.calls));
      && !CarriesResults(kept) && Results(Uses(kept), r.results, r.outcomes)
      && Quiet(r.events) && Executions(r.events) == RanCalls(Uses(kept), r.outcomes)
  {
    var r := RunPhase(w, t, m, sid);
    PhaseAnswers(w, t, Uses(m), sid);
    StoredIsExecuted(w, t, Uses(m), sid);
    RefillUses(m.content, r.calls);
    RefillShape(m.content, r.calls);
    PhaseOnly(w, t, Uses(m), sid);
  }

  /** A reply that asks for tools, with its phase. */
  lemma PhaseMarked(sum: Summary, w: World, t: nat, asked: seq<Msg>, m: Msg, sid: string, events: seq<Event>)
    requires Marked(sum, asked, events) && !m.role.User? && !CarriesResults(m)
    ensures var r := RunPhase(w, t, m, sid);
      Marked(sum, AfterPhase(asked, m, r), events + r.events)
  {
    var r := RunPhase(w, t, m, sid);
    var kept := m.(content := Refill(m.content, r.calls));
    PhaseFacts(w, t, m, sid);
    if r.results == [] {
      EndMarked(sum, asked, events, kept);
      NoCallsNoEvents(w, t, sid);
      assert Uses(m) == [];
      QuietEvents(sum, asked + [kept], events, r.events);
    } else {
      ExchangeMarked(sum, asked, events, kept, r.results, r.outcomes, r.events);
    }
  }

  lemma NoCallsNoEvents(w: World, t: nat, sid: string)
    ensures RunTools(w, t, [], sid).events == []
  {
  }

  lemma ToolRoundMarked(sum: Summary, w: World, t: nat, asked: seq<Msg>, m: Msg, sid: string, events: seq<Event>, before: seq<Event>)
    requires Marked(sum, asked, events + before) && !m.role.User? && !CarriesResults(m)
    ensures var r := ToolRound(w, t, asked, m, sid, before); Marked(sum, r.messages, events + r.events)
  {
    var r := RunPhase(w, t, m, sid);
    PhaseMarked(sum, w, t, asked, m, sid, events + before);
    SaveMarked(sum, events + before + r.events, r, AfterPhase(asked, m, r));
    Regroup(events, before, r.events, Checkpoint(r, AfterPhase(asked, m, r)));
  }

  lemma SaveMarked(sum: Summary, events: seq<Event>, r: PhaseRun, after: seq<Msg>)
    requires Marked(sum, after, events)
    ensures Marked(sum, after, events + Checkpoint(r, after))
  {
    if r.results == [] {
      assert events + Checkpoint(r, after) == events;
    } else {
      QuietEvents(sum, after, events, [Checkpointed(after)]);
    }
  }

  lemma Regroup<T>(a: seq<T>, b: seq<T>, c: seq<T>, d: seq<T>)
    ensures a + (b + c + d) == a + b + c + d
  {
  }

  lemma RoundMarked(sum: Summary, w: World, t: nat, ms: seq<Msg>, sid: string, events: seq<Event>)
    requires Marked(sum, ms, events) && Assists(w)
    ensures var r := OneRound(w, t, ms, sid); Marked(sum, r.messages, events + r.events)
  {
    if w.gate(t).Some? {
      QuietEvents(sum, ms, events, [Entered(false)]);
    } else {
      var texts := w.drain(t + 1);
      var asked := ms + UserTexts(texts);
      var before := [Entered(true), Drained(texts), Called(asked)];
      DrainMarked(sum, ms, events, texts);
      match w.complete(t + 2, asked)
      case None =>
      case Some(reply) =>
        if reply.stop == ToolUse {
          ToolRoundMarked(sum, w, t + 3, asked, reply.message, sid, events, before);
        } else {
          EndMarked(sum, asked, events + before, reply.message);
        }
    }
  }

  ghost predicate KeepsMarks(sum: Summary, round: Rounds) {
    forall u, m, e :: Marked(sum, m, e) ==> Marked(sum, round(u, m).messages, e + round(u, m).events)
  }

  lemma RoundKeepsMarks(sum: Summary, round: Rounds, t: nat, ms: seq<Msg>, events: seq<Event>)
    requires Marked(sum, ms, events) && KeepsMarks(sum, round)
    ensures Marked(sum, round(t, ms).messages, events + round(t, ms).events)
  {
  }

  lemma {:induction false} LoopMarked(sum: Summary, round: Rounds, t: nat, ms: seq<Msg>, left: nat, events: seq<Event>)
    requires Marked(sum, ms, events) && KeepsMarks(sum, round)
    ensures Marked(sum, Loop(round, t, ms, left).messages, events + Loop(round, t, ms, left).events)
    decreases left
  {
    if left == 0 {
      assert events + [] == events;
    } else {
      var r := round(t, ms);
      RoundKeepsMarks(sum, round, t, ms, events);
      if r.exit.None? {
        var rest := Loop(round, r.clock, r.messages, left - 1);
        LoopMarked(sum, round, r.clock, r.messages, left - 1, events + r.events);
        Assoc(events, r.events, rest.events);
      }
    }
  }

  /** The ledger tells the truth about a turn. On every exit, and for any budget
      (a smaller one stops at an earlier checkpoint): it lists, in order, every
      call that ran since the sender last wrote, steered text included. A call
      is marked not failed only if it ran and its tool reported no error, and
      exactly then when no two listed calls share an id. */
  lemma {:induction false} LedgerTellsTheTruth(sum: Summary, w: World, t: nat, ms: seq<Msg>, maxIterations: int, sid: string)
    requires Assists(w) && ms != []
    requires w.compress(t, ms) != [] && SenderWrote(w.compress(t, ms)[|w.compress(t, ms)| - 1])
    ensures var r := Turn(w, t, ms, maxIterations, sid); Truthful(sum, r.messages, r.events)
  {
    var start := w.compress(t, ms);
    FreshTurn(sum, start[..|start| - 1], start[|start| - 1], []);
    assert start == start[..|start| - 1] + [start[|start| - 1]];
    forall u, m, e | Marked(sum, m, e)
      ensures Marked(sum, RoundsOf(w, sid)(u, m).messages, e + RoundsOf(w, sid)(u, m).events)
    {
      RoundMarked(sum, w, u, m, sid, e);
    }
    LoopMarked(sum, RoundsOf(w, sid), t + 1, start, Budget(maxIterations), []);
    var r := Turn(w, t, ms, maxIterations, sid);
    assert [] + r.events == r.events;
    MarkedIsTruthful(sum, r.messages, r.events);
  }

  // ---- does it cover the whole turn? ----

  /** The events up to the last steered text. */
  function UpToSteer(events: seq<Event>): seq<Event> {
    if events == [] then []
    else if Steers(events[|events| - 1]) then events
    else UpToSteer(events[..|events| - 1])
  }

  lemma {:induction false} SteerSplits(events: seq<Event>)
    ensures events == UpToSteer(events) + Since(events)
  {
    if events != [] && !Steers(events[|events| - 1]) {
      var front, last := events[..|events| - 1], events[|events| - 1];
      SteerSplits(front);
      assert UpToSteer(front) + Since(front) + [last] == UpToSteer(front) + (Since(front) + [last]);
    }
  }

  ghost predicate CoversBy(sum: Summary, ms: seq<Msg>, events: seq<Event>, outcomes: seq<Outcome>) {
    && TruthfulBy(sum, ms, events, outcomes)
    && (RanCalls(Calls(ms), outcomes) == Executions(events) <==> Executions(UpToSteer(events)) == [])
  }

  /** The calls it lists that ran are all that ran in the turn exactly when
      nothing ran before text was last steered in. */
  lemma {:induction false} LedgerCoversTurnIff(sum: Summary, w: World, t: nat, ms: seq<Msg>, maxIterations: int, sid: string)
    requires Assists(w) && ms != []
    requires w.compress(t, ms) != [] && SenderWrote(w.compress(t, ms)[|w.compress(t, ms)| - 1])
    ensures var r := Turn(w, t, ms, maxIterations, sid);
      exists outcomes :: CoversBy(sum, r.messages, r.events, outcomes)
  {
    LedgerTellsTheTruth(sum, w, t, ms, maxIterations, sid);
    var r := Turn(w, t, ms, maxIterations, sid);
    TruthCovers(sum, r.messages, r.events);
  }

  lemma TruthCovers(sum: Summary, ms: seq<Msg>, events: seq<Event>)
    requires Truthful(sum, ms, events)
    ensures exists outcomes :: CoversBy(sum, ms, events, outcomes)
  {
    var outcomes :| TruthfulBy(sum, ms, events, outcomes);
    var early, late := UpToSteer(events), Since(events);
    SteerSplits(events);
    ExecutionsConcat(early, late);
    if Executions(late) == Executions(events) {
      assert |Executions(events)| == |Executions(early)| + |Executions(late)|;
    }
    assert CoversBy(sum, ms, events, outcomes);
  }

  // ---- a turn it does not cover ----

  const LIST := Call("1", "ls", [])
  const ASKS_LIST := Reply(Message(Assistant, [UseBlock(Some(LIST))]), ToolUse)

  /** Everything is allowed and succeeds; a text arrives during the first tool,
      and the second model call fails. */
  function SteeredWorld(fold: Fold): World {
    World(fold, _ => true, _ => "", (_, _, _, _) => Ruling(false, ""), None, (_, _, _) => true,
          (_, _, _) => Executed("", None), text => text, _ => None,
          t => if t < 8 then [] else ["stop"],
          (t, _) => if t < 9 then Some(ASKS_LIST) else None,
          (_, ms) => ms)
  }

  lemma ListRuns(fold: Fold)
    ensures var r := RunTools(SteeredWorld(fold), 4, [LIST], "s");
      && r.clock == 7 && r.error == None && |r.results| == 1
      && exists input :: Execution("ls", input, false) in Executions(r.events)
  {
    var w := SteeredWorld(fold);
    var canonical := Tokens(Obj(NoMembers));
    var one := RunOneTool(w, 5, LIST, "s");
    assert CanonicalInput(fold, []) == Some(canonical);
    assert one == CallRun(7, canonical, ToolResult("1", "", false),
                          [Asked("ls", canonical, false), Executes("ls", canonical, false)]);
    var r := RunTools(w, 4, [LIST], "s");
    var run := RunnerOf(w, "s");
    var calls := [LIST];
    assert calls[1..] == [] && run(5, calls[0]) == one && w.gate(4) == None;
    assert Phase(w.gate, run, 7, []) == PhaseRun(7, [], [], [], [], None);
    assert r == Phase(w.gate, run, 4, calls);
    assert r.events == [Gated(true)] + one.events + [];
    GateExecutesNothing(true, one.events, []);
    ExecutionsConcat([one.events[0]], [one.events[1]]);
    assert one.events == [one.events[0]] + [one.events[1]];
    assert [one.events[1]][1..] == [];
    assert Executions([one.events[1]])[0] == Execution("ls", canonical, false);
    assert Execution("ls", canonical, false) in Executions(r.events);
  }

  /** A tool runs in the turn and its ledger is empty. */
  lemma SteeringHidesARun(sum: Summary, fold: Fold)
    ensures var r := Turn(SteeredWorld(fold), 0, [UserText("list")], 32, "s");
      Executions(r.events) != [] && LedgerOf(sum, r.messages) == []
  {
    var w := SteeredWorld(fold);
    var start := [UserText("list")];
    var round := RoundsOf(w, "s");
    var asked := start + UserTexts([]);
    var m := ASKS_LIST.message;
    UsesInSnoc([], m.content[0]);
    assert m.content == [] + [m.content[0]];
    assert UsesIn<Call>([]) == [];
    assert Uses(m) == [LIST];
    ListRuns(fold);
    var phase := RunPhase(w, 4, m, "s");
    var first := round(1, start);
    assert first == ToolRound(w, 4, asked, m, "s", [Entered(true), Drained([]), Called(asked)]);
    var second := round(7, first.messages);
    assert second.exit == Some(ProviderFailed) && second.messages == first.messages + UserTexts(["stop"]);
    var rest := Loop(round, 7, first.messages, 31);
    assert rest == TurnRun(second.clock, second.messages, second.events, ProviderFailed);
    var r := Turn(w, 0, start, 32, "s");
    assert r == Loop(round, 1, start, 32);
    assert r.messages == second.messages && r.events == first.events + second.events;
    SenderText("stop");
    AfterSender(first.messages, UserText("stop"));
    assert r.messages == first.messages + [UserText("stop")];
    ExecutionsConcat([Entered(true), Drained([]), Called(asked)], phase.events);
    ExecutionsConcat([Entered(true), Drained([]), Called(asked)] + phase.events, Checkpoint(phase, first.messages));
    ExecutionsConcat(first.events, second.events);
  }
}
