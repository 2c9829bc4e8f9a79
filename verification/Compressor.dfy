/** The summarising compressor: when it engages, what it leaves, and how far
    apart two passes are. */
module Compressor {
  import opened Base
  import opened Conversation
  import opened Decimal
  import A = AgentLoop

  datatype Config = Config(hasProvider: bool, triggerMessages: int, triggerTokens: int, keepRecent: nat, marker: string)

  /** The token estimate of a message list. */
  type Estimate = seq<Msg> -> int

  const DEFAULT_MARKER := "[rousseau-compressed]"

  function Keep(c: Config): nat {
    if c.keepRecent == 0 then 8 else c.keepRecent
  }

  function Marker(c: Config): string {
    if c.marker == "" then DEFAULT_MARKER else c.marker
  }

  predicate StartsWithMarker(c: Config, text: string) {
    Marker(c) <= text
  }

  predicate HeadCompressed(c: Config, ms: seq<Msg>) {
    ms != [] && exists i :: 0 <= i < |ms[0].content| && ms[0].content[i].TextBlock?
                         && StartsWithMarker(c, ms[0].content[i].text)
  }

  predicate OverTokens(c: Config, est: Estimate, ms: seq<Msg>) {
    c.triggerTokens > 0 && est(ms) >= c.triggerTokens
  }

  predicate OverBudget(c: Config, est: Estimate, ms: seq<Msg>) {
    (c.triggerMessages > 0 && |ms| >= c.triggerMessages) || OverTokens(c, est, ms)
  }

  predicate ShouldCompress(c: Config, est: Estimate, ms: seq<Msg>) {
    if !OverBudget(c, est, ms) || |ms| <= Keep(c) then false
    else if !HeadCompressed(c, ms) then true
    else if OverTokens(c, est, ms) then true
    else c.triggerMessages > 0 && |ms| >= c.triggerMessages * 2
  }

  function Synthetic(c: Config, n: nat, summary: string): Msg {
    UserText(Marker(c) + " (summary of prior " + Render(n) + " messages):\n\n" + summary)
  }

  /** A pass is due and the summary was obtained. */
  predicate Passes(c: Config, est: Estimate, ms: seq<Msg>, summary: Option<string>) {
    c.hasProvider && ShouldCompress(c, est, ms) && summary.Some?
  }

  /** Compress; `summary` is the provider's answer, `None` an error or no text. */
  function Compress(c: Config, est: Estimate, ms: seq<Msg>, summary: Option<string>): seq<Msg> {
    if Passes(c, est, ms, summary)
    then [Synthetic(c, |ms| - Keep(c), summary.value)] + ms[|ms| - Keep(c)..]
    else ms
  }

  /** What a pass leaves: a marked head that carries no calls or results, and
      the last `Keep` messages verbatim. */
  lemma PassShape(c: Config, est: Estimate, ms: seq<Msg>, summary: Option<string>)
    requires Passes(c, est, ms, summary)
    ensures var r := Compress(c, est, ms, summary);
      && |r| == Keep(c) + 1 && |ms| > Keep(c)
      && r[1..] == ms[|ms| - Keep(c)..]
      && HeadCompressed(c, r) && Plain(r[0])
  {
    var r := Compress(c, est, ms, summary);
    var head := Synthetic(c, |ms| - Keep(c), summary.value);
    UserTextPlain(head.content[0].text);
    assert r[0].content[0].TextBlock? && StartsWithMarker(c, r[0].content[0].text);
  }

  /** Tool pairing survives a pass exactly when the first message kept does not
      carry tool results. */
  lemma PassPairingIff(c: Config, est: Estimate, ms: seq<Msg>, summary: Option<string>)
    requires Passes(c, est, ms, summary) && Paired(ms)
    ensures Paired(Compress(c, est, ms, summary)) <==> !CarriesResults(ms[|ms| - Keep(c)])
  {
    PassShape(c, est, ms, summary);
    var r := Compress(c, est, ms, summary);
    CutKeepsPairingIff(ms, r[0], |ms| - Keep(c));
    assert r == [r[0]] + ms[|ms| - Keep(c)..];
  }

  // ---- any run of appends and compressions ----

  datatype Op = Append(m: Msg) | Try(summary: Option<string>)

  function Do(c: Config, est: Estimate, ms: seq<Msg>, op: Op): seq<Msg> {
    match op
    case Append(m) => ms + [m]
    case Try(summary) => Compress(c, est, ms, summary)
  }

  function Run(c: Config, est: Estimate, ms: seq<Msg>, ops: seq<Op>): seq<Msg> {
    if ops == [] then ms else Do(c, est, Run(c, est, ms, ops[..|ops| - 1]), ops[|ops| - 1])
  }

  function Appends(ops: seq<Op>): nat {
    if ops == [] then 0 else Appends(ops[..|ops| - 1]) + if ops[|ops| - 1].Append? then 1 else 0
  }

  /** A marked head stays, and the session is at most as long as it started plus
      the messages appended since. */
  lemma {:induction false} MarkedRun(c: Config, est: Estimate, ms: seq<Msg>, ops: seq<Op>)
    requires HeadCompressed(c, ms)
    ensures HeadCompressed(c, Run(c, est, ms, ops))
    ensures |Run(c, est, ms, ops)| <= |ms| + Appends(ops)
  {
    if ops != [] {
      var front, last := ops[..|ops| - 1], ops[|ops| - 1];
      var before := Run(c, est, ms, front);
      MarkedRun(c, est, ms, front);
      match last
      case Append(m) =>
        assert (before + [m])[0] == before[0];
      case Try(summary) =>
        if Passes(c, est, before, summary) {
          PassShape(c, est, before, summary);
        }
    }
  }

  /** With only the count trigger T set and K messages kept: whatever is appended
      and however often compression is tried or fails in between, two passes are
      at least 2T - (K + 1) appends apart. */
  lemma PassSpacing(c: Config, est: Estimate, ms: seq<Msg>, first: Option<string>, ops: seq<Op>, second: Option<string>)
    requires c.triggerMessages > 0 && c.triggerTokens <= 0
    requires Passes(c, est, ms, first)
    requires Passes(c, est, Run(c, est, Compress(c, est, ms, first), ops), second)
    ensures Appends(ops) >= 2 * c.triggerMessages - (Keep(c) + 1)
  {
    PassShape(c, est, ms, first);
    MarkedRun(c, est, Compress(c, est, ms, first), ops);
  }

  /** The bound is met: that many appends after a pass, the next try is a pass. */
  lemma {:induction false} PassSpacingTight(c: Config, est: Estimate, ms: seq<Msg>, first: Option<string>, ops: seq<Op>, second: Option<string>)
    requires c.triggerMessages > 0 && c.triggerTokens <= 0
    requires Passes(c, est, ms, first) && second.Some?
    requires (forall op <- ops :: op.Append?) && |ops| == 2 * c.triggerMessages - (Keep(c) + 1) > 0
    ensures Passes(c, est, Run(c, est, Compress(c, est, ms, first), ops), second)
  {
    PassShape(c, est, ms, first);
    MarkedRun(c, est, Compress(c, est, ms, first), ops);
    OnlyAppends(c, est, Compress(c, est, ms, first), ops);
  }

  lemma {:induction false} OnlyAppends(c: Config, est: Estimate, ms: seq<Msg>, ops: seq<Op>)
    requires forall op <- ops :: op.Append?
    ensures |Run(c, est, ms, ops)| == |ms| + |ops|
  {
    if ops != [] {
      OnlyAppends(c, est, ms, ops[..|ops| - 1]);
      assert ops[|ops| - 1] in ops;
    }
  }

  // ---- in place ----

  lemma {:induction false} ViewAllAt(ms: seq<A.HeapMsg>, i: nat)
    requires i < |ms|
    ensures |A.ViewAll(ms)| == |ms| && A.ViewAll(ms)[i] == A.ViewMsg(ms[i])
  {
    if |ms| > 1 {
      ViewAllAt(ms[..|ms| - 1], if i < |ms| - 1 then i else 0);
    }
  }

  lemma SameLength(ms: seq<A.HeapMsg>)
    ensures |A.ViewAll(ms)| == |ms|
  {
    if ms != [] {
      ViewAllAt(ms, 0);
    }
  }

  lemma ViewAllSlice(ms: seq<A.HeapMsg>, from: nat, head: A.HeapMsg)
    requires from <= |ms|
    ensures |A.ViewAll(ms)| == |ms|
    ensures A.ViewAll([head] + ms[from..]) == [A.ViewMsg(head)] + A.ViewAll(ms)[from..]
  {
    var all := [head] + ms[from..];
    SameLength(ms);
    SameLength(all);
    var left, right := A.ViewAll(all), [A.ViewMsg(head)] + A.ViewAll(ms)[from..];
    forall i | 0 <= i < |all|
      ensures left[i] == right[i]
    {
      ViewAllAt(all, i);
      if i > 0 {
        ViewAllAt(ms, from + i - 1);
      }
    }
    assert |left| == |right|;
  }

  /** Replace all but the last `keep` messages; the kept ones are the same objects. */
  method Cut(s: A.Session, keep: nat, head: Msg)
    requires keep <= |s.messages|
    modifies s
    ensures |old(A.ViewAll(s.messages))| == |old(s.messages)|
    ensures A.ViewAll(s.messages) == [head] + old(A.ViewAll(s.messages))[|old(s.messages)| - keep..]
    ensures |s.messages| == keep + 1 && s.messages[1..] == old(s.messages)[|old(s.messages)| - keep..]
  {
    var n := |s.messages| - keep;
    SameLength(s.messages);
    A.FootAllAllocated(s.messages);
    var h := A.Materialise(head);
    ViewAllSlice(s.messages, n, h);
    var next := [h] + s.messages[n..];
    A.FootAllAllocated(next);
    s.messages := next;
  }

  /** Compress on the session object. */
  method CompressSession(c: Config, est: Estimate, s: A.Session, summary: Option<string>) returns (changed: bool)
    modifies s
    ensures changed == Passes(c, est, old(A.ViewAll(s.messages)), summary)
    ensures A.ViewAll(s.messages) == Compress(c, est, old(A.ViewAll(s.messages)), summary)
    ensures changed ==> (
      && |s.messages| == Keep(c) + 1 <= |old(s.messages)|
      && s.messages[1..] == old(s.messages)[|old(s.messages)| - Keep(c)..])
    ensures !changed ==> s.messages == old(s.messages)
  {
    SameLength(s.messages);
    var keep := Keep(c);
    if !c.hasProvider || !ShouldCompress(c, est, A.ViewAll(s.messages)) || summary.None? {
      return false;
    }
    Cut(s, keep, Synthetic(c, |s.messages| - keep, summary.value));
    return true;
  }
}
