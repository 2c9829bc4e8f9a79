/** Messages, and the pairing of tool calls with their results. */
module Conversation {
  import opened Base
  import opened Canonical

  datatype Role = User | Assistant | System

  datatype ToolResult = ToolResult(toolUseId: string, output: string, isError: bool)

  /** A block. `U` is how a tool call is held: by value, or by reference as the
      running program does. A kind without its pointer is `None`. */
  datatype Content<+U> =
    | TextBlock(text: string)
    | ImageBlock(data: seq<int>)
    | UseBlock(use: Option<U>)
    | ResultBlock(result: Option<ToolResult>)

  datatype Message<+U> = Message(role: Role, content: seq<Content<U>>)

  datatype Call = Call(id: string, name: string, input: Input)

  type Msg = Message<Call>

  function UserText(text: string): Msg {
    Message(User, [TextBlock(text)])
  }

  predicate HoldsUse<U>(c: Content<U>) {
    c.UseBlock? && c.use.Some?
  }

  /** toolUses: the calls of a block list, in order. */
  function UsesIn<U>(content: seq<Content<U>>): seq<U> {
    if content == [] then []
    else
      var last := content[|content| - 1];
      UsesIn(content[..|content| - 1]) + if HoldsUse(last) then [last.use.value] else []
  }

  lemma UsesInSnoc<U>(content: seq<Content<U>>, last: Content<U>)
    ensures UsesIn(content + [last]) == UsesIn(content) + if HoldsUse(last) then [last.use.value] else []
  {
    assert (content + [last])[..|content|] == content;
  }

  function Uses<U>(m: Message<U>): seq<U> {
    UsesIn(m.content)
  }

  predicate CarriesResults<U>(m: Message<U>) {
    exists i :: 0 <= i < |m.content| && m.content[i].ResultBlock?
  }

  /** `r` is one user message holding exactly one result per call, same ids,
      same order. */
  predicate AnswersCalls(r: Msg, calls: seq<Call>) {
    && r.role.User?
    && |r.content| == |calls|
    && forall j :: 0 <= j < |calls| ==>
         && r.content[j].ResultBlock? && r.content[j].result.Some?
         && r.content[j].result.value.toolUseId == calls[j].id
  }

  predicate PairedAt(ms: seq<Msg>, i: nat)
    requires i < |ms|
  {
    && (Uses(ms[i]) != [] ==> i + 1 < |ms| && AnswersCalls(ms[i + 1], Uses(ms[i])))
    && (CarriesResults(ms[i]) ==> i > 0 && Uses(ms[i - 1]) != [] && AnswersCalls(ms[i], Uses(ms[i - 1])))
  }

  /** A well-formed tool_use / tool_result sequence: calls are answered at once,
      and results answer the message just before them. */
  predicate Paired(ms: seq<Msg>) {
    forall i :: 0 <= i < |ms| ==> PairedAt(ms, i)
  }

  predicate Plain(m: Msg) {
    Uses(m) == [] && !CarriesResults(m)
  }

  lemma UserTextPlain(text: string)
    ensures Plain(UserText(text))
  {
    var c: seq<Content<Call>> := [TextBlock(text)];
    assert c[..0] == [];
    assert UsesIn(c) == [];
  }

  /** Results hold no calls. */
  lemma {:induction false} OnlyResultsNoUses(content: seq<Content<Call>>)
    requires forall j :: 0 <= j < |content| ==> content[j].ResultBlock?
    ensures UsesIn(content) == []
  {
    if content != [] {
      OnlyResultsNoUses(content[..|content| - 1]);
    }
  }

  lemma AppendPlain(ms: seq<Msg>, m: Msg)
    requires Paired(ms) && Plain(m)
    ensures Paired(ms + [m])
  {
    var all := ms + [m];
    forall i | 0 <= i < |all|
      ensures PairedAt(all, i)
    {
      if i < |ms| {
        assert PairedAt(ms, i);
      }
    }
  }

  lemma AppendExchange(ms: seq<Msg>, m: Msg, r: Msg)
    requires Paired(ms) && Uses(m) != [] && !CarriesResults(m) && AnswersCalls(r, Uses(m))
    ensures Paired(ms + [m, r])
  {
    var all := ms + [m, r];
    OnlyResultsNoUses(r.content);
    forall i | 0 <= i < |all|
      ensures PairedAt(all, i)
    {
      if i < |ms| {
        assert PairedAt(ms, i);
      }
    }
  }

  /** A message with calls at the very end is never well-formed. */
  lemma DanglingCalls(ms: seq<Msg>, m: Msg)
    requires Uses(m) != []
    ensures !Paired(ms + [m])
  {
    var all := ms + [m];
    assert !PairedAt(all, |ms|);
  }

  /** Replacing a prefix by a plain message keeps pairing exactly when the first
      message kept answers nothing. */
  lemma CutKeepsPairingIff(ms: seq<Msg>, head: Msg, cut: nat)
    requires Paired(ms) && Plain(head) && cut < |ms|
    ensures Paired([head] + ms[cut..]) <==> !CarriesResults(ms[cut])
  {
    var all := [head] + ms[cut..];
    if CarriesResults(ms[cut]) {
      assert !PairedAt(all, 1);
    } else {
      forall i | 0 <= i < |all|
        ensures PairedAt(all, i)
      {
        if i > 0 {
          assert PairedAt(ms, cut + i - 1);
        }
      }
    }
  }
}
