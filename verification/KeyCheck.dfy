/** The duplicate-key check: a stack machine over decoder tokens, and the
    recursive property of values that it decides. */
module KeyCheck {
  import opened Base
  import opened Folding
  import opened Json

  // ---- what is to be decided ----

  /** No key of `members` equals `k` under folding. */
  ghost predicate Absent(f: Fold, k: string, members: Members) {
    match members
    case NoMembers => true
    case Field(key, _, more) => !EqualFold(f, k, key) && Absent(f, k, more)
  }

  /** No object at any depth repeats a key under folding. */
  ghost predicate Unique(f: Fold, v: Value) {
    match v
    case Str(_) => true
    case Literal(_) => true
    case Arr(items) => UniqueItems(f, items)
    case Obj(members) => UniqueMembers(f, members)
  }

  ghost predicate UniqueItems(f: Fold, items: Items) {
    match items
    case NoItems => true
    case Item(v, rest) => Unique(f, v) && UniqueItems(f, rest)
  }

  ghost predicate UniqueMembers(f: Fold, members: Members) {
    match members
    case NoMembers => true
    case Field(k, v, more) => Absent(f, k, more) && Unique(f, v) && UniqueMembers(f, more)
  }

  // ---- the machine ----

  /** One open container; an object remembers the folded keys it has seen. */
  datatype Scope = ArrayScope | ObjectScope(keys: set<string>, expectKey: bool)

  type Stack = seq<Scope>

  predicate StartsValue(tok: Token) {
    tok.OpenObject? || tok.OpenArray? || tok.StringToken? || tok.Atom?
  }

  /** The decoder's own grammar: which token it is willing to deliver next. It
      nests exactly as the stack does, so the stack says where it stands. */
  predicate Delivers(stack: Stack, tok: Token) {
    if stack == [] then StartsValue(tok)
    else
      match stack[|stack| - 1]
      case ArrayScope => StartsValue(tok) || tok.CloseArray?
      case ObjectScope(_, expectKey) =>
        if expectKey then tok.StringToken? || tok.CloseObject? else StartsValue(tok)
  }

  /** Does the top of the stack await a value rather than a key? */
  predicate AwaitsValue(stack: Stack) {
    stack == [] || stack[|stack| - 1].ArrayScope? || !stack[|stack| - 1].expectKey
  }

  /** The stack after a whole value: only the flag of an enclosing object moves. */
  function Advance(stack: Stack): Stack {
    if stack == [] || stack[|stack| - 1].ArrayScope? then stack
    else stack[|stack| - 1 := stack[|stack| - 1].(expectKey := true)]
  }

  /** addKey on the top scope. */
  function AddKey(f: Fold, stack: Stack, key: string): Option<Stack>
    requires stack != [] && stack[|stack| - 1].ObjectScope?
  {
    var top := stack[|stack| - 1];
    var folded := FoldKey(f, key);
    if folded in top.keys then None
    else Some(stack[|stack| - 1 := ObjectScope(top.keys + {folded}, false)])
  }

  /** containerStep: a token in value position. */
  function ContainerStep(stack: Stack, tok: Token): Stack
    requires tok.CloseArray? ==> stack != []
  {
    match tok
    case OpenObject => stack + [ObjectScope({}, true)]
    case OpenArray => stack + [ArrayScope]
    case CloseArray => stack[..|stack| - 1]
    case _ => stack
  }

  /** stepKeys: one delivered token; `None` is a repeated key. */
  function StepKeys(f: Fold, stack: Stack, tok: Token): Option<Stack>
    requires Delivers(stack, tok)
  {
    if stack != [] && stack[|stack| - 1].ObjectScope? then
      if stack[|stack| - 1].expectKey then
        if tok.CloseObject? then Some(stack[..|stack| - 1])
        else AddKey(f, stack, tok.text)
      else Some(ContainerStep(Advance(stack), tok))
    else Some(ContainerStep(stack, tok))
  }

  /** More input that is not a closing delimiter follows. */
  predicate More(toks: seq<Token>) {
    toks != [] && !toks[0].CloseObject? && !toks[0].CloseArray?
  }

  /** The loop of checkUniqueKeys from a given stack. It stops quietly at the
      end of the tokens, even inside a container. */
  function Feed(f: Fold, stack: Stack, toks: seq<Token>): Option<Stack>
    decreases |toks|, 0
  {
    if toks == [] then Some(stack)
    else if !Delivers(stack, toks[0]) then None
    else
      match StepKeys(f, stack, toks[0])
      case None => None
      case Some(next) => Continue(f, next, toks[1..])
  }

  /** What the loop does after a step: refuse trailing data, then go on. */
  function Continue(f: Fold, stack: Stack, toks: seq<Token>): Option<Stack>
    decreases |toks|, 1
  {
    if stack == [] && More(toks) then None else Feed(f, stack, toks)
  }

  // ---- the machine decides the property ----

  /** No key of `members` folds to something already seen. */
  ghost predicate NoneSeen(f: Fold, seen: set<string>, members: Members) {
    match members
    case NoMembers => true
    case Field(k, _, more) => FoldKey(f, k) !in seen && NoneSeen(f, seen, more)
  }

  lemma {:induction false} SeenOneMore(f: Fold, seen: set<string>, k: string, members: Members)
    ensures NoneSeen(f, seen + {FoldKey(f, k)}, members)
       <==> NoneSeen(f, seen, members) && Absent(f, k, members)
  {
    match members
    case NoMembers =>
    case Field(key, _, more) =>
      FoldKeyClass(f, k, key);
      SeenOneMore(f, seen, k, more);
  }

  lemma {:induction false} NothingSeen(f: Fold, members: Members)
    ensures NoneSeen(f, {}, members)
  {
    match members
    case NoMembers =>
    case Field(_, _, more) => NothingSeen(f, more);
  }

  /** Fed the tokens of any value, from any stack that awaits one and with
      anything after them, the machine rejects exactly the values that repeat a
      key somewhere and otherwise is back at the stack it started from with
      only the enclosing flag advanced. */
  lemma {:induction false} FeedValue(f: Fold, stack: Stack, v: Value, rest: seq<Token>)
    requires AwaitsValue(stack)
    ensures Feed(f, stack, Tokens(v) + rest)
         == if Unique(f, v) then Continue(f, Advance(stack), rest) else None
    decreases v
  {
    var toks := Tokens(v) + rest;
    match v
    case Str(_) =>
      assert toks[1..] == rest;
    case Literal(_) =>
      assert toks[1..] == rest;
    case Arr(items) =>
      assert toks[1..] == ItemTokens(items) + rest;
      FeedItems(f, Advance(stack), items, rest);
    case Obj(members) =>
      assert toks[1..] == MemberTokens(members) + rest;
      NothingSeen(f, members);
      FeedMembers(f, Advance(stack), {}, members, rest);
  }

  lemma {:induction false} FeedItems(f: Fold, stack: Stack, items: Items, rest: seq<Token>)
    ensures Feed(f, stack + [ArrayScope], ItemTokens(items) + rest)
         == if UniqueItems(f, items) then Continue(f, stack, rest) else None
    decreases items
  {
    var inner := stack + [ArrayScope];
    var toks := ItemTokens(items) + rest;
    match items
    case NoItems =>
      assert toks[1..] == rest && inner[..|inner| - 1] == stack;
    case Item(v, tail) =>
      FeedValue(f, inner, v, ItemTokens(tail) + rest);
      FeedItems(f, stack, tail, rest);
      assert toks == Tokens(v) + (ItemTokens(tail) + rest);
  }

  lemma {:induction false} FeedMembers(f: Fold, stack: Stack, seen: set<string>, members: Members, rest: seq<Token>)
    ensures Feed(f, stack + [ObjectScope(seen, true)], MemberTokens(members) + rest)
         == if NoneSeen(f, seen, members) && UniqueMembers(f, members) then Continue(f, stack, rest) else None
    decreases members
  {
    var inner := stack + [ObjectScope(seen, true)];
    var toks := MemberTokens(members) + rest;
    match members
    case NoMembers =>
      assert toks[1..] == rest && inner[..|inner| - 1] == stack;
    case Field(k, v, more) =>
      var tail := MemberTokens(more) + rest;
      assert toks[0] == StringToken(k) && toks[1..] == Tokens(v) + tail;
      var folded := FoldKey(f, k);
      if folded !in seen {
        var keyed := stack + [ObjectScope(seen + {folded}, false)];
        assert inner[|inner| - 1 := ObjectScope(seen + {folded}, false)] == keyed;
        FeedValue(f, keyed, v, tail);
        assert Advance(keyed) == stack + [ObjectScope(seen + {folded}, true)];
        FeedMembers(f, stack, seen + {folded}, more, rest);
        SeenOneMore(f, seen, k, more);
      }
  }

  /** On a whole input the check accepts exactly the values with unique keys. */
  lemma CheckDecidesUnique(f: Fold, v: Value)
    ensures Feed(f, [], Tokens(v)) == if Unique(f, v) then Some([]) else None
  {
    assert Tokens(v) + [] == Tokens(v);
    FeedValue(f, [], v, []);
  }

  // ---- streams that are not the text of a value ----

  /** The loop rejected, or stands inside more than `depth` containers. */
  predicate RejectsOrInside(r: Option<Stack>, depth: nat) {
    r.None? || |r.value| > depth
  }

  predicate ClosesArrayOf(stack: Stack, toks: seq<Token>) {
    stack != [] && stack[|stack| - 1].ArrayScope? && toks != [] && toks[0].CloseArray?
  }

  /** Where the reader finds no value, the loop never gets past one. */
  lemma {:induction false} ValueStuck(f: Fold, stack: Stack, toks: seq<Token>)
    requires AwaitsValue(stack) && toks != [] && !ClosesArrayOf(stack, toks) && ParseValue(toks).Failed?
    ensures RejectsOrInside(Feed(f, stack, toks), |stack|)
    decreases |toks|, 0
  {
    match toks[0]
    case OpenArray => ItemsStuck(f, Advance(stack), toks[1..]);
    case OpenObject => MembersStuck(f, Advance(stack), {}, toks[1..]);
    case _ =>
  }

  lemma {:induction false} ItemsStuck(f: Fold, stack: Stack, toks: seq<Token>)
    requires ParseItems(toks).Failed?
    ensures RejectsOrInside(Feed(f, stack + [ArrayScope], toks), |stack|)
    decreases |toks|, 1
  {
    var inner := stack + [ArrayScope];
    if toks != [] {
      match ParseValue(toks)
      case Failed => ValueStuck(f, inner, toks);
      case Got(v, rest) =>
        ParseValueSound(toks);
        FeedValue(f, inner, v, rest);
        ItemsStuck(f, stack, rest);
    }
  }

  lemma {:induction false} MembersStuck(f: Fold, stack: Stack, seen: set<string>, toks: seq<Token>)
    requires ParseMembers(toks).Failed?
    ensures RejectsOrInside(Feed(f, stack + [ObjectScope(seen, true)], toks), |stack|)
    decreases |toks|, 1
  {
    var inner := stack + [ObjectScope(seen, true)];
    if toks != [] && toks[0].StringToken? && FoldKey(f, toks[0].text) !in seen {
      var now := seen + {FoldKey(f, toks[0].text)};
      var keyed := stack + [ObjectScope(now, false)];
      assert inner[|inner| - 1 := ObjectScope(now, false)] == keyed;
      assert Feed(f, inner, toks) == Feed(f, keyed, toks[1..]);
      match ParseValue(toks[1..])
      case Failed =>
        if toks[1..] != [] {
          ValueStuck(f, keyed, toks[1..]);
        }
      case Got(v, rest) =>
        ParseValueSound(toks[1..]);
        FeedValue(f, keyed, v, rest);
        assert Advance(keyed) == stack + [ObjectScope(now, true)];
        MembersStuck(f, stack, now, rest);
    }
  }

  /** Ends outside every container: exactly the empty stream and the texts of
      one value that repeats no key. */
  lemma EndsOutsideIff(f: Fold, raw: seq<Token>)
    ensures Feed(f, [], raw) == Some([]) <==> raw == [] || exists v :: raw == Tokens(v) && Unique(f, v)
  {
    if v :| raw == Tokens(v) && Unique(f, v) {
      CheckDecidesUnique(f, v);
    }
    if raw != [] && Feed(f, [], raw) == Some([]) {
      match ParseValue(raw)
      case Failed => ValueStuck(f, [], raw);
      case Got(v, rest) =>
        ParseValueSound(raw);
        FeedValue(f, [], v, rest);
        assert rest == [];
        assert raw == Tokens(v);
    }
  }

  /** While a container is open, feeding goes on where it stopped. */
  lemma {:induction false} FeedThen(f: Fold, stack: Stack, raw: seq<Token>, more: seq<Token>)
    requires Feed(f, stack, raw).Some? && Feed(f, stack, raw).value != []
    ensures Feed(f, stack, raw + more) == Feed(f, Feed(f, stack, raw).value, more)
    decreases |raw|
  {
    if raw == [] {
      assert raw + more == more;
    } else {
      assert (raw + more)[1..] == raw[1..] + more;
      FeedThen(f, StepKeys(f, stack, raw[0]).value, raw[1..], more);
    }
  }

  /** What is accepted is accepted up to any point. */
  lemma {:induction false} FeedPrefix(f: Fold, stack: Stack, raw: seq<Token>, more: seq<Token>)
    requires Feed(f, stack, raw + more).Some?
    ensures Feed(f, stack, raw).Some?
    decreases |raw|
  {
    if raw != [] {
      assert (raw + more)[1..] == raw[1..] + more;
      FeedPrefix(f, StepKeys(f, stack, raw[0]).value, raw[1..], more);
    }
  }

  /** Tokens that close every open container. */
  function Closing(stack: Stack): seq<Token> {
    if stack == [] then []
    else
      (match stack[|stack| - 1]
       case ArrayScope => [CloseArray]
       case ObjectScope(_, expectKey) => if expectKey then [CloseObject] else [Atom("null"), CloseObject])
      + Closing(stack[..|stack| - 1])
  }

  lemma {:induction false} ClosingCloses(f: Fold, stack: Stack)
    ensures Feed(f, stack, Closing(stack)) == Some([])
    decreases |stack|
  {
    if stack != [] {
      var front, last := stack[..|stack| - 1], stack[|stack| - 1];
      var toks := Closing(stack);
      ClosingCloses(f, front);
      if last.ObjectScope? && !last.expectKey {
        var keyed := Advance(stack);
        assert toks[1..] == [CloseObject] + Closing(front);
        assert toks[1..][1..] == Closing(front) && keyed[..|keyed| - 1] == front;
        assert Feed(f, stack, toks) == Feed(f, keyed, toks[1..]) == Continue(f, front, Closing(front));
      } else {
        assert toks[1..] == Closing(front);
        assert Feed(f, stack, toks) == Continue(f, front, Closing(front));
      }
    }
  }

  /** The exact class of streams the check lets through: what can be completed
      to the text of a value that repeats no key. */
  lemma CheckAcceptsIff(f: Fold, raw: seq<Token>)
    ensures Feed(f, [], raw).Some? <==> exists v :: raw <= Tokens(v) && Unique(f, v)
  {
    if v :| raw <= Tokens(v) && Unique(f, v) {
      CheckDecidesUnique(f, v);
      assert Tokens(v) == raw + Tokens(v)[|raw|..];
      FeedPrefix(f, [], raw, Tokens(v)[|raw|..]);
    }
    if Feed(f, [], raw).Some? {
      var stack := Feed(f, [], raw).value;
      if raw == [] {
        assert raw <= Tokens(Literal("null")) && Unique(f, Literal("null"));
      } else if stack == [] {
        EndsOutsideIff(f, raw);
      } else {
        FeedThen(f, [], raw, Closing(stack));
        ClosingCloses(f, stack);
        EndsOutsideIff(f, raw + Closing(stack));
        var v :| raw + Closing(stack) == Tokens(v) && Unique(f, v);
        assert raw <= Tokens(v);
      }
    }
  }

  // ---- the check as it runs: scopes are objects changed in place ----

  class KeyScope {
    const isObject: bool
    var keys: set<string>
    var expectKey: bool

    constructor (isObject: bool)
      ensures this.isObject == isObject && keys == {} && expectKey == isObject
    {
      this.isObject := isObject;
      keys := {};
      expectKey := isObject;
    }

    function View(): Scope
      reads this
    {
      if isObject then ObjectScope(keys, expectKey) else ArrayScope
    }

    method AddKey(f: Fold, key: string) returns (ok: bool)
      modifies this
      ensures ok == (FoldKey(f, key) !in old(keys))
      ensures ok ==> keys == old(keys) + {FoldKey(f, key)} && !expectKey
      ensures !ok ==> keys == old(keys) && expectKey == old(expectKey)
    {
      var folded := FoldKeyLoop(f, key);
      ok := folded !in keys;
      if ok {
        keys := keys + {folded};
        expectKey := false;
      }
    }
  }

  function StackView(stack: seq<KeyScope>): Stack
    reads stack
  {
    seq(|stack|, i requires 0 <= i < |stack| reads stack => stack[i].View())
  }

  ghost predicate NoAliases(stack: seq<KeyScope>) {
    forall i, j :: 0 <= i < j < |stack| ==> stack[i] != stack[j]
  }

  /** stepKeys with objectKeyStep and containerStep: only the top scope is
      written, and the new stack is what the machine says. */
  method StepKeysInPlace(f: Fold, stack: seq<KeyScope>, tok: Token) returns (next: seq<KeyScope>, ok: bool)
    requires NoAliases(stack) && Delivers(StackView(stack), tok)
    modifies if stack == [] then {} else {stack[|stack| - 1]}
    ensures NoAliases(next)
    ensures forall s <- next :: s in stack || fresh(s)
    ensures StepKeys(f, old(StackView(stack)), tok) == if ok then Some(StackView(next)) else None
  {
    next, ok := stack, true;
    if stack != [] && stack[|stack| - 1].isObject {
      var top := stack[|stack| - 1];
      if top.expectKey {
        if tok.CloseObject? {
          next := stack[..|stack| - 1];
          assert StackView(next) == StackView(stack)[..|stack| - 1];
        } else {
          ok := top.AddKey(f, tok.text);
          assert ok ==> StackView(stack) == AddKey(f, old(StackView(stack)), tok.text).value;
        }
        return;
      }
      top.expectKey := true;
    }
    ghost var mid := StackView(stack);
    assert mid == Advance(old(StackView(stack)));
    assert StepKeys(f, old(StackView(stack)), tok) == Some(ContainerStep(mid, tok));
    match tok
    case OpenObject =>
      var scope := new KeyScope(true);
      next := stack + [scope];
      assert StackView(next) == mid + [ObjectScope({}, true)];
    case OpenArray =>
      var scope := new KeyScope(false);
      next := stack + [scope];
      assert StackView(next) == mid + [ArrayScope];
    case CloseArray =>
      next := stack[..|stack| - 1];
      assert StackView(next) == mid[..|stack| - 1];
    case _ =>
  }

  /** checkUniqueKeys on the decoder's token stream. */
  method CheckUniqueKeys(f: Fold, raw: seq<Token>) returns (ok: bool)
    ensures ok == Feed(f, [], raw).Some?
    ensures ok <==> exists v :: raw <= Tokens(v) && Unique(f, v)
    ensures forall v :: raw == Tokens(v) ==> ok == Unique(f, v)
  {
    CheckAcceptsIff(f, raw);
    forall v | raw == Tokens(v)
      ensures Feed(f, [], raw).Some? == Unique(f, v)
    {
      CheckDecidesUnique(f, v);
    }
    var stack: seq<KeyScope> := [];
    for i := 0 to |raw|
      invariant NoAliases(stack) && forall s <- stack :: fresh(s)
      invariant Feed(f, [], raw) == Feed(f, StackView(stack), raw[i..])
    {
      var toks := raw[i..];
      assert toks[1..] == raw[i + 1..];
      if !Delivers(StackView(stack), raw[i]) {
        return false;
      }
      var good;
      assert stack != [] ==> stack[|stack| - 1] in stack;
      stack, good := StepKeysInPlace(f, stack, raw[i]);
      if !good {
        return false;
      }
      if stack == [] && More(raw[i + 1..]) {
        return false;
      }
    }
    return true;
  }
}
