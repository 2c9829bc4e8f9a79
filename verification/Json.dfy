/** JSON values and the token stream a streaming decoder hands out for them.

    The decoder consumes commas and colons itself, so a stream holds only
    delimiters and scalars; `Bad` stands for a place where lexing fails. */
module Json {
  datatype Token =
    | OpenObject | CloseObject | OpenArray | CloseArray
    | StringToken(text: string)
    | Atom(literal: string)   // a number literal, true, false or null
    | Bad

  datatype Value =
    | Str(text: string)
    | Literal(literal: string)
    | Arr(items: Items)
    | Obj(members: Members)

  datatype Items = NoItems | Item(head: Value, rest: Items)

  datatype Members = NoMembers | Field(key: string, value: Value, more: Members)

  function Tokens(v: Value): seq<Token> {
    match v
    case Str(s) => [StringToken(s)]
    case Literal(l) => [Atom(l)]
    case Arr(items) => [OpenArray] + ItemTokens(items)
    case Obj(members) => [OpenObject] + MemberTokens(members)
  }

  /** The tokens of the remaining elements and the bracket that ends them. */
  function ItemTokens(items: Items): seq<Token> {
    match items
    case NoItems => [CloseArray]
    case Item(v, rest) => Tokens(v) + ItemTokens(rest)
  }

  /** The tokens of the remaining members and the brace that ends them. */
  function MemberTokens(members: Members): seq<Token> {
    match members
    case NoMembers => [CloseObject]
    case Field(k, v, more) => [StringToken(k)] + (Tokens(v) + MemberTokens(more))
  }

  function KeySet(members: Members): set<string> {
    match members
    case NoMembers => {}
    case Field(k, _, more) => {k} + KeySet(more)
  }

  datatype Parsed<+T> = Failed | Got(value: T, rest: seq<Token>)

  /** Recursive-descent reader: one value from the front of a stream. */
  function ParseValue(toks: seq<Token>): (p: Parsed<Value>)
    ensures p.Got? ==> |p.rest| < |toks|
    decreases |toks|, 0
  {
    if toks == [] then Failed else
    match toks[0]
    case StringToken(s) => Got(Str(s), toks[1..])
    case Atom(l) => Got(Literal(l), toks[1..])
    case OpenArray =>
      (match ParseItems(toks[1..])
       case Failed => Failed
       case Got(items, rest) => Got(Arr(items), rest))
    case OpenObject =>
      (match ParseMembers(toks[1..])
       case Failed => Failed
       case Got(members, rest) => Got(Obj(members), rest))
    case _ => Failed
  }

  function ParseItems(toks: seq<Token>): (p: Parsed<Items>)
    ensures p.Got? ==> |p.rest| < |toks|
    decreases |toks|, 1
  {
    if toks == [] then Failed
    else if toks[0] == CloseArray then Got(NoItems, toks[1..])
    else
      match ParseValue(toks)
      case Failed => Failed
      case Got(v, rest) =>
        match ParseItems(rest)
        case Failed => Failed
        case Got(items, last) => Got(Item(v, items), last)
  }

  function ParseMembers(toks: seq<Token>): (p: Parsed<Members>)
    ensures p.Got? ==> |p.rest| < |toks|
    decreases |toks|, 1
  {
    if toks == [] then Failed
    else if toks[0] == CloseObject then Got(NoMembers, toks[1..])
    else if !toks[0].StringToken? then Failed
    else
      match ParseValue(toks[1..])
      case Failed => Failed
      case Got(v, rest) =>
        match ParseMembers(rest)
        case Failed => Failed
        case Got(members, last) => Got(Field(toks[0].text, v, members), last)
  }

  /** The reader accepts only what the printer writes. */
  lemma {:induction false} ParseValueSound(toks: seq<Token>)
    ensures var p := ParseValue(toks); p.Got? ==> toks == Tokens(p.value) + p.rest
    decreases |toks|, 0
  {
    if toks != [] {
      ParseItemsSound(toks[1..]);
      ParseMembersSound(toks[1..]);
    }
  }

  lemma {:induction false} ParseItemsSound(toks: seq<Token>)
    ensures var p := ParseItems(toks); p.Got? ==> toks == ItemTokens(p.value) + p.rest
    decreases |toks|, 1
  {
    if toks != [] && toks[0] != CloseArray {
      ParseValueSound(toks);
      var p := ParseValue(toks);
      if p.Got? {
        ParseItemsSound(p.rest);
      }
    }
  }

  lemma {:induction false} ParseMembersSound(toks: seq<Token>)
    ensures var p := ParseMembers(toks); p.Got? ==> toks == MemberTokens(p.value) + p.rest
    decreases |toks|, 1
  {
    if toks != [] && toks[0].StringToken? {
      ParseValueSound(toks[1..]);
      var p := ParseValue(toks[1..]);
      if p.Got? {
        ParseMembersSound(p.rest);
      }
    }
  }

  /** Reading back what was written gives the value and leaves the suffix:
      with `ParseValueSound` the reader is exactly the inverse of
      `Tokens`, so a stream denotes at most one value. */
  lemma {:induction false} ParseTokens(v: Value, rest: seq<Token>)
    ensures ParseValue(Tokens(v) + rest) == Got(v, rest)
    decreases v
  {
    var toks := Tokens(v) + rest;
    match v
    case Str(_) =>
    case Literal(_) =>
    case Arr(items) =>
      ParseItemTokens(items, rest);
      assert toks[1..] == ItemTokens(items) + rest;
    case Obj(members) =>
      ParseMemberTokens(members, rest);
      assert toks[1..] == MemberTokens(members) + rest;
  }

  lemma {:induction false} ParseItemTokens(items: Items, rest: seq<Token>)
    ensures ParseItems(ItemTokens(items) + rest) == Got(items, rest)
    decreases items
  {
    match items
    case NoItems =>
    case Item(v, tail) =>
      FirstTokenOpens(v);
      ParseItemTokens(tail, rest);
      ParseTokens(v, ItemTokens(tail) + rest);
      assert ItemTokens(items) + rest == Tokens(v) + (ItemTokens(tail) + rest);
  }

  lemma {:induction false} ParseMemberTokens(members: Members, rest: seq<Token>)
    ensures ParseMembers(MemberTokens(members) + rest) == Got(members, rest)
    decreases members
  {
    match members
    case NoMembers =>
    case Field(k, v, more) =>
      var tail := MemberTokens(more) + rest;
      ParseMemberTokens(more, rest);
      ParseTokens(v, tail);
      ParseField(k, Tokens(v) + tail);
      assert MemberTokens(members) + rest == [StringToken(k)] + (Tokens(v) + tail);
  }

  /** One step of the member reader. */
  lemma ParseField(k: string, toks: seq<Token>)
    ensures var p := ParseValue(toks);
      p.Got? ==>
      var q := ParseMembers(p.rest);
      q.Got? ==>
      ParseMembers([StringToken(k)] + toks) == Got(Field(k, p.value, q.value), q.rest)
  {
    assert ([StringToken(k)] + toks)[1..] == toks;
  }

  /** The first token of a value is never a closing delimiter. */
  lemma FirstTokenOpens(v: Value)
    ensures |Tokens(v)| > 0
    ensures Tokens(v)[0] !in {CloseObject, CloseArray, Bad}
  {
  }
}
