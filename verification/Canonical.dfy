/** Canonical tool input: the one form that approver, hook and tool all see. */
module Canonical {
  import opened Base
  import opened Folding
  import opened Json
  import opened KeyCheck

  /** A tool input as lexed; white space only is the empty sequence. */
  type Input = seq<Token>

  // ---- the order in which the encoder writes keys ----

  predicate Less(a: string, b: string) {
    if b == [] then false
    else if a == [] then true
    else if a[0] != b[0] then a[0] < b[0]
    else Less(a[1..], b[1..])
  }

  lemma {:induction false} LessTotal(a: string, b: string)
    ensures a == b || Less(a, b) || Less(b, a)
    ensures !(Less(a, b) && (Less(b, a) || a == b))
  {
    if a != [] && b != [] && a[0] == b[0] {
      LessTotal(a[1..], b[1..]);
      assert a == [a[0]] + a[1..] && b == [b[0]] + b[1..];
    }
  }

  lemma {:induction false} LessTransitive(a: string, b: string, c: string)
    requires Less(a, b) && Less(b, c)
    ensures Less(a, c)
  {
    if a != [] && a[0] == b[0] == c[0] {
      LessTransitive(a[1..], b[1..], c[1..]);
    }
  }

  // ---- re-encoding with sorted keys ----

  function Sort(v: Value): Value {
    match v
    case Str(_) => v
    case Literal(_) => v
    case Arr(items) => Arr(SortItems(items))
    case Obj(members) => Obj(SortMembers(members))
  }

  function SortItems(items: Items): Items {
    match items
    case NoItems => NoItems
    case Item(v, rest) => Item(Sort(v), SortItems(rest))
  }

  function SortMembers(members: Members): Members {
    match members
    case NoMembers => NoMembers
    case Field(k, v, more) => Insert(k, Sort(v), SortMembers(more))
  }

  function Insert(k: string, v: Value, members: Members): Members {
    match members
    case NoMembers => Field(k, v, NoMembers)
    case Field(key, value, more) =>
      if Less(k, key) then Field(k, v, members) else Field(key, value, Insert(k, v, more))
  }

  /** CanonicalInput: check, decode, re-encode. Empty input is the empty object. */
  function CanonicalInput(f: Fold, raw: Input): Option<Input> {
    if raw == [] then Some(Tokens(Obj(NoMembers)))
    else if Feed(f, [], raw).None? then None
    else
      match ParseValue(raw)
      case Failed => None
      case Got(v, _) => Some(Tokens(Sort(v)))
  }

  // ---- what a value denotes, member order forgotten ----

  datatype Meaning =
    | Text(text: string)
    | Plain(literal: string)
    | List(items: seq<Meaning>)
    | Table(fields: map<string, Meaning>)

  function Denote(v: Value): Meaning {
    match v
    case Str(s) => Text(s)
    case Literal(l) => Plain(l)
    case Arr(items) => List(DenoteItems(items))
    case Obj(members) => Table(DenoteMembers(members))
  }

  function DenoteItems(items: Items): seq<Meaning> {
    match items
    case NoItems => []
    case Item(v, rest) => [Denote(v)] + DenoteItems(rest)
  }

  function DenoteMembers(members: Members): map<string, Meaning> {
    match members
    case NoMembers => map[]
    case Field(k, v, more) => DenoteMembers(more)[k := Denote(v)]
  }

  // ---- sorted values ----

  ghost predicate Below(k: string, members: Members) {
    match members
    case NoMembers => true
    case Field(key, _, more) => Less(k, key) && Below(k, more)
  }

  ghost predicate Sorted(v: Value) {
    match v
    case Str(_) => true
    case Literal(_) => true
    case Arr(items) => SortedItems(items)
    case Obj(members) => SortedMembers(members)
  }

  ghost predicate SortedItems(items: Items) {
    match items
    case NoItems => true
    case Item(v, rest) => Sorted(v) && SortedItems(rest)
  }

  ghost predicate SortedMembers(members: Members) {
    match members
    case NoMembers => true
    case Field(k, v, more) => Below(k, more) && Sorted(v) && SortedMembers(more)
  }

  lemma {:induction false} BelowTransitive(a: string, b: string, members: Members)
    requires Less(a, b) && Below(b, members)
    ensures Below(a, members)
  {
    match members
    case NoMembers =>
    case Field(key, _, more) =>
      LessTransitive(a, b, key);
      BelowTransitive(a, b, more);
  }

  lemma {:induction false} BelowInsert(a: string, k: string, v: Value, members: Members)
    requires Less(a, k) && Below(a, members)
    ensures Below(a, Insert(k, v, members))
  {
    match members
    case NoMembers =>
    case Field(_, _, more) => BelowInsert(a, k, v, more);
  }

  lemma {:induction false} InsertSorted(k: string, v: Value, members: Members)
    requires SortedMembers(members) && Sorted(v) && k !in KeySet(members)
    ensures SortedMembers(Insert(k, v, members))
  {
    match members
    case NoMembers =>
    case Field(key, _, more) =>
      LessTotal(k, key);
      if Less(k, key) {
        BelowTransitive(k, key, more);
      } else {
        InsertSorted(k, v, more);
        BelowInsert(key, k, v, more);
      }
  }

  lemma {:induction false} InsertFacts(f: Fold, x: string, k: string, v: Value, members: Members)
    ensures KeySet(Insert(k, v, members)) == KeySet(members) + {k}
    ensures Absent(f, x, Insert(k, v, members)) <==> !EqualFold(f, x, k) && Absent(f, x, members)
  {
    match members
    case NoMembers =>
    case Field(_, _, more) => InsertFacts(f, x, k, v, more);
  }

  lemma {:induction false} InsertUnique(f: Fold, k: string, v: Value, members: Members)
    requires UniqueMembers(f, members) && Unique(f, v) && Absent(f, k, members)
    ensures UniqueMembers(f, Insert(k, v, members))
  {
    match members
    case NoMembers =>
    case Field(key, _, more) =>
      InsertUnique(f, k, v, more);
      InsertFacts(f, key, k, v, more);
      EqualFoldIsEquivalence(f, key, k, key);
  }

  lemma {:induction false} InsertDenotes(k: string, v: Value, members: Members)
    requires k !in KeySet(members)
    ensures DenoteMembers(Insert(k, v, members)) == DenoteMembers(members)[k := Denote(v)]
  {
    match members
    case NoMembers =>
    case Field(_, _, more) => InsertDenotes(k, v, more);
  }

  lemma {:induction false} AbsentNotIn(f: Fold, k: string, members: Members)
    requires Absent(f, k, members)
    ensures k !in KeySet(members)
  {
    match members
    case NoMembers =>
    case Field(key, _, more) =>
      EqualFoldIsEquivalence(f, k, k, k);
      AbsentNotIn(f, k, more);
  }

  /** Sorting a value with unique keys sorts it, keeps its keys unique and
      keeps its meaning. */
  lemma {:induction false} SortFacts(f: Fold, v: Value)
    requires Unique(f, v)
    ensures Sorted(Sort(v)) && Unique(f, Sort(v)) && Denote(Sort(v)) == Denote(v)
    decreases v
  {
    match v
    case Str(_) =>
    case Literal(_) =>
    case Arr(items) => SortItemsFacts(f, items);
    case Obj(members) => SortMembersFacts(f, members);
  }

  lemma {:induction false} SortItemsFacts(f: Fold, items: Items)
    requires UniqueItems(f, items)
    ensures SortedItems(SortItems(items)) && UniqueItems(f, SortItems(items))
    ensures DenoteItems(SortItems(items)) == DenoteItems(items)
    decreases items
  {
    match items
    case NoItems =>
    case Item(v, rest) =>
      SortFacts(f, v);
      SortItemsFacts(f, rest);
  }

  lemma {:induction false} SortMembersFacts(f: Fold, members: Members)
    requires UniqueMembers(f, members)
    ensures SortedMembers(SortMembers(members)) && UniqueMembers(f, SortMembers(members))
    ensures DenoteMembers(SortMembers(members)) == DenoteMembers(members)
    ensures forall k :: Absent(f, k, SortMembers(members)) <==> Absent(f, k, members)
    decreases members
  {
    match members
    case NoMembers =>
    case Field(k, v, more) =>
      var sorted := SortMembers(more);
      SortFacts(f, v);
      SortMembersFacts(f, more);
      AbsentNotIn(f, k, sorted);
      InsertSorted(k, Sort(v), sorted);
      InsertUnique(f, k, Sort(v), sorted);
      InsertDenotes(k, Sort(v), sorted);
      forall x
        ensures Absent(f, x, SortMembers(members)) <==> Absent(f, x, members)
      {
        InsertFacts(f, x, k, Sort(v), sorted);
      }
  }

  // ---- a sorted value is determined by its meaning ----

  lemma {:induction false} DenoteKeys(members: Members)
    ensures DenoteMembers(members).Keys == KeySet(members)
  {
    match members
    case NoMembers =>
    case Field(_, _, more) => DenoteKeys(more);
  }

  lemma {:induction false} BelowKeys(k: string, members: Members)
    requires Below(k, members)
    ensures forall x <- KeySet(members) :: Less(k, x)
    ensures k !in KeySet(members)
  {
    match members
    case NoMembers =>
    case Field(key, _, more) =>
      BelowKeys(k, more);
      LessTotal(k, k);
  }

  lemma {:induction false} SortedDetermined(v: Value, w: Value)
    requires Sorted(v) && Sorted(w) && Denote(v) == Denote(w)
    ensures v == w
    decreases v
  {
    match v
    case Str(_) =>
    case Literal(_) =>
    case Arr(items) => SortedItemsDetermined(items, w.items);
    case Obj(members) => SortedMembersDetermined(members, w.members);
  }

  lemma {:induction false} SortedItemsDetermined(a: Items, b: Items)
    requires SortedItems(a) && SortedItems(b) && DenoteItems(a) == DenoteItems(b)
    ensures a == b
    decreases a
  {
    match a
    case NoItems =>
    case Item(v, rest) =>
      var da, db := DenoteItems(a), DenoteItems(b);
      assert da[0] == db[0] && da[1..] == db[1..];
      SortedDetermined(v, b.head);
      SortedItemsDetermined(rest, b.rest);
  }

  lemma {:induction false} SortedMembersDetermined(a: Members, b: Members)
    requires SortedMembers(a) && SortedMembers(b) && DenoteMembers(a) == DenoteMembers(b)
    ensures a == b
    decreases a
  {
    DenoteKeys(a);
    DenoteKeys(b);
    match a
    case NoMembers =>
    case Field(k, v, more) =>
      assert k in KeySet(b);
      SameLeastKey(a, b);
      BelowKeys(k, more);
      BelowKeys(k, b.more);
      var da, db := DenoteMembers(a), DenoteMembers(b);
      assert da[k] == db[k];
      SortedDetermined(v, b.value);
      DenoteKeys(more);
      DenoteKeys(b.more);
      assert da - {k} == DenoteMembers(more) && db - {k} == DenoteMembers(b.more);
      SortedMembersDetermined(more, b.more);
  }

  lemma SameLeastKey(a: Members, b: Members)
    requires a.Field? && b.Field? && SortedMembers(a) && SortedMembers(b) && KeySet(a) == KeySet(b)
    ensures a.key == b.key
  {
    assert a.key in KeySet(a) && b.key in KeySet(b);
    BelowKeys(a.key, a.more);
    BelowKeys(b.key, b.more);
    LessTotal(a.key, b.key);
  }

  /** Sorting a sorted value changes nothing. */
  lemma SortFixed(f: Fold, v: Value)
    requires Unique(f, v) && Sorted(v)
    ensures Sort(v) == v
  {
    SortFacts(f, v);
    SortedDetermined(Sort(v), v);
  }

  // ---- the laws of CanonicalInput ----

  /** On the text of a value. */
  lemma CanonicalOfValue(f: Fold, v: Value)
    ensures CanonicalInput(f, Tokens(v)) == if Unique(f, v) then Some(Tokens(Sort(v))) else None
  {
    CheckDecidesUnique(f, v);
    ParseTokens(v, []);
    assert Tokens(v) + [] == Tokens(v);
    FirstTokenOpens(v);
  }

  /** Accepted are exactly the blank input and the texts of one value without a
      repeated key; anything malformed, cut short or followed by more is refused. */
  lemma CanonicalAccepts(f: Fold, raw: Input)
    ensures CanonicalInput(f, raw).Some?
       <==> raw == [] || exists v :: raw == Tokens(v) && Unique(f, v)
  {
    if v :| raw == Tokens(v) && Unique(f, v) {
      CanonicalOfValue(f, v);
    }
    if raw != [] && CanonicalInput(f, raw).Some? {
      ParseValueSound(raw);
      var p := ParseValue(raw);
      FeedValue(f, [], p.value, p.rest);
      assert Unique(f, p.value) && Continue(f, [], p.rest).Some?;
      assert p.rest == [];
      assert raw == Tokens(p.value);
    }
  }

  /** The output is the sorted text of a value with unique keys, and it denotes
      what the input denoted (the empty object for a blank input). */
  lemma CanonicalKeepsMeaning(f: Fold, raw: Input, v: Value)
    requires if raw == [] then v == Obj(NoMembers) else raw == Tokens(v) && Unique(f, v)
    ensures CanonicalInput(f, raw) == Some(Tokens(Sort(v)))
    ensures Denote(Sort(v)) == Denote(v) && Unique(f, Sort(v)) && Sorted(Sort(v))
  {
    CanonicalOfValue(f, v);
    SortFacts(f, v);
  }

  /** A second pass changes nothing: what the approver re-canonicalises is
      exactly what it was given. */
  lemma CanonicalIdempotent(f: Fold, raw: Input)
    requires CanonicalInput(f, raw).Some?
    ensures CanonicalInput(f, CanonicalInput(f, raw).value) == CanonicalInput(f, raw)
  {
    CanonicalAccepts(f, raw);
    var v := if raw == [] then Obj(NoMembers) else ParseValue(raw).value;
    if raw != [] {
      var w :| raw == Tokens(w) && Unique(f, w);
      ParseTokens(w, []);
      assert Tokens(w) + [] == Tokens(w);
      assert v == w;
    }
    CanonicalKeepsMeaning(f, raw, v);
    SortFixed(f, Sort(v));
    CanonicalOfValue(f, Sort(v));
  }

  /** Normal form: two accepted texts get the same output exactly when they
      denote the same value up to member order. */
  lemma CanonicalNormalForm(f: Fold, v: Value, w: Value)
    requires Unique(f, v) && Unique(f, w)
    ensures CanonicalInput(f, Tokens(v)) == CanonicalInput(f, Tokens(w)) <==> Denote(v) == Denote(w)
  {
    CanonicalOfValue(f, v);
    CanonicalOfValue(f, w);
    SortFacts(f, v);
    SortFacts(f, w);
    if Tokens(Sort(v)) == Tokens(Sort(w)) {
      ParseTokens(Sort(v), []);
      ParseTokens(Sort(w), []);
    }
    if Denote(v) == Denote(w) {
      SortedDetermined(Sort(v), Sort(w));
    }
  }

  /** A value's text is never cut short by another value's text. */
  lemma NoProperPrefix(v: Value, w: Value)
    requires Tokens(v) <= Tokens(w)
    ensures v == w
  {
    var rest := Tokens(w)[|Tokens(v)|..];
    ParseTokens(v, rest);
    ParseTokens(w, []);
    assert Tokens(v) + rest == Tokens(w) == Tokens(w) + [];
  }

  /** Exactly what the key check lets through and the decoder then refuses: the
      text of a value without repeated keys, begun and cut short. */
  lemma PassesCheckOnlyIff(f: Fold, raw: Input)
    ensures Feed(f, [], raw).Some? && CanonicalInput(f, raw).None?
       <==> raw != [] && exists v :: raw < Tokens(v) && Unique(f, v)
  {
    CheckAcceptsIff(f, raw);
    CanonicalAccepts(f, raw);
    if v :| raw < Tokens(v) && Unique(f, v) {
      if w :| raw == Tokens(w) && Unique(f, w) {
        NoProperPrefix(w, v);
      }
    }
  }

  /** The key check alone lets an unfinished object through; the decoder is what
      refuses it. */
  lemma TruncatedPassesCheckOnly(f: Fold)
    ensures Feed(f, [], [OpenObject]).Some?
    ensures CanonicalInput(f, [OpenObject]).None?
  {
    var empty: Stack := [];
    var stack := [ObjectScope({}, true)];
    assert empty + stack == stack;
    assert StepKeys(f, empty, OpenObject) == Some(stack);
    assert [OpenObject][1..] == [];
    assert Continue(f, stack, []) == Feed(f, stack, []) == Some(stack);
    assert ParseMembers([]) == Failed;
  }
}
