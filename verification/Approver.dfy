/** The pattern approver: allow and deny rules over canonical tool input.

    Regular expressions are opaque predicates handed out by a compiler that may
    fail. A field rule looks its field up by ranging over a map, so the order of
    that iteration is an input of the model. */
module Approver {
  import opened Base
  import opened Folding
  import opened Json
  import opened KeyCheck
  import opened Canonical

  datatype Decision = Allow | Deny

  datatype Regex = Regex(onText: string -> bool, onInput: Input -> bool)

  type Compiler = string -> Option<Regex>

  datatype PatternRule = PatternRule(toolName: string, match_: string, field: string)

  datatype CompiledRule = CompiledRule(toolName: string, foldTool: bool, field: string, regex: Option<Regex>)

  type Fields = map<string, Meaning>

  // ---- equality under folding, computed ----

  function FoldEqual(f: Fold, a: string, b: string): (r: bool)
    ensures r <==> EqualFold(f, a, b)
  {
    FoldKeyClass(f, a, b);
    FoldKey(f, a) == FoldKey(f, b)
  }

  // ---- the top-level object of a canonical input ----

  /** A non-object input leaves the object empty. */
  function TopObject(canonical: Input): Fields {
    match ParseValue(canonical)
    case Got(Obj(members), _) => DenoteMembers(members)
    case _ => map[]
  }

  ghost predicate FoldDistinct(f: Fold, fields: Fields) {
    forall a, b :: a in fields && b in fields && EqualFold(f, a, b) ==> a == b
  }

  function AsText(m: Meaning): Option<string> {
    if m.Text? then Some(m.text) else None
  }

  // ---- field lookup under an iteration order ----

  /** `order` visits every key of the object exactly once. */
  ghost predicate IsOrder(order: seq<string>, fields: Fields) {
    && (forall k :: k in order <==> k in fields)
    && (forall i, j :: 0 <= i < j < |order| ==> order[i] != order[j])
  }

  /** The range loop of patternInput.field: the first key equal under folding
      decides, whatever its value is. */
  function Lookup(f: Fold, fields: Fields, order: seq<string>, name: string): Option<string> {
    if order == [] then None
    else if order[0] in fields && FoldEqual(f, order[0], name) then AsText(fields[order[0]])
    else Lookup(f, fields, order[1..], name)
  }

  /** The lookup with no order in it: some key equal under folding holds this text. */
  ghost predicate HoldsText(f: Fold, fields: Fields, name: string, text: string) {
    exists k :: k in fields && EqualFold(f, k, name) && AsText(fields[k]) == Some(text)
  }

  lemma {:induction false} LookupStops(f: Fold, fields: Fields, order: seq<string>, name: string, k: string)
    requires k in order && k in fields && EqualFold(f, k, name)
    ensures exists j :: 0 <= j < |order| && order[j] in fields && EqualFold(f, order[j], name)
                     && Lookup(f, fields, order, name) == AsText(fields[order[j]])
  {
    if !(order[0] in fields && FoldEqual(f, order[0], name)) {
      var tail := order[1..];
      LookupStops(f, fields, tail, name, k);
      var j :| 0 <= j < |tail| && tail[j] in fields && EqualFold(f, tail[j], name)
            && Lookup(f, fields, tail, name) == AsText(fields[tail[j]]);
      assert order[j + 1] == tail[j];
    }
  }

  lemma {:induction false} LookupMisses(f: Fold, fields: Fields, order: seq<string>, name: string)
    requires forall k :: k in fields ==> !EqualFold(f, k, name)
    ensures Lookup(f, fields, order, name) == None
  {
    if order != [] {
      LookupMisses(f, fields, order[1..], name);
    }
  }

  /** When no two keys fold together, every iteration order finds exactly the
      text of the one matching key. */
  lemma LookupExact(f: Fold, fields: Fields, order: seq<string>, name: string)
    requires FoldDistinct(f, fields) && IsOrder(order, fields)
    ensures forall text :: Lookup(f, fields, order, name) == Some(text) <==> HoldsText(f, fields, name, text)
  {
    if k :| k in fields && EqualFold(f, k, name) {
      LookupStops(f, fields, order, name, k);
      var j :| 0 <= j < |order| && order[j] in fields && EqualFold(f, order[j], name)
            && Lookup(f, fields, order, name) == AsText(fields[order[j]]);
      forall x | x in fields && EqualFold(f, x, name)
        ensures x == order[j]
      {
        EqualFoldIsEquivalence(f, order[j], name, x);
        EqualFoldIsEquivalence(f, x, name, x);
      }
    } else {
      LookupMisses(f, fields, order, name);
    }
  }

  ghost predicate OrderFree(f: Fold, fields: Fields) {
    forall o, p, name :: IsOrder(o, fields) && IsOrder(p, fields)
      ==> Lookup(f, fields, o, name) == Lookup(f, fields, p, name)
  }

  lemma {:induction false} OrderStartingAt(keys: set<string>, k: string) returns (order: seq<string>)
    requires k in keys
    ensures |order| > 0 && order[0] == k
    ensures forall x :: x in order <==> x in keys
    ensures forall i, j :: 0 <= i < j < |order| ==> order[i] != order[j]
    decreases |keys|
  {
    var others := keys - {k};
    if others == {} {
      order := [k];
    } else {
      var x :| x in others;
      var tail := OrderStartingAt(others, x);
      order := [k] + tail;
    }
  }

  /** Exactly when the lookup does not depend on the iteration order: keys that
      fold together must hold the same text. */
  lemma OrderFreeIff(f: Fold, fields: Fields)
    ensures OrderFree(f, fields)
       <==> forall a, b :: a in fields && b in fields && EqualFold(f, a, b) ==> AsText(fields[a]) == AsText(fields[b])
  {
    if OrderFree(f, fields) {
      forall a, b | a in fields && b in fields && EqualFold(f, a, b)
        ensures AsText(fields[a]) == AsText(fields[b])
      {
        var o := OrderStartingAt(fields.Keys, a);
        var p := OrderStartingAt(fields.Keys, b);
        EqualFoldIsEquivalence(f, a, b, b);
        EqualFoldIsEquivalence(f, b, b, b);
        assert IsOrder(o, fields) && IsOrder(p, fields);
        assert Lookup(f, fields, o, b) == Lookup(f, fields, p, b);
      }
    }
    if forall a, b :: a in fields && b in fields && EqualFold(f, a, b) ==> AsText(fields[a]) == AsText(fields[b]) {
      forall o, p, name | IsOrder(o, fields) && IsOrder(p, fields)
        ensures Lookup(f, fields, o, name) == Lookup(f, fields, p, name)
      {
        SameTextSameLookup(f, fields, o, p, name);
      }
    }
  }

  lemma SameTextSameLookup(f: Fold, fields: Fields, o: seq<string>, p: seq<string>, name: string)
    requires IsOrder(o, fields) && IsOrder(p, fields)
    requires forall a, b :: a in fields && b in fields && EqualFold(f, a, b) ==> AsText(fields[a]) == AsText(fields[b])
    ensures Lookup(f, fields, o, name) == Lookup(f, fields, p, name)
  {
    if k :| k in fields && EqualFold(f, k, name) {
      LookupStops(f, fields, o, name, k);
      LookupStops(f, fields, p, name, k);
      var i :| 0 <= i < |o| && o[i] in fields && EqualFold(f, o[i], name)
            && Lookup(f, fields, o, name) == AsText(fields[o[i]]);
      var j :| 0 <= j < |p| && p[j] in fields && EqualFold(f, p[j], name)
            && Lookup(f, fields, p, name) == AsText(fields[p[j]]);
      EqualFoldIsEquivalence(f, p[j], name, name);
      EqualFoldIsEquivalence(f, o[i], name, p[j]);
    } else {
      LookupMisses(f, fields, o, name);
      LookupMisses(f, fields, p, name);
    }
  }

  // ---- canonical inputs have fold-distinct keys ----

  lemma {:induction false} AbsentEverywhere(f: Fold, k: string, members: Members)
    requires Absent(f, k, members)
    ensures forall x <- KeySet(members) :: !EqualFold(f, k, x)
  {
    match members
    case NoMembers =>
    case Field(_, _, more) => AbsentEverywhere(f, k, more);
  }

  lemma {:induction false} UniqueIsFoldDistinct(f: Fold, members: Members)
    requires UniqueMembers(f, members)
    ensures FoldDistinct(f, DenoteMembers(members))
  {
    DenoteKeys(members);
    match members
    case NoMembers =>
    case Field(k, _, more) =>
      UniqueIsFoldDistinct(f, more);
      DenoteKeys(more);
      AbsentEverywhere(f, k, more);
      forall a, b | a in KeySet(members) && b in KeySet(members) && EqualFold(f, a, b)
        ensures a == b
      {
        EqualFoldIsEquivalence(f, a, b, a);
      }
  }

  lemma CanonicalObjectDistinct(f: Fold, raw: Input)
    requires CanonicalInput(f, raw).Some?
    ensures FoldDistinct(f, TopObject(CanonicalInput(f, raw).value))
  {
    var out := CanonicalInput(f, raw).value;
    CanonicalIdempotent(f, raw);
    CanonicalAccepts(f, out);
    if out != [] {
      var v :| out == Tokens(v) && Unique(f, v);
      ParseTokens(v, []);
      assert Tokens(v) + [] == Tokens(v);
      if v.Obj? {
        UniqueIsFoldDistinct(f, v.members);
      }
    }
  }

  // ---- rules ----

  function CompileRule(compile: Compiler, r: PatternRule, foldTool: bool): Option<CompiledRule> {
    var expr := if r.field != "" then "^(?:" + r.match_ + ")$" else r.match_;
    if expr == "" then Some(CompiledRule(r.toolName, foldTool, r.field, None))
    else
      match compile(expr)
      case None => None
      case Some(re) => Some(CompiledRule(r.toolName, foldTool, r.field, Some(re)))
  }

  /** compileRules: one bad pattern fails the whole list. */
  function CompileRules(compile: Compiler, rules: seq<PatternRule>, foldTool: bool): Option<seq<CompiledRule>> {
    if rules == [] then Some([])
    else
      match CompileRule(compile, rules[0], foldTool)
      case None => None
      case Some(first) =>
        match CompileRules(compile, rules[1..], foldTool)
        case None => None
        case Some(others) => Some([first] + others)
  }

  predicate ToolMatches(f: Fold, r: CompiledRule, tool: string) {
    if r.toolName == "" then true
    else if r.foldTool then FoldEqual(f, r.toolName, tool)
    else r.toolName == tool
  }

  /** compiledRule.matches with the iteration order its lookup happened to use. */
  predicate Matches(f: Fold, r: CompiledRule, tool: string, canonical: Input, order: seq<string>) {
    && ToolMatches(f, r, tool)
    && if r.field != "" then
         match Lookup(f, TopObject(canonical), order, r.field)
         case None => false
         case Some(text) => r.regex.Some? && r.regex.value.onText(text)
       else
         r.regex.None? || r.regex.value.onInput(canonical)
  }

  /** One iteration order per rule position; each lookup may see another one. */
  type Orders = nat -> seq<string>

  predicate AnyMatches(f: Fold, rules: seq<CompiledRule>, tool: string, canonical: Input, orders: Orders) {
    exists i :: 0 <= i < |rules| && Matches(f, rules[i], tool, canonical, orders(i))
  }

  datatype Policy = Policy(allow: seq<PatternRule>, deny: seq<PatternRule>, default: Decision)

  /** PatternApprover.Approve. A list that does not compile and an input that is
      not canonical are denied; then a deny match, then an allow match, then the
      default decide. */
  function Approve(f: Fold, compile: Compiler, p: Policy, tool: string, raw: Input,
                   denyOrders: Orders, allowOrders: Orders): Decision {
    match (CompileRules(compile, p.allow, false), CompileRules(compile, p.deny, true), CanonicalInput(f, raw))
    case (Some(allow), Some(deny), Some(canonical)) =>
      if AnyMatches(f, deny, tool, canonical, denyOrders) then Deny
      else if AnyMatches(f, allow, tool, canonical, allowOrders) || p.default == Allow then Allow
      else Deny
    case _ => Deny
  }

  ghost predicate AreOrders(orders: Orders, fields: Fields) {
    forall i :: IsOrder(orders(i), fields)
  }

  // ---- the decision with no order in it ----

  ghost predicate RuleApplies(f: Fold, r: CompiledRule, tool: string, canonical: Input) {
    && ToolMatches(f, r, tool)
    && if r.field != "" then
         exists text :: HoldsText(f, TopObject(canonical), r.field, text)
                     && r.regex.Some? && r.regex.value.onText(text)
       else
         r.regex.None? || r.regex.value.onInput(canonical)
  }

  ghost predicate SomeApplies(f: Fold, rules: seq<CompiledRule>, tool: string, canonical: Input) {
    exists i :: 0 <= i < |rules| && RuleApplies(f, rules[i], tool, canonical)
  }

  /** Allowed exactly when everything compiles, the input is canonical, no deny
      rule applies, and an allow rule applies or the default allows. */
  ghost predicate Allows(f: Fold, compile: Compiler, p: Policy, tool: string, raw: Input) {
    var allow := CompileRules(compile, p.allow, false);
    var deny := CompileRules(compile, p.deny, true);
    var canonical := CanonicalInput(f, raw);
    && allow.Some? && deny.Some? && canonical.Some?
    && !SomeApplies(f, deny.value, tool, canonical.value)
    && (SomeApplies(f, allow.value, tool, canonical.value) || p.default == Allow)
  }

  lemma MatchesIsApplies(f: Fold, r: CompiledRule, tool: string, canonical: Input, order: seq<string>)
    requires FoldDistinct(f, TopObject(canonical)) && IsOrder(order, TopObject(canonical))
    ensures Matches(f, r, tool, canonical, order) <==> RuleApplies(f, r, tool, canonical)
  {
    LookupExact(f, TopObject(canonical), order, r.field);
  }

  lemma AnyMatchesIsSomeApplies(f: Fold, rules: seq<CompiledRule>, tool: string, canonical: Input, orders: Orders)
    requires FoldDistinct(f, TopObject(canonical)) && AreOrders(orders, TopObject(canonical))
    ensures AnyMatches(f, rules, tool, canonical, orders) <==> SomeApplies(f, rules, tool, canonical)
  {
    forall i | 0 <= i < |rules|
      ensures Matches(f, rules[i], tool, canonical, orders(i)) <==> RuleApplies(f, rules[i], tool, canonical)
    {
      MatchesIsApplies(f, rules[i], tool, canonical, orders(i));
    }
  }

  /** For any raw input and whatever orders the lookups happen to use, the
      approver allows exactly what `Allows` says, which mentions no order. */
  lemma ApproveIsAllows(f: Fold, compile: Compiler, p: Policy, tool: string, raw: Input, d: Orders, a: Orders)
    requires CanonicalInput(f, raw).Some? ==>
      var fields := TopObject(CanonicalInput(f, raw).value);
      AreOrders(d, fields) && AreOrders(a, fields)
    ensures Approve(f, compile, p, tool, raw, d, a) == Allow <==> Allows(f, compile, p, tool, raw)
  {
    var canonical := CanonicalInput(f, raw);
    var allow := CompileRules(compile, p.allow, false);
    var deny := CompileRules(compile, p.deny, true);
    if canonical.Some? && allow.Some? && deny.Some? {
      CanonicalObjectDistinct(f, raw);
      AnyMatchesIsSomeApplies(f, deny.value, tool, canonical.value, d);
      AnyMatchesIsSomeApplies(f, allow.value, tool, canonical.value, a);
    }
  }

  /** Canonicalising first cannot change the verdict: the approver judges the
      bytes that will run. */
  lemma ApproveOnCanonical(f: Fold, compile: Compiler, p: Policy, tool: string, raw: Input, d: Orders, a: Orders)
    requires CanonicalInput(f, raw).Some?
    ensures Approve(f, compile, p, tool, CanonicalInput(f, raw).value, d, a) == Approve(f, compile, p, tool, raw, d, a)
  {
    CanonicalIdempotent(f, raw);
  }

  // ---- as it runs: decode once, compile once, range in any order ----

  class PatternInput {
    const canonical: Input
    var decoded: bool
    var fields: Fields

    ghost predicate Valid()
      reads this
    {
      decoded ==> fields == TopObject(canonical)
    }

    constructor (canonical: Input)
      ensures Valid() && this.canonical == canonical && !decoded
    {
      this.canonical := canonical;
      decoded := false;
      fields := map[];
    }

    /** The key visited next is any key not yet visited. */
    method Field(f: Fold, name: string) returns (r: Option<string>)
      requires Valid() && FoldDistinct(f, TopObject(canonical))
      modifies this
      ensures Valid()
      ensures forall text :: r == Some(text) <==> HoldsText(f, TopObject(canonical), name, text)
    {
      if !decoded {
        decoded := true;
        fields := TopObject(canonical);
      }
      var left := fields.Keys;
      while left != {}
        invariant Valid() && decoded && left <= fields.Keys
        invariant forall k :: k in fields && k !in left ==> !EqualFold(f, k, name)
        decreases |left|
      {
        var k :| k in left;
        if FoldEqual(f, k, name) {
          r := AsText(fields[k]);
          forall x | x in fields && EqualFold(f, x, name)
            ensures x == k
          {
            EqualFoldIsEquivalence(f, k, name, x);
            EqualFoldIsEquivalence(f, x, name, x);
          }
          return;
        }
        left := left - {k};
      }
      r := None;
    }

    method AnyRuleMatches(f: Fold, rules: seq<CompiledRule>, tool: string) returns (found: bool)
      requires Valid() && FoldDistinct(f, TopObject(canonical))
      modifies this
      ensures Valid()
      ensures found == SomeApplies(f, rules, tool, canonical)
    {
      for i := 0 to |rules|
        invariant Valid()
        invariant forall j :: 0 <= j < i ==> !RuleApplies(f, rules[j], tool, canonical)
      {
        var r := rules[i];
        var hit := ToolMatches(f, r, tool);
        if hit && r.field != "" {
          var v := Field(f, r.field);
          hit := v.Some? && r.regex.Some? && r.regex.value.onText(v.value);
        } else if hit {
          hit := r.regex.None? || r.regex.value.onInput(canonical);
        }
        assert hit == RuleApplies(f, r, tool, canonical);
        if hit {
          return true;
        }
      }
      return false;
    }
  }

  class PatternApprover {
    const compile: Compiler
    const policy: Policy
    var once: bool
    var allow: seq<CompiledRule>
    var deny: seq<CompiledRule>
    var failed: bool

    /** Once compiled, the fields hold what the policy compiles to. */
    ghost predicate Valid()
      reads this
    {
      once ==>
        var a := CompileRules(compile, policy.allow, false);
        var d := CompileRules(compile, policy.deny, true);
        if failed then a.None? || d.None? else a == Some(allow) && d == Some(deny)
    }

    constructor (compile: Compiler, policy: Policy)
      ensures Valid() && this.compile == compile && this.policy == policy && !once
    {
      this.compile := compile;
      this.policy := policy;
      once, allow, deny, failed := false, [], [], false;
    }

    method Approve(f: Fold, tool: string, raw: Input) returns (d: Decision)
      requires Valid()
      modifies this
      ensures Valid()
      ensures d == Allow <==> Allows(f, compile, policy, tool, raw)
    {
      if !once {
        once := true;
        match (CompileRules(compile, policy.allow, false), CompileRules(compile, policy.deny, true)) {
          case (Some(a), Some(b)) => allow, deny, failed := a, b, false;
          case _ => failed := true;
        }
      }
      if failed {
        return Deny;
      }
      match CanonicalInput(f, raw)
      case None =>
        return Deny;
      case Some(canonical) =>
        CanonicalObjectDistinct(f, raw);
        var input := new PatternInput(canonical);
        var denied := input.AnyRuleMatches(f, deny, tool);
        if denied {
          return Deny;
        }
        var allowed := input.AnyRuleMatches(f, allow, tool);
        return if allowed || policy.default == Allow then Allow else Deny;
    }
  }
}
