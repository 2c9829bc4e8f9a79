/** Identities lent to the tool calls of running turns, counted by loan. */
module Identity {
  import opened Base

  datatype Person = Person(subject: string, roles: seq<string>)

  datatype Lent = Lent(id: Person, refs: int)

  /** A leave closure: the entry and session it captured, or nothing. */
  datatype Capture = Nothing | Ends(entry: nat, session: string)

  /** The shared map, the entries ever made, and the closures handed out. */
  datatype State = State(m: map<string, nat>, entries: seq<Lent>, leaves: seq<Capture>)

  /** `Leave(k)` calls the closure that the k-th enter returned. */
  datatype Op = Enter(session: string, id: Person) | Leave(k: nat)

  function Step(s: State, op: Op): State {
    match op
    case Enter(session, id) =>
      if session == "" then s.(leaves := s.leaves + [Nothing])
      else if session in s.m && s.m[session] < |s.entries| then
        var e := s.m[session];
        State(s.m, s.entries[e := Lent(id, s.entries[e].refs + 1)], s.leaves + [Ends(e, session)])
      else
        State(s.m[session := |s.entries|], s.entries + [Lent(id, 1)], s.leaves + [Ends(|s.entries|, session)])
    case Leave(k) =>
      if k < |s.leaves| && s.leaves[k].Ends? && s.leaves[k].entry < |s.entries| then
        var e := s.leaves[k].entry;
        var n := s.entries[e].refs - 1;
        State(if n == 0 then s.m - {s.leaves[k].session} else s.m,
              s.entries[e := s.entries[e].(refs := n)], s.leaves)
      else s
  }

  function Run(ops: seq<Op>): State {
    if ops == [] then State(map[], [], []) else Step(Run(ops[..|ops| - 1]), ops[|ops| - 1])
  }

  function Lookup(s: State, session: string): Option<Person> {
    if session in s.m && s.m[session] < |s.entries| then Some(s.entries[s.m[session]].id) else None
  }

  // ---- what the history says ----

  function Enters(ops: seq<Op>): seq<Op> {
    if ops == [] then []
    else Enters(ops[..|ops| - 1]) + if ops[|ops| - 1].Enter? then [ops[|ops| - 1]] else []
  }

  predicate Left(ops: seq<Op>, k: nat) {
    Leave(k) in ops
  }

  /** The loans of `session` not ended yet. */
  function Open(ops: seq<Op>, session: string): set<nat> {
    set k: nat | k < |Enters(ops)| && Enters(ops)[k].Enter? && Enters(ops)[k].session == session && !Left(ops, k)
  }

  /** The identity of the latest enter for `session`. */
  function Latest(ops: seq<Op>, session: string): Option<Person> {
    if ops == [] then None
    else if ops[|ops| - 1].Enter? && ops[|ops| - 1].session == session then Some(ops[|ops| - 1].id)
    else Latest(ops[..|ops| - 1], session)
  }

  /** Every closure is called at most once, and only after it was handed out. */
  predicate OnceEach(ops: seq<Op>) {
    ops == []
    || (var front, last := ops[..|ops| - 1], ops[|ops| - 1];
        OnceEach(front) && (last.Leave? ==> last.k < |Enters(front)| && !Left(front, last.k)))
  }

  /** The machine agrees with the history, session by session. */
  ghost predicate Agrees(ops: seq<Op>, s: State) {
    && Shape(s, Enters(ops))
    && forall x :: x != "" ==> SessionIs(s, x, Open(ops, x), Latest(ops, x))
  }

  /** Every closure is the one its enter asked for; sessions share no entry. */
  ghost predicate Shape(s: State, enters: seq<Op>) {
    && |s.leaves| == |enters|
    && (forall k :: 0 <= k < |enters| ==> enters[k].Enter? && LoanOk(s, enters[k].session, s.leaves[k]))
    && (forall x, y :: x in s.m && y in s.m && s.m[x] == s.m[y] ==> x == y)
    && (forall x :: x in s.m ==> s.m[x] < |s.entries|)
    && "" !in s.m
  }

  predicate LoanOk(s: State, session: string, leave: Capture) {
    if session == "" then leave == Nothing else leave.Ends? && leave.session == session && leave.entry < |s.entries|
  }

  /** An entry exactly while loans are open; as many counted as are open; every
      open loan refers to it; it holds the identity entered last. */
  ghost predicate SessionIs(s: State, x: string, open: set<nat>, latest: Option<Person>) {
    && (x in s.m <==> open != {})
    && (x in s.m ==> s.m[x] < |s.entries|
                     && s.entries[s.m[x]].refs == |open| && latest == Some(s.entries[s.m[x]].id))
    && (forall k :: k in open ==> k < |s.leaves| && x in s.m && s.leaves[k] == Ends(s.m[x], x))
  }

  lemma OpenAfterEnter(ops: seq<Op>, op: Op, x: string)
    requires op.Enter? && !Left(ops, |Enters(ops)|)
    ensures Enters(ops + [op]) == Enters(ops) + [op]
    ensures Open(ops + [op], x) == Open(ops, x) + if op.session == x then {|Enters(ops)|} else {}
    ensures Latest(ops + [op], x) == if op.session == x then Some(op.id) else Latest(ops, x)
  {
    assert (ops + [op])[..|ops|] == ops;
    assert forall k: nat :: Left(ops + [op], k) == Left(ops, k);
  }

  lemma OpenAfterLeave(ops: seq<Op>, k: nat, x: string)
    ensures Enters(ops + [Leave(k)]) == Enters(ops)
    ensures Open(ops + [Leave(k)], x) == Open(ops, x) - {k}
    ensures Latest(ops + [Leave(k)], x) == Latest(ops, x)
  {
    assert (ops + [Leave(k)])[..|ops|] == ops;
    assert forall l: nat :: Left(ops + [Leave(k)], l) == (Left(ops, l) || l == k);
  }

  /** Closures are called only after they were handed out. */
  lemma {:induction false} LeftWasEntered(ops: seq<Op>, k: nat)
    requires OnceEach(ops) && Left(ops, k)
    ensures k < |Enters(ops)|
  {
    var front, last := ops[..|ops| - 1], ops[|ops| - 1];
    assert ops == front + [last];
    if last != Leave(k) {
      LeftWasEntered(front, k);
    }
  }

  lemma EnterMine(s: State, x: string, id: Person, open: set<nat>, latest: Option<Person>)
    requires SessionIs(s, x, open, latest) && x != "" && |s.leaves| !in open
    ensures SessionIs(Step(s, Enter(x, id)), x, open + {|s.leaves|}, Some(id))
  {
    assert |open + {|s.leaves|}| == |open| + 1;
  }

  lemma EnterOther(s: State, enters: seq<Op>, op: Op, x: string, open: set<nat>, latest: Option<Person>)
    requires Shape(s, enters) && SessionIs(s, x, open, latest) && op.Enter? && op.session != x
    ensures SessionIs(Step(s, op), x, open, latest)
  {
  }

  lemma EnterShape(s: State, enters: seq<Op>, op: Op)
    requires Shape(s, enters) && op.Enter?
    ensures Shape(Step(s, op), enters + [op])
  {
  }

  lemma EnterAgrees(ops: seq<Op>, s: State, op: Op)
    requires Agrees(ops, s) && op.Enter? && !Left(ops, |Enters(ops)|)
    ensures Agrees(ops + [op], Step(s, op))
  {
    OpenAfterEnter(ops, op, op.session);
    EnterShape(s, Enters(ops), op);
    forall x | x != ""
      ensures SessionIs(Step(s, op), x, Open(ops + [op], x), Latest(ops + [op], x))
    {
      OpenAfterEnter(ops, op, x);
      if op.session == x {
        EnterMine(s, x, op.id, Open(ops, x), Latest(ops, x));
      } else {
        EnterOther(s, Enters(ops), op, x, Open(ops, x), Latest(ops, x));
        assert Open(ops, x) + {} == Open(ops, x);
      }
    }
  }

  lemma LeaveMine(s: State, x: string, k: nat, open: set<nat>, latest: Option<Person>)
    requires SessionIs(s, x, open, latest) && k in open
    ensures SessionIs(Step(s, Leave(k)), x, open - {k}, latest)
  {
    assert |open| == |open - {k}| + 1;
  }

  lemma LeaveOther(s: State, enters: seq<Op>, k: nat, x: string, open: set<nat>, latest: Option<Person>)
    requires Shape(s, enters) && SessionIs(s, x, open, latest) && k < |enters| && enters[k].session != x
    requires s.leaves[k] == Nothing || (enters[k].session in s.m && s.leaves[k].entry == s.m[enters[k].session])
    ensures SessionIs(Step(s, Leave(k)), x, open, latest)
  {
    assert LoanOk(s, enters[k].session, s.leaves[k]);
  }

  lemma LeaveShape(s: State, enters: seq<Op>, k: nat)
    requires Shape(s, enters)
    ensures Shape(Step(s, Leave(k)), enters)
  {
  }

  lemma LeaveAgrees(ops: seq<Op>, s: State, k: nat)
    requires Agrees(ops, s) && k < |Enters(ops)| && !Left(ops, k)
    ensures Agrees(ops + [Leave(k)], Step(s, Leave(k)))
  {
    var mine := Enters(ops)[k].session;
    OpenAfterLeave(ops, k, mine);
    LeaveShape(s, Enters(ops), k);
    assert LoanOk(s, mine, s.leaves[k]);
    if mine != "" {
      assert k in Open(ops, mine) && SessionIs(s, mine, Open(ops, mine), Latest(ops, mine));
    }
    forall x | x != ""
      ensures SessionIs(Step(s, Leave(k)), x, Open(ops + [Leave(k)], x), Latest(ops + [Leave(k)], x))
    {
      assert SessionIs(s, x, Open(ops, x), Latest(ops, x));
      OpenAfterLeave(ops, k, x);
      if x == mine {
        LeaveMine(s, x, k, Open(ops, x), Latest(ops, x));
      } else {
        LeaveOther(s, Enters(ops), k, x, Open(ops, x), Latest(ops, x));
        assert Open(ops, x) - {k} == Open(ops, x);
      }
    }
  }

  lemma {:induction false} RunAgrees(ops: seq<Op>)
    requires OnceEach(ops)
    ensures Agrees(ops, Run(ops))
  {
    if ops != [] {
      var front, last := ops[..|ops| - 1], ops[|ops| - 1];
      RunAgrees(front);
      assert ops == front + [last];
      if last.Enter? {
        if Left(front, |Enters(front)|) {
          LeftWasEntered(front, |Enters(front)|);
        }
        EnterAgrees(front, Run(front), last);
      } else {
        LeaveAgrees(front, Run(front), last.k);
      }
    }
  }

  /** However enters and leaves interleave, if every closure is called at most
      once: a session has an identity exactly while a loan is open, and it is
      the one entered last. */
  lemma LendsLatestWhileOpen(ops: seq<Op>, session: string)
    requires OnceEach(ops)
    ensures session == "" ==> Lookup(Run(ops), session) == None
    ensures session != "" ==> Lookup(Run(ops), session) == if Open(ops, session) == {} then None else Latest(ops, session)
  {
    RunAgrees(ops);
    if session != "" {
      assert SessionIs(Run(ops), session, Open(ops, session), Latest(ops, session));
    }
  }

  // ---- why each closure is called once ----

  /** Entries that no session refers to any more count no loan. */
  ghost predicate DiscardedAreSpent(s: State) {
    forall e :: 0 <= e < |s.entries| && (forall x :: x in s.m ==> s.m[x] != e) ==> s.entries[e].refs <= 0
  }

  lemma EnterKeepsSpent(s: State, op: Op)
    requires DiscardedAreSpent(s) && op.Enter?
    ensures DiscardedAreSpent(Step(s, op))
  {
    var n := Step(s, op);
    forall e | 0 <= e < |n.entries| && (forall x :: x in n.m ==> n.m[x] != e)
      ensures n.entries[e].refs <= 0
    {
      if op.session != "" {
        assert op.session in n.m && n.m[op.session] != e;
      }
      assert e < |s.entries| && forall x :: x in s.m ==> x in n.m && (s.m[x] != e || x == op.session);
    }
  }

  /** The closure would count down the entry its session refers to. */
  predicate ReachesCurrent(s: State, k: nat) {
    && k < |s.leaves| && s.leaves[k].Ends?
    && s.leaves[k].session in s.m && s.m[s.leaves[k].session] == s.leaves[k].entry
  }

  lemma LeaveKeepsSpent(s: State, k: nat)
    requires DiscardedAreSpent(s) && (k < |s.leaves| && s.leaves[k].Ends? ==> ReachesCurrent(s, k))
    ensures DiscardedAreSpent(Step(s, Leave(k)))
  {
    var n := Step(s, Leave(k));
    forall e | 0 <= e < |n.entries| && (forall x :: x in n.m ==> n.m[x] != e)
      ensures n.entries[e].refs <= 0
    {
      if x :| x in s.m && s.m[x] == e {
        assert x !in n.m;
      }
    }
  }

  lemma OpenReachesCurrent(ops: seq<Op>, s: State, k: nat)
    requires Agrees(ops, s) && k < |Enters(ops)| && !Left(ops, k)
    ensures s.leaves[k].Ends? ==> ReachesCurrent(s, k)
  {
    var x := Enters(ops)[k].session;
    assert LoanOk(s, x, s.leaves[k]);
    if x != "" {
      assert k in Open(ops, x) && SessionIs(s, x, Open(ops, x), Latest(ops, x));
    }
  }

  lemma {:induction false} RunIsSpent(ops: seq<Op>)
    requires OnceEach(ops)
    ensures DiscardedAreSpent(Run(ops))
  {
    if ops != [] {
      var front, last := ops[..|ops| - 1], ops[|ops| - 1];
      RunIsSpent(front);
      if last.Enter? {
        EnterKeepsSpent(Run(front), last);
      } else {
        RunAgrees(front);
        OpenReachesCurrent(front, Run(front), last.k);
        LeaveKeepsSpent(Run(front), last.k);
      }
    }
  }

  /** One more count off the current entry breaks the count. */
  lemma RepeatBreaks(s: State, k: nat, x: string, open: set<nat>, latest: Option<Person>)
    requires SessionIs(s, x, open, latest) && ReachesCurrent(s, k) && s.leaves[k].session == x
    ensures !SessionIs(Step(s, Leave(k)), x, open, latest)
  {
    assert x in s.m && s.entries[s.m[x]].refs == |open|;
  }

  /** One more count off a discarded entry changes nothing that is looked up. */
  lemma RepeatSpares(s: State, enters: seq<Op>, k: nat, x: string, open: set<nat>, latest: Option<Person>)
    requires Shape(s, enters) && SessionIs(s, x, open, latest) && k < |enters|
    requires DiscardedAreSpent(s) && !ReachesCurrent(s, k)
    requires s.leaves[k].Ends? ==> forall y :: y in s.m ==> s.m[y] != s.leaves[k].entry
    ensures SessionIs(Step(s, Leave(k)), x, open, latest)
  {
    assert LoanOk(s, enters[k].session, s.leaves[k]);
  }

  /** Entries are made for one session and stay with it. */
  ghost predicate OwnEntries(s: State) {
    && (forall x, k :: x in s.m && 0 <= k < |s.leaves| && s.leaves[k].Ends? && s.leaves[k].entry == s.m[x] ==>
          s.leaves[k].session == x)
    && (forall k :: 0 <= k < |s.leaves| && s.leaves[k].Ends? ==> s.leaves[k].entry < |s.entries|)
    && (forall x :: x in s.m ==> s.m[x] < |s.entries|)
    && (forall x, y :: x in s.m && y in s.m && s.m[x] == s.m[y] ==> x == y)
  }

  lemma EnterOwns(s: State, op: Op)
    requires OwnEntries(s) && op.Enter?
    ensures OwnEntries(Step(s, op))
  {
    var n := Step(s, op);
    assert forall k :: 0 <= k < |s.leaves| ==> n.leaves[k] == s.leaves[k];
    if op.session in s.m {
      assert n.m == s.m;
    }
  }

  lemma LeaveOwns(s: State, k: nat)
    requires OwnEntries(s)
    ensures OwnEntries(Step(s, Leave(k)))
  {
    var n := Step(s, Leave(k));
    assert n.leaves == s.leaves && |n.entries| == |s.entries| && forall x :: x in n.m ==> x in s.m && n.m[x] == s.m[x];
  }

  lemma {:induction false} RunOwns(ops: seq<Op>)
    ensures OwnEntries(Run(ops))
  {
    if ops != [] {
      RunOwns(ops[..|ops| - 1]);
      match ops[|ops| - 1]
      case Enter(_, _) => EnterOwns(Run(ops[..|ops| - 1]), ops[|ops| - 1]);
      case Leave(k) => LeaveOwns(Run(ops[..|ops| - 1]), k);
    }
  }

  /** Exactly when a repeated call does harm, after any history in which every
      closure was called at most once: it does when the entry it captured is
      still the one its session refers to, that is while other loans keep it. */
  lemma RepeatHarmlessIff(ops: seq<Op>, k: nat)
    requires OnceEach(ops) && Left(ops, k)
    ensures Agrees(ops + [Leave(k)], Run(ops + [Leave(k)])) <==> !ReachesCurrent(Run(ops), k)
  {
    var s, again := Run(ops), ops + [Leave(k)];
    LeftWasEntered(ops, k);
    RunAgrees(ops);
    RunIsSpent(ops);
    RunOwns(ops);
    assert again[..|ops|] == ops && Run(again) == Step(s, Leave(k));
    var mine := Enters(ops)[k].session;
    assert LoanOk(s, mine, s.leaves[k]);
    SameOpen(ops, k, mine);
    if ReachesCurrent(s, k) {
      assert SessionIs(s, mine, Open(ops, mine), Latest(ops, mine));
      RepeatBreaks(s, k, mine, Open(ops, mine), Latest(ops, mine));
    } else {
      LeaveShape(s, Enters(ops), k);
      forall x | x != ""
        ensures SessionIs(Step(s, Leave(k)), x, Open(again, x), Latest(again, x))
      {
        assert SessionIs(s, x, Open(ops, x), Latest(ops, x));
        SameOpen(ops, k, x);
        RepeatSpares(s, Enters(ops), k, x, Open(ops, x), Latest(ops, x));
      }
    }
  }

  lemma SameOpen(ops: seq<Op>, k: nat, x: string)
    requires Left(ops, k)
    ensures Enters(ops + [Leave(k)]) == Enters(ops)
    ensures Open(ops + [Leave(k)], x) == Open(ops, x) && Latest(ops + [Leave(k)], x) == Latest(ops, x)
  {
    OpenAfterLeave(ops, k, x);
    assert Open(ops, x) - {k} == Open(ops, x);
  }

  /** Such a call, if anyone made it. */
  lemma DoubleLeaveEndsAnother(id: Person)
    ensures var ops := [Enter("s", id), Enter("s", id), Leave(0), Leave(0)];
      1 in Open(ops, "s") && Lookup(Run(ops), "s") == None
  {
    var two := [Enter("s", id), Enter("s", id)];
    var ops := [Enter("s", id), Enter("s", id), Leave(0), Leave(0)];
    RunTwo(id);
    assert ops[..3][..2] == two && ops[..3][2] == Leave(0);
    assert Run(ops[..3]) == Step(Run(two), Leave(0)) && Run(ops) == Step(Run(ops[..3]), Leave(0));
    assert Enters(ops[..3]) == two && Enters(ops) == two;
    assert !Left(ops, 1);
  }

  lemma RunTwo(id: Person)
    ensures var two := [Enter("s", id), Enter("s", id)];
      Run(two) == State(map["s" := 0], [Lent(id, 2)], [Ends(0, "s"), Ends(0, "s")]) && Enters(two) == two
  {
    var one, two := [Enter("s", id)], [Enter("s", id), Enter("s", id)];
    assert one[..0] == [] && two[..1] == one;
    assert Run(one) == Step(Run([]), one[0]) && Run(two) == Step(Run(one), two[1]);
    assert Enters(one) == one;
  }

  // ---- the shared map of entries ----

  class Entry {
    var id: Person
    var refs: int

    constructor (id: Person)
      ensures this.id == id && refs == 1
    {
      this.id, refs := id, 1;
    }
  }

  datatype Closure = NoLoan | Loan(entry: Entry, session: string)

  class TurnIdentities {
    var m: map<string, Entry>
    ghost var at: map<string, nat>
    ghost var made: seq<Entry>
    ghost var leaves: seq<Capture>

    ghost predicate Valid()
      reads this
    {
      && at.Keys == m.Keys
      && (forall x :: x in m ==> at[x] < |made| && made[at[x]] == m[x])
      && (forall i, j :: 0 <= i < j < |made| ==> made[i] != made[j])
      && (forall k :: 0 <= k < |leaves| && leaves[k].Ends? ==> leaves[k].entry < |made|)
    }

    ghost function View(): State
      reads this, made
    {
      State(at, seq(|made|, i requires 0 <= i < |made| reads this, made => Lent(made[i].id, made[i].refs)), leaves)
    }

    /** `c` is the closure the k-th enter returned. */
    ghost predicate Returned(c: Closure, k: nat)
      reads this
    {
      && k < |leaves|
      && match leaves[k]
         case Nothing => c == NoLoan
         case Ends(e, session) => e < |made| && c == Loan(made[e], session)
    }

    constructor ()
      ensures Valid() && View() == Run([])
    {
      m, at, made, leaves := map[], map[], [], [];
    }

    method Enter(session: string, id: Person) returns (leave: Closure)
      requires Valid()
      modifies this, made
      ensures Valid() && View() == Step(old(View()), Op.Enter(session, id))
      ensures Returned(leave, |old(leaves)|)
      ensures old(made) <= made && forall e :: e in made && e !in old(made) ==> fresh(e)
    {
      if session == "" {
        leaves := leaves + [Nothing];
        return NoLoan;
      }
      ghost var was := View();
      if session in m {
        var e := m[session];
        e.id := id;
        e.refs := e.refs + 1;
        leaves := leaves + [Ends(at[session], session)];
        assert View().entries == was.entries[at[session] := Lent(id, was.entries[at[session]].refs + 1)];
        return Loan(e, session);
      }
      var e := new Entry(id);
      m := m[session := e];
      at := at[session := |made|];
      leaves := leaves + [Ends(|made|, session)];
      made := made + [e];
      assert View().entries == was.entries + [Lent(id, 1)];
      return Loan(e, session);
    }

    method Leave(c: Closure, ghost k: nat)
      requires Valid() && Returned(c, k)
      modifies this, made
      ensures Valid() && View() == Step(old(View()), Op.Leave(k))
      ensures made == old(made)
    {
      if c.Loan? {
        c.entry.refs := c.entry.refs - 1;
        if c.entry.refs == 0 {
          m := m - {c.session};
          at := at - {c.session};
        }
      }
    }

    method LookupIdentity(session: string) returns (id: Option<Person>)
      requires Valid()
      ensures id == Lookup(View(), session)
    {
      if session !in m {
        return None;
      }
      return Some(m[session].id);
    }
  }
}
