/** Reconciling the cron library's live entries with the job table. */
module Scheduler {
  import opened Base

  datatype Job = Job(id: string, name: string, expr: string, prompt: string, deliverTo: string, enabled: bool)

  /** The scheduler's map of entry ids, and what the library holds: live entries
      with the job each one fires, and the last id handed out. */
  datatype State = State(entries: map<string, nat>, live: map<nat, Job>, last: nat)

  /** Which expressions the library can parse. */
  type Parses = string -> bool

  /** The enabled jobs by id; of two rows with one id the later counts. */
  function Enabled(jobs: seq<Job>): map<string, Job> {
    if jobs == [] then map[]
    else
      var front, j := Enabled(jobs[..|jobs| - 1]), jobs[|jobs| - 1];
      if j.enabled then front[j.id := j] else front
  }

  function PruneOne(s: State, wanted: map<string, Job>, id: string): State {
    if id in s.entries && id !in wanted
    then s.(entries := s.entries - {id}, live := s.live - {s.entries[id]})
    else s
  }

  function FillOne(s: State, wanted: map<string, Job>, parses: Parses, id: string): State {
    if id in wanted && id !in s.entries && parses(wanted[id].expr)
    then State(s.entries[id := s.last + 1], s.live[s.last + 1 := wanted[id]], s.last + 1)
    else s
  }

  function Prune(s: State, wanted: map<string, Job>, order: seq<string>): State {
    if order == [] then s
    else PruneOne(Prune(s, wanted, order[..|order| - 1]), wanted, order[|order| - 1])
  }

  function Fill(s: State, wanted: map<string, Job>, parses: Parses, order: seq<string>): State {
    if order == [] then s
    else FillOne(Fill(s, wanted, parses, order[..|order| - 1]), wanted, parses, order[|order| - 1])
  }

  /** One sync: the two orders are those in which the maps were walked. */
  datatype Round = Round(jobs: Option<seq<Job>>, parses: Parses, pruned: seq<string>, filled: seq<string>)

  /** `order` visits exactly the keys. */
  ghost predicate Walks(order: seq<string>, keys: set<string>) {
    forall id :: id in order <==> id in keys
  }

  ghost predicate Walked(s: State, r: Round) {
    r.jobs.Some? ==> Walks(r.pruned, s.entries.Keys) && Walks(r.filled, Enabled(r.jobs.value).Keys)
  }

  /** sync; a failed listing changes nothing. */
  function Synced(s: State, r: Round): State {
    match r.jobs
    case None => s
    case Some(jobs) =>
      var wanted := Enabled(jobs);
      Fill(Prune(s, wanted, r.pruned), wanted, r.parses, r.filled)
  }

  // ---- the invariant ----

  /** Entries and live entries are in bijection, no id is reused, and the entry
      of a job fires that job. */
  ghost predicate Bijection(s: State) {
    && (forall id :: id in s.entries ==> s.entries[id] in s.live && s.live[s.entries[id]].id == id)
    && (forall e :: e in s.live ==> s.live[e].id in s.entries && s.entries[s.live[e].id] == e)
    && Bounded(s)
  }

  ghost predicate Bounded(s: State) {
    forall e :: e in s.live ==> e <= s.last
  }

  ghost predicate AllLive(s: State) {
    forall id :: id in s.entries ==> s.entries[id] in s.live
  }

  lemma {:induction false} EnabledIsOwn(jobs: seq<Job>)
    ensures forall id :: id in Enabled(jobs) ==> Enabled(jobs)[id].id == id && Enabled(jobs)[id] in jobs && Enabled(jobs)[id].enabled
    ensures forall j :: j in jobs && j.enabled ==> j.id in Enabled(jobs)
  {
    if jobs != [] {
      var front, last := jobs[..|jobs| - 1], jobs[|jobs| - 1];
      EnabledIsOwn(front);
      assert jobs == front + [last];
    }
  }

  ghost predicate OwnIds(wanted: map<string, Job>) {
    forall id :: id in wanted ==> wanted[id].id == id
  }

  // ---- what a sync does ----

  /** What fires: each scheduled job's own row as it was when scheduled. */
  function Firing(s: State): map<string, Job> {
    map id | id in s.entries && s.entries[id] in s.live :: s.live[s.entries[id]]
  }

  /** The simple form: jobs still enabled keep what they have, new ones that
      parse are added as they are now, the rest go. */
  function Reconcile(firing: map<string, Job>, wanted: map<string, Job>, parses: Parses): map<string, Job> {
    map id | id in wanted && (id in firing || parses(wanted[id].expr)) ::
      if id in firing then firing[id] else wanted[id]
  }

  /** The entries that survive, untouched. */
  predicate Kept(a: State, b: State, ids: set<string>) {
    && a.last <= b.last
    && forall id :: id in ids && id in a.entries && a.entries[id] in a.live ==>
         && id in b.entries && b.entries[id] == a.entries[id]
         && b.entries[id] in b.live && b.live[b.entries[id]] == a.live[a.entries[id]]
  }

  /** `p` is `s` without the unwanted ids of `order`. */
  ghost predicate Pruned(s: State, wanted: map<string, Job>, order: seq<string>, p: State) {
    && Kept(s, p, wanted.Keys) && p.last == s.last
    && p.entries.Keys == (set id | id in s.entries && !(id in order && id !in wanted))
  }

  function Schedulable(wanted: map<string, Job>, parses: Parses, order: seq<string>): set<string> {
    set id | id in order && id in wanted && parses(wanted[id].expr)
  }

  lemma SchedulableSnoc(wanted: map<string, Job>, parses: Parses, order: seq<string>, id: string)
    ensures Schedulable(wanted, parses, order + [id])
         == Schedulable(wanted, parses, order) + if id in wanted && parses(wanted[id].expr) then {id} else {}
  {
  }

  /** `f` is `s` with new entries for the ids of `order` that can be scheduled. */
  ghost predicate Filled(s: State, wanted: map<string, Job>, parses: Parses, order: seq<string>, f: State) {
    && Kept(s, f, s.entries.Keys)
    && f.entries.Keys == s.entries.Keys + Schedulable(wanted, parses, order)
    && forall id :: id in f.entries && id !in s.entries ==>
         f.entries[id] > s.last && f.entries[id] in f.live && f.live[f.entries[id]] == wanted[id]
  }

  lemma PruneOneKeeps(s: State, wanted: map<string, Job>, id: string)
    requires Bijection(s)
    ensures Bijection(PruneOne(s, wanted, id))
  {
  }

  lemma {:induction false} PruneExact(s: State, wanted: map<string, Job>, order: seq<string>)
    requires Bijection(s)
    ensures Bijection(Prune(s, wanted, order)) && Pruned(s, wanted, order, Prune(s, wanted, order))
  {
    if order != [] {
      var front, last := order[..|order| - 1], order[|order| - 1];
      PruneExact(s, wanted, front);
      PruneOneKeeps(Prune(s, wanted, front), wanted, last);
      assert order == front + [last];
    }
  }

  lemma FillOneKeeps(s: State, wanted: map<string, Job>, parses: Parses, id: string)
    requires Bijection(s) && OwnIds(wanted)
    ensures Bijection(FillOne(s, wanted, parses, id))
  {
  }

  lemma FillOneMore(s: State, wanted: map<string, Job>, parses: Parses, order: seq<string>, f: State, id: string)
    requires Bounded(f) && Filled(s, wanted, parses, order, f)
    ensures Filled(s, wanted, parses, order + [id], FillOne(f, wanted, parses, id))
  {
    SchedulableSnoc(wanted, parses, order, id);
    var g := FillOne(f, wanted, parses, id);
    if g != f {
      assert forall x :: x in f.entries ==> g.entries[x] == f.entries[x];
      assert forall e :: e in f.live ==> e in g.live && g.live[e] == f.live[e];
    }
  }

  lemma {:induction false} FillExact(s: State, wanted: map<string, Job>, parses: Parses, order: seq<string>)
    requires Bijection(s) && OwnIds(wanted)
    ensures Bijection(Fill(s, wanted, parses, order)) && Filled(s, wanted, parses, order, Fill(s, wanted, parses, order))
  {
    if order != [] {
      var front, last := order[..|order| - 1], order[|order| - 1];
      FillExact(s, wanted, parses, front);
      FillOneKeeps(Fill(s, wanted, parses, front), wanted, parses, last);
      FillOneMore(s, wanted, parses, front, Fill(s, wanted, parses, front), last);
      assert order == front + [last];
    }
  }

  /** One sync that lists the jobs: the bijection is kept; what fires is the
      simple form of what fired before, whatever order the maps were walked in;
      a job still enabled keeps its entry; a new one gets an id never used. */
  lemma SyncExact(s: State, r: Round)
    requires Bijection(s) && Walked(s, r) && r.jobs.Some?
    ensures var n, wanted := Synced(s, r), Enabled(r.jobs.value);
      && Bijection(n) && Kept(s, n, wanted.Keys)
      && Firing(n) == Reconcile(Firing(s), wanted, r.parses)
      && (forall id :: id in n.entries && id !in s.entries ==> n.entries[id] > s.last)
  {
    var wanted := Enabled(r.jobs.value);
    EnabledIsOwn(r.jobs.value);
    var p := Prune(s, wanted, r.pruned);
    PruneExact(s, wanted, r.pruned);
    FillExact(p, wanted, r.parses, r.filled);
    FiringIsReconciled(s, wanted, r.parses, r.pruned, p, r.filled, Fill(p, wanted, r.parses, r.filled));
  }

  lemma FiringIsReconciled(s: State, wanted: map<string, Job>, parses: Parses, pruned: seq<string>, p: State, filled: seq<string>, n: State)
    requires AllLive(s) && AllLive(p) && AllLive(n)
    requires Walks(pruned, s.entries.Keys) && Pruned(s, wanted, pruned, p)
    requires Walks(filled, wanted.Keys) && Filled(p, wanted, parses, filled, n)
    ensures Firing(n) == Reconcile(Firing(s), wanted, parses)
  {
    var simple := Reconcile(Firing(s), wanted, parses);
    assert forall id :: id in p.entries <==> id in s.entries && id in wanted;
    assert n.entries.Keys == simple.Keys;
    forall id | id in simple
      ensures Firing(n)[id] == simple[id]
    {
    }
  }

  /** After a sync that lists: only enabled jobs have entries, and an enabled job
      has one exactly when it had one or its expression parses. */
  lemma SyncKeys(s: State, r: Round, id: string)
    requires Bijection(s) && Walked(s, r) && r.jobs.Some?
    ensures id in Enabled(r.jobs.value) <==> exists j :: j in r.jobs.value && j.enabled && j.id == id
    ensures id in Synced(s, r).entries <==>
      id in Enabled(r.jobs.value) && (id in s.entries || r.parses(Enabled(r.jobs.value)[id].expr))
  {
    SyncExact(s, r);
    EnabledIsOwn(r.jobs.value);
    assert id in Firing(Synced(s, r)) <==> id in Synced(s, r).entries;
    if id in Enabled(r.jobs.value) {
      assert Enabled(r.jobs.value)[id] in r.jobs.value;
    }
  }

  /** If a store did edit rows: the live entry of an enabled job shows its current
      row exactly when it was just added, or has not been edited since. */
  lemma EditNoticedIff(s: State, r: Round, id: string)
    requires Bijection(s) && Walked(s, r) && r.jobs.Some? && id in Synced(s, r).entries
    ensures id in Enabled(r.jobs.value) && id in Firing(Synced(s, r))
    ensures Firing(Synced(s, r))[id] == Enabled(r.jobs.value)[id] <==>
      id !in s.entries || Firing(s)[id] == Enabled(r.jobs.value)[id]
  {
    SyncExact(s, r);
    assert id in Firing(Synced(s, r));
  }

  /** Repeating a sync, in whatever order, changes nothing. */
  lemma SyncIdempotent(s: State, r: Round, again: Round)
    requires Bijection(s) && Walked(s, r) && r.jobs.Some?
    requires again.jobs == r.jobs && again.parses == r.parses && Walked(Synced(s, r), again)
    ensures Synced(Synced(s, r), again) == Synced(s, r)
  {
    var n, wanted := Synced(s, r), Enabled(r.jobs.value);
    SyncExact(s, r);
    assert forall id :: id in n.entries ==> id in Firing(n);
    NothingToPrune(n, wanted, again.pruned);
    forall id | id in wanted && id !in n.entries
      ensures !r.parses(wanted[id].expr)
    {
      assert id !in Firing(n);
    }
    NothingToFill(n, wanted, r.parses, again.filled);
  }

  lemma {:induction false} NothingToPrune(s: State, wanted: map<string, Job>, order: seq<string>)
    requires s.entries.Keys <= wanted.Keys
    ensures Prune(s, wanted, order) == s
  {
    if order != [] {
      NothingToPrune(s, wanted, order[..|order| - 1]);
    }
  }

  lemma {:induction false} NothingToFill(s: State, wanted: map<string, Job>, parses: Parses, order: seq<string>)
    requires forall id :: id in wanted && id !in s.entries ==> !parses(wanted[id].expr)
    ensures Fill(s, wanted, parses, order) == s
  {
    if order != [] {
      NothingToFill(s, wanted, parses, order[..|order| - 1]);
    }
  }

  // ---- every run of syncs ----

  function RunOf(s: State, rs: seq<Round>): State {
    if rs == [] then s else Synced(RunOf(s, rs[..|rs| - 1]), rs[|rs| - 1])
  }

  ghost predicate RunWalked(s: State, rs: seq<Round>) {
    rs == [] || (RunWalked(s, rs[..|rs| - 1]) && Walked(RunOf(s, rs[..|rs| - 1]), rs[|rs| - 1]))
  }

  /** The run on the simple form. */
  function Simple(firing: map<string, Job>, rs: seq<Round>): map<string, Job> {
    if rs == [] then firing
    else
      var before, r := Simple(firing, rs[..|rs| - 1]), rs[|rs| - 1];
      if r.jobs.None? then before else Reconcile(before, Enabled(r.jobs.value), r.parses)
  }

  /** Over every run of syncs, failed listings and schedule failures included, the
      library's entries stay in bijection with the map, and what fires is what
      the simple form says. */
  lemma {:induction false} RunExact(s: State, rs: seq<Round>)
    requires Bijection(s) && RunWalked(s, rs)
    ensures Bijection(RunOf(s, rs)) && Firing(RunOf(s, rs)) == Simple(Firing(s), rs)
  {
    if rs != [] {
      var front, r := rs[..|rs| - 1], rs[|rs| - 1];
      RunExact(s, front);
      if r.jobs.Some? {
        SyncExact(RunOf(s, front), r);
      }
    }
  }

  /** A job that stays enabled keeps its entry id and what it fires. */
  lemma {:induction false} StaysScheduled(s: State, rs: seq<Round>, id: string)
    requires Bijection(s) && RunWalked(s, rs) && id in s.entries
    requires forall r :: r in rs && r.jobs.Some? ==> id in Enabled(r.jobs.value)
    ensures var n := RunOf(s, rs);
      && id in n.entries && n.entries[id] == s.entries[id]
      && n.entries[id] in n.live && n.live[n.entries[id]] == s.live[s.entries[id]]
  {
    if rs != [] {
      var front, r := rs[..|rs| - 1], rs[|rs| - 1];
      assert r in rs && forall q :: q in front ==> q in rs;
      StaysScheduled(s, front, id);
      RunExact(s, front);
      if r.jobs.Some? {
        SyncExact(RunOf(s, front), r);
      }
    }
  }

  const NOTHING := State(map[], map[], 0)

  function RowsOf(r: Round): map<string, Job> {
    if r.jobs.None? then map[] else Enabled(r.jobs.value)
  }

  /** Any two listings agree on the row of an enabled job: the store inserts rows
      and deletes them, and otherwise changes only whether they are enabled. */
  ghost predicate RowsStay(rs: seq<Round>) {
    forall i, j, id :: 0 <= i < |rs| && 0 <= j < |rs| && id in RowsOf(rs[i]) && id in RowsOf(rs[j]) ==>
      RowsOf(rs[i])[id] == RowsOf(rs[j])[id]
  }

  ghost predicate Listed(rs: seq<Round>, id: string, row: Job) {
    exists i :: 0 <= i < |rs| && id in RowsOf(rs[i]) && RowsOf(rs[i])[id] == row
  }

  lemma ListedLater(rs: seq<Round>, r: Round, id: string, row: Job)
    requires Listed(rs, id, row)
    ensures Listed(rs + [r], id, row)
  {
    var i :| 0 <= i < |rs| && id in RowsOf(rs[i]) && RowsOf(rs[i])[id] == row;
    assert (rs + [r])[i] == rs[i];
  }

  /** Whatever fires was listed in some round. */
  lemma {:induction false} FiringWasListed(rs: seq<Round>, id: string)
    requires RunWalked(NOTHING, rs) && id in Firing(RunOf(NOTHING, rs))
    ensures Listed(rs, id, Firing(RunOf(NOTHING, rs))[id])
  {
    if rs != [] {
      var front, r := rs[..|rs| - 1], rs[|rs| - 1];
      var before, after := RunOf(NOTHING, front), RunOf(NOTHING, rs);
      RunExact(NOTHING, front);
      assert rs == front + [r];
      if r.jobs.Some? {
        SyncExact(before, r);
      }
      if id in Firing(before) && Firing(after)[id] == Firing(before)[id] {
        FiringWasListed(front, id);
        ListedLater(front, r, id, Firing(after)[id]);
      } else {
        assert RowsOf(rs[|rs| - 1])[id] == Firing(after)[id];
      }
    }
  }

  /** Over every run on a store that keeps its rows: after a sync that lists,
      every live entry fires its job's row as just listed. */
  lemma {:induction false} FiresCurrentRows(rs: seq<Round>, r: Round)
    requires RunWalked(NOTHING, rs + [r]) && RowsStay(rs + [r]) && r.jobs.Some?
    ensures var now := Firing(RunOf(NOTHING, rs + [r]));
      forall id :: id in now ==> id in Enabled(r.jobs.value) && now[id] == Enabled(r.jobs.value)[id]
  {
    var all := rs + [r];
    assert all[..|rs|] == rs && all[|rs|] == r;
    RunExact(NOTHING, rs);
    SyncExact(RunOf(NOTHING, rs), r);
    var now := Firing(RunOf(NOTHING, all));
    forall id | id in now
      ensures id in Enabled(r.jobs.value) && now[id] == Enabled(r.jobs.value)[id]
    {
      FiringWasListed(all, id);
      var i :| 0 <= i < |all| && id in RowsOf(all[i]) && RowsOf(all[i])[id] == now[id];
      assert id in RowsOf(all[|rs|]);
    }
  }

  // ---- the scheduler object ----

  /** The cron library: ids are handed out upwards and never reused. */
  class Cron {
    var live: map<nat, Job>
    var last: nat

    constructor ()
      ensures live == map[] && last == 0
    {
      live, last := map[], 0;
    }

    method AddFunc(job: Job, parses: Parses) returns (entry: Option<nat>)
      modifies this
      ensures parses(job.expr) ==>
        entry == Some(old(last) + 1) && last == old(last) + 1 && live == old(live)[last := job]
      ensures !parses(job.expr) ==> entry == None && last == old(last) && live == old(live)
    {
      if !parses(job.expr) {
        return None;
      }
      last := last + 1;
      live := live[last := job];
      return Some(last);
    }

    method Remove(entry: nat)
      modifies this
      ensures live == old(live) - {entry} && last == old(last)
    {
      live := live - {entry};
    }
  }

  class Reconciler {
    var entries: map<string, nat>
    const cron: Cron

    constructor ()
      ensures fresh(cron) && View() == NOTHING && Bijection(View())
    {
      entries := map[];
      cron := new Cron();
    }

    function View(): State
      reads this, cron
    {
      State(entries, cron.live, cron.last)
    }

    method EnabledRows(jobs: seq<Job>) returns (wanted: map<string, Job>)
      ensures wanted == Enabled(jobs)
    {
      wanted := map[];
      for i := 0 to |jobs|
        invariant wanted == Enabled(jobs[..i])
      {
        assert jobs[..i + 1][..i] == jobs[..i];
        if jobs[i].enabled {
          wanted := wanted[jobs[i].id := jobs[i]];
        }
      }
      assert jobs[..|jobs|] == jobs;
    }

    method RemoveStale(wanted: map<string, Job>) returns (ghost order: seq<string>)
      modifies this, cron
      ensures Walks(order, old(entries).Keys)
      ensures View() == Prune(old(View()), wanted, order)
    {
      order := [];
      var todo := entries.Keys;
      while todo != {}
        invariant forall id :: id in order <==> id in old(entries).Keys - todo
        invariant todo <= entries.Keys
        invariant View() == Prune(old(View()), wanted, order)
      {
        var id :| id in todo;
        assert (order + [id])[..|order|] == order;
        order := order + [id];
        if id !in wanted {
          cron.Remove(entries[id]);
          entries := entries - {id};
        }
        todo := todo - {id};
      }
    }

    method AddMissing(wanted: map<string, Job>, parses: Parses) returns (ghost order: seq<string>)
      modifies this, cron
      ensures Walks(order, wanted.Keys)
      ensures View() == Fill(old(View()), wanted, parses, order)
    {
      order := [];
      var todo := wanted.Keys;
      while todo != {}
        invariant forall id :: id in order <==> id in wanted.Keys - todo
        invariant todo <= wanted.Keys
        invariant View() == Fill(old(View()), wanted, parses, order)
      {
        var id :| id in todo;
        assert (order + [id])[..|order|] == order;
        order := order + [id];
        todo := todo - {id};
        if id !in entries {
          var entry := cron.AddFunc(wanted[id], parses);
          if entry.Some? {
            entries := entries[id := entry.value];
          }
        }
      }
    }

    /** sync; `jobs` is what the store listed, `None` a failure. */
    method Sync(jobs: Option<seq<Job>>, parses: Parses) returns (ok: bool, ghost round: Round)
      requires Bijection(View())
      modifies this, cron
      ensures ok == jobs.Some? && round.jobs == jobs && round.parses == parses && Walked(old(View()), round)
      ensures View() == Synced(old(View()), round)
      ensures Bijection(View())
      ensures ok ==> Firing(View()) == Reconcile(old(Firing(View())), Enabled(jobs.value), parses)
    {
      round := Round(jobs, parses, [], []);
      if jobs.None? {
        return false, round;
      }
      var wanted := EnabledRows(jobs.value);
      ghost var before := View();
      ghost var pruned := RemoveStale(wanted);
      ghost var filled := AddMissing(wanted, parses);
      round := Round(jobs, parses, pruned, filled);
      SyncExact(before, round);
      return true, round;
    }
  }
}
