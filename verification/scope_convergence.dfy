/** The seed's convergence of canonical scopes, and that it ends where the transformation verifier wants it. */
module ScopeConvergence {
  import opened Wrappers
  import opened Sequences
  import opened Bytes
  import opened StateTypes
  import opened Transformation
  import Texts

  /** One canonical user and the only scope content it should have, if any. */
  datatype Task = Task(user: Text, target: Option<Row>)

  function UserOf(r: Row): Cell {
    if |r| > 1 then r[1] else None
  }

  predicate TaskOk(t: Task) {
    t.target.Some? ==> |t.target.value| == 4 && t.target.value[0] == Some(t.user)
  }

  function FirstMatch(rows: seq<Row>, content: Row): Option<Row> {
    if |rows| == 0 then None else if Content(rows[0]) == content then Some(rows[0]) else FirstMatch(rows[1..], content)
  }

  function Kept(rows: seq<Row>, t: Task): Option<Row> {
    if t.target.Some? then FirstMatch(rows, t.target.value) else None
  }

  function Keeps(user: Text, kept: Option<Row>): Row -> bool {
    (r: Row) => UserOf(r) != Some(user) || kept == Some(r)
  }

  function Made(rows: seq<Row>, t: Task, id: Text): seq<Row> {
    if t.target.Some? && Kept(rows, t).None? then [[Some(id)] + t.target.value] else []
  }

  /** The table after one user's scopes have been brought in line: the first matching row stays, the user's others go, a missing one is
      made under a new id. */
  function Converge(rows: seq<Row>, t: Task, id: Text): seq<Row> {
    Filter(Keeps(t.user, Kept(rows, t)), rows) + Made(rows, t, id)
  }

  function ConvergeAll(rows: seq<Row>, tasks: seq<Task>, ids: seq<Text>): seq<Row>
    requires |tasks| <= |ids|
  {
    if |tasks| == 0 then rows
    else Converge(ConvergeAll(rows, tasks[..|tasks| - 1], ids), tasks[|tasks| - 1], ids[|tasks| - 1])
  }

  // ---- the loop ------------------------------------------------------------------------------------------------

  class ScopeTable {
    var rows: seq<Row>

    constructor (rows: seq<Row>)
      ensures this.rows == rows
    {
      this.rows := rows;
    }

    method DeleteMany(ids: seq<Cell>)
      modifies this
      ensures rows == Filter((r: Row) => IdOf(r) !in ids, old(rows))
    {
      rows := Filter((r: Row) => IdOf(r) !in ids, rows);
    }

    method Create(id: Text, content: Row)
      modifies this
      ensures rows == old(rows) + [[Some(id)] + content]
    {
      rows := rows + [[Some(id)] + content];
    }
  }

  lemma {:induction false} FirstMatchIs(rows: seq<Row>, content: Row)
    ensures FirstMatch(rows, content).Some? ==> FirstMatch(rows, content).value in rows && Content(FirstMatch(rows, content).value) == content
    ensures FirstMatch(rows, content).None? ==> forall r :: r in rows ==> Content(r) != content
  {
    if |rows| > 0 {
      FirstMatchIs(rows[1..], content);
      assert rows == [rows[0]] + rows[1..];
    }
  }

  lemma {:induction false} FilterAgrees<T>(p: T -> bool, q: T -> bool, s: seq<T>)
    requires forall x :: x in s ==> p(x) == q(x)
    ensures Filter(p, s) == Filter(q, s)
  {
    if |s| > 0 {
      FilterAgrees(p, q, s[1..]);
    }
  }

  /** The user's rows found, all but the kept one deleted by id, and the missing one created. */
  method ConvergeUser(table: ScopeTable, t: Task, id: Text)
    requires TaskOk(t) && Distinct(Ids(table.rows))
    modifies table
    ensures table.rows == Converge(old(table.rows), t, id)
  {
    ghost var before := table.rows;
    var isTheirs := (r: Row) => UserOf(r) == Some(t.user);
    var existing := Filter(isTheirs, table.rows);
    var kept := if t.target.Some? then FirstMatch(existing, t.target.value) else None;
    SameMatch(table.rows, t);
    var isStale := (r: Row) => kept != Some(r);
    var stale := Ids(Filter(isStale, existing));
    DeletesTheStale(before, t, kept, stale, isTheirs, isStale);
    if |stale| > 0 {
      table.DeleteMany(stale);
    } else {
      FilterAll((r: Row) => IdOf(r) !in stale, before);
    }
    if t.target.Some? && kept.None? {
      table.Create(id, t.target.value);
    }
  }

  /** The target names its user, so looking among that user's rows finds the same row. */
  lemma {:induction false} SameMatch(rows: seq<Row>, t: Task)
    requires TaskOk(t)
    ensures t.target.Some? ==> FirstMatch(Filter((r: Row) => UserOf(r) == Some(t.user), rows), t.target.value) == FirstMatch(rows, t.target.value)
  {
    if |rows| > 0 && t.target.Some? {
      SameMatch(rows[1..], t);
      var p := (r: Row) => UserOf(r) == Some(t.user);
      if p(rows[0]) {
        assert Filter(p, rows)[1..] == Filter(p, rows[1..]);
      } else {
        assert Filter(p, rows) == Filter(p, rows[1..]);
      }
    }
  }

  lemma DeletesTheStale(rows: seq<Row>, t: Task, kept: Option<Row>, stale: seq<Cell>, isTheirs: Row -> bool, isStale: Row -> bool)
    requires Distinct(Ids(rows)) && kept == Kept(rows, t)
    requires forall r :: isTheirs(r) == (UserOf(r) == Some(t.user)) && isStale(r) == (kept != Some(r))
    requires stale == Ids(Filter(isStale, Filter(isTheirs, rows)))
    ensures Filter((r: Row) => IdOf(r) !in stale, rows) == Filter(Keeps(t.user, kept), rows)
  {
    var found := Filter(isStale, Filter(isTheirs, rows));
    IdsMembers(found);
    forall r | r in rows ensures (IdOf(r) !in stale) == Keeps(t.user, kept)(r) {
      FilterMembers(isTheirs, rows, r);
      FilterMembers(isStale, Filter(isTheirs, rows), r);
      if IdOf(r) in stale {
        var s :| s in found && IdOf(s) == IdOf(r);
        FilterMembers(isTheirs, rows, s);
        FilterMembers(isStale, Filter(isTheirs, rows), s);
        OneRow(rows, r, s);
      }
    }
    FilterAgrees((r: Row) => IdOf(r) !in stale, Keeps(t.user, kept), rows);
  }

  // ---- one step ------------------------------------------------------------------------------------------------

  /** The user has exactly its target: that row once, or no row at all. */
  ghost predicate Settled(rows: seq<Row>, t: Task) {
    && (forall r :: r in rows && UserOf(r) == Some(t.user) ==> t.target == Some(Content(r)))
    && (forall r, s :: r in rows && s in rows && UserOf(r) == Some(t.user) && UserOf(s) == Some(t.user) ==> r == s)
    && (t.target.Some? ==> exists r :: r in rows && Content(r) == t.target.value)
  }

  lemma ConvergeMembers(rows: seq<Row>, t: Task, id: Text, r: Row)
    ensures r in Converge(rows, t, id)
       <==> (r in rows && (UserOf(r) != Some(t.user) || Kept(rows, t) == Some(r)))
            || (t.target.Some? && Kept(rows, t).None? && r == [Some(id)] + t.target.value)
  {
    FilterMembers(Keeps(t.user, Kept(rows, t)), rows, r);
  }

  lemma KeptIs(rows: seq<Row>, t: Task)
    requires TaskOk(t)
    ensures Kept(rows, t).Some? ==>
      Kept(rows, t).value in rows && t.target == Some(Content(Kept(rows, t).value)) && UserOf(Kept(rows, t).value) == Some(t.user)
    ensures t.target.Some? && Kept(rows, t).None? ==> forall r :: r in rows ==> Content(r) != t.target.value
  {
    if t.target.Some? {
      FirstMatchIs(rows, t.target.value);
    }
  }

  lemma ConvergeSettles(rows: seq<Row>, t: Task, id: Text)
    requires TaskOk(t)
    ensures Settled(Converge(rows, t, id), t)
  {
    var after := Converge(rows, t, id);
    hide Converge, Kept;
    KeptIs(rows, t);
    forall r ensures r in after
       <==> (r in rows && (UserOf(r) != Some(t.user) || Kept(rows, t) == Some(r)))
            || (t.target.Some? && Kept(rows, t).None? && r == [Some(id)] + t.target.value) {
      ConvergeMembers(rows, t, id, r);
    }
    if t.target.Some? {
      var made := [Some(id)] + t.target.value;
      assert Content(made) == t.target.value;
      if Kept(rows, t).Some? {
        assert Kept(rows, t).value in after;
      } else {
        assert made in after;
      }
    }
  }

  /** Bringing one user in line leaves everybody else's rows alone, and settled users settled. */
  lemma ConvergeSparesOthers(rows: seq<Row>, t: Task, id: Text, other: Task)
    requires TaskOk(t) && TaskOk(other) && other.user != t.user && Settled(rows, other)
    ensures Settled(Converge(rows, t, id), other)
  {
    var after := Converge(rows, t, id);
    hide Converge, Kept;
    forall r ensures r in after && UserOf(r) != Some(t.user) <==> r in rows && UserOf(r) != Some(t.user) {
      ConvergeMembers(rows, t, id, r);
      assert t.target.Some? ==> UserOf([Some(id)] + t.target.value) == Some(t.user);
    }
    if other.target.Some? {
      var r :| r in rows && Content(r) == other.target.value;
      assert UserOf(r) == Some(other.user);
      assert r in after;
    }
  }

  lemma ConvergeKeepsIds(rows: seq<Row>, t: Task, id: Text)
    requires Distinct(Ids(rows)) && Some(id) !in Ids(rows)
    ensures Distinct(Ids(Converge(rows, t, id)))
    ensures forall c :: c in Ids(Converge(rows, t, id)) ==> c in Ids(rows) || c == Some(id)
  {
    var p := Keeps(t.user, Kept(rows, t));
    var kept := Filter(p, rows);
    FilterKeepsDistinct(IdOf, p, rows);
    IdsMembers(kept);
    IdsMembers(rows);
    forall c | c in Ids(kept) ensures c in Ids(rows) {
      var r :| r in kept && IdOf(r) == c;
      FilterMembers(p, rows, r);
    }
    var made := Made(rows, t, id);
    assert Ids(kept + made) == Ids(kept) + Ids(made);
    assert |made| > 0 ==> Ids(made) == [Some(id)];
  }

  /** A settled user is left exactly as it is. */
  lemma SettledStays(rows: seq<Row>, t: Task, id: Text)
    requires TaskOk(t) && Settled(rows, t)
    ensures Converge(rows, t, id) == rows
  {
    KeptIs(rows, t);
    FilterAll(Keeps(t.user, Kept(rows, t)), rows);
  }

  // ---- the whole loop ------------------------------------------------------------------------------------------

  /** One task per user. */
  predicate PlanOk(tasks: seq<Task>) {
    (forall i :: 0 <= i < |tasks| ==> TaskOk(tasks[i])) && (forall i, j :: 0 <= i < j < |tasks| ==> tasks[i].user != tasks[j].user)
  }

  /** Enough new ids: uuid v4, pairwise different and not in use. */
  predicate IdsAreNew(rows: seq<Row>, tasks: seq<Task>, ids: seq<Text>) {
    && |tasks| <= |ids|
    && Distinct(ids)
    && forall i :: 0 <= i < |ids| ==> Some(ids[i]) !in Ids(rows) && IsNewId(Some(ids[i]))
  }

  predicate Planned(tasks: seq<Task>, user: Cell) {
    exists i :: 0 <= i < |tasks| && Some(tasks[i].user) == user
  }

  function MadeRow(t: Task, id: Text): Row {
    [Some(id)] + (if t.target.Some? then t.target.value else [])
  }

  ghost predicate IdsFrom(rows: seq<Row>, n: nat, ids: seq<Text>, after: seq<Row>)
    requires n <= |ids|
  {
    forall c :: c in Ids(after) ==> c in Ids(rows) || exists k :: 0 <= k < n && c == Some(ids[k])
  }

  ghost predicate IsMade(tasks: seq<Task>, ids: seq<Text>, k: nat, r: Row)
    requires k < |tasks| <= |ids|
  {
    tasks[k].target.Some? && r == MadeRow(tasks[k], ids[k])
  }

  ghost predicate RowsFrom(rows: seq<Row>, tasks: seq<Task>, n: nat, ids: seq<Text>, after: seq<Row>)
    requires n <= |tasks| <= |ids|
  {
    && (forall r :: r in after && r !in rows ==> exists k: nat :: k < n && IsMade(tasks, ids, k, r))
    && (forall r :: r in rows && !Planned(tasks, UserOf(r)) ==> r in after)
  }

  /** What the first n tasks have made of the table. */
  ghost predicate Outcome(rows: seq<Row>, tasks: seq<Task>, n: nat, ids: seq<Text>, after: seq<Row>)
    requires n <= |tasks| <= |ids|
  {
    && Distinct(Ids(after))
    && (forall k :: 0 <= k < n ==> Settled(after, tasks[k]))
    && IdsFrom(rows, n, ids, after)
    && RowsFrom(rows, tasks, n, ids, after)
  }

  lemma {:induction false} LoopOutcome(rows: seq<Row>, tasks: seq<Task>, n: nat, ids: seq<Text>)
    requires PlanOk(tasks) && IdsAreNew(rows, tasks, ids) && Distinct(Ids(rows)) && n <= |tasks|
    ensures Outcome(rows, tasks, n, ids, ConvergeAll(rows, tasks[..n], ids))
  {
    assert |tasks| <= |ids|;
    hide Outcome, PlanOk, IdsAreNew, Distinct, Ids, Converge;
    if n > 0 {
      LoopOutcome(rows, tasks, n - 1, ids);
      LoopStep(rows, tasks, n - 1, ids, ConvergeAll(rows, tasks[..n - 1], ids));
      assert tasks[..n][..n - 1] == tasks[..n - 1];
    } else {
      assert tasks[..0] == [];
      NothingDone(rows, tasks, ids);
    }
  }

  lemma NothingDone(rows: seq<Row>, tasks: seq<Task>, ids: seq<Text>)
    requires Distinct(Ids(rows)) && |tasks| <= |ids|
    ensures Outcome(rows, tasks, 0, ids, rows)
  {
    hide Ids, Planned;
  }

  lemma LoopStep(rows: seq<Row>, tasks: seq<Task>, n: nat, ids: seq<Text>, before: seq<Row>)
    requires PlanOk(tasks) && IdsAreNew(rows, tasks, ids) && n < |tasks|
    requires Outcome(rows, tasks, n, ids, before)
    ensures Outcome(rows, tasks, n + 1, ids, Converge(before, tasks[n], ids[n]))
  {
    IdsStep(rows, tasks, n, ids, before);
    RowsStep(rows, tasks, n, ids, before);
    hide Converge, Settled, IsNewId, IdsFrom, RowsFrom, Distinct, Ids;
    var after := Converge(before, tasks[n], ids[n]);
    ConvergeSettles(before, tasks[n], ids[n]);
    forall k | 0 <= k < n ensures Settled(after, tasks[k]) {
      ConvergeSparesOthers(before, tasks[n], ids[n], tasks[k]);
    }
  }

  lemma IdsStep(rows: seq<Row>, tasks: seq<Task>, n: nat, ids: seq<Text>, before: seq<Row>)
    requires IdsAreNew(rows, tasks, ids) && n < |tasks|
    requires Distinct(Ids(before)) && IdsFrom(rows, n, ids, before)
    ensures var after := Converge(before, tasks[n], ids[n]); Distinct(Ids(after)) && IdsFrom(rows, n + 1, ids, after)
  {
    hide Converge, IsNewId, Ids;
    assert Some(ids[n]) !in Ids(before);
    ConvergeKeepsIds(before, tasks[n], ids[n]);
  }

  lemma RowsStep(rows: seq<Row>, tasks: seq<Task>, n: nat, ids: seq<Text>, before: seq<Row>)
    requires n < |tasks| <= |ids|
    requires RowsFrom(rows, tasks, n, ids, before)
    ensures RowsFrom(rows, tasks, n + 1, ids, Converge(before, tasks[n], ids[n]))
  {
    var after := Converge(before, tasks[n], ids[n]);
    hide Converge, IsMade;
    forall r | r in after && r !in rows ensures exists k: nat :: k < n + 1 && IsMade(tasks, ids, k, r) {
      ConvergeMembers(before, tasks[n], ids[n], r);
      if r in before {
        var k: nat :| k < n && IsMade(tasks, ids, k, r);
      } else {
        IsMadeHere(tasks, ids, n, r);
      }
    }
    forall r | r in rows && !Planned(tasks, UserOf(r)) ensures r in after {
      ConvergeMembers(before, tasks[n], ids[n], r);
    }
  }

  lemma IsMadeHere(tasks: seq<Task>, ids: seq<Text>, n: nat, r: Row)
    requires n < |tasks| <= |ids| && tasks[n].target.Some? && r == [Some(ids[n])] + tasks[n].target.value
    ensures IsMade(tasks, ids, n, r)
  {
  }

  function Unplanned(tasks: seq<Task>): Row -> bool {
    (r: Row) => !Planned(tasks, UserOf(r))
  }

  /** From any table: the rows of users outside the plan stay as they are, in order. */
  lemma OthersUntouched(rows: seq<Row>, tasks: seq<Task>, ids: seq<Text>)
    requires PlanOk(tasks) && |tasks| <= |ids|
    ensures Filter(Unplanned(tasks), ConvergeAll(rows, tasks, ids)) == Filter(Unplanned(tasks), rows)
  {
    StillUntouched(rows, tasks, ids, |tasks|, Unplanned(tasks));
    assert tasks[..|tasks|] == tasks;
  }

  lemma {:induction false} StillUntouched(rows: seq<Row>, tasks: seq<Task>, ids: seq<Text>, n: nat, p: Row -> bool)
    requires PlanOk(tasks) && n <= |tasks| <= |ids|
    requires forall r :: p(r) ==> !Planned(tasks, UserOf(r))
    ensures Filter(p, ConvergeAll(rows, tasks[..n], ids)) == Filter(p, rows)
  {
    if n > 0 {
      StillUntouched(rows, tasks, ids, n - 1, p);
      assert tasks[..n][..n - 1] == tasks[..n - 1];
      var before, t := ConvergeAll(rows, tasks[..n - 1], ids), tasks[n - 1];
      var keeps, made := Keeps(t.user, Kept(before, t)), Made(before, t, ids[n - 1]);
      forall r | p(r) ensures keeps(r) {
        assert UserOf(r) == Some(t.user) ==> Planned(tasks, UserOf(r));
      }
      FilterTwice(p, keeps, before);
      FilterJoins(p, Filter(keeps, before), made);
      assert Filter(p, made) == [] by {
        if |made| > 0 {
          assert UserOf(made[0]) == Some(t.user) && Planned(tasks, UserOf(made[0]));
          assert made[1..] == [];
        }
      }
    } else {
      assert tasks[..0] == [];
    }
  }

  /** A second run changes nothing, whatever new ids it is given. */
  lemma SecondRunChangesNothing(rows: seq<Row>, tasks: seq<Task>, ids: seq<Text>, more: seq<Text>)
    requires PlanOk(tasks) && IdsAreNew(rows, tasks, ids) && Distinct(Ids(rows)) && |tasks| <= |more|
    ensures ConvergeAll(ConvergeAll(rows, tasks, ids), tasks, more) == ConvergeAll(rows, tasks, ids)
  {
    LoopOutcome(rows, tasks, |tasks|, ids);
    hide ConvergeAll, Settled;
    assert tasks[..|tasks|] == tasks;
    SettledTableStays(ConvergeAll(rows, tasks, ids), tasks, more, |tasks|);
  }

  lemma {:induction false} SettledTableStays(rows: seq<Row>, tasks: seq<Task>, more: seq<Text>, n: nat)
    requires PlanOk(tasks) && n <= |tasks| <= |more| && forall k :: 0 <= k < |tasks| ==> Settled(rows, tasks[k])
    ensures ConvergeAll(rows, tasks[..n], more) == rows
  {
    hide Settled, Converge;
    if n > 0 {
      SettledTableStays(rows, tasks, more, n - 1);
      assert tasks[..n][..n - 1] == tasks[..n - 1];
      SettledStays(rows, tasks[n - 1], more[n - 1]);
    }
  }

  // ---- and the verifier ----------------------------------------------------------------------------------------

  function Targets(tasks: seq<Task>): set<Row> {
    set i | 0 <= i < |tasks| && tasks[i].target.Some? :: tasks[i].target.value
  }

  /** The scopes before are canonical ones, none of them twice. */
  ghost predicate IsCanonicalPart(rows: seq<Row>, tasks: seq<Task>) {
    Distinct(Contents(rows)) && ToSet(Contents(rows)) <= Targets(tasks)
  }

  /** A canonical row's user is planned, with that row's content as its target. */
  lemma CanonicalRow(rows: seq<Row>, tasks: seq<Task>, r: Row) returns (k: nat)
    requires PlanOk(tasks) && IsCanonicalPart(rows, tasks) && r in rows
    ensures k < |tasks| && tasks[k].target == Some(Content(r)) && UserOf(r) == Some(tasks[k].user)
  {
    ContentsMembers(rows);
    assert Content(r) in Targets(tasks);
    k :| 0 <= k < |tasks| && tasks[k].target == Some(Content(r));
  }

  /** Canonical rows are never removed. */
  lemma {:induction false} CanonicalRowStays(rows: seq<Row>, tasks: seq<Task>, n: nat, ids: seq<Text>, r: Row)
    requires PlanOk(tasks) && IdsAreNew(rows, tasks, ids) && Distinct(Ids(rows)) && n <= |tasks|
    requires IsCanonicalPart(rows, tasks) && r in rows
    ensures r in ConvergeAll(rows, tasks[..n], ids)
  {
    assert |tasks| <= |ids|;
    hide Converge, Outcome, IdsAreNew, IsCanonicalPart, PlanOk, Distinct, Ids;
    if n > 0 {
      CanonicalRowStays(rows, tasks, n - 1, ids, r);
      assert tasks[..n][..n - 1] == tasks[..n - 1];
      LoopOutcome(rows, tasks, n - 1, ids);
      CanonicalRowPasses(rows, tasks, n - 1, ids, ConvergeAll(rows, tasks[..n - 1], ids), r);
    } else {
      assert tasks[..0] == [];
    }
  }

  lemma CanonicalRowPasses(rows: seq<Row>, tasks: seq<Task>, n: nat, ids: seq<Text>, before: seq<Row>, r: Row)
    requires PlanOk(tasks) && IsCanonicalPart(rows, tasks) && n < |tasks| <= |ids|
    requires Outcome(rows, tasks, n, ids, before) && r in rows && r in before
    ensures r in Converge(before, tasks[n], ids[n])
  {
    hide Converge, Settled, Kept, Ids, IdsFrom;
    var t := tasks[n];
    ConvergeMembers(before, t, ids[n], r);
    if UserOf(r) == Some(t.user) {
      var k := CanonicalRow(rows, tasks, r);
      KeptIs(before, t);
      var kept := Kept(before, t).value;
      assert kept in rows;
      OneRow(rows, kept, r);
    }
  }

  lemma DistinctByContent(rows: seq<Row>)
    requires Distinct(Ids(rows)) && forall a, b :: a in rows && b in rows && Content(a) == Content(b) ==> a == b
    ensures Distinct(Contents(rows))
  {
    forall i, j | 0 <= i < j < |rows| ensures Contents(rows)[i] != Contents(rows)[j] {
      assert Ids(rows)[i] != Ids(rows)[j];
      assert rows[i] in rows && rows[j] in rows;
    }
  }

  /** Starting from canonical scopes, every row afterwards is canonical and belongs to a planned user. */
  lemma FinalRow(rows: seq<Row>, tasks: seq<Task>, ids: seq<Text>, after: seq<Row>, r: Row) returns (k: nat)
    requires PlanOk(tasks) && IdsAreNew(rows, tasks, ids) && IsCanonicalPart(rows, tasks)
    requires Outcome(rows, tasks, |tasks|, ids, after) && r in after
    ensures k < |tasks| && tasks[k].target == Some(Content(r)) && UserOf(r) == Some(tasks[k].user)
    ensures r !in rows ==> IsNewId(IdOf(r))
  {
    if r in rows {
      k := CanonicalRow(rows, tasks, r);
    } else {
      k :| 0 <= k < |tasks| && IsMade(tasks, ids, k, r);
    }
  }

  lemma FinalContentsOnce(rows: seq<Row>, tasks: seq<Task>, ids: seq<Text>, after: seq<Row>)
    requires PlanOk(tasks) && IdsAreNew(rows, tasks, ids) && IsCanonicalPart(rows, tasks) && Outcome(rows, tasks, |tasks|, ids, after)
    ensures Distinct(Contents(after))
  {
    hide IsNewId, IsCanonicalPart, RowsFrom, IdsFrom;
    forall a, b | a in after && b in after && Content(a) == Content(b) ensures a == b {
      var k := FinalRow(rows, tasks, ids, after, a);
      var m := FinalRow(rows, tasks, ids, after, b);
      assert UserOf(a) == Some(tasks[k].user) == tasks[k].target.value[0];
      assert Settled(after, tasks[k]);
    }
    DistinctByContent(after);
  }

  lemma FinalContents(rows: seq<Row>, tasks: seq<Task>, ids: seq<Text>, after: seq<Row>, c: Row)
    requires PlanOk(tasks) && IdsAreNew(rows, tasks, ids) && IsCanonicalPart(rows, tasks) && Outcome(rows, tasks, |tasks|, ids, after)
    ensures c in Contents(after) <==> c in Targets(tasks)
  {
    hide IsNewId, IsCanonicalPart, RowsFrom, IdsFrom;
    ContentsMembers(after);
    if c in Contents(after) {
      var r :| r in after && Content(r) == c;
      var k := FinalRow(rows, tasks, ids, after, r);
    }
    if c in Targets(tasks) {
      var k :| 0 <= k < |tasks| && tasks[k].target == Some(c);
      assert Settled(after, tasks[k]);
    }
  }

  lemma CanonicalPartIsAccepted(rows: seq<Row>, tasks: seq<Task>, ids: seq<Text>)
    requires PlanOk(tasks) && IdsAreNew(rows, tasks, ids) && Distinct(Ids(rows)) && IsCanonicalPart(rows, tasks)
    ensures ScopesAccepted(rows, ConvergeAll(rows, tasks, ids), Targets(tasks))
  {
    hide ConvergeAll, IsNewId, Settled, RowsFrom, IdsFrom, IsCanonicalPart;
    var after := ConvergeAll(rows, tasks, ids);
    LoopOutcome(rows, tasks, |tasks|, ids);
    assert tasks[..|tasks|] == tasks;
    forall r | r in rows ensures r in after {
      CanonicalRowStays(rows, tasks, |tasks|, ids, r);
    }
    forall r | r in after && r !in rows ensures IsNewId(IdOf(r)) {
      var k := FinalRow(rows, tasks, ids, after, r);
    }
    FinalContentsOnce(rows, tasks, ids, after);
    forall c ensures c in ToSet(Contents(after)) <==> c in Targets(tasks) {
      FinalContents(rows, tasks, ids, after, c);
    }
  }

  lemma AcceptedMeansCanonicalPart(rows: seq<Row>, tasks: seq<Task>, after: seq<Row>)
    requires Distinct(Ids(rows)) && ScopesAccepted(rows, after, Targets(tasks))
    ensures IsCanonicalPart(rows, tasks)
  {
    ContentsMembers(rows);
    ContentsMembers(after);
    forall a, b | a in rows && b in rows && Content(a) == Content(b) ensures a == b {
      OneRow(after, a, b);
    }
    DistinctByContent(rows);
    forall c | c in ToSet(Contents(rows)) ensures c in Targets(tasks) {
      var r :| r in rows && Content(r) == c;
      assert r in after;
    }
  }

  /** The verifier accepts what the loop makes of a table exactly when that table held canonical scopes only, none of them twice. */
  lemma ConvergenceIsAccepted(rows: seq<Row>, tasks: seq<Task>, ids: seq<Text>)
    requires PlanOk(tasks) && IdsAreNew(rows, tasks, ids) && Distinct(Ids(rows))
    ensures ScopesAccepted(rows, ConvergeAll(rows, tasks, ids), Targets(tasks)) <==> IsCanonicalPart(rows, tasks)
  {
    hide ScopesAccepted, IsCanonicalPart, ConvergeAll;
    if IsCanonicalPart(rows, tasks) {
      CanonicalPartIsAccepted(rows, tasks, ids);
    }
    if ScopesAccepted(rows, ConvergeAll(rows, tasks, ids), Targets(tasks)) {
      AcceptedMeansCanonicalPart(rows, tasks, ConvergeAll(rows, tasks, ids));
    }
  }

  // ---- from assignments to tasks -------------------------------------------------------------------------------

  /** The roles all exist, and once there are locations each named one exists under the id of its branch. */
  predicate Ready(assignments: seq<Assignment>, roleIds: map<Cell, Cell>, locationIds: map<Cell, Cell>, branchIds: map<Cell, Cell>) {
    forall i :: 0 <= i < |assignments| ==> AssignmentReady(assignments[i], roleIds, locationIds, branchIds)
  }

  predicate AssignmentReady(a: Assignment, roleIds: map<Cell, Cell>, locationIds: map<Cell, Cell>, branchIds: map<Cell, Cell>) {
    && Some(a.roleCode) in roleIds
    && (a.branchCode.Some? && |locationIds| > 0 ==>
          a.branchCode in locationIds && a.branchCode in branchIds && locationIds[a.branchCode] == branchIds[a.branchCode])
  }

  function TaskOf(a: Assignment, userIds: map<Text, Text>, roleIds: map<Cell, Cell>, locationIds: map<Cell, Cell>): Task
    requires a.email in userIds
  {
    var target := TargetOf(a.(userId := userIds[a.email]), roleIds, locationIds);
    Task(userIds[a.email], if target.Ok? then target.value else None)
  }

  function TasksOf(assignments: seq<Assignment>, userIds: map<Text, Text>, roleIds: map<Cell, Cell>, locationIds: map<Cell, Cell>): seq<Task>
    requires forall i :: 0 <= i < |assignments| ==> assignments[i].email in userIds
  {
    seq(|assignments|, i requires 0 <= i < |assignments| => TaskOf(assignments[i], userIds, roleIds, locationIds))
  }

  /** The seeded users are all there, each with one assignment. */
  predicate UsersReady(assignments: seq<Assignment>, userIds: map<Text, Text>) {
    && (forall i :: 0 <= i < |assignments| ==> assignments[i].email in userIds)
    && (forall i, j :: 0 <= i < j < |assignments| ==> userIds[assignments[i].email] != userIds[assignments[j].email])
  }

  lemma TasksArePlan(assignments: seq<Assignment>, userIds: map<Text, Text>, roleIds: map<Cell, Cell>, locationIds: map<Cell, Cell>)
    requires UsersReady(assignments, userIds)
    ensures PlanOk(TasksOf(assignments, userIds, roleIds, locationIds))
  {
  }

  /** Refuses before it touches a row when a role or a location is missing; otherwise brings each canonical user in line. */
  method ConvergeCanonicalScopes(table: ScopeTable, assignments: seq<Assignment>, userIds: map<Text, Text>, roleIds: map<Cell, Cell>,
                                 locationIds: map<Cell, Cell>, branchIds: map<Cell, Cell>, ids: seq<Text>) returns (ok: bool)
    requires UsersReady(assignments, userIds)
    requires IdsAreNew(table.rows, TasksOf(assignments, userIds, roleIds, locationIds), ids) && Distinct(Ids(table.rows))
    modifies table
    ensures ok <==> Ready(assignments, roleIds, locationIds, branchIds)
    ensures table.rows == if ok then ConvergeAll(old(table.rows), TasksOf(assignments, userIds, roleIds, locationIds), ids) else old(table.rows)
  {
    hide TargetOf, IdsAreNew;
    if exists i :: 0 <= i < |assignments| && Some(assignments[i].roleCode) !in roleIds {
      return false;
    }
    if |locationIds| > 0 {
      var i := 0;
      while i < |assignments|
        invariant 0 <= i <= |assignments|
        invariant forall k :: 0 <= k < i ==> AssignmentReady(assignments[k], roleIds, locationIds, branchIds)
      {
        var code := assignments[i].branchCode;
        if code.Some? && (code !in locationIds || code !in branchIds || locationIds[code] != branchIds[code]) {
          return false;
        }
        i := i + 1;
      }
    }
    ghost var tasks := TasksOf(assignments, userIds, roleIds, locationIds);
    TasksArePlan(assignments, userIds, roleIds, locationIds);
    ok := true;
    hide Ready, AssignmentReady;
    ConvergeTasks(table, assignments, userIds, roleIds, locationIds, ids);
  }

  method ConvergeTasks(table: ScopeTable, assignments: seq<Assignment>, userIds: map<Text, Text>, roleIds: map<Cell, Cell>,
                       locationIds: map<Cell, Cell>, ids: seq<Text>)
    requires UsersReady(assignments, userIds)
    requires IdsAreNew(table.rows, TasksOf(assignments, userIds, roleIds, locationIds), ids) && Distinct(Ids(table.rows))
    modifies table
    ensures table.rows == ConvergeAll(old(table.rows), TasksOf(assignments, userIds, roleIds, locationIds), ids)
  {
    hide TaskOf, TargetOf, Converge, Outcome;
    ghost var tasks := TasksOf(assignments, userIds, roleIds, locationIds);
    TasksArePlan(assignments, userIds, roleIds, locationIds);
    var i := 0;
    assert tasks[..0] == [];
    while i < |assignments|
      invariant 0 <= i <= |assignments|
      invariant table.rows == ConvergeAll(old(table.rows), tasks[..i], ids)
    {
      LoopIds(old(table.rows), tasks, i, ids);
      assert TaskOk(tasks[i]);
      ConvergeUser(table, TaskOf(assignments[i], userIds, roleIds, locationIds), ids[i]);
      assert tasks[..i + 1][..i] == tasks[..i];
      i := i + 1;
    }
    assert tasks[..|assignments|] == tasks;
  }

  lemma LoopIds(rows: seq<Row>, tasks: seq<Task>, n: nat, ids: seq<Text>)
    requires PlanOk(tasks) && IdsAreNew(rows, tasks, ids) && Distinct(Ids(rows)) && n <= |tasks|
    ensures Distinct(Ids(ConvergeAll(rows, tasks[..n], ids)))
  {
    LoopOutcome(rows, tasks, n, ids);
  }

  /** The seed goes ahead with an assignment exactly when it stands for something, and a location it stands for is the one of its branch:
      location and branch of one code have one id. */
  lemma ScopesAreAtTheBranch(a: Assignment, roleIds: map<Cell, Cell>, locationIds: map<Cell, Cell>, branchIds: map<Cell, Cell>)
    ensures AssignmentReady(a, roleIds, locationIds, branchIds) <==>
            var target := TargetOf(a, roleIds, locationIds);
            && target.Ok?
            && (target.value.Some? && |target.value.value| == 4 && target.value.value[2] == Some(Scalars("LOCATION")) ==>
                  a.branchCode in branchIds && target.value.value[3] == branchIds[a.branchCode])
    ensures forall content :: TargetOf(a, roleIds, locationIds) == Ok(Some(content)) ==>
              |content| == 4 && content[2] == Some(Scalars(if a.branchCode.Some? then "LOCATION" else "COMPANY")) && content[0] == Some(a.userId)
  {
  }

  lemma TargetResolves(a: Assignment, userIds: map<Text, Text>, roleIds: map<Cell, Cell>, locationIds: map<Cell, Cell>, branchIds: map<Cell, Cell>)
    requires AssignmentReady(a, roleIds, locationIds, branchIds) && a.email in userIds && userIds[a.email] == a.userId
    ensures TargetOf(a, roleIds, locationIds) == Ok(TaskOf(a, userIds, roleIds, locationIds).target)
  {
    assert a.(userId := userIds[a.email]) == a;
  }

  lemma {:induction false} TargetsAreExpected(assignments: seq<Assignment>, userIds: map<Text, Text>, roleIds: map<Cell, Cell>,
                                              locationIds: map<Cell, Cell>, branchIds: map<Cell, Cell>)
    requires UsersReady(assignments, userIds) && Ready(assignments, roleIds, locationIds, branchIds)
    requires forall i :: 0 <= i < |assignments| ==> userIds[assignments[i].email] == assignments[i].userId
    ensures Expected(assignments, roleIds, locationIds) == Some(Targets(TasksOf(assignments, userIds, roleIds, locationIds)))
  {
    hide TargetOf, TaskOf, AssignmentReady;
    var tasks := TasksOf(assignments, userIds, roleIds, locationIds);
    if |assignments| > 0 {
      var n := |assignments| - 1;
      TargetsAreExpected(assignments[..n], userIds, roleIds, locationIds, branchIds);
      assert TasksOf(assignments[..n], userIds, roleIds, locationIds) == tasks[..n];
      TargetResolves(assignments[n], userIds, roleIds, locationIds, branchIds);
      assert tasks[n] == TaskOf(assignments[n], userIds, roleIds, locationIds);
      TargetsGrow(tasks, n);
      assert tasks[n].target.None? ==> Targets(tasks) == Targets(tasks[..n]);
    } else {
      assert Targets(tasks) == {};
    }
  }

  lemma TargetsGrow(tasks: seq<Task>, n: nat)
    requires |tasks| == n + 1
    ensures Targets(tasks) == Targets(tasks[..n]) + if tasks[n].target.Some? then {tasks[n].target.value} else {}
  {
    forall c ensures c in Targets(tasks) <==> c in Targets(tasks[..n]) || tasks[n].target == Some(c) {
      if c in Targets(tasks) {
        var i :| 0 <= i < |tasks| && tasks[i].target == Some(c);
        assert i < n ==> tasks[..n][i].target == Some(c);
      }
    }
  }

  /** The seed's loop meets its verifier: with the canonical users in place and everything resolved, the scope part of the verifier
      accepts the result exactly when the scopes before were canonical ones, none of them twice. */
  lemma SeedMeetsVerifier(rows: seq<Row>, assignments: seq<Assignment>, userIds: map<Text, Text>, roleIds: map<Cell, Cell>,
                          locationIds: map<Cell, Cell>, branchIds: map<Cell, Cell>, ids: seq<Text>)
    requires UsersReady(assignments, userIds) && Ready(assignments, roleIds, locationIds, branchIds)
    requires forall i :: 0 <= i < |assignments| ==> userIds[assignments[i].email] == assignments[i].userId
    requires IdsAreNew(rows, TasksOf(assignments, userIds, roleIds, locationIds), ids) && Distinct(Ids(rows))
    ensures var tasks := TasksOf(assignments, userIds, roleIds, locationIds);
      ScopesAcceptedFor(rows, ConvergeAll(rows, tasks, ids), Expected(assignments, roleIds, locationIds)) <==> IsCanonicalPart(rows, tasks)
  {
    hide Ready, TasksOf, ConvergeAll, IsCanonicalPart, ScopesAccepted, Targets, Expected, PlanOk;
    TasksArePlan(assignments, userIds, roleIds, locationIds);
    TargetsAreExpected(assignments, userIds, roleIds, locationIds, branchIds);
    ConvergenceIsAccepted(rows, TasksOf(assignments, userIds, roleIds, locationIds), ids);
  }

  // ---- a table the verifier refuses ----------------------------------------------------------------------------

  const SOMEONE := Scalars("u")
  const EMAIL := Scalars("e")
  const ROLE := Scalars("r")
  const ASSIGNMENTS := [Assignment(SOMEONE, EMAIL, ROLE, None)]
  const USER_IDS: map<Text, Text> := map[EMAIL := SOMEONE]
  const ROLE_IDS: map<Cell, Cell> := map[Some(ROLE) := Some(Scalars("1"))]
  const NO_IDS: map<Cell, Cell> := map[]
  const NEW_IDS := [Scalars(Texts.SampleUuid('a'))]

  /** The user already has a company scope, for another role than the canonical one. */
  const STALE: seq<Row> := [[Some(Scalars("s")), Some(SOMEONE), Some(Scalars("2")), Some(Scalars("COMPANY")), None]]

  /** One scope that is not canonical is enough: the loop deletes it, and the verifier misses it. */
  lemma StaleScopeIsRefused()
    ensures UsersReady(ASSIGNMENTS, USER_IDS) && Ready(ASSIGNMENTS, ROLE_IDS, NO_IDS, NO_IDS)
    ensures IdsAreNew(STALE, TasksOf(ASSIGNMENTS, USER_IDS, ROLE_IDS, NO_IDS), NEW_IDS)
    ensures !ScopesAcceptedFor(STALE, ConvergeAll(STALE, TasksOf(ASSIGNMENTS, USER_IDS, ROLE_IDS, NO_IDS), NEW_IDS),
                               Expected(ASSIGNMENTS, ROLE_IDS, NO_IDS))
  {
    Texts.SampleIsUuid('a');
    var tasks := TasksOf(ASSIGNMENTS, USER_IDS, ROLE_IDS, NO_IDS);
    assert tasks == [Task(SOMEONE, Some([Some(SOMEONE), Some(Scalars("1")), Some(Scalars("COMPANY")), None]))];
    assert Ids(STALE) == [Some(Scalars("s"))];
    assert Contents(STALE)[0][1] == Some(Scalars("2"));
    assert "2"[0] != "1"[0];
    assert !IsCanonicalPart(STALE, tasks) by {
      assert Contents(STALE)[0] in ToSet(Contents(STALE));
      forall c | c in Targets(tasks) ensures c != Contents(STALE)[0] {
      }
    }
    SeedMeetsVerifier(STALE, ASSIGNMENTS, USER_IDS, ROLE_IDS, NO_IDS, NO_IDS, NEW_IDS);
  }
}
