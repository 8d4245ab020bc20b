/** The resume with the transformation verifier in place: what a requested COMMIT says about the rows, given only that the reviewed
    contract has the columns the rules read. */
module ResumeVerified {
  import opened Wrappers
  import opened Sequences
  import opened Bytes
  import opened StateTypes
  import opened StateFields
  import opened StateStream
  import opened StateTheorems
  import opened StreamWriter
  import opened Transformation
  import opened ProtectedResume
  import opened ResumeTheorems

  // ---- the contract --------------------------------------------------------------------------------------------

  function RelationOf(t: Table): string {
    t.relation
  }

  function Relations(contract: Contract): seq<string> {
    Map(RelationOf, contract.tables)
  }

  predicate HasColumn(t: Table, k: nat, name: string) {
    k < |t.columns| && t.columns[k].name == name
  }

  predicate UserColumns(t: Table) {
    && |t.columns| == USER_ARITY
    && HasColumn(t, USER_ID, "id") && HasColumn(t, USER_EMAIL, "email") && HasColumn(t, USER_HASH, "passwordHash")
    && HasColumn(t, USER_CREATED, "createdAt") && HasColumn(t, USER_UPDATED, "updatedAt")
    && KeyAttnums(t) == [t.columns[USER_ID].attnum]
  }

  predicate ScopeColumns(t: Table) {
    && |t.columns| == SCOPE_ARITY
    && HasColumn(t, 0, "id") && HasColumn(t, 1, "userId") && HasColumn(t, 2, "roleId") && HasColumn(t, 3, "scopeKind")
    && HasColumn(t, 4, "locationId")
  }

  /** Where the rules look for a column, the contract has it; and a user's primary key is its id. */
  predicate ColumnsInPlace(t: Table) {
    && (t.relation == USER_TABLE ==> UserColumns(t))
    && (t.relation == SCOPE_TABLE ==> ScopeColumns(t))
    && (t.relation == ROLE_TABLE ==> HasColumn(t, ROLE_ID, "id") && HasColumn(t, ROLE_CODE, "code"))
    && (t.relation == LOCATION_TABLE ==> HasColumn(t, LOCATION_ID, "id") && HasColumn(t, LOCATION_CODE, "code"))
  }

  predicate IsReviewed(contract: Contract) {
    Covers(Relations(contract)) && forall i :: 0 <= i < |contract.tables| ==> ColumnsInPlace(contract.tables[i])
  }

  // ---- the rows of an accepted state ---------------------------------------------------------------------------

  lemma {:induction false} RelationsAreKept(tables: seq<Table>, rs: seq<RelationState>, n: nat)
    requires n <= |tables| && n <= |rs|
    ensures RowsUpTo(tables, rs, n).Keys == set i | 0 <= i < n :: tables[i].relation
  {
    if n > 0 {
      RelationsAreKept(tables, rs, n - 1);
    }
  }

  lemma {:induction false} RowsAreFound(tables: seq<Table>, rs: seq<RelationState>, n: nat, i: nat)
    requires i < n <= |tables| && n <= |rs| && Distinct(Map(RelationOf, tables))
    ensures tables[i].relation in RowsUpTo(tables, rs, n) && RowsUpTo(tables, rs, n)[tables[i].relation] == rs[i].rows
  {
    if i < n - 1 {
      RowsAreFound(tables, rs, n - 1, i);
      assert Map(RelationOf, tables)[i] != Map(RelationOf, tables)[n - 1];
    }
  }

  lemma TableIsThere(contract: Contract, s: State, name: string) returns (i: nat)
    requires Distinct(Relations(contract)) && |s.relations| == |contract.tables| && name in Relations(contract)
    ensures i < |contract.tables| && contract.tables[i].relation == name
    ensures name in RowsOf(contract, s) && RowsOf(contract, s)[name] == s.relations[i].rows
  {
    i :| 0 <= i < |contract.tables| && Relations(contract)[i] == name;
    RowsAreFound(contract.tables, s.relations, |contract.tables|, i);
  }

  lemma SectionIsShaped(contract: Contract, cap: nat, s: State, i: nat)
    requires StateOk(contract, cap, s) && i < |contract.tables|
    ensures |s.relations| == |contract.tables| && Shaped(s.relations[i].rows, |contract.tables[i].columns|)
    ensures Ascending(contract.tables[i], s.relations[i].rows)
  {
    hide HeaderOk, TypesOk, FunctionsOk, FactsOk, FieldOk, KeyOk, Ascending, PutRow;
    assert SectionOk(contract.enums, LabelMap(s.types), cap, contract.tables[i], s.relations[i]);
    forall j | 0 <= j < |s.relations[i].rows| ensures |s.relations[i].rows[j]| == |contract.tables[i].columns| {
      assert RowOk(contract.enums, LabelMap(s.types), contract.tables[i], s.relations[i].rows[j]);
    }
  }

  lemma UserIdsAreDistinct(t: Table, rows: seq<Row>)
    requires UserColumns(t) && Shaped(rows, |t.columns|) && Ascending(t, rows)
    ensures Distinct(ValuesOf(rows, USER_ID))
  {
    var attnum := t.columns[USER_ID].attnum;
    assert ColumnAt(t.columns, attnum) == USER_ID;
    hide Ascending, KeyAttnums, HasColumn;
    forall i, j | 0 <= i < j < |rows| ensures ValuesOf(rows, USER_ID)[i] != ValuesOf(rows, USER_ID)[j] {
      KeyColumnIsDistinct(t, rows, attnum, i, j);
    }
  }

  lemma TableIsShaped(contract: Contract, cap: nat, s: State, name: string) returns (t: Table)
    requires IsReviewed(contract) && StateOk(contract, cap, s) && name in Relations(contract)
    ensures t.relation == name && ColumnsInPlace(t)
    ensures name in RowsOf(contract, s) && Shaped(RowsOf(contract, s)[name], |t.columns|) && Ascending(t, RowsOf(contract, s)[name])
  {
    assert |s.relations| == |contract.tables|;
    hide StateOk, ColumnsInPlace, Ascending, Shaped, RowsOf;
    var i := TableIsThere(contract, s, name);
    SectionIsShaped(contract, cap, s, i);
    t := contract.tables[i];
  }

  lemma UserRows(contract: Contract, cap: nat, s: State)
    requires IsReviewed(contract) && StateOk(contract, cap, s)
    ensures USER_TABLE in RowsOf(contract, s) && Shaped(RowsOf(contract, s)[USER_TABLE], USER_ARITY)
    ensures Distinct(ValuesOf(RowsOf(contract, s)[USER_TABLE], USER_ID))
  {
    hide StateOk, KeyAttnums, Ascending, ValuesOf, RowsOf, HasColumn, Relations, Distinct;
    var t := TableIsShaped(contract, cap, s, USER_TABLE);
    UserIdsAreDistinct(t, RowsOf(contract, s)[USER_TABLE]);
  }

  lemma ScopeRows(contract: Contract, cap: nat, s: State)
    requires IsReviewed(contract) && StateOk(contract, cap, s)
    ensures SCOPE_TABLE in RowsOf(contract, s) && Shaped(RowsOf(contract, s)[SCOPE_TABLE], SCOPE_ARITY)
  {
    hide StateOk, KeyAttnums, Ascending, RowsOf, HasColumn, Relations;
    var t := TableIsShaped(contract, cap, s, SCOPE_TABLE);
  }

  lemma CodeRows(contract: Contract, cap: nat, s: State)
    requires IsReviewed(contract) && StateOk(contract, cap, s)
    ensures ROLE_TABLE in RowsOf(contract, s) && forall i :: 0 <= i < |RowsOf(contract, s)[ROLE_TABLE]| ==> ROLE_CODE < |RowsOf(contract, s)[ROLE_TABLE][i]|
    ensures LOCATION_TABLE in RowsOf(contract, s)
            && forall i :: 0 <= i < |RowsOf(contract, s)[LOCATION_TABLE]| ==> LOCATION_CODE < |RowsOf(contract, s)[LOCATION_TABLE][i]|
  {
    hide StateOk, KeyAttnums, Ascending, RowsOf, Relations, UserColumns, ScopeColumns;
    var role := TableIsShaped(contract, cap, s, ROLE_TABLE);
    var location := TableIsShaped(contract, cap, s, LOCATION_TABLE);
  }

  lemma RelationsAreKeys(contract: Contract, cap: nat, s: State)
    requires IsReviewed(contract) && StateOk(contract, cap, s)
    ensures RowsOf(contract, s).Keys == ToSet(Relations(contract))
  {
    hide SectionOk, HeaderOk, TypesOk, FunctionsOk, ColumnsInPlace, RowsUpTo;
    RelationsAreKept(contract.tables, s.relations, |contract.tables|);
    forall name ensures name in ToSet(Relations(contract)) <==> exists i :: 0 <= i < |contract.tables| && contract.tables[i].relation == name {
      assert name in Relations(contract) <==> exists i :: 0 <= i < |contract.tables| && Relations(contract)[i] == name;
    }
  }

  /** The rows kept from an accepted state have the shape the verifier counts on, and no user id occurs twice: both follow from what the
      stream writer refuses. */
  lemma AcceptedRowsAreShaped(contract: Contract, cap: nat, s: State)
    requires IsReviewed(contract) && StateOk(contract, cap, s)
    ensures WellShaped(RowsOf(contract, s)) && RowsOf(contract, s).Keys == ToSet(Relations(contract))
    ensures USER_TABLE in RowsOf(contract, s) && Distinct(ValuesOf(RowsOf(contract, s)[USER_TABLE], USER_ID))
  {
    hide StateOk, IsReviewed, ValuesOf, RowsOf, Relations, Distinct, Shaped;
    hide USER_TABLE, SCOPE_TABLE, ROLE_TABLE, LOCATION_TABLE;
    RelationsAreKeys(contract, cap, s);
    UserRows(contract, cap, s);
    ScopeRows(contract, cap, s);
    CodeRows(contract, cap, s);
  }

  // ---- the verifier in place -----------------------------------------------------------------------------------

  /** The verdict of the verifier on two sets of rows. */
  function Verdict(contract: Contract, seed: Seed, password: Cell -> PasswordState): (Rows, Rows) -> bool
    requires IsReviewed(contract)
  {
    (pre: Rows, post: Rows) => WellShaped(pre) && WellShaped(post) && Passes(pre, post, Relations(contract), seed, password)
  }

  /** The rows of the second state are ones the seed may make of the first's. */
  predicate IsTransformed(contract: Contract, pre: State, post: State, seed: Seed, password: Cell -> PasswordState)
    requires IsReviewed(contract)
  {
    && WellShaped(RowsOf(contract, pre)) && WellShaped(RowsOf(contract, post))
    && Transformed(RowsOf(contract, pre), RowsOf(contract, post), Relations(contract), seed, password)
  }

  /** On accepted states the verdict is the relation. */
  lemma VerdictIsTheRelation(contract: Contract, cap: nat, pre: State, post: State, seed: Seed, password: Cell -> PasswordState)
    requires IsReviewed(contract) && StateOk(contract, cap, pre) && StateOk(contract, cap, post)
    ensures Verdict(contract, seed, password)(RowsOf(contract, pre), RowsOf(contract, post))
       <==> IsTransformed(contract, pre, post, seed, password)
  {
    hide StateOk, Passes, Transformed, WellShaped, RowsOf, ValuesOf;
    AcceptedRowsAreShaped(contract, cap, pre);
    AcceptedRowsAreShaped(contract, cap, post);
    PassingIsTheRelation(RowsOf(contract, pre), RowsOf(contract, post), Relations(contract), seed, password);
  }

  /** Run on the rows of two accepted states, the verifier's checks return normally exactly on the relation. */
  method VerifyStates(contract: Contract, ghost cap: nat, pre: State, post: State, seed: Seed, password: Cell -> PasswordState)
    returns (violation: Option<Rule>)
    requires IsReviewed(contract) && StateOk(contract, cap, pre) && StateOk(contract, cap, post)
    ensures violation.None? <==> IsTransformed(contract, pre, post, seed, password)
  {
    hide StateOk, Passes, IsTransformed, RowsOf, ValuesOf, Clauses;
    VerdictIsTheRelation(contract, cap, pre, post, seed, password);
    AcceptedRowsAreShaped(contract, cap, pre);
    AcceptedRowsAreShaped(contract, cap, post);
    violation := VerifyTransformation(RowsOf(contract, pre), RowsOf(contract, post), Relations(contract), seed, password);
  }

  /** A run of the resume whose verifier is the transformation verifier. */
  ghost predicate IsVerified(run: Run, seed: Seed, password: Cell -> PasswordState) {
    IsReviewed(run.contract) && run.accepts == Verdict(run.contract, seed, password)
  }

  /** With the verifier in place a COMMIT is requested exactly when nothing failed, the pre-image is the verified backup, the rows of the
      post-image are ones the seed may make of the backup's, over the same schema and not all the same, and the witness is durable. */
  lemma CommitMeansTransformed(run: Run, seed: Seed, password: Cell -> PasswordState)
    requires IsVerified(run, seed, password)
    ensures RequestsCommit(run)
       <==> && NothingFailed(run.script)
            && run.script.classified == Ok("POST_BACKFILL") && run.script.classifiedPost == Ok("EXACT_BASELINE")
            && ImagesMatch(run) && IsTransformed(run.contract, run.pre, run.script.seeded, seed, password) && Witnessed(run)
  {
    hide StateOk, DigestOf, SchemaDigestOf, RequestsCommit, NothingFailed, Witnessed, Verdict, IsTransformed, RowsOf, IsReviewed;
    CommitMeans(run);
    if ImagesMatch(run) {
      VerdictIsTheRelation(run.contract, run.cap, run.pre, run.script.seeded, seed, password);
    }
  }

  /** What is committed is either still the backup, or rows the seed may make of it. */
  method ResumeVerified(db: Database, outside: Outside, request: Request, script: Script, seed: Seed, password: Cell -> PasswordState)
    returns (result: Outcome)
    requires |db.committed.relations| == |db.contract.tables| && |script.seeded.relations| == |db.contract.tables|
    requires IsReviewed(db.contract)
    modifies db, outside
    ensures result.RolledBack? ==> db.committed == old(db.committed)
    ensures result.Committed? ==> db.committed == script.seeded
    ensures db.committed == old(db.committed)
            || (db.committed == script.seeded && IsTransformed(db.contract, old(db.committed), db.committed, seed, password))
  {
    hide StateOk, DigestOf, SchemaDigestOf, RequestsCommit, NothingFailed, Witnessed, ImagesMatch, Verdict, IsTransformed, Reaches, StopsBefore;
    ghost var run := Run(db.contract, db.cap, db.committed, request, script, Verdict(db.contract, seed, password));
    CommitMeansTransformed(run, seed, password);
    result := Resume(db, outside, request, script, Verdict(db.contract, seed, password));
  }
}
