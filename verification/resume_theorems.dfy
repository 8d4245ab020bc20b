/** What a requested COMMIT implies, and how the outcome verifier settles an unknown one. */
module ResumeTheorems {
  import opened Wrappers
  import opened Bytes
  import opened StateTypes
  import opened StateStream
  import opened StateTheorems
  import opened StreamWriter
  import opened ProtectedResume

  /** Every proof, check, write and answer the transaction depends on went well. */
  predicate NothingFailed(s: Script) {
    && s.begin.Fine? && s.setup.Fine? && s.locks.Fine? && s.identity.Fine? && s.settings.Fine? && s.domain.Fine?
    && s.readPre.Fine? && s.preRowsKept && s.preconditions.Fine? && s.consume.Fine? && s.settingsBeforeSeed.Fine? && s.seed.Fine?
    && s.settingsAfterSeed.Fine? && s.readPost.Fine? && s.postRowsKept && s.finalSettings.Fine?
  }

  /** The pre-image is the verified backup; the post-image is over the same schema and differs from it. */
  predicate ImagesMatch(run: Run) {
    && StateOk(run.contract, run.cap, run.pre) && StateOk(run.contract, run.cap, run.script.seeded)
    && DigestOf(Pre, run.contract, run.pre) == run.request.expectedFPre
    && SchemaDigestOf(run.contract, run.pre) == SchemaDigestOf(run.contract, run.script.seeded)
    && DigestOf(Pre, run.contract, run.script.seeded) != run.request.expectedFPre
  }

  /** And the rows of the post-image are what the verifier accepted. */
  predicate Verified(run: Run) {
    ImagesMatch(run) && run.accepts(RowsOf(run.contract, run.pre), RowsOf(run.contract, run.script.seeded))
  }

  /** A durable receipt for this transaction's nonce and this post-image. */
  predicate Witnessed(run: Run) {
    && run.request.NamesContract()
    && run.script.receipt == Ok(Receipt(true, run.request.nonce, DigestOf(Post, run.contract, run.script.seeded)))
  }

  /** No trouble in the steps [from, to). */
  predicate Clear(run: Run, from: nat, to: nat) {
    forall i: nat :: from <= i < to ==> Trouble(run, i).None?
  }

  lemma FirstSteps(run: Run)
    ensures Clear(run, 0, 7)
       <==> && run.script.begin.Fine? && run.script.setup.Fine? && run.script.locks.Fine? && run.script.identity.Fine?
            && run.script.settings.Fine? && run.script.domain.Fine? && run.script.classified == Ok("POST_BACKFILL")
  {
    hide StateOk, DigestOf, SchemaDigestOf, Witnessing, Reading;
    if Clear(run, 0, 7) {
      assert Trouble(run, 0).None? && Trouble(run, 1).None? && Trouble(run, 2).None? && Trouble(run, 3).None?;
      assert Trouble(run, 4).None? && Trouble(run, 5).None? && Trouble(run, 6).None?;
    }
  }

  lemma MiddleSteps(run: Run)
    ensures Clear(run, 7, 14)
       <==> && run.script.readPre.Fine? && StateOk(run.contract, run.cap, run.pre) && run.script.preRowsKept
            && DigestOf(Pre, run.contract, run.pre) == run.request.expectedFPre && run.script.preconditions.Fine?
            && run.script.consume.Fine? && run.script.settingsBeforeSeed.Fine? && run.script.seed.Fine? && run.script.settingsAfterSeed.Fine?
  {
    hide StateOk, DigestOf, SchemaDigestOf, Witnessing, Expecting;
    if Clear(run, 7, 14) {
      assert Trouble(run, 7).None? && Trouble(run, 8).None? && Trouble(run, 9).None? && Trouble(run, 10).None?;
      assert Trouble(run, 11).None? && Trouble(run, 12).None? && Trouble(run, 13).None?;
    }
  }

  lemma LastSteps(run: Run)
    ensures Clear(run, 14, STEPS)
       <==> && run.script.classifiedPost == Ok("EXACT_BASELINE")
            && run.script.readPost.Fine? && StateOk(run.contract, run.cap, run.script.seeded) && run.script.postRowsKept
            && SchemaDigestOf(run.contract, run.pre) == SchemaDigestOf(run.contract, run.script.seeded)
            && run.accepts(RowsOf(run.contract, run.pre), RowsOf(run.contract, run.script.seeded))
            && DigestOf(Pre, run.contract, run.script.seeded) != run.request.expectedFPre
            && Witnessed(run) && run.script.finalSettings.Fine?
  {
    hide StateOk, DigestOf, SchemaDigestOf;
    if Clear(run, 14, STEPS) {
      assert Trouble(run, 14).None? && Trouble(run, 15).None? && Trouble(run, 16).None? && Trouble(run, 17).None?;
      assert Trouble(run, 18).None? && Trouble(run, 19).None?;
    }
  }

  /** COMMIT is requested exactly when nothing failed, the pre-image was the verified backup, the post-image was verified and new, and
      its witness is durable. */
  lemma CommitMeans(run: Run)
    ensures RequestsCommit(run)
       <==> && NothingFailed(run.script)
            && run.script.classified == Ok("POST_BACKFILL") && run.script.classifiedPost == Ok("EXACT_BASELINE")
            && Verified(run) && Witnessed(run)
  {
    FirstSteps(run);
    MiddleSteps(run);
    LastSteps(run);
    hide Trouble, StateOk, DigestOf, SchemaDigestOf, Witnessed;
    assert RequestsCommit(run) <==> Clear(run, 0, 7) && Clear(run, 7, 14) && Clear(run, 14, STEPS);
  }

  /** The seed never runs without the authorization having been consumed, and neither without the backup having been matched. */
  lemma SeedIsAuthorized(run: Run)
    requires Reaches(run, SEED_STEP)
    ensures Reaches(run, CONSUME_STEP) && run.script.consume.Fine?
    ensures StateOk(run.contract, run.cap, run.pre) && DigestOf(Pre, run.contract, run.pre) == run.request.expectedFPre
  {
    hide StateOk, DigestOf, SchemaDigestOf, Witnessing, Expecting;
    assert Trouble(run, 7).None? && Trouble(run, 8).None? && Trouble(run, 10).None?;
  }

  /** After a requested COMMIT, whatever became of it, the two digests of the outcome verifier tell the pre-image and the verified
      post-image apart from each other and from every other state. */
  lemma OutcomeIsDecidable(run: Run, cap: nat, now: State)
    requires RequestsCommit(run) && StateOk(run.contract, cap, now)
    ensures DigestOf(Pre, run.contract, now) == run.request.expectedFPre <==> Normal(now) == Normal(run.pre)
    ensures DigestOf(Post, run.contract, now) == DigestOf(Post, run.contract, run.script.seeded) <==> Normal(now) == Normal(run.script.seeded)
    ensures Normal(run.pre) != Normal(run.script.seeded)
    ensures DigestOf(Pre, run.contract, now) == run.request.expectedFPre
        ==> DigestOf(Post, run.contract, now) != DigestOf(Post, run.contract, run.script.seeded)
  {
    hide StateOk, DigestMessage, Normal, RequestsCommit, NothingFailed, Witnessed;
    CommitMeans(run);
    DigestsSeparate(run.contract, Pre, cap, now, Pre, run.cap, run.pre);
    DigestsSeparate(run.contract, Post, cap, now, Post, run.cap, run.script.seeded);
    DigestsSeparate(run.contract, Pre, run.cap, run.script.seeded, Pre, run.cap, run.pre);
  }

  /** What is committed is over the same schema as the backup: same header, enum types, functions and table facts. */
  lemma SchemaIsKept(run: Run)
    requires RequestsCommit(run)
    ensures SchemaOf(run.script.seeded) == SchemaOf(run.pre)
  {
    hide StateOk, SchemaMessage, SchemaOf, RequestsCommit, NothingFailed, Witnessed;
    CommitMeans(run);
    SchemaDigestIsExact(run.contract, run.cap, run.pre, run.cap, run.script.seeded);
  }

  /** An unknown outcome is settled by one look: the state is still the pre-image, or it is the post-image, never both. */
  method SettleUnknown(db: Database, outside: Outside, request: Request, script: Script, accepts: (Rows, Rows) -> bool)
    returns (result: Outcome, seen: Option<OutcomeDigests>)
    requires |db.committed.relations| == |db.contract.tables| && |script.seeded.relations| == |db.contract.tables|
    modifies db, outside
    ensures result.CommitUnknown? ==> seen.Some?
    ensures result.CommitUnknown? && !script.applied ==>
      db.committed == old(db.committed) && seen.value.pre == request.expectedFPre && seen.value.post != DigestOf(Post, db.contract, script.seeded)
    ensures result.CommitUnknown? && script.applied ==>
      db.committed == script.seeded && seen.value.pre != request.expectedFPre && seen.value.post == DigestOf(Post, db.contract, script.seeded)
  {
    hide StateOk, DigestOf, RequestsCommit, Reaches, NothingFailed, Witnessed, Normal, SchemaDigestOf;
    ghost var run := Run(db.contract, db.cap, db.committed, request, script, accepts);
    seen := None;
    result := Resume(db, outside, request, script, accepts);
    if result.CommitUnknown? {
      CommitMeans(run);
      OutcomeIsDecidable(run, db.cap, db.committed);
      seen := CheckOutcome(db, request.contracts, Fine);
    }
  }

  /** When the COMMIT was requested, exactly one witness was filed, and it is true: it names this request, its PRE digest is the one the
      outcome verifier reports while the backup is still committed, and its POST digest the one it reports, and that was answered, once the
      seed's state is. */
  method FileAndLook(db: Database, outside: Outside, request: Request, script: Script, accepts: (Rows, Rows) -> bool)
    returns (result: Outcome, seen: Option<OutcomeDigests>)
    requires |db.committed.relations| == |db.contract.tables| && |script.seeded.relations| == |db.contract.tables|
    modifies db, outside
    ensures !result.RolledBack? ==>
      && |outside.witnesses| == |old(outside.witnesses)| + 1 && outside.witnesses[..|old(outside.witnesses)|] == old(outside.witnesses)
      && seen.Some?
      && var w := outside.witnesses[|old(outside.witnesses)|];
         && w.nonce == request.nonce && w.contracts == request.contracts && w.fPre == request.expectedFPre
         && w.serverVersion == seen.value.serverVersion && w.markerId == seen.value.markerId
         && w.contracts.domain == seen.value.domain && seen.value.accepted == [w.contracts.transformation]
         && (result.Committed? ==> result.fPost == w.fPost)
         && (if result.Committed? || script.applied then seen.value.post == w.fPost && seen.value.pre != w.fPre
             else seen.value.pre == w.fPre && seen.value.post != w.fPost)
  {
    hide StateOk, DigestOf, RequestsCommit, NothingFailed, Witnessed, Normal, SchemaDigestOf, SchemaOf, Trouble, RowsOf;
    ghost var run := Run(db.contract, db.cap, db.committed, request, script, accepts);
    seen := None;
    result := Resume(db, outside, request, script, accepts);
    if !result.RolledBack? {
      CommitMeans(run);
      CommitFiles(run);
      OutcomeIsDecidable(run, db.cap, db.committed);
      SameHeader(run);
      seen := CheckOutcome(db, request.contracts, Fine);
    }
  }

  lemma CommitFiles(run: Run)
    requires RequestsCommit(run)
    ensures Reaches(run, WITNESS_STEP) && run.request.NamesContract()
  {
    hide Trouble, DigestOf, StateOk, SchemaDigestOf, RowsOf;
    CommitMeans(run);
  }

  lemma SameHeader(run: Run)
    requires RequestsCommit(run)
    ensures run.pre.header == run.script.seeded.header
  {
    SchemaIsKept(run);
    hide RequestsCommit;
  }

  /** The authorization is used only after every check on the backup: the proofs, the classification, the comparison with the verified
      digest and the preconditions. */
  lemma ConsumedAfterEveryCheck(run: Run)
    requires Reaches(run, CONSUME_STEP)
    ensures run.script.begin.Fine? && run.script.setup.Fine? && run.script.locks.Fine? && run.script.identity.Fine?
            && run.script.settings.Fine? && run.script.domain.Fine? && run.script.classified == Ok("POST_BACKFILL")
    ensures run.script.readPre.Fine? && StateOk(run.contract, run.cap, run.pre) && run.script.preRowsKept
            && DigestOf(Pre, run.contract, run.pre) == run.request.expectedFPre && run.script.preconditions.Fine?
  {
    hide StateOk, DigestOf, SchemaDigestOf, Witnessing;
    assert Trouble(run, 0).None? && Trouble(run, 1).None? && Trouble(run, 2).None? && Trouble(run, 3).None? && Trouble(run, 4).None?;
    assert Trouble(run, 5).None? && Trouble(run, 6).None? && Trouble(run, 7).None? && Trouble(run, 8).None? && Trouble(run, 9).None?;
  }

  /** A witness is filed only for a post-image that has passed everything: the classification, the verifier and the change guard. */
  lemma WitnessedAfterVerification(run: Run)
    requires Reaches(run, WITNESS_STEP)
    ensures run.script.consume.Fine? && run.script.seed.Fine? && run.script.classifiedPost == Ok("EXACT_BASELINE") && Verified(run)
  {
    hide StateOk, DigestOf, SchemaDigestOf, Witnessing, RowsOf;
    assert Trouble(run, 7).None? && Trouble(run, 8).None? && Trouble(run, 10).None? && Trouble(run, 12).None?;
    assert Trouble(run, 14).None? && Trouble(run, 15).None? && Trouble(run, 16).None? && Trouble(run, 17).None?;
  }

  /** What a reported stage and reason say about the answers the transaction got. */
  predicate Explains(run: Run, stop: Stop) {
    var s, why := run.script, Fails(stop.reason);
    match stop.stage
    case Setup => s.begin == why || s.setup == why
    case Locks => s.locks == why
    case Identity => s.identity == why
    case Settings => s.settings == why || s.settingsBeforeSeed == why || s.settingsAfterSeed == why
    case Domain => s.domain == why
    case Classify => s.classified != Ok("POST_BACKFILL")
    case Fingerprint =>
      || s.readPre == why || s.readPost == why
      || (stop.reason.Failed? && !(StateOk(run.contract, run.cap, run.pre) && StateOk(run.contract, run.cap, s.seeded)))
    case Validate => stop.reason.Failed? && (!s.preRowsKept || DigestOf(Pre, run.contract, run.pre) != run.request.expectedFPre)
    case Preconditions => s.preconditions == why
    case Consume => s.consume == why
    case Seed => s.seed == why
    case ClassifyPost => s.classifiedPost != Ok("EXACT_BASELINE")
    case Verify =>
      stop.reason.Failed?
      && (!s.postRowsKept || SchemaDigestOf(run.contract, run.pre) != SchemaDigestOf(run.contract, s.seeded)
          || !run.accepts(RowsOf(run.contract, run.pre), RowsOf(run.contract, s.seeded)))
    case Guard => stop.reason.Failed? && DigestOf(Pre, run.contract, s.seeded) == run.request.expectedFPre
    case Witness => !run.request.NamesContract() || s.receipt == Err(stop.reason) || (stop.reason.Failed? && !Witnessed(run))
    case FinalSettings => s.finalSettings == why
    case Commit => false
  }

  /** A rollback is reported under the stage whose answer was the trouble. */
  lemma RollbackIsExplained(run: Run, stop: Stop)
    requires StopsBefore(run, Some(stop), STEPS)
    ensures Explains(run, stop)
  {
    hide StateOk, DigestOf, SchemaDigestOf, RowsOf, Reaches;
    var i: nat :| i < STEPS && StopsAt(run, stop, i);
  }
}
