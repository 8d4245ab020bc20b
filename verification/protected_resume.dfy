/** The protected resume: one transaction in which the demo seed runs, is verified, witnessed and only then committed. Any step may
    fail at any time; the script says how each one answers. */
module ProtectedResume {
  import opened Wrappers
  import opened Bytes
  import opened StateTypes
  import opened StateStream
  import opened StreamWriter

  // ---- the commit gate -----------------------------------------------------------------------------------------

  /** What the witness store hands back; anything that is not an object is no receipt at all. */
  datatype Receipt = NoObject | Receipt(durable: bool, nonce: string, fPost: Digest)

  predicate Echoes(receipt: Receipt, nonce: string, fPost: Digest) {
    receipt == Receipt(true, nonce, fPost)
  }

  class CommitToken {
    constructor () {}
  }

  class CommitGate {
    const nonce: string
    const fPost: Digest
    var issued: set<CommitToken>
    var used: bool

    constructor (nonce: string, fPost: Digest)
      ensures this.nonce == nonce && this.fPost == fPost && issued == {} && !used
    {
      this.nonce := nonce;
      this.fPost := fPost;
      issued := {};
      used := false;
    }

    /** A token comes only out of a durable receipt that echoes this transaction's nonce and post-image digest. */
    method Mint(receipt: Receipt) returns (token: Option<CommitToken>)
      modifies this`issued
      ensures token.Some? <==> Echoes(receipt, nonce, fPost)
      ensures token.Some? ==> fresh(token.value) && issued == old(issued) + {token.value}
      ensures token.None? ==> issued == old(issued)
    {
      token := None;
      if Echoes(receipt, nonce, fPost) {
        var t := new CommitToken();
        issued := issued + {t};
        token := Some(t);
      }
    }

    /** Passes once, and only with a token this gate issued. */
    method Pass(token: CommitToken?) returns (ok: bool)
      modifies this`used
      ensures ok <==> token in issued && !old(used)
      ensures used == (old(used) || ok)
    {
      ok := token in issued && !used;
      if ok {
        used := true;
      }
    }
  }

  // ---- the transaction -----------------------------------------------------------------------------------------

  datatype Stage = Setup | Locks | Identity | Settings | Domain | Classify | Fingerprint | Validate | Preconditions | Consume | Seed
                 | ClassifyPost | Verify | Guard | Witness | FinalSettings | Commit
  datatype Reason = Timeout | Failed
  datatype Answer = Fine | Fails(reason: Reason)
  datatype Outcome = Committed(fPost: Digest) | RolledBack(stage: Stage, reason: Reason) | CommitUnknown(reason: Reason)

  /** The digests of the two reviewed contracts: of the protected domain, and of what a seed may change; the latter may be missing. */
  datatype ContractDigests = ContractDigests(domain: string, transformation: string)

  datatype PostWitness = PostWitness(nonce: string, fPre: Digest, fPost: Digest, serverVersion: Text, markerId: Text, contracts: ContractDigests)

  datatype Request = Request(expectedFPre: Digest, nonce: string, contracts: ContractDigests) {
    predicate NamesContract() {
      contracts.transformation != ""
    }
  }

  /** How the world answers, step by step. `seeded` is the working state the seed leaves behind, `applied` whether the server
      carried out a COMMIT that was not acknowledged. */
  datatype Script = Script(
    begin: Answer, setup: Answer, locks: Answer, identity: Answer, settings: Answer, domain: Answer,
    classified: Result<string, Reason>, readPre: Answer, preRowsKept: bool, preconditions: Answer, consume: Answer, settingsBeforeSeed: Answer,
    seed: Answer, seeded: State, settingsAfterSeed: Answer, classifiedPost: Result<string, Reason>, readPost: Answer, postRowsKept: bool,
    receipt: Result<Receipt, Reason>, finalSettings: Answer, commit: Answer, applied: bool)

  /** The protected database: what others can see, and what the open transaction sees. */
  class Database {
    const contract: Contract
    const cap: nat
    var committed: State
    var working: State
    var seedRuns: nat

    constructor (contract: Contract, cap: nat, committed: State)
      ensures this.contract == contract && this.cap == cap && this.committed == committed && this.working == committed && seedRuns == 0
    {
      this.contract := contract;
      this.cap := cap;
      this.committed := committed;
      this.working := committed;
      seedRuns := 0;
    }
  }

  /** The single-use authorization and the store of post-image witnesses, both outside the database. */
  class Outside {
    var authorizationUses: nat
    var witnesses: seq<PostWitness>

    constructor ()
      ensures authorizationUses == 0 && witnesses == []
    {
      authorizationUses := 0;
      witnesses := [];
    }
  }

  function DigestOf(role: Role, contract: Contract, s: State): Digest {
    Sha256(DigestMessage(role, contract, s))
  }

  function SchemaDigestOf(contract: Contract, s: State): Digest {
    Sha256(SchemaMessage(contract, s))
  }

  /** Everything a run depends on: contract, pre-image, request, script and the verifier's verdict on the rows of two states. */
  datatype Run = Run(contract: Contract, cap: nat, pre: State, request: Request, script: Script, accepts: (Rows, Rows) -> bool)

  const STEPS: nat := 21
  const CONSUME_STEP: nat := 10
  const SEED_STEP: nat := 12
  const WITNESS_STEP: nat := 18

  function StageAt(i: nat): Stage {
    match i
    case 0 => Setup case 1 => Setup case 2 => Locks case 3 => Identity case 4 => Settings case 5 => Domain case 6 => Classify
    case 7 => Fingerprint case 8 => Validate case 9 => Preconditions case 10 => Consume case 11 => Settings case 12 => Seed
    case 13 => Settings case 14 => ClassifyPost case 15 => Fingerprint case 16 => Verify case 17 => Guard case 18 => Witness
    case 19 => FinalSettings case _ => Commit
  }

  function Told(a: Answer): Option<Reason> {
    if a.Fine? then None else Some(a.reason)
  }

  function Unless(ok: bool): Option<Reason> {
    if ok then None else Some(Failed)
  }

  function Expecting(got: Result<string, Reason>, want: string): Option<Reason> {
    if got.Err? then Some(got.error) else Unless(got.value == want)
  }

  function Reading(a: Answer, contract: Contract, cap: nat, s: State): Option<Reason> {
    if a.Fails? then Some(a.reason) else Unless(StateOk(contract, cap, s))
  }

  function Witnessing(run: Run): Option<Reason> {
    if !run.request.NamesContract() then Some(Failed)
    else if run.script.receipt.Err? then Some(run.script.receipt.error)
    else Unless(Echoes(run.script.receipt.value, run.request.nonce, DigestOf(Post, run.contract, run.script.seeded)))
  }

  /** Why step i would fail, if it would. */
  function Trouble(run: Run, i: nat): Option<Reason> {
    var s := run.script;
    match i
    case 0 => Told(s.begin)
    case 1 => Told(s.setup)
    case 2 => Told(s.locks)
    case 3 => Told(s.identity)
    case 4 => Told(s.settings)
    case 5 => Told(s.domain)
    case 6 => Expecting(s.classified, "POST_BACKFILL")
    case 7 => Reading(s.readPre, run.contract, run.cap, run.pre)
    case 8 => Unless(s.preRowsKept && DigestOf(Pre, run.contract, run.pre) == run.request.expectedFPre)
    case 9 => Told(s.preconditions)
    case 10 => Told(s.consume)
    case 11 => Told(s.settingsBeforeSeed)
    case 12 => Told(s.seed)
    case 13 => Told(s.settingsAfterSeed)
    case 14 => Expecting(s.classifiedPost, "EXACT_BASELINE")
    case 15 => Reading(s.readPost, run.contract, run.cap, s.seeded)
    case 16 => Unless(s.postRowsKept && SchemaDigestOf(run.contract, run.pre) == SchemaDigestOf(run.contract, s.seeded)
                      && run.accepts(RowsOf(run.contract, run.pre), RowsOf(run.contract, s.seeded)))
    case 17 => Unless(DigestOf(Pre, run.contract, s.seeded) != run.request.expectedFPre)
    case 18 => Witnessing(run)
    case 19 => Told(s.finalSettings)
    case _ => None
  }

  /** The run gets as far as step i. */
  predicate Reaches(run: Run, i: nat) {
    forall j: nat :: j < i ==> Trouble(run, j).None?
  }

  predicate RequestsCommit(run: Run) {
    Reaches(run, STEPS)
  }

  function WitnessOf(run: Run): PostWitness {
    PostWitness(run.request.nonce, run.request.expectedFPre, DigestOf(Post, run.contract, run.script.seeded), run.script.seeded.header.serverVersion,
                run.script.seeded.header.markerId, run.request.contracts)
  }

  /** A step failed here, for this reason. */
  datatype Stop = Stop(stage: Stage, reason: Reason)

  /** The stop the script calls for before step `to`, or none if it calls for none. */
  ghost predicate StopsBefore(run: Run, stop: Option<Stop>, to: nat) {
    if stop.None? then Reaches(run, to)
    else exists i: nat :: i < to && StopsAt(run, stop.value, i)
  }

  /** Step i is reached and fails, and this is how it is reported. */
  ghost predicate StopsAt(run: Run, stop: Stop, i: nat) {
    Reaches(run, i) && Trouble(run, i) == Some(stop.reason) && StageAt(i) == stop.stage
  }

  /** Runs one step: any error becomes a stop that carries the stage and the reason and nothing else. */
  method At(ghost run: Run, ghost i: nat, ghost to: nat, stage: Stage, trouble: Option<Reason>) returns (stop: Option<Stop>)
    requires i < to && StopsBefore(run, None, i) && trouble == Trouble(run, i) && stage == StageAt(i)
    ensures stop.None? ==> StopsBefore(run, None, i + 1)
    ensures stop.Some? ==> StopsBefore(run, stop, to) && !Reaches(run, i + 1)
    ensures stop.Some? <==> trouble.Some?
  {
    hide Trouble, StageAt;
    stop := if trouble.None? then None else Some(Stop(stage, trouble.value));
    assert stop.Some? ==> StopsAt(run, stop.value, i);
  }

  method NewSink(role: Role) returns (sink: DigestSink)
    ensures fresh(sink) && !sink.done && sink.written == Str(Scalars(RoleName(role)))
  {
    sink := new DigestSink(role);
  }

  datatype Digests = Digests(pre: Digest, post: Digest, read: ReadResult)

  /** One read of a state, into a PRE sink and, if asked, a POST sink. */
  method ReadDigests(contract: Contract, cap: nat, s: State, both: bool, keepRows: bool) returns (digests: Option<Digests>)
    requires |s.relations| == |contract.tables|
    ensures digests.Some? <==> StateOk(contract, cap, s)
    ensures digests.Some? ==> digests.value.pre == DigestOf(Pre, contract, s) && digests.value.read == ResultOf(contract, s, keepRows)
    ensures digests.Some? && both ==> digests.value.post == DigestOf(Post, contract, s)
  {
    hide StateOk, StreamBytes, SchemaMessage, Str, RowsOf;
    var preSink := NewSink(Pre);
    var postSink := NewSink(Post);
    var sinks := if both then [preSink, postSink] else [preSink];
    var read := ReadState(contract, sinks, cap, keepRows, s);
    if read.None? {
      return None;
    }
    assert Received(sinks)[0] == preSink.written;
    assert both ==> Received(sinks)[1] == postSink.written;
    var pre := preSink.End();
    var post := postSink.End();
    digests := Some(Digests(pre.value, post.value, read.value));
  }

  lemma ResultIs(contract: Contract, s: State)
    ensures var read := ResultOf(contract, s, true);
            && read.rows == Some(RowsOf(contract, s)) && read.schemaDigest == SchemaDigestOf(contract, s)
            && read.serverVersion == s.header.serverVersion && read.markerId == s.header.markerId
  {
    hide RowsOf, SchemaMessage;
  }

  /** Setup, locks, the proofs of identity, settings and domain, and the classification before. */
  method OpenTransaction(script: Script, ghost run: Run) returns (stop: Option<Stop>)
    requires run.script == script
    ensures stop.None? ==> StopsBefore(run, None, 7)
    ensures stop.Some? ==> StopsBefore(run, stop, CONSUME_STEP)
  {
    hide StateOk, DigestOf, SchemaDigestOf, StopsBefore, Reaches, Reading, Witnessing;
    NothingRefused(run);
    stop := At(run, 0, CONSUME_STEP, Setup, Told(script.begin));
    if stop.Some? {
      return;
    }
    stop := At(run, 1, CONSUME_STEP, Setup, Told(script.setup));
    if stop.Some? {
      return;
    }
    stop := At(run, 2, CONSUME_STEP, Locks, Told(script.locks));
    if stop.Some? {
      return;
    }
    stop := At(run, 3, CONSUME_STEP, Identity, Told(script.identity));
    if stop.Some? {
      return;
    }
    stop := At(run, 4, CONSUME_STEP, Settings, Told(script.settings));
    if stop.Some? {
      return;
    }
    stop := At(run, 5, CONSUME_STEP, Domain, Told(script.domain));
    if stop.Some? {
      return;
    }
    stop := At(run, 6, CONSUME_STEP, Classify, Expecting(script.classified, "POST_BACKFILL"));
    if stop.Some? {
      return;
    }
  }

  /** The first read under the locks, its comparison with the verified backup, and the preconditions. */
  method CheckPreImage(db: Database, request: Request, script: Script, ghost run: Run) returns (stop: Option<Stop>, pre: Option<ReadResult>)
    requires |db.committed.relations| == |db.contract.tables|
    requires run.contract == db.contract && run.cap == db.cap && run.pre == db.committed && run.request == request && run.script == script
    modifies db`working
    ensures StopsBefore(run, stop, CONSUME_STEP)
    ensures stop.None? ==> db.working == db.committed && pre == Some(ResultOf(db.contract, db.committed, true))
  {
    hide ResultOf, RowsOf, StateOk, StreamBytes, SchemaMessage, DigestOf, SchemaDigestOf, StopsBefore, Reaches, Witnessing, Expecting;
    pre := None;
    stop := OpenTransaction(script, run);
    if stop.Some? {
      return;
    }
    db.working := db.committed;
    var read := ReadDigests(db.contract, db.cap, db.working, false, true);
    stop := At(run, 7, CONSUME_STEP, Fingerprint, if script.readPre.Fails? then Some(script.readPre.reason) else Unless(read.Some?));
    if stop.Some? {
      return;
    }
    pre := Some(read.value.read);
    stop := At(run, 8, CONSUME_STEP, Validate, Unless(script.preRowsKept && read.value.pre == request.expectedFPre));
    if stop.Some? {
      return;
    }
    stop := At(run, 9, CONSUME_STEP, Preconditions, Told(script.preconditions));
    if stop.Some? {
      return;
    }
  }

  lemma NothingRefused(run: Run)
    ensures StopsBefore(run, None, 0)
  {
  }

  /** The single use of the authorization, immediately before the first write, and the seed. */
  method ConsumeAndSeed(db: Database, outside: Outside, script: Script, ghost run: Run) returns (stop: Option<Stop>)
    requires run.script == script && StopsBefore(run, None, CONSUME_STEP)
    modifies db`working, db`seedRuns, outside`authorizationUses
    ensures StopsBefore(run, stop, 14)
    ensures outside.authorizationUses == old(outside.authorizationUses) + 1
    ensures db.seedRuns == old(db.seedRuns) + if Reaches(run, SEED_STEP) then 1 else 0
    ensures stop.None? ==> db.working == script.seeded
  {
    hide StateOk, StreamBytes, SchemaMessage, DigestOf, SchemaDigestOf, StopsBefore, Reaches, Reading, Witnessing, Expecting;
    EarlierSteps(run);
    outside.authorizationUses := outside.authorizationUses + 1;
    stop := At(run, 10, 14, Consume, Told(script.consume));
    if stop.Some? {
      return;
    }
    stop := At(run, 11, 14, Settings, Told(script.settingsBeforeSeed));
    if stop.Some? {
      return;
    }
    NoStopYet(run, SEED_STEP);
    db.seedRuns := db.seedRuns + 1;
    db.working := script.seeded;
    stop := At(run, 12, 14, Seed, Told(script.seed));
    if stop.Some? {
      return;
    }
    stop := At(run, 13, 14, Settings, Told(script.settingsAfterSeed));
    if stop.Some? {
      return;
    }
  }

  lemma EarlierSteps(run: Run)
    ensures forall i, j {:trigger Reaches(run, i), Reaches(run, j)} :: i <= j && Reaches(run, j) ==> Reaches(run, i)
  {
    hide Trouble;
  }

  lemma NoStopYet(run: Run, i: nat)
    ensures StopsBefore(run, None, i) <==> Reaches(run, i)
  {
    hide Trouble, StageAt, Reaches;
  }

  /** Classification, the one read of the post-image, the verifier and the change guard. */
  method CheckPostImage(db: Database, request: Request, script: Script, accepts: (Rows, Rows) -> bool, pre: ReadResult, ghost run: Run)
    returns (stop: Option<Stop>, fPost: Digest, post: Option<ReadResult>)
    requires |db.working.relations| == |db.contract.tables|
    requires run == Run(db.contract, db.cap, db.committed, request, script, accepts)
    requires StopsBefore(run, None, 14) && db.working == script.seeded && pre == ResultOf(db.contract, db.committed, true)
    ensures StopsBefore(run, stop, WITNESS_STEP)
    ensures stop.None? ==> fPost == DigestOf(Post, db.contract, script.seeded) && post == Some(ResultOf(db.contract, script.seeded, true))
  {
    hide ResultOf, RowsOf, StateOk, StreamBytes, SchemaMessage, DigestOf, SchemaDigestOf, StopsBefore, Reaches, Witnessing;
    fPost := Sha256([]);
    post := None;
    stop := At(run, 14, 18, ClassifyPost, Expecting(script.classifiedPost, "EXACT_BASELINE"));
    if stop.Some? {
      return;
    }
    var read := ReadDigests(db.contract, db.cap, db.working, true, true);
    stop := At(run, 15, 18, Fingerprint, if script.readPost.Fails? then Some(script.readPost.reason) else Unless(read.Some?));
    if stop.Some? {
      return;
    }
    ResultIs(db.contract, db.committed);
    ResultIs(db.contract, script.seeded);
    fPost := read.value.post;
    post := Some(read.value.read);
    stop := At(run, 16, 18, Verify, Unless(script.postRowsKept && pre.schemaDigest == post.value.schemaDigest
                                           && accepts(pre.rows.value, post.value.rows.value)));
    if stop.Some? {
      return;
    }
    stop := At(run, 17, 18, Guard, Unless(read.value.pre != request.expectedFPre));
    if stop.Some? {
      return;
    }
  }

  /** The witness must be durable before the commit: only its receipt mints the token. */
  method AskForWitness(post: ReadResult, outside: Outside, request: Request, script: Script, gate: CommitGate, ghost run: Run)
    returns (stop: Option<Stop>, token: CommitToken?)
    requires run.request == request && run.script == script && post == ResultOf(run.contract, script.seeded, true)
    requires gate.nonce == request.nonce && gate.fPost == DigestOf(Post, run.contract, script.seeded)
    requires StopsBefore(run, None, WITNESS_STEP)
    modifies outside`witnesses, gate`issued
    ensures stop.None? ==> StopsBefore(run, None, 19) && token in gate.issued
    ensures stop.Some? ==> StopsBefore(run, stop, 20)
    ensures outside.witnesses == old(outside.witnesses) + if request.NamesContract() then [WitnessOf(run)] else []
  {
    hide ResultOf, RowsOf, SchemaDigestOf, SchemaMessage, StateOk, DigestMessage, DigestOf, StopsBefore, Reaches, Reading, Expecting;
    ResultIs(run.contract, script.seeded);
    token := null;
    if !request.NamesContract() {
      stop := At(run, 18, 20, Witness, Some(Failed));
      return;
    }
    outside.witnesses := outside.witnesses
      + [PostWitness(request.nonce, request.expectedFPre, gate.fPost, post.serverVersion, post.markerId, request.contracts)];
    if script.receipt.Err? {
      stop := At(run, 18, 20, Witness, Some(script.receipt.error));
      return;
    }
    var minted := gate.Mint(script.receipt.value);
    stop := At(run, 18, 20, Witness, Unless(minted.Some?));
    if minted.Some? {
      token := minted.value;
    }
  }

  /** The whole transaction. COMMIT is requested exactly when no step finds trouble; a rollback names the first step that does and
      leaves the committed state alone; an unacknowledged COMMIT is reported as unknown, whatever the server made of it. */
  method Resume(db: Database, outside: Outside, request: Request, script: Script, accepts: (Rows, Rows) -> bool) returns (result: Outcome)
    requires |db.committed.relations| == |db.contract.tables| && |script.seeded.relations| == |db.contract.tables|
    modifies db, outside
    ensures var run := Run(db.contract, db.cap, old(db.committed), request, script, accepts);
      && (result.RolledBack? <==> !RequestsCommit(run))
      && (result.RolledBack? ==> StopsBefore(run, Some(Stop(result.stage, result.reason)), STEPS))
      && (RequestsCommit(run) ==> result == if script.commit.Fine? then Committed(DigestOf(Post, db.contract, script.seeded))
                                            else CommitUnknown(script.commit.reason))
      && db.committed == (if RequestsCommit(run) && (script.commit.Fine? || script.applied) then script.seeded else old(db.committed))
      && outside.authorizationUses == old(outside.authorizationUses) + (if Reaches(run, CONSUME_STEP) then 1 else 0)
      && db.seedRuns == old(db.seedRuns) + (if Reaches(run, SEED_STEP) then 1 else 0)
      && outside.witnesses == old(outside.witnesses)
                              + (if Reaches(run, WITNESS_STEP) && request.NamesContract() then [WitnessOf(run)] else [])
  {
    hide ResultOf, RowsOf, StateOk, DigestMessage, DigestOf, SchemaDigestOf, StopsBefore, Reaches, Reading, Expecting, Witnessing;
    ghost var run := Run(db.contract, db.cap, db.committed, request, script, accepts);
    EarlierSteps(run);
    var stop, pre := CheckPreImage(db, request, script, run);
    if stop.Some? {
      result := RolledBack(stop.value.stage, stop.value.reason);
      StopsForGood(run, stop.value, CONSUME_STEP);
      return;
    }
    NoStopYet(run, CONSUME_STEP);
    stop := ConsumeAndSeed(db, outside, script, run);
    if stop.Some? {
      result := RolledBack(stop.value.stage, stop.value.reason);
      StopsForGood(run, stop.value, 14);
      return;
    }
    var fPost, post;
    stop, fPost, post := CheckPostImage(db, request, script, accepts, pre.value, run);
    if stop.Some? {
      result := RolledBack(stop.value.stage, stop.value.reason);
      StopsForGood(run, stop.value, WITNESS_STEP);
      return;
    }
    NoStopYet(run, WITNESS_STEP);
    var gate := new CommitGate(request.nonce, fPost);
    var token;
    stop, token := AskForWitness(post.value, outside, request, script, gate, run);
    if stop.Some? {
      result := RolledBack(stop.value.stage, stop.value.reason);
      StopsForGood(run, stop.value, 20);
      return;
    }
    stop := At(run, 19, 20, FinalSettings, Told(script.finalSettings));
    if stop.Some? {
      result := RolledBack(stop.value.stage, stop.value.reason);
      StopsForGood(run, stop.value, 20);
      return;
    }
    NoStopYet(run, 20);
    GateStepIsClear(run);
    var commitRequested := gate.Pass(token);
    if !commitRequested {
      return RolledBack(Commit, Failed);
    }
    if script.commit.Fine? {
      db.committed := db.working;
      return Committed(gate.fPost);
    }
    if script.applied {
      db.committed := db.working;
    }
    result := CommitUnknown(script.commit.reason);
  }

  lemma StopsForGood(run: Run, stop: Stop, to: nat)
    requires StopsBefore(run, Some(stop), to) && to <= STEPS
    ensures StopsBefore(run, Some(stop), STEPS) && !Reaches(run, to)
  {
    hide Trouble, StageAt;
    var i: nat :| i < to && StopsAt(run, stop, i);
    assert i < STEPS && StopsAt(run, stop, i);
  }

  lemma GateStepIsClear(run: Run)
    ensures Reaches(run, 20) ==> Reaches(run, STEPS)
  {
    assert Trouble(run, 20).None?;
  }

  datatype OutcomeDigests = OutcomeDigests(pre: Digest, post: Digest, serverVersion: Text, markerId: Text, domain: string, accepted: seq<string>)

  /** What the read-only verifier of an unknown outcome reports about a committed state. */
  function ReportOf(contract: Contract, s: State, contracts: ContractDigests): OutcomeDigests {
    OutcomeDigests(DigestOf(Pre, contract, s), DigestOf(Post, contract, s), s.header.serverVersion, s.header.markerId, contracts.domain,
                   [contracts.transformation])
  }

  method CheckOutcome(db: Database, contracts: ContractDigests, answer: Answer) returns (report: Option<OutcomeDigests>)
    requires |db.committed.relations| == |db.contract.tables|
    ensures report == if answer.Fine? && StateOk(db.contract, db.cap, db.committed)
                      then Some(ReportOf(db.contract, db.committed, contracts)) else None
  {
    hide StateOk, DigestOf, SchemaMessage;
    report := None;
    if answer.Fine? {
      var read := ReadDigests(db.contract, db.cap, db.committed, true, false);
      if read.Some? {
        report := Some(OutcomeDigests(read.value.pre, read.value.post, read.value.read.serverVersion, read.value.read.markerId,
                                      contracts.domain, [contracts.transformation]));
      }
    }
  }
}
