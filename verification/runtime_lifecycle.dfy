/** The LOCAL_TEST runtime's life: opening, use, failure, closing and the resume latch, under every interleaving of its calls and
    their answers. Each event is one stretch of the runtime's code between two awaits. */
module RuntimeLifecycle {
  import opened Wrappers

  datatype Phase = New | Opening | Open | Failed | Closed
  /** How far the one attempt to open has come. */
  datatype Attempt = NotStarted | AwaitingOpener | AwaitingRelease | Settled
  datatype Closing = NotAsked | AwaitingAttempt | Released
  datatype Resume = Hashing | InTransaction | Over

  /** The runtime's own variables, then a ledger of what it made the outside do. */
  datatype Runtime = Runtime(
    phase: Phase, acquired: bool, composed: bool, latched: bool, attempt: Attempt, releasing: bool, closing: Closing,
    openerCalls: nat, releases: nat, resumes: map<nat, Resume>, transactions: nat, proofs: nat)

  datatype Outcome = Done | RolledBack | CommitUnknown

  datatype Event =
    | ProveCall
    | OpenerAnswers(ok: bool, composes: bool)
    | ReleaseDone
    | ProofAnswers(ok: bool)
    | OperationCall
    | ResumeCall(id: nat, hashGiven: bool)
    | HashAnswers(id: nat, ok: bool)
    | ResumeAnswers(id: nat, outcome: Outcome)
    | CloseCall
    | CloseContinues

  function Fresh(): Runtime {
    Runtime(New, false, false, false, NotStarted, false, NotAsked, 0, 0, map[], 0, 0)
  }

  predicate Usable(r: Runtime) {
    r.phase.Open? && r.composed
  }

  /** The single release, whoever asks first; with nothing opened it releases nothing. */
  function Release(r: Runtime): Runtime {
    if r.releasing then r else r.(releasing := true, releases := if r.acquired then r.releases + 1 else r.releases)
  }

  function Start(r: Runtime, id: nat): Runtime {
    r.(resumes := r.resumes[id := InTransaction], transactions := r.transactions + 1)
  }

  /** When an event can happen: calls at any time (under a new id), answers only to what was asked. */
  predicate Allowed(r: Runtime, e: Event) {
    match e
    case ProveCall => true
    case OpenerAnswers(_, _) => r.attempt.AwaitingOpener?
    case ReleaseDone => r.attempt.AwaitingRelease?
    case ProofAnswers(_) => r.proofs > 0
    case OperationCall => true
    case ResumeCall(id, _) => id !in r.resumes
    case HashAnswers(id, _) => id in r.resumes && r.resumes[id].Hashing?
    case ResumeAnswers(id, _) => id in r.resumes && r.resumes[id].InTransaction?
    case CloseCall => true
    case CloseContinues => r.closing.AwaitingAttempt? && (r.attempt.NotStarted? || r.attempt.Settled?)
  }

  function OpenerSection(r: Runtime, ok: bool, composes: bool): Runtime {
    if !ok then r.(attempt := Settled, phase := if r.phase.Opening? then Failed else r.phase)
    else
      var holding := r.(acquired := true);
      if !r.phase.Opening? then holding.(attempt := Settled)
      else if composes then holding.(attempt := Settled, composed := true, phase := Open)
      else Release(holding.(attempt := AwaitingRelease, phase := Failed))
  }

  function ResumeSection(r: Runtime, id: nat, hashGiven: bool): Runtime {
    if !Usable(r) || r.latched then r.(resumes := r.resumes[id := Over])
    else if hashGiven then Start(r, id)
    else r.(resumes := r.resumes[id := Hashing])
  }

  function After(r: Runtime, e: Event): Runtime {
    match e
    case ProveCall =>
      if r.phase.New? then r.(phase := Opening, attempt := AwaitingOpener, openerCalls := r.openerCalls + 1)
      else if Usable(r) then r.(proofs := r.proofs + 1)
      else r
    case OpenerAnswers(ok, composes) => OpenerSection(r, ok, composes)
    case ReleaseDone => r.(attempt := Settled)
    case ProofAnswers(ok) =>
      var answered := r.(proofs := if r.proofs > 0 then r.proofs - 1 else 0);
      if !ok && r.phase.Open? then answered.(phase := Failed) else answered
    case OperationCall => r
    case ResumeCall(id, hashGiven) => ResumeSection(r, id, hashGiven)
    case HashAnswers(id, ok) => if ok then Start(r, id) else r.(resumes := r.resumes[id := Over])
    case ResumeAnswers(id, outcome) => r.(resumes := r.resumes[id := Over], latched := r.latched || outcome.CommitUnknown?)
    case CloseCall => if r.closing.NotAsked? then r.(phase := Closed, closing := AwaitingAttempt) else r
    case CloseContinues => Release(r).(closing := Released)
  }

  /** Whether a call is turned away. Answers are never refused. */
  predicate Refused(r: Runtime, e: Event) {
    match e
    case ProveCall => !r.phase.New? && !Usable(r)
    case OperationCall => !Usable(r)
    case ResumeCall(_, _) => !Usable(r) || r.latched
    case _ => false
  }

  // ---- runs ----------------------------------------------------------------------------------------------------

  /** The runtime after the first i events. */
  function At(es: seq<Event>, i: nat): Runtime
    requires i <= |es|
  {
    if i == 0 then Fresh() else After(At(es, i - 1), es[i - 1])
  }

  ghost predicate IsRun(es: seq<Event>) {
    forall i :: 0 <= i < |es| ==> Allowed(At(es, i), es[i])
  }

  ghost predicate Inv(r: Runtime) {
    && r.openerCalls == (if r.attempt.NotStarted? then 0 else 1)
    && r.releases == (if r.releasing && r.acquired then 1 else 0)
    && (r.releasing ==> !r.attempt.AwaitingOpener? && (r.attempt.NotStarted? ==> r.phase.Closed?))
    && (r.acquired ==> !r.attempt.NotStarted? && !r.attempt.AwaitingOpener?)
    && (r.composed ==> r.acquired)
    && (r.phase.New? <==> r.attempt.NotStarted? && r.closing.NotAsked?)
    && (r.phase.Opening? ==> r.attempt.AwaitingOpener?)
    && (r.attempt.AwaitingOpener? ==> r.phase.Opening? || r.phase.Closed?)
    && (r.phase.Open? ==> r.composed)
    && (r.phase.Closed? <==> !r.closing.NotAsked?)
    && (r.attempt.AwaitingRelease? ==> r.releasing)
    && (r.closing.Released? ==> r.releasing && (r.attempt.NotStarted? || r.attempt.Settled?))
    && (r.acquired && !r.composed && !r.phase.Closed? ==> r.phase.Failed? && r.releasing)
  }

  lemma FreshIsFine()
    ensures Inv(Fresh())
  {
  }

  lemma EventKeepsInv(r: Runtime, e: Event)
    requires Inv(r) && Allowed(r, e)
    ensures Inv(After(r, e))
  {
  }

  lemma EventAdvances(r: Runtime, e: Event)
    requires Inv(r) && Allowed(r, e)
    ensures r.phase.Closed? ==> After(r, e).phase.Closed?
    ensures r.phase.Failed? ==> After(r, e).phase.Failed? || After(r, e).phase.Closed?
    ensures r.latched ==> After(r, e).latched
    ensures !r.composed && e != OpenerAnswers(true, true) ==> !After(r, e).composed
  {
  }

  lemma RefusalChangesNothing(r: Runtime, e: Event)
    requires Refused(r, e)
    ensures After(r, e).(resumes := map[]) == r.(resumes := map[])
    ensures e.ResumeCall? ==> After(r, e).resumes == r.resumes[e.id := Over]
  {
  }

  lemma {:induction false} RunKeepsInv(es: seq<Event>, i: nat)
    requires IsRun(es) && i <= |es|
    ensures Inv(At(es, i))
  {
    hide After, Inv, Allowed;
    FreshIsFine();
    if i > 0 {
      RunKeepsInv(es, i - 1);
      EventKeepsInv(At(es, i - 1), es[i - 1]);
    }
  }

  /** In every interleaving the opener is asked at most once and nothing is released twice. What was opened has been released, exactly
      once, when close is through; and also as soon as the composition over it has failed. */
  lemma ReleasedExactlyOnce(es: seq<Event>)
    requires IsRun(es)
    ensures var r := At(es, |es|);
      && r.openerCalls <= 1
      && r.releases <= (if r.acquired then 1 else 0)
      && (r.closing.Released? && r.acquired ==> r.releases == 1)
      && (r.acquired && !r.composed && r.phase.Failed? ==> r.releases == 1)
  {
    RunKeepsInv(es, |es|);
  }

  ghost predicate Happened(es: seq<Event>, n: nat, e: Event)
    requires n <= |es|
  {
    exists k :: 0 <= k < n && es[k] == e
  }

  ghost predicate OpeningFailed(es: seq<Event>, n: nat)
    requires n <= |es|
  {
    exists k :: 0 <= k < n && es[k].OpenerAnswers? && es[k] != OpenerAnswers(true, true)
  }

  ghost predicate OutcomeUnknown(es: seq<Event>, n: nat)
    requires n <= |es|
  {
    exists k :: 0 <= k < n && es[k].ResumeAnswers? && es[k].outcome.CommitUnknown?
  }

  /** The phase, told from what has happened so far and nothing else. */
  ghost function PhaseAfter(es: seq<Event>, n: nat): Phase
    requires n <= |es|
  {
    if Happened(es, n, CloseCall) then Closed
    else if OpeningFailed(es, n) || Happened(es, n, ProofAnswers(false)) then Failed
    else if Happened(es, n, OpenerAnswers(true, true)) then Open
    else if Happened(es, n, ProveCall) then Opening
    else New
  }

  lemma HappenedGrows(es: seq<Event>, n: nat, e: Event)
    requires n < |es|
    ensures Happened(es, n + 1, e) <==> Happened(es, n, e) || es[n] == e
  {
  }

  lemma FailuresGrow(es: seq<Event>, n: nat)
    requires n < |es|
    ensures OpeningFailed(es, n + 1) <==> OpeningFailed(es, n) || (es[n].OpenerAnswers? && es[n] != OpenerAnswers(true, true))
    ensures OutcomeUnknown(es, n + 1) <==> OutcomeUnknown(es, n) || (es[n].ResumeAnswers? && es[n].outcome.CommitUnknown?)
  {
  }

  lemma HistoryGrows(es: seq<Event>, n: nat)
    requires n < |es|
    ensures PhaseAfter(es, n + 1) ==
            (var p := PhaseAfter(es, n);
             match es[n]
             case CloseCall => Closed
             case ProveCall => if p.New? then Opening else p
             case OpenerAnswers(ok, composes) =>
               if p.Closed? then Closed else if p.Failed? || !ok || !composes then Failed else Open
             case ProofAnswers(ok) => if p.Closed? || ok then p else Failed
             case _ => p)
  {
    FailuresGrow(es, n);
    HappenedGrows(es, n, CloseCall);
    HappenedGrows(es, n, ProofAnswers(false));
    HappenedGrows(es, n, OpenerAnswers(true, true));
    HappenedGrows(es, n, ProveCall);
    hide Happened, OpeningFailed;
  }

  /** The runtime is open exactly from the successful opening until a proof fails or it is closed, failed exactly when the opening, the
      composition or a later proof did, and latched exactly once an outcome was unknown. */
  lemma {:induction false} PhaseIsHistory(es: seq<Event>, n: nat)
    requires IsRun(es) && n <= |es|
    ensures At(es, n).phase == PhaseAfter(es, n)
    ensures At(es, n).latched <==> OutcomeUnknown(es, n)
    ensures At(es, n).proofs > 0 ==> At(es, n).composed
  {
    hide Inv, Happened, OpeningFailed, OutcomeUnknown, After, PhaseAfter;
    if n > 0 {
      PhaseIsHistory(es, n - 1);
      HistoryGrows(es, n - 1);
      FailuresGrow(es, n - 1);
      RunKeepsInv(es, n - 1);
      PhaseAdvances(At(es, n - 1), es[n - 1]);
    } else {
      NothingHappened(es);
    }
  }

  lemma NothingHappened(es: seq<Event>)
    ensures PhaseAfter(es, 0) == New && !OutcomeUnknown(es, 0)
  {
  }

  lemma PhaseAdvances(r: Runtime, e: Event)
    requires Inv(r) && Allowed(r, e) && (r.proofs > 0 ==> r.composed)
    ensures After(r, e).phase ==
            (match e
             case CloseCall => Closed
             case ProveCall => if r.phase.New? then Opening else r.phase
             case OpenerAnswers(ok, composes) => if r.phase.Closed? then Closed else if ok && composes then Open else Failed
             case ProofAnswers(ok) => if r.phase.Closed? || ok then r.phase else Failed
             case _ => r.phase)
    ensures e.OpenerAnswers? ==> r.phase.Opening? || r.phase.Closed?
    ensures e.ProofAnswers? ==> r.phase.Open? || r.phase.Failed? || r.phase.Closed?
    ensures After(r, e).proofs > 0 ==> After(r, e).composed
    ensures After(r, e).latched <==> r.latched || (e.ResumeAnswers? && e.outcome.CommitUnknown?)
  {
  }

  /** So an operation is served exactly between the successful opening and the first failed proof or close, and a resume exactly when, in
      addition, no outcome is unknown; then it starts its transaction at once if the hash was given, and hashes otherwise. */
  lemma CallsAreServedIffOpen(es: seq<Event>, j: nat)
    requires IsRun(es) && j < |es|
    ensures es[j].OperationCall? ==> (Refused(At(es, j), es[j]) <==> !PhaseAfter(es, j).Open?)
    ensures es[j].ResumeCall? ==>
              && (Refused(At(es, j), es[j]) <==> !PhaseAfter(es, j).Open? || OutcomeUnknown(es, j))
              && (!Refused(At(es, j), es[j]) ==>
                    && At(es, j + 1).resumes == At(es, j).resumes[es[j].id := if es[j].hashGiven then InTransaction else Hashing]
                    && At(es, j + 1).transactions == At(es, j).transactions + if es[j].hashGiven then 1 else 0)
  {
    PhaseIsHistory(es, j);
    RunKeepsInv(es, j);
    NextState(es, j);
    hide At, PhaseAfter, OutcomeUnknown;
  }

  /** Once closed, always closed; once failed, failed until closed; once latched, always latched. */
  lemma {:induction false} PhasesOnlyAdvance(es: seq<Event>, i: nat, j: nat)
    requires IsRun(es) && i <= j <= |es|
    ensures At(es, i).phase.Closed? ==> At(es, j).phase.Closed?
    ensures At(es, i).phase.Failed? ==> At(es, j).phase.Failed? || At(es, j).phase.Closed?
    ensures At(es, i).latched ==> At(es, j).latched
    decreases j - i
  {
    hide After, Inv, Allowed, Fresh;
    if i < j {
      PhasesOnlyAdvance(es, i, j - 1);
      RunKeepsInv(es, j - 1);
      EventAdvances(At(es, j - 1), es[j - 1]);
    }
  }

  /** Everything called after close is refused and changes nothing; so is everything called before the first proof has succeeded,
      except the first proof itself. */
  lemma CallsOutsideLifeAreRefused(es: seq<Event>, j: nat)
    requires IsRun(es) && j < |es|
    requires es[j].OperationCall? || es[j].ResumeCall? || es[j].ProveCall?
    requires (exists i :: 0 <= i < j && es[i].CloseCall?)
          || ((forall i :: 0 <= i < j ==> es[i] != OpenerAnswers(true, true)) && !(es[j].ProveCall? && At(es, j).phase.New?))
    ensures Refused(At(es, j), es[j])
    ensures At(es, j + 1).(resumes := map[]) == At(es, j).(resumes := map[])
  {
    hide At, After, IsRun, Inv;
    if i :| 0 <= i < j && es[i].CloseCall? {
      CloseCloses(es, i);
      PhasesOnlyAdvance(es, i + 1, j);
    } else {
      NotComposedYet(es, j);
    }
    NextState(es, j);
    RefusalChangesNothing(At(es, j), es[j]);
  }

  lemma NextState(es: seq<Event>, j: nat)
    requires j < |es|
    ensures At(es, j + 1) == After(At(es, j), es[j])
  {
  }

  lemma CloseCloses(es: seq<Event>, i: nat)
    requires IsRun(es) && i < |es| && es[i].CloseCall?
    ensures At(es, i + 1).phase.Closed?
  {
    RunKeepsInv(es, i);
    hide At;
    NextState(es, i);
  }

  lemma {:induction false} NotComposedYet(es: seq<Event>, j: nat)
    requires IsRun(es) && j <= |es|
    requires forall i :: 0 <= i < j ==> es[i] != OpenerAnswers(true, true)
    ensures !At(es, j).composed
  {
    hide After, Inv, Allowed;
    if j > 0 {
      NotComposedYet(es, j - 1);
      RunKeepsInv(es, j - 1);
      EventAdvances(At(es, j - 1), es[j - 1]);
    }
  }

  // ---- the latch -----------------------------------------------------------------------------------------------

  /** A resume called after an unknown outcome is refused, and starts no transaction then or later. */
  lemma LatchedResumeIsRefused(es: seq<Event>, i: nat, j: nat)
    requires IsRun(es) && i < j < |es|
    requires es[i].ResumeAnswers? && es[i].outcome.CommitUnknown? && es[j].ResumeCall?
    ensures Refused(At(es, j), es[j])
    ensures At(es, j + 1).resumes[es[j].id].Over? && At(es, j + 1).transactions == At(es, j).transactions
  {
    hide At, IsRun, After;
    UnknownLatches(es, i);
    PhasesOnlyAdvance(es, i + 1, j);
    NextState(es, j);
    RefusalChangesNothing(At(es, j), es[j]);
  }

  lemma UnknownLatches(es: seq<Event>, i: nat)
    requires i < |es| && es[i].ResumeAnswers? && es[i].outcome.CommitUnknown?
    ensures At(es, i + 1).latched
  {
    hide At;
    NextState(es, i);
  }

  /** Whether the event starts a protected transaction. */
  predicate StartsTransaction(r: Runtime, e: Event) {
    After(r, e).transactions > r.transactions
  }

  ghost predicate SomeoneIsHashing(r: Runtime) {
    exists id :: id in r.resumes && r.resumes[id].Hashing?
  }

  /** Every resume called from now on is refused: an outcome is unknown, a proof failed, or the runtime was closed. */
  predicate IsShut(r: Runtime) {
    r.latched || r.phase.Failed? || r.phase.Closed?
  }

  /** While shut, hashing can only end, never begin. */
  lemma HashingOnlyEnds(r: Runtime, e: Event)
    requires Allowed(r, e) && IsShut(r) && !SomeoneIsHashing(r)
    ensures IsShut(After(r, e)) && !SomeoneIsHashing(After(r, e)) && !StartsTransaction(r, e)
  {
    forall id | id in After(r, e).resumes && After(r, e).resumes[id].Hashing? ensures id in r.resumes && r.resumes[id].Hashing? {
      HashingIsOlder(r, e, id);
    }
  }

  lemma HashingIsOlder(r: Runtime, e: Event, id: nat)
    requires Allowed(r, e) && IsShut(r) && id in After(r, e).resumes && After(r, e).resumes[id].Hashing?
    ensures id in r.resumes && r.resumes[id].Hashing?
  {
  }

  /** The runtime after more events from any state. */
  function Onward(r: Runtime, es: seq<Event>): Runtime {
    if |es| == 0 then r else After(Onward(r, es[..|es| - 1]), es[|es| - 1])
  }

  ghost predicate CanHappen(r: Runtime, es: seq<Event>) {
    forall i {:trigger es[i]} :: 0 <= i < |es| ==> Allowed(Onward(r, es[..i]), es[i])
  }

  lemma {:induction false} NoneStartsWithoutHashing(r: Runtime, es: seq<Event>)
    requires IsShut(r) && !SomeoneIsHashing(r) && CanHappen(r, es)
    ensures IsShut(Onward(r, es)) && !SomeoneIsHashing(Onward(r, es)) && Onward(r, es).transactions <= r.transactions
  {
    if |es| > 0 {
      var front := es[..|es| - 1];
      forall i {:trigger front[i]} | 0 <= i < |front| ensures Allowed(Onward(r, front[..i]), front[i]) {
        assert front[..i] == es[..i] && front[i] == es[i];
      }
      NoneStartsWithoutHashing(r, front);
      assert Allowed(Onward(r, es[..|front|]), es[|front|]);
      HashingOnlyEnds(Onward(r, front), es[|front|]);
    }
  }

  /** After an unknown outcome, a failed proof or a close, another transaction can still start exactly when some resume had already
      passed the check and was waiting for its password hash. */
  lemma LatchIsExact(r: Runtime)
    requires IsShut(r)
    ensures SomeoneIsHashing(r) <==> exists es :: CanHappen(r, es) && Onward(r, es).transactions > r.transactions
  {
    if SomeoneIsHashing(r) {
      var id :| id in r.resumes && r.resumes[id].Hashing?;
      var es := [HashAnswers(id, true)];
      assert es[..0] == [] && Onward(r, []) == r;
      assert CanHappen(r, es);
      assert Onward(r, es) == After(r, HashAnswers(id, true));
    } else if es :| CanHappen(r, es) && Onward(r, es).transactions > r.transactions {
      NoneStartsWithoutHashing(r, es);
      assert false;
    }
  }

  /** Such a run: two resumes pass the latch check, the first ends with an unknown outcome, the second then starts its transaction. */
  lemma LatchCanBeOutrun()
    ensures var es := [ProveCall, OpenerAnswers(true, true), ResumeCall(0, true), ResumeCall(1, false), ResumeAnswers(0, CommitUnknown), HashAnswers(1, true)];
      && IsRun(es)
      && At(es, 5).latched
      && StartsTransaction(At(es, 5), es[5])
  {
    var es := [ProveCall, OpenerAnswers(true, true), ResumeCall(0, true), ResumeCall(1, false), ResumeAnswers(0, CommitUnknown), HashAnswers(1, true)];
    assert At(es, 1).phase.Opening? && At(es, 1).attempt.AwaitingOpener?;
    assert Usable(At(es, 2)) && At(es, 2).resumes == map[] && !At(es, 2).latched;
    assert Usable(At(es, 3)) && At(es, 3).resumes == map[0 := InTransaction] && !At(es, 3).latched;
    assert At(es, 4).resumes == map[0 := InTransaction, 1 := Hashing];
    assert At(es, 5).resumes == map[0 := Over, 1 := Hashing] && At(es, 5).latched;
  }

  /** Close can be outrun as well: it waits for the attempt to open, not for a resume that is hashing, and so a transaction starts on
      resources already released. */
  lemma CloseCanBeOutrun()
    ensures var es := [ProveCall, OpenerAnswers(true, true), ResumeCall(0, false), CloseCall, CloseContinues, HashAnswers(0, true)];
      && IsRun(es)
      && At(es, 5).closing.Released? && At(es, 5).releases == 1
      && StartsTransaction(At(es, 5), es[5])
  {
    var es := [ProveCall, OpenerAnswers(true, true), ResumeCall(0, false), CloseCall, CloseContinues, HashAnswers(0, true)];
    assert At(es, 1).phase.Opening? && At(es, 1).attempt.AwaitingOpener?;
    assert Usable(At(es, 2)) && At(es, 2).resumes == map[] && At(es, 2).attempt.Settled? && At(es, 2).acquired && !At(es, 2).releasing;
    assert At(es, 3).resumes == map[0 := Hashing] && At(es, 3).attempt.Settled? && At(es, 3).acquired && !At(es, 3).releasing;
    assert At(es, 4).resumes == map[0 := Hashing] && At(es, 4).closing.AwaitingAttempt? && At(es, 4).releases == 0;
    assert At(es, 5).resumes == map[0 := Hashing] && At(es, 5).closing.Released?;
  }

  // ---- the runtime as code -------------------------------------------------------------------------------------

  class LocalTestRuntime {
    var phase: Phase
    var acquired: bool
    var composed: bool
    var latched: bool
    var attempt: Attempt
    var releasing: bool
    var closing: Closing
    var openerCalls: nat
    var releases: nat
    var resumes: map<nat, Resume>
    var transactions: nat
    var proofs: nat

    ghost function View(): Runtime
      reads this
    {
      Runtime(phase, acquired, composed, latched, attempt, releasing, closing, openerCalls, releases, resumes, transactions, proofs)
    }

    constructor ()
      ensures View() == Fresh()
    {
      phase, acquired, composed, latched, attempt, releasing, closing := New, false, false, false, NotStarted, false, NotAsked;
      openerCalls, releases, resumes, transactions, proofs := 0, 0, map[], 0, 0;
    }

    predicate IsUsable()
      reads this
      ensures IsUsable() == Usable(View())
    {
      phase.Open? && composed
    }

    method ReleaseOnce()
      modifies this`releasing, this`releases
      ensures View() == Release(old(View()))
    {
      if !releasing {
        releasing := true;
        if acquired {
          releases := releases + 1;
        }
      }
    }

    /** The first call starts the one attempt to open; later calls prove again. */
    method ProveIdentity() returns (refused: bool)
      modifies this
      ensures refused == Refused(old(View()), ProveCall) && View() == After(old(View()), ProveCall)
    {
      refused := false;
      if phase == New {
        phase := Opening;
        attempt := AwaitingOpener;
        openerCalls := openerCalls + 1;
      } else if IsUsable() {
        proofs := proofs + 1;
      } else {
        refused := true;
      }
    }

    method OnOpenerAnswer(ok: bool, composes: bool)
      requires Allowed(View(), OpenerAnswers(ok, composes))
      modifies this
      ensures View() == After(old(View()), OpenerAnswers(ok, composes))
    {
      if !ok {
        if phase == Opening {
          phase := Failed;
        }
        attempt := Settled;
        return;
      }
      acquired := true;
      if phase != Opening {
        attempt := Settled;
        return;
      }
      if composes {
        composed := true;
        phase := Open;
        attempt := Settled;
      } else {
        phase := Failed;
        attempt := AwaitingRelease;
        ReleaseOnce();
      }
    }

    method OnReleaseDone()
      requires Allowed(View(), ReleaseDone)
      modifies this`attempt
      ensures View() == After(old(View()), ReleaseDone)
    {
      attempt := Settled;
    }

    method OnProofAnswer(ok: bool)
      requires Allowed(View(), ProofAnswers(ok))
      modifies this`phase, this`proofs
      ensures View() == After(old(View()), ProofAnswers(ok))
    {
      proofs := proofs - 1;
      if !ok && phase == Open {
        phase := Failed;
      }
    }

    /** Passes the usability and latch checks, then hashes the password unless it was given; nothing is checked again after that. */
    method ResumeSeed2(id: nat, hashGiven: bool) returns (refused: bool)
      requires Allowed(View(), ResumeCall(id, hashGiven))
      modifies this`resumes, this`transactions
      ensures refused == Refused(old(View()), ResumeCall(id, hashGiven)) && View() == After(old(View()), ResumeCall(id, hashGiven))
    {
      refused := !IsUsable() || latched;
      if refused {
        resumes := resumes[id := Over];
      } else if hashGiven {
        StartTransaction(id);
      } else {
        resumes := resumes[id := Hashing];
      }
    }

    method StartTransaction(id: nat)
      modifies this`resumes, this`transactions
      ensures View() == Start(old(View()), id)
    {
      resumes := resumes[id := InTransaction];
      transactions := transactions + 1;
    }

    method OnHash(id: nat, ok: bool)
      requires Allowed(View(), HashAnswers(id, ok))
      modifies this`resumes, this`transactions
      ensures View() == After(old(View()), HashAnswers(id, ok))
    {
      if ok {
        StartTransaction(id);
      } else {
        resumes := resumes[id := Over];
      }
    }

    method OnResumeAnswer(id: nat, outcome: Outcome)
      requires Allowed(View(), ResumeAnswers(id, outcome))
      modifies this`resumes, this`latched
      ensures View() == After(old(View()), ResumeAnswers(id, outcome))
    {
      if outcome == CommitUnknown {
        latched := true;
      }
      resumes := resumes[id := Over];
    }

    method Close()
      modifies this`phase, this`closing
      ensures View() == After(old(View()), CloseCall)
    {
      if closing == NotAsked {
        phase := Closed;
        closing := AwaitingAttempt;
      }
    }

    /** The attempt to open, if there was one, is over: release what it acquired. */
    method OnAttemptOver()
      requires Allowed(View(), CloseContinues)
      modifies this`releasing, this`releases, this`closing
      ensures View() == After(old(View()), CloseContinues)
    {
      ReleaseOnce();
      closing := Released;
    }
  }
}
