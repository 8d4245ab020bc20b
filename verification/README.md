# Mona Jacinta: verified cores

Dafny models of four cores of the system, with proofs of what each is for.

1. **The exchange draft store** (`client/src/app/exchange-draft-store.ts`, `exchange-fresh-read.ts`). Several browser tabs of one user
   share durable storage and a lock per sale, and send garment exchanges to a server that is idempotent per key. Every critical
   section of the store is a function on one tab and the shared disk (`ExchangeSlot`). `ExchangeStore` writes the same sections as
   imperative code over maps and stored JSON trees, each method proved to do exactly what its function says and to leave every other
   sale alone. `ExchangeProtocol` composes the sections, the server and the environment into one transition system;
   `ExchangeSteps` and `ExchangeTheorems` prove its guarantees over every run of every interleaving, `ExchangeReadable` that what
   the store writes it can read again, `ExchangeOwnership` that nobody resends a key another tab may have under way,
   `ExchangeRecovery` that an unresolved attempt is frozen and can always be sent again, and `ExchangeConduct` what each section
   does, said without the section; `ExchangeExample` is a run that goes through a whole cycle.
2. **The canonical state stream** (`api/scripts/local-test-fingerprint.ts`). A framed binary encoding of a whole database state.
   `StateStream` holds the encoding, the exact conditions of acceptance and a decoder; `StateReading` proves that decoding undoes
   writing; `StateOrder` and `StateAccepted` what the order of rows, the layout of a value and acceptance mean in bytes and texts;
   `StreamWriter` is the staged writer with its hash sinks, proved to emit that encoding and to refuse exactly the rest.
   The reviewed contract (tables, columns, enum types, functions) is a parameter: nothing depends on what it lists.
3. **The protected resume** (`api/scripts/local-test-runtime.ts`, `local-test-baseline.ts`, `api/prisma/seed.ts`). One transaction
   that hashes, seeds, verifies, witnesses and only then commits (`ProtectedResume`, `ResumeTheorems`); the verifier of what the
   seed may change (`Transformation`), and what a COMMIT means with that verifier in place (`ResumeVerified`, with a witness run in
   `ResumeExample`); the scope loop the verifier is meant to accept (`ScopeConvergence`); and the runtime's life around it all
   (`RuntimeLifecycle`).
4. **The checkout contract** (`client/src/app/checkout-quote.ts`). Draft validation (`CheckoutIssues`), quote matching
   (`CheckoutMatch`), the two request routes (`CheckoutRoutes`), and the payable drafts, said positively (`CheckoutPayable`).

`Texts`, `Json`, `Decimal`, `Bytes`, `Ordering`, `Sequences` and `Wrappers` carry what they share: trimming and UUIDs, parsed JSON
trees, canonical decimal text, big-endian integers and UTF-8 (section 3 of RFC 3629), total orders and stable sorting.

`dafny verify dfyconfig.toml` checks everything.

## What is assumed

- **Exchange.** Fresh keys are unique. A section that holds the lock runs alone. The server commits a key at most once and never one
  it has refused. Status 400, 403, 404, 409, 410 or 422 without the code CONCURRENCY_ERROR is answered only for a key it refused
  before writing anything, and a success body with a text exchange id only for one it committed; any other answer, and none, says
  nothing. A read of this sale never shows more exchanged units than the server has.
  Nobody deletes the site's storage. Everything else is allowed: tabs start, reload and crash between any two steps, several tabs
  send the same key at once, every storage call may fail, stored text may turn unreadable, storage events come late or never, reads
  are arbitrarily old, and other clients exchange units. `ExchangeReadable` further takes user, sale and branch ids to be of the form
  the strict reader demands, and generated keys to be version 4 UUIDs.
- **Stream and resume.** `ResumeVerified` takes the contract to have the columns the rules read, where the rules look for them, and the
  user's key to be its id. SHA-256 values are named by the bytes hashed, so equal digests mean equal messages. Sinks handed to one
  writer are different objects. The table locks keep other writers out between the first read and the end of the transaction.
- **Runtime.** Each event is one stretch of code between two awaits; answers arrive in any order or never.
- **Scopes.** The canonical users exist, one assignment each; new ids are uuid v4, pairwise different and unused.

## What the proofs turned up

- *A resume can outrun the latch, and the close.* The comment at `api/scripts/local-test-runtime.ts:139` says that after an unknown
  commit outcome nothing may start another resume. The latch and the state are checked before the password is hashed and not again
  (`local-test-runtime.ts:206-212`), so a resume that is still hashing starts its transaction after the latch is set, or after close
  has released the resources. `RuntimeLifecycle.LatchCanBeOutrun` and `RuntimeLifecycle.CloseCanBeOutrun` are such runs,
  `RuntimeLifecycle.LatchIsExact` the exact condition for both, and `RuntimeLifecycle.LatchedResumeIsRefused` what does hold: every
  resume called after the outcome is refused.
- *A confirmation may write a tombstone the store cannot read.* `classifySuccess` takes any string as exchange id
  (`exchange-draft-store.ts:349-352`), the strict reader only a UUID and a positive safe time (`:295-300`).
  `ExchangeExample.OddExchangeIdSpoilsTheSlot` is such an answer and `ExchangeTheorems.ConfirmationLeavesReadableTombstone` the exact
  condition; by `ExchangeReadable.WhatIsWrittenIsReadable` nothing else the store does makes a slot unreadable. The sale is then
  blocked and loses nothing (`ExchangeTheorems.EvidenceIsNeverLost`).
- *An up-to-date read can be refused as stale.* The GET of a reconciliation runs unlocked and is checked in a later section
  (`exchange-draft-store.ts:937-956`). `ExchangeExample.UpToDateReadMayBeRefused` is a run in which another tab opens from a newer read
  in between; `ExchangeTheorems.RefreshIsStaleIffOutrun` the exact condition. It is refused only when the server had moved.
- *The seed's loop does not always meet its verifier*, only when the scopes before were canonical ones without repetition:
  `ScopeConvergence.SeedMeetsVerifier` is that equivalence and `ScopeConvergence.StaleScopeIsRefused` a table it fails on.
- *The user checks of the verifier rest on the key order of the stream.* They never look at a row no earlier row leads to, so with an id
  twice in the pre-image a foreign row would pass (`Transformation.RepeatedIdHidesARow`). The relation holds exactly when the checks
  pass and no id occurs twice (`Transformation.PassingIsTheRelation`), and the stream writer refuses such a pre-image
  (`ResumeVerified.AcceptedRowsAreShaped`).

## Model

| member | source | states |
|---|---|---|
| ExchangeTheorems.NoUnitIsExchangedTwice | client/src/app/exchange-draft-store.ts:779-851 | In every reachable world, if an earlier minted key was not refused, a later one starts, on every item both name, at or above where the earlier one ends |
| ExchangeTheorems.CommittedClaimsAreDisjoint | client/src/app/exchange-draft-store.ts:254-263 | The units two committed keys took of one item never overlap, and lie below what the server shows |
| ExchangeTheorems.EvidenceIsNeverLost | client/src/app/exchange-draft-store.ts:463-486 | Each minted key that no tab saw refused is what the slot holds, or the slot is unreadable and blocks, or the key was committed and the mark covers its watermarks |
| ExchangeTheorems.NothingIsMintedOverEvidence | client/src/app/exchange-draft-store.ts:779-851 | An occupied or unreadable slot, or an unreadable mark, stops every new key |
| ExchangeTheorems.OneKeyOneBody | client/src/app/exchange-draft-store.ts:853-868 | Any two requests with one key carry the same reason and lines, whichever tabs sent them |
| ExchangeTheorems.PrepareSendsWhatIsRecorded | client/src/app/exchange-draft-store.ts:797-851 | A prepare that succeeds over a record sends that record's key, payload and watermarks; over an empty slot the new key; over a tombstone never; and it leaves the key it sends in the slot |
| ExchangeProtocol.ClassifyIsExact | client/src/app/exchange-draft-store.ts:338-355 | The store takes an answer as a refusal exactly for status 400, 403, 404, 409, 410 or 422 without CONCURRENCY_ERROR, as a confirmation exactly for a success with a text exchange id, and any other as uncertain |
| ExchangeProtocol.WhatMayHaveCommittedIsUncertain | client/src/app/exchange-draft-store.ts:338-355 | A lost answer, 401, 408, 429, a server error, CONCURRENCY_ERROR, a coded error without a status or an unreadable success is never taken as a refusal |
| ExchangeOwnership.SendersAcquiredTheirKey | client/src/app/exchange-draft-store.ts:797-851 | Over every run from an empty start a tab whose request is out acquired its key in this very life: it minted it, took it over after an unknown outcome, or adopted it at start-up |
| ExchangeOwnership.NoStrangerResends | client/src/app/exchange-draft-store.ts:808-812 | While the slot says SENDING, no tab puts that key on the way again that has not so acquired it |
| ExchangeOwnership.OnlyOwnersResend | client/src/app/exchange-draft-store.ts:808-812 | A send over a SENDING record succeeds only for a tab that owns its key, and then sends that key |
| ExchangeOwnership.OthersArePending | client/src/app/exchange-draft-store.ts:808-812 | Any other tab is refused with disk and draft unchanged, a complete draft as PENDING_ELSEWHERE |
| ExchangeOwnership.StepKeepsOwnership | client/src/app/exchange-draft-store.ts:368-1077 | Every step keeps it true that a tab whose request is out owns its key |
| ExchangeOwnership.RunAcquires | client/src/app/exchange-draft-store.ts:531-560 | A key a tab owns at the end of a run it owned at the start or acquired on the way |
| ExchangeRecovery.ReloadResends | client/src/app/exchange-draft-store.ts:531-851 | From any world whose slot, mark and tabs are in shape (`StepKeepsShape` keeps them so): a tab that starts, loads an unresolved slot and sends, with storage at work, posts exactly the key and payload of the record, whichever tab wrote it |
| ExchangeRecovery.AdoptedDraftIsTheRecord | client/src/app/exchange-draft-store.ts:494-528 | Whatever the previous draft, the reason and lines adopted from a persistable record canonicalise to exactly its payload and watermarks, under its key and fingerprint |
| ExchangeRecovery.AdoptedAvailable | client/src/app/exchange-draft-store.ts:494-528 | The items shown are those shown before, or else the recorded ones with their baselines |
| ExchangeRecovery.AttemptsAreFrozen | client/src/app/exchange-draft-store.ts:658-704 | Over every run with well-formed ids a draft with an attempt says exactly what that attempt stands for, whatever was edited, followed, reloaded or answered on the way |
| ExchangeRecovery.MatchingDraftResends | client/src/app/exchange-draft-store.ts:797-851 | A draft that matches the unresolved record of the slot, in a tab that may send it, goes out under that key and payload |
| ExchangeTheorems.StepRaisesMark | client/src/app/exchange-draft-store.ts:463-486 | No step of any tab, the server or the environment lowers the mark |
| ExchangeTheorems.TheMarkNeverFalls | client/src/app/exchange-draft-store.ts:442-493 | Over whole runs the mark never falls and is never above the server's quantities |
| ExchangeTheorems.UpToDateReadCovers | client/src/app/exchange-draft-store.ts:947-957 | A read that shows what the server has covers every watermark of a record confirmed by then |
| ExchangeTheorems.ReadIsRefusedIffOutrun | client/src/app/exchange-draft-store.ts:937-956 | A read that was up to date when it was served is refused later iff the mark is by then above what the server had on some item; then a section in between raised the mark on that item, and the server had moved |
| ExchangeTheorems.RefreshIsStaleIffOutrun | client/src/app/exchange-draft-store.ts:944-956 | So the second section of a reconciliation, over an unchanged basis and a readable mark, gives up as stale iff the mark outran its read |
| ExchangeExample.UpToDateReadMayBeRefused | client/src/app/exchange-draft-store.ts:937-956 | A run from an empty start in which that happens: the read is up to date when served, another tab opens from a newer one, and the refresh ends stale |
| ExchangeTheorems.StaleReadIsBehind | client/src/app/exchange-draft-store.ts:489-493 | A truthful read refused later shows some item below the mark: it was behind the server when it was served, or the mark has risen since above what the server had then |
| ExchangeTheorems.RaiseIsExact | client/src/app/exchange-draft-store.ts:463-486 | A raise by values that are not older leaves a readable mark that holds exactly those values for their items |
| ExchangeTheorems.ReopenedDraftStartsAtMark | client/src/app/exchange-draft-store.ts:944-975 | Whatever happened between the two looks, the draft a reconciliation installs starts, on every line, exactly at the mark of that moment, over an empty slot |
| ExchangeTheorems.OpenedDraftStartsAtMark | client/src/app/exchange-draft-store.ts:628-655 | The same for a draft opened from a read over an empty slot |
| ExchangeTheorems.ReconciliationSurvivesABA | client/src/app/exchange-draft-store.ts:892-976 | Even after whole cycles of other tabs in between, the reopened draft starts at or above the end of every minted key no tab saw refused, and those keys are committed |
| ExchangeTheorems.SettlingLeavesOthersAlone | client/src/app/exchange-draft-store.ts:741-764 | Settling a key never changes an unreadable slot, a record of another key or a tombstone |
| ExchangeTheorems.ConfirmationLeavesReadableTombstone | client/src/app/exchange-draft-store.ts:754-763 | A confirmation settled over an empty slot or the open record of its key, whoever wrote that, leaves a readable tombstone iff the exchange id is a UUID and the time a positive safe integer; otherwise the slot is unreadable |
| ExchangeTheorems.TombstoneIsAbsorbing | client/src/app/exchange-draft-store.ts:944-975 | Only the second section of a reconciliation, or corruption, takes a tombstone out of the slot, and then the mark remembers it and the read covered it |
| ExchangeConduct.BlockedStaysBlocked | client/src/app/exchange-draft-store.ts:658-704 | A blocked draft is not edited, reset, dropped or sent, and each refusal names its block |
| ExchangeConduct.UnreadableHasNoExit | client/src/app/exchange-draft-store.ts:892-900 | A sale whose record or mark could not be read is not reconciled either |
| ExchangeConduct.OpenAttemptsAreFrozen | client/src/app/exchange-draft-store.ts:658-704 | SENDING and UNCERTAIN refuse edit and reset and survive a logout; what is merely editable does not; an edit after a refusal starts anew and keeps the rest |
| ExchangeConduct.EditsMean | client/src/app/exchange-draft-store.ts:658-692 | What adding, removing and setting a line leave: one empty line at the shown baseline, all lines but that item's, the one line with its item and baseline kept |
| ExchangeConduct.SendStartsOnce | client/src/app/exchange-draft-store.ts:853-861 | A send starts iff there is an unblocked draft, nothing under way and no attempt another tab is sending |
| ExchangeConduct.DoubleSubmitIsOne | client/src/app/exchange-draft-store.ts:853-861 | A second submit while one is under way changes nothing in the world |
| ExchangeConduct.UncertainResendsTheSame | client/src/app/exchange-draft-store.ts:787-793 | After an unknown outcome only the very same request is sent again |
| ExchangeConduct.OpenAttemptsMintNothing | client/src/app/exchange-draft-store.ts:797-829 | A tab with an open attempt mints no key; when its record is gone it learns that someone else resolved it |
| ExchangeConduct.SettledMeans | client/src/app/exchange-draft-store.ts:741-764 | Over an empty slot or the key's own open record: a refusal empties the slot, an unknown outcome is written down, a confirmation blocks, and nothing else of the draft changes |
| ExchangeConduct.LookMeans | client/src/app/exchange-draft-store.ts:892-915 | What the first look of a reconciliation finds over a tombstone, an open record and no record, and what the tab then follows or keeps |
| ExchangeConduct.EndsOverTheSameState | client/src/app/exchange-draft-store.ts:937-957 | A reconciliation ends only over the state of its first look: the same key confirmed at the same time, or still no record |
| ExchangeConduct.EndsByWhatIsLeft | client/src/app/exchange-draft-store.ts:957-976 | It reopens iff something is left, closes iff nothing is, over an empty slot, and gives up the key |
| ExchangeConduct.VerdictMeans | client/src/app/exchange-draft-store.ts:922-936 | The unlocked read it trusts is of the right sale, number and branch and covers what is still to prove |
| ExchangeConduct.EventFollowsTheSlot | client/src/app/exchange-draft-store.ts:980-994 | A tab that is not sending keeps what the slot says, takes it over, is blocked by it, or forgets an attempt that is gone |
| ExchangeConduct.LoadMeans | client/src/app/exchange-draft-store.ts:531-560 | What start-up makes of an empty, an unresolved, a confirmed and an unreadable slot, and which key it owns then |
| ExchangeConduct.NothingLeftIsNotOpened | client/src/app/exchange-draft-store.ts:612-655 | A read with nothing left is refused iff no confirmation waits to be reconciled; a tab that has a draft keeps it |
| ExchangeConduct.OpensWhatIsThere | client/src/app/exchange-draft-store.ts:628-655 | A tab without a draft opens the record, or a block by what cannot be read, or a new draft once the mark is raised |
| ExchangeTheorems.StepKeepsInvariant | client/src/app/exchange-draft-store.ts:368-1077 | Every step of every tab, the server and the environment keeps the protocol invariant; refusal and confirmation are assumed of raw answers, and ClassifyIsExact ties them to what the store does |
| ExchangeTheorems.RunKeepsInvariant | client/src/app/exchange-draft-store.ts:368-1077 | So does every run |
| ExchangeTheorems.ReachableIsInOrder | client/src/app/exchange-draft-store.ts:368-1077 | Every world reachable from an empty start satisfies the invariant |
| ExchangeTheorems.CreditReaches | client/src/app/exchange-draft-store.ts:258-262 | A commit of a well-formed key brings the server to at least its watermarks |
| ExchangeReadable.WhatIsWrittenIsReadable | client/src/app/exchange-draft-store.ts:368-1077 | With well-formed ids, over every run from an empty start: the slot ends unreadable iff it was corrupted from outside or a malformed confirmation was written into it, and the mark iff it was corrupted from outside |
| ExchangeReadable.StepKeepsShape | client/src/app/exchange-draft-store.ts:368-1077 | So for every step of every tab, the server and the environment: exactly these steps make a cell unreadable |
| ExchangeReadable.EvidenceIsReadable | client/src/app/exchange-draft-store.ts:463-486 | In a run with neither, each minted key that no tab saw refused is the record of the slot, and reads back, or was committed and is covered by a readable mark |
| ExchangeReadable.SendGoesOutIffStored | client/src/app/exchange-draft-store.ts:838-851 | In such a world a queued send that is not refused goes out iff storage writes its record and reads it again |
| ExchangeReadable.PrepareSucceedsIffStored | client/src/app/exchange-draft-store.ts:838-851 | A send that is not refused succeeds iff its record is stored and read again, and then the slot holds that record |
| ExchangeReadable.MintIsPersistable | client/src/app/exchange-draft-store.ts:779-840 | The record of a new key, from well-formed ids, is one the strict reader accepts |
| ExchangeReadable.ReuseIsPersistable | client/src/app/exchange-draft-store.ts:797-843 | So is the record of a key sent again, although it is written from this tab's draft |
| ExchangeReadable.SettleInShape | client/src/app/exchange-draft-store.ts:741-764 | Settling leaves the slot unreadable iff it was, or a malformed confirmation is written over an empty slot or the key's own open record |
| ExchangeReadable.RaiseStaysReadable | client/src/app/exchange-draft-store.ts:463-486 | A raise by UUIDs never makes the mark unreadable |
| ExchangeExample.CycleIsPossible | client/src/app/exchange-draft-store.ts:368-1077 | A whole cycle is possible: open, mint, commit, confirm, and another tab reconciles and reopens where the first ended |
| ExchangeExample.OddExchangeIdSpoilsTheSlot | client/src/app/exchange-draft-store.ts:349-352 | A 2xx body whose exchange id is `1` is a confirmation, and leaves a slot that cannot be read |
| ExchangeSteps.MintSeesTheMark | client/src/app/exchange-draft-store.ts:789-829 | A new key is minted only over an empty slot, under a readable mark, from baselines not below it |
| ExchangeSteps.MintClaimsAbove | client/src/app/exchange-draft-store.ts:779-829 | Its claims then lie above those of every earlier key whose evidence is kept |
| ExchangeSteps.MintIsCanonical | client/src/app/exchange-draft-store.ts:779-796 | What a mint writes is the canonical form of the tab's draft and its fingerprint |
| ExchangeSteps.RaisedRemembers | client/src/app/exchange-draft-store.ts:952-957 | A mark raised to a read that covers some watermarks remembers them |
| ExchangeSteps.LookCovers | client/src/app/exchange-draft-store.ts:917-920 | An equal basis by key and time means the read was held against the very watermarks now in the slot |
| ExchangeSteps.EvidenceSurvives | client/src/app/exchange-draft-store.ts:741-775 | A section that keeps, replaces by the same key, dismisses or covers what the slot held keeps all evidence |
| ExchangeProtocol.MergeRaises | client/src/app/exchange-draft-store.ts:463-486 | A merge holds, per item, the larger of what was known and shown, and nothing else |
| ExchangeProtocol.RaiseRaises | client/src/app/exchange-draft-store.ts:463-486 | A raise never lowers the mark, and a raise reported as done covers every value |
| ExchangeProtocol.RaiseStaysTrue | client/src/app/exchange-draft-store.ts:463-486 | A raise by values the server has reached stays below the server |
| ExchangeCanonical.PayloadShape | client/src/app/exchange-draft-store.ts:238-250 | A canonical payload is the trimmed reason and the draft's lines, each once, strictly sorted by distinct items, within the size limits |
| ExchangeCanonical.PayloadIsExact | client/src/app/exchange-draft-store.ts:238-250 | A draft can be sent iff its trimmed reason has 1 to 200 UTF-16 units and it has 1 to 100 lines of UUIDs and quantities, no item twice in any spelling |
| ExchangeCanonical.LinesAreInOrder | client/src/app/exchange-draft-store.ts:247 | The lines go out in the order of their lower-case ids: prefix first, else the smaller character at the first difference |
| ExchangeCanonical.QuantityTextIs | client/src/app/exchange-draft-store.ts:76-79 | A quantity is the canonical text of a number between 1 and 10 to the 19, exclusive |
| ExchangeCanonical.CanonicalisationForgetsOrder | client/src/app/exchange-draft-store.ts:238-263 | Drafts whose lines are permutations of each other have the same payload and watermarks, or neither has one |
| ExchangeCanonical.WatermarksShape | client/src/app/exchange-draft-store.ts:254-263 | Watermarks follow the payload line by line, start at the draft's baseline and end at baseline plus quantity |
| ExchangeCanonical.WatermarkFits | client/src/app/exchange-draft-store.ts:76-79 | A 19-digit baseline plus a 19-digit quantity always fits the 20-digit watermark form, so what is minted can be read |
| ExchangeCanonical.CanonicalPayload | client/src/app/exchange-draft-store.ts:238-250 | The source's loops compute the canonical payload |
| ExchangeCanonical.CanonicalWatermarks | client/src/app/exchange-draft-store.ts:254-263 | The source's loop computes the watermarks |
| ExchangeCanonical.FindTwins | client/src/app/exchange-draft-store.ts:248 | The scan for neighbours with one item finds a repeated item |
| Fingerprint.FingerprintIsInjective | client/src/app/exchange-draft-store.ts:227-235 | Equal fingerprints mean equal sale, payload and watermarks, and conversely |
| ExchangeRecord.StrictReaderIsExact | client/src/app/exchange-draft-store.ts:282-323 | The strict reader returns a record exactly for the tree the writer makes of it, if it is persistable |
| ExchangeRecord.ReadBack | client/src/app/exchange-draft-store.ts:418-431 | What the store writes reads back as itself when it is persistable, and as unreadable otherwise; ExchangeReadable shows which of the two the store writes |
| ExchangeRecord.WriterIsInjective | client/src/app/exchange-draft-store.ts:418-431 | Two written records with one tree are the same record |
| ExchangeRecord.PayloadRoundTrip | client/src/app/exchange-draft-store.ts:301-314 | A payload is accepted iff it is the written form of a well-formed one: strictly sorted, distinct items, quantities in range |
| ExchangeRecord.MarksRoundTrip | client/src/app/exchange-draft-store.ts:265-279 | Watermarks are accepted iff written from ones that match the payload, with after equal to before plus returned |
| ExchangeRecord.MarkReadBack | client/src/app/exchange-draft-store.ts:326-336 | A written mark reads back as itself iff every entry is one the reader accepts |
| ExchangeStore.ExchangeDraftStore.ReadDurable | client/src/app/exchange-draft-store.ts:397-416 | Reading the slot gives its record, nothing, or unreadable, by storage, parse and identity |
| ExchangeStore.ExchangeDraftStore.WriteDurable | client/src/app/exchange-draft-store.ts:418-431 | Writes one slot and no other, and says whether it did |
| ExchangeStore.ExchangeDraftStore.RemoveDurable | client/src/app/exchange-draft-store.ts:433-439 | Removes one slot and no other |
| ExchangeStore.ExchangeDraftStore.ReadHighWater | client/src/app/exchange-draft-store.ts:442-459 | Reading the mark gives its lines, none, or unusable |
| ExchangeStore.ExchangeDraftStore.MergeValues | client/src/app/exchange-draft-store.ts:467-477 | The merging loop is the merge of the specification |
| ExchangeStore.ExchangeDraftStore.RaiseHighWater | client/src/app/exchange-draft-store.ts:463-486 | Raises the mark of one sale as specified and touches nothing else |
| ExchangeStore.ExchangeDraftStore.OpenDraft | client/src/app/exchange-draft-store.ts:612-655 | Opening from a fresh read, as specified on tab and disk, and on this sale only |
| ExchangeStore.ExchangeDraftStore.EditDraft | client/src/app/exchange-draft-store.ts:658-692 | An edit changes an editable draft as specified and refuses a frozen one |
| ExchangeStore.ExchangeDraftStore.ResetDraft | client/src/app/exchange-draft-store.ts:694-704 | A reset forgets an editable draft and refuses one with an open attempt |
| ExchangeStore.ExchangeDraftStore.DropEditables | client/src/app/exchange-draft-store.ts:1035-1042 | Logout drops exactly the merely editable drafts, on every sale |
| ExchangeStore.ExchangeDraftStore.StartSend | client/src/app/exchange-draft-store.ts:853-861 | A send marks the sale as in flight, once |
| ExchangeStore.ExchangeDraftStore.DecideSend | client/src/app/exchange-draft-store.ts:779-829 | The decision of the critical section: refuse, reuse the record, or mint; OnlyOwnersResend, OthersArePending, MatchingDraftResends, OpenAttemptsMintNothing and NothingIsMintedOverEvidence say when |
| ExchangeStore.ExchangeDraftStore.DecideFromDisk | client/src/app/exchange-draft-store.ts:797-829 | Its part that follows the durable record, with a SENDING key of another tab pending |
| ExchangeStore.ExchangeDraftStore.LaunchSend | client/src/app/exchange-draft-store.ts:830-851 | SENDING is written and read back before anything is sent |
| ExchangeStore.ExchangeDraftStore.PrepareSend | client/src/app/exchange-draft-store.ts:779-851 | Decision and launch together, as one section: sends only what is recorded, and a SENDING key only for its owner |
| ExchangeStore.ExchangeDraftStore.SettleAnswer | client/src/app/exchange-draft-store.ts:741-764 | Settling under the lock, as specified on tab and disk |
| ExchangeStore.ExchangeDraftStore.SettleUnlocked | client/src/app/exchange-draft-store.ts:766-775 | When the lock has vanished only memory is told |
| ExchangeStore.ExchangeDraftStore.EndSend | client/src/app/exchange-draft-store.ts:876-883 | The end of a send frees the sale for the next |
| ExchangeStore.ExchangeDraftStore.LookForRefresh | client/src/app/exchange-draft-store.ts:892-915 | The first critical section of a reconciliation |
| ExchangeStore.ExchangeDraftStore.FinishRefresh | client/src/app/exchange-draft-store.ts:922-976 | The second critical section of a reconciliation |
| ExchangeStore.ExchangeDraftStore.Reconcile | client/src/app/exchange-draft-store.ts:980-994 | Brings the memory of one sale in line with its slot, as specified, and no other sale |
| ExchangeStore.ExchangeDraftStore.ReconcileAll | client/src/app/exchange-draft-store.ts:998-1001 | When storage was cleared somewhere every draft of every sale is brought in line |
| ExchangeStore.ExchangeDraftStore.HandleStorageEvent | client/src/app/exchange-draft-store.ts:996-1005 | An event with a key brings that sale in line, one without a key all of them |
| ExchangeStore.ExchangeDraftStore.EnsureLoaded | client/src/app/exchange-draft-store.ts:531-560 | Start-up adopts every stored record, a SENDING one as the tab's own, as LoadMeans and AdoptedDraftIsTheRecord say |
| FreshRead.ReadRows | client/src/app/exchange-fresh-read.ts:54-67 | The row loop accepts exactly well-formed rows with distinct items |
| FreshRead.ParseFreshRead | client/src/app/exchange-fresh-read.ts:50-69 | The parser with its loop is the parser of the specification |
| FreshRead.ParsedReadIsTheBody | client/src/app/exchange-fresh-read.ts:50-69 | A body parses to a read iff it carries that read, quantities as canonical text, and the read adds up: UUIDs, no item twice in any spelling, remainder equal to what was sold and not exchanged |
| FreshRead.AcceptedReadIsFresh | client/src/app/exchange-fresh-read.ts:73-104 | A read is accepted iff it is of the expected sale, branch and number, covers every watermark, is of a completed exchangeable sale, and has something left or proves a confirmation |
| FreshRead.RefusalIsExact | client/src/app/exchange-fresh-read.ts:73-104 | Each refusal names the first thing that is wrong |
| FreshRead.DraftLinesOf | client/src/app/exchange-fresh-read.ts:108-112 | Draft lines come only from rows with something remaining |
| FreshRead.OneLinePerRowWithSomethingLeft | client/src/app/exchange-fresh-read.ts:108-112 | A new draft has exactly one empty line per row with something left, in the order of the read, from what is exchanged already |
| StateReading.StreamReads | api/scripts/local-test-fingerprint.ts:609-700 | Decoding an accepted stream returns the state: header, enum types, functions, table facts and every row |
| StateTheorems.UniquelyDecodable | api/scripts/local-test-fingerprint.ts:609-700 | Two accepted states give the same stream iff they differ at most in null against empty collations and comments |
| StateAccepted.OneStreamOneState | api/scripts/local-test-fingerprint.ts:609-700 | So no row, cell or fact can differ between accepted states with one stream, but a null and an empty collation or comment |
| StateAccepted.NormalMeans | api/scripts/local-test-fingerprint.ts:656-657 | The states taken as equal there are exactly those that differ at most so |
| StateTheorems.DigestsSeparate | api/scripts/local-test-fingerprint.ts:479-496 | Digest messages agree iff role and state agree: PRE and POST never meet |
| StateTheorems.SchemaDigestIsExact | api/scripts/local-test-fingerprint.ts:594-608 | Schema messages agree iff header, types, functions and table facts agree, whatever the rows |
| StateTheorems.KeyOrderIsTotal | api/scripts/local-test-fingerprint.ts:702-708 | The comparison of composite byte keys is a total order |
| StateTheorems.KeysAreDistinct | api/scripts/local-test-fingerprint.ts:671-681 | Accepted rows rise strictly in it, so no two share a primary key |
| StateOrder.CompareBytesMeans | api/scripts/local-test-fingerprint.ts:702-708 | One key part precedes another iff it is a proper prefix of it or has the smaller byte where they first differ |
| StateOrder.CompareKeysMeans | api/scripts/local-test-fingerprint.ts:702-708 | Composite keys are compared so, part by part |
| StateOrder.KeyFollowsPositions | api/scripts/local-test-fingerprint.ts:645-646 | The key columns are the columns with a key position, in the order of their positions |
| StateOrder.KeyParts | api/scripts/local-test-fingerprint.ts:666-672 | Each part of a key is the UTF-8 form of the cell of its column |
| StateOrder.RowsAreAcceptedRising | api/scripts/local-test-fingerprint.ts:663-692 | Rows are accepted iff each is, their keys rise strictly in that order, and they fit under the cap |
| StateTheorems.KeyColumnIsDistinct | api/scripts/local-test-fingerprint.ts:671-681 | With a one-column key, no value of that column occurs twice |
| StateTheorems.TablesAreMaps | api/scripts/local-test-fingerprint.ts:671-691 | Two accepted tables are the same rows iff they are equal as maps from key to row |
| StateTheorems.RowSectionIsTheMap | api/scripts/local-test-fingerprint.ts:653-691 | So two sections over the same facts have the same bytes iff the tables are the same map |
| StateFields.FieldReads | api/scripts/local-test-fingerprint.ts:515-543 | A value is read back exactly, whatever follows: null, text, integers, booleans, instants with both infinities, enum labels, JSON |
| StateFields.InstantReads | api/scripts/local-test-fingerprint.ts:529-533 | Finite and infinite instants are told apart by their tag |
| StateFields.IntegerReads | api/scripts/local-test-fingerprint.ts:499-514 | Canonical integer text and two's complement bytes determine each other within range |
| StateAccepted.FieldLayout | api/scripts/local-test-fingerprint.ts:514-543 | Null is one zero byte; any other value is 1, the tag of its type, four bytes of length and what it says: UTF-8, two's complement, a flag, an instant or an ordinal and its label |
| StateAccepted.IntegersAreExact | api/scripts/local-test-fingerprint.ts:500-509 | An integer is accepted iff it is the canonical text of one in range |
| StateAccepted.LabelsAreExact | api/scripts/local-test-fingerprint.ts:535-539 | A label is accepted iff the last enum type of that name lists it |
| StateAccepted.AcceptedFollowsTheContract | api/scripts/local-test-fingerprint.ts:609-655 | An accepted state was read in UTF-8 under the protected path over exactly the contract's types, functions, tables and columns, without row security, policies, rules or children |
| StateAccepted.AcceptedHeaderMeans | api/scripts/local-test-fingerprint.ts:609-618 | Its marker is a lower-case UUID, its version five or six digits, its time an instant |
| StateAccepted.AcceptedKeyFollowsTheContract | api/scripts/local-test-fingerprint.ts:645-652 | Its recorded key is the contract's, in the order of key positions |
| StateAccepted.AcceptedValuesAreTyped | api/scripts/local-test-fingerprint.ts:683-687 | Every value in it is one of its column's type |
| StateReading.HeadReads | api/scripts/local-test-fingerprint.ts:653-666 | A table head is read back up to null collation and comment |
| StateReading.SectionReads | api/scripts/local-test-fingerprint.ts:653-691 | A section is read back: head, count and every row |
| StateReading.HeaderReads | api/scripts/local-test-fingerprint.ts:609-617 | The header is read back |
| StateReading.MetadataReads | api/scripts/local-test-fingerprint.ts:618-640 | Enum types and functions are read back |
| Bytes.SignedReads | api/scripts/local-test-fingerprint.ts:510-514 | Big-endian two's complement is undone within its range |
| Bytes.BigEndianMeans | api/scripts/local-test-fingerprint.ts:451-466 | A number is the sum of its bytes, the first weighing most |
| Bytes.Utf8CharMeans | api/scripts/local-test-fingerprint.ts:472-475 | The forms of section 3 of RFC 3629, by lead byte, length and payload |
| Bytes.Utf8Reads | api/scripts/local-test-fingerprint.ts:468-475 | UTF-8 is undone on every well-formed text |
| Bytes.StrReads | api/scripts/local-test-fingerprint.ts:467-476 | A length-prefixed text is read back whatever follows |
| Bytes.CountedReads | api/scripts/local-test-fingerprint.ts:621-638 | A counted list is read back element by element |
| Decimal.SignedReadShows | api/scripts/local-test-fingerprint.ts:499-509 | A canonical integer text is the text of its value |
| StreamWriter.DigestSink.Write | api/scripts/local-test-fingerprint.ts:487-490 | A sink appends until it is ended |
| StreamWriter.DigestSink.End | api/scripts/local-test-fingerprint.ts:491-495 | A digest is handed out once |
| StreamWriter.StateStreamWriter.Emit | api/scripts/local-test-fingerprint.ts:605-608 | Every sink gets the chunk iff none is ended; the schema hash only when asked |
| StreamWriter.StateStreamWriter.WriteHeader | api/scripts/local-test-fingerprint.ts:609-617 | Emits the header iff it is in order and acceptable |
| StreamWriter.StateStreamWriter.WriteTypes | api/scripts/local-test-fingerprint.ts:618-629 | Emits the enum types iff in order and equal to the contract; remembers their labels |
| StreamWriter.StateStreamWriter.WriteFunctions | api/scripts/local-test-fingerprint.ts:630-640 | Emits the functions iff in order and equal to the contract |
| StreamWriter.StateStreamWriter.WriteRows | api/scripts/local-test-fingerprint.ts:671-691 | The row loop succeeds iff every row has its arity and values, keys rise strictly and the byte cap holds, and then has emitted exactly the rows |
| StreamWriter.StateStreamWriter.WriteRelation | api/scripts/local-test-fingerprint.ts:641-693 | Emits a section iff in order and acceptable, its head into the schema hash as well |
| StreamWriter.StateStreamWriter.Finish | api/scripts/local-test-fingerprint.ts:695-700 | Completes only a complete stream and returns the schema digest |
| StreamWriter.CompareByParts | api/scripts/local-test-fingerprint.ts:702-708 | The comparison loop is the lexicographic order of the parts |
| StreamWriter.EncodeHead | api/scripts/local-test-fingerprint.ts:645-666 | A head is encoded iff columns, key and metadata agree with the contract |
| StreamWriter.ReadState | api/scripts/local-test-fingerprint.ts:945-1032 | One pass succeeds iff the state is acceptable and the sinks are open; then every sink has received the whole stream, and the rows kept, if asked for, are the rows written |
| ProtectedResume.CommitGate.Mint | api/scripts/local-test-runtime.ts:376-382 | A token comes only from a durable receipt that echoes nonce and post-image digest |
| ProtectedResume.CommitGate.Pass | api/scripts/local-test-runtime.ts:383-386 | The gate passes once, and only with a token it issued |
| ProtectedResume.Resume | api/scripts/local-test-runtime.ts:436-560 | COMMIT is requested iff no step finds trouble; a rollback names the first that does and leaves the committed state alone; the authorization, the seed and the witness run exactly when their step is reached |
| ProtectedResume.At | api/scripts/local-test-runtime.ts:449-457 | A failing step becomes a stop with its stage and reason |
| ProtectedResume.OpenTransaction | api/scripts/local-test-runtime.ts:475-491 | Setup, locks, the proofs and the classification before |
| ProtectedResume.CheckPreImage | api/scripts/local-test-runtime.ts:492-500 | The first read, its comparison with the verified backup, and the preconditions |
| ProtectedResume.ConsumeAndSeed | api/scripts/local-test-runtime.ts:501-506 | The authorization is used once, before the seed |
| ProtectedResume.CheckPostImage | api/scripts/local-test-runtime.ts:507-526 | One read feeds both sinks and the verifier, which gets the very rows behind the digests; the schema must be the same and the state changed |
| ProtectedResume.AskForWitness | api/scripts/local-test-runtime.ts:528-545 | The witness names the nonce, both state digests, the versions read and both contract digests, and only its receipt mints the token |
| ProtectedResume.CheckOutcome | api/scripts/local-test-runtime.ts:600-640 | The outcome verifier returns both digests of what is committed, the versions read and the contract digests |
| ResumeTheorems.CommitMeans | api/scripts/local-test-runtime.ts:436-560 | COMMIT is requested iff nothing failed, both classifications were the expected ones, the pre-image matched, the verifier accepted the rows behind the POST digest, schemas agree, the PRE digest changed and the witness is durable |
| ResumeVerified.CommitMeansTransformed | api/scripts/local-test-runtime.ts:436-560 | With the transformation verifier in place COMMIT is requested iff nothing failed, the pre-image is the backup, the rows of the post-image are ones the seed may make of the backup's, over the same schema and not all the same, and the witness is durable |
| ResumeVerified.ResumeVerified | api/scripts/local-test-runtime.ts:436-560 | So what is committed afterwards is the backup still, or rows the seed may make of it |
| ResumeVerified.AcceptedRowsAreShaped | api/scripts/local-test-fingerprint.ts:641-693 | The rows kept from an accepted state have the arities the verifier counts on and no user id twice: the writer has refused everything else |
| ResumeVerified.VerdictIsTheRelation | api/scripts/local-test-baseline.ts:562-660 | On accepted states the verifier's verdict is the declared relation |
| ResumeVerified.VerifyStates | api/scripts/local-test-runtime.ts:514-522 | Its checks, run on the rows of two accepted states, return normally iff that relation holds |
| ResumeTheorems.SeedIsAuthorized | api/scripts/local-test-runtime.ts:497-504 | A seed that runs was authorized, over a pre-image that matched the backup |
| ResumeTheorems.OutcomeIsDecidable | api/scripts/local-test-runtime.ts:592-640 | After a requested COMMIT the two digests tell pre-image, post-image and every other state apart |
| ResumeTheorems.SchemaIsKept | api/scripts/local-test-runtime.ts:517-522 | What is committed has the backup's header, enum types, functions and table facts |
| ResumeTheorems.SettleUnknown | api/scripts/local-test-runtime.ts:555-640 | One look after an unknown outcome settles it: still the pre-image, or the post-image, never both |
| ResumeTheorems.FileAndLook | api/scripts/local-test-runtime.ts:528-545 | When a COMMIT was requested exactly one witness was added, with the request's nonce and contracts; its PRE digest is the one a look reports while the backup is committed, its POST digest the one it reports, and that was answered, once the seed's state is; version and marker are those of the reported state |
| ResumeTheorems.ConsumedAfterEveryCheck | api/scripts/local-test-runtime.ts:436-502 | The authorization is used only after every proof, the classification, the comparison with the backup and the preconditions |
| ResumeTheorems.WitnessedAfterVerification | api/scripts/local-test-runtime.ts:502-545 | A witness is filed only for a post-image that passed the classification, the verifier and the change guard |
| ResumeTheorems.RollbackIsExplained | api/scripts/local-test-runtime.ts:555-557 | A rollback is reported under the stage whose answer was the trouble |
| ResumeExample.CommitIsPossible | api/scripts/local-test-runtime.ts:436-560 | All the conditions of a COMMIT can be met at once with the transformation verifier in place: a reviewed contract, a backup of two users without scopes, the state with a seed user's new hash and the owner's scope, and a run that gets there |
| ResumeExample.RunExists | api/scripts/local-test-runtime.ts:436-560 | Any two different acceptable states over one schema whose rows the verifier accepts admit such a run |
| ResumeExample.SeedIsAllowed | api/scripts/local-test-baseline.ts:590-660 | The verifier's relation allows a made scope and a new hash, for any password check that knows the hash |
| RuntimeLifecycle.ReleasedExactlyOnce | api/scripts/local-test-runtime.ts:146-193 | In every interleaving the opener is asked at most once, and what it opened is released exactly once by close or by a failed composition |
| RuntimeLifecycle.CallsOutsideLifeAreRefused | api/scripts/local-test-runtime.ts:151-156 | Every call after close, and every call before the first successful proof but that proof itself, is refused and changes nothing |
| RuntimeLifecycle.PhasesOnlyAdvance | api/scripts/local-test-runtime.ts:136-156 | Closed stays closed, failed stays failed until closed, latched stays latched |
| RuntimeLifecycle.PhaseIsHistory | api/scripts/local-test-runtime.ts:136-239 | The phase is told by the history: open from the successful opening until a proof fails or it is closed, failed iff opening, composition or a later proof did; latched iff an outcome was unknown |
| RuntimeLifecycle.CallsAreServedIffOpen | api/scripts/local-test-runtime.ts:151-217 | An operation is served iff the runtime is so open, a resume iff in addition no outcome is unknown, and it then starts at once or hashes first |
| RuntimeLifecycle.LatchedResumeIsRefused | api/scripts/local-test-runtime.ts:206-217 | A resume called after an unknown outcome is refused and never starts a transaction |
| RuntimeLifecycle.LatchIsExact | api/scripts/local-test-runtime.ts:206-217 | After an unknown outcome, a failed proof or a close, a transaction can still start iff some resume is waiting for its password hash |
| RuntimeLifecycle.LatchCanBeOutrun | api/scripts/local-test-runtime.ts:139-140 | A concrete run in which that happens |
| RuntimeLifecycle.CloseCanBeOutrun | api/scripts/local-test-runtime.ts:206-239 | A concrete run in which a transaction starts on resources already released by close |
| RuntimeLifecycle.LocalTestRuntime.ProveIdentity | api/scripts/local-test-runtime.ts:196-205 | The first call opens, later ones prove again, others are refused |
| RuntimeLifecycle.LocalTestRuntime.OnOpenerAnswer | api/scripts/local-test-runtime.ts:174-193 | What the opener's answer leads to: failure, closed meanwhile, composition, or its failure with release |
| RuntimeLifecycle.LocalTestRuntime.ReleaseOnce | api/scripts/local-test-runtime.ts:146-148 | The single release |
| RuntimeLifecycle.LocalTestRuntime.OnProofAnswer | api/scripts/local-test-runtime.ts:199-204 | A failed later proof fails the runtime while it is open |
| RuntimeLifecycle.LocalTestRuntime.ResumeSeed2 | api/scripts/local-test-runtime.ts:206-210 | Usability and latch are checked at the call only |
| RuntimeLifecycle.LocalTestRuntime.OnHash | api/scripts/local-test-runtime.ts:210-212 | The hash arrives and the transaction starts, unchecked |
| RuntimeLifecycle.LocalTestRuntime.OnResumeAnswer | api/scripts/local-test-runtime.ts:213-216 | An unknown outcome sets the latch |
| RuntimeLifecycle.LocalTestRuntime.Close | api/scripts/local-test-runtime.ts:230-232 | Close is asked once and closes at once |
| RuntimeLifecycle.LocalTestRuntime.OnAttemptOver | api/scripts/local-test-runtime.ts:233-239 | When the attempt to open is over, close releases |
| Transformation.VerifyTransformation | api/scripts/local-test-baseline.ts:562-660 | Returns normally iff every clause holds; a violation names the first clause that fails |
| Transformation.PassingIsTheRelation | api/scripts/local-test-baseline.ts:562-660 | The declared relation holds iff the clauses do and no user id occurs twice in the pre-image |
| Transformation.PassingIsAcceptance | api/scripts/local-test-baseline.ts:598-613 | Users correspond one to one by id, each obeying its class, iff the checks pass and no id occurs twice before |
| Transformation.RepeatedIdHidesARow | api/scripts/local-test-baseline.ts:598-613 | With one id twice before, a row no check looks at passes |
| Transformation.VerifyUsers | api/scripts/local-test-baseline.ts:590-613 | Users pass iff there are as many after as before, no id twice after, an owner exists, and each row from before is found by its id and obeys its class |
| Transformation.VerifyUser | api/scripts/local-test-baseline.ts:602-612 | One user: seed users keep all but a hash of the default password and carry the pinned time; others keep everything |
| Transformation.OnlyThreeTablesChange | api/scripts/local-test-baseline.ts:562-660 | No table appears or disappears and only three can differ: permissions keep their set, every earlier scope stays and new ones have new ids, and a changed user is a seed user with a hash of the default password |
| Transformation.UserRuleMeans | api/scripts/local-test-baseline.ts:602-612 | By email: a seed user other than the owner may get such a hash and carries the pinned time before and after; everyone else keeps every cell |
| Transformation.OnlySeedUsersChange | api/scripts/local-test-baseline.ts:598-613 | In an accepted outcome a row that was not there is a seed user's with another hash |
| Transformation.VerifyScopes | api/scripts/local-test-baseline.ts:615-660 | Scopes pass iff preserved rows are there, new ones have uuid v4 ids, and the contents are the expected ones once each |
| Transformation.VerifyCreated | api/scripts/local-test-baseline.ts:644-659 | Created rows as a multiset, then the final contents |
| Transformation.PreservedScopes | api/scripts/local-test-baseline.ts:622-629 | Every earlier scope row is still there, by id and unchanged |
| Transformation.AcceptedCreates | api/scripts/local-test-baseline.ts:644-656 | In an accepted outcome the rows under new ids are exactly the missing contents, once each |
| Transformation.ExpectedScopes | api/scripts/local-test-baseline.ts:630-643 | The loop resolves the canonical assignments or fails on a missing role or location |
| Transformation.TargetMeans | api/scripts/local-test-baseline.ts:634-643 | What an assignment stands for by the Role and Location rows: the company-wide scope, the scope at the location of its branch code, nothing while there are no locations, or an error |
| Transformation.LookupFindsTheLast | api/scripts/local-test-baseline.ts:630-631 | A code stands for the id of the last row that carries it |
| Transformation.NewIdMeans | api/scripts/local-test-baseline.ts:644-656 | A new id is a version 4 UUID in lower case |
| Transformation.SameRelations | api/scripts/local-test-baseline.ts:571-577 | Both sides hold exactly the protected relations |
| Transformation.OrdinaryTablesKept | api/scripts/local-test-baseline.ts:579-583 | The loop over ordinary tables finds any difference |
| Transformation.IndexFinds | api/scripts/local-test-baseline.ts:598-600 | As many keys as rows means no key twice, and each row is found under its key |
| ScopeConvergence.SeedMeetsVerifier | api/prisma/seed.ts:434-493 | The verifier's scope part accepts what the loop makes of a table iff that table held canonical scopes only, none twice |
| ScopeConvergence.StaleScopeIsRefused | api/prisma/seed.ts:466-493 | One scope for another role is enough: the loop deletes it and the verifier refuses the result |
| ScopeConvergence.ConvergenceIsAccepted | api/prisma/seed.ts:466-493 | The same over any plan with one task per user |
| ScopeConvergence.OthersUntouched | api/prisma/seed.ts:421-425 | From any table, rows of users outside the plan stay as they are, in order |
| ScopeConvergence.SecondRunChangesNothing | api/prisma/seed.ts:421-425 | A second run changes nothing, whatever new ids it is given |
| ScopeConvergence.LoopOutcome | api/prisma/seed.ts:466-493 | After n assignments the first n users have exactly their target, ids are distinct and new rows are the made ones |
| ScopeConvergence.ConvergeSettles | api/prisma/seed.ts:466-493 | One user ends with exactly its target, once, or with nothing |
| ScopeConvergence.ConvergeSparesOthers | api/prisma/seed.ts:478-493 | Settled users stay settled |
| ScopeConvergence.ConvergeUser | api/prisma/seed.ts:479-491 | Find, delete the stale by id, create the missing: as specified |
| ScopeConvergence.ConvergeCanonicalScopes | api/prisma/seed.ts:434-493 | Refuses before touching a row iff a role or location is missing; otherwise runs the whole plan |
| ScopeConvergence.TargetsAreExpected | api/scripts/local-test-baseline.ts:630-643 | The seed's targets are the scopes the verifier expects |
| ScopeConvergence.ScopesAreAtTheBranch | api/prisma/seed.ts:430-466 | The seed goes ahead with an assignment iff it stands for something and a location it stands for has the id of the branch of its code |
| CheckoutIssues.DraftIssues | client/src/app/checkout-quote.ts:715-724 | An issue is listed iff its condition holds, each once, in the order it is first found |
| CheckoutIssues.IssueListIs | client/src/app/checkout-quote.ts:578-724 | The list of everything the loops push, in their order, holds an issue iff its condition holds |
| CheckoutIssues.CentavosOfIs | client/src/app/checkout-quote.ts:350-355 | Exactly the canonical texts of 0 to 2^63 - 1 are centavos, and each is read as its number |
| CheckoutPayable.CleanIsPayable | client/src/app/checkout-quote.ts:578-724 | No issue holds iff the draft is payable: at most two fixed tenders by methods of their own, each of a positive amount with what its method needs, a balance by another method, and all of it as the quote allows |
| CheckoutPayable.PaysIfNothingIsRaised | client/src/app/checkout-quote.ts:591-684 | A payment raises nothing iff it pays: cash with enough received and nothing else, or a pending collection alone, or a reference, for a transfer with its institution |
| CheckoutPayable.LastWord | client/src/app/checkout-quote.ts:556-562 | A method is available iff the quote's last word on it says so |
| CheckoutPayable.FirstCollection | client/src/app/checkout-quote.ts:698-711 | A collection is usable iff the first of that id is pending for this method and exactly this amount |
| CheckoutPayable.RequestIsTheDraft | client/src/app/checkout-quote.ts:765-834 | The request of a payable draft carries every field the cashier filled in, tender by tender, labels trimmed, nothing added |
| CheckoutIssues.FindPricingIssues | client/src/app/checkout-quote.ts:578-589 | The pricing loop pushes exactly the pricing issues, in order |
| CheckoutIssues.CashReceived | client/src/app/checkout-quote.ts:591-599 | The received amount, and what is wrong with it |
| CheckoutIssues.FindNonCashIssues | client/src/app/checkout-quote.ts:606-643 | The rules of a tender that is not cash |
| CheckoutIssues.FindPaymentIssues | client/src/app/checkout-quote.ts:647-684 | The payment loop pushes exactly the payment issues of the fixed tenders and then of the balance, in order |
| CheckoutIssues.MethodAvailability | client/src/app/checkout-quote.ts:556-562 | The last word of the quote on each method |
| CheckoutIssues.FindAvailabilityIssues | client/src/app/checkout-quote.ts:687-693 | The availability loop |
| CheckoutIssues.FindCollectionIssues | client/src/app/checkout-quote.ts:698-711 | The collection loop |
| CheckoutMatch.MatchIsExact | client/src/app/checkout-quote.ts:750-760 | A quote matches a draft iff sale and balance method agree and the fixed tenders are equal as multisets, whatever text the amounts hold |
| CheckoutMatch.JoinsAgree | client/src/app/checkout-quote.ts:750-752 | Equal joins of equally many parts, one side free of separators, are joins of equal parts |
| CheckoutMatch.TextsTellEntries | client/src/app/checkout-quote.ts:750-752 | Entry texts tell method and amount |
| CheckoutRoutes.RoutesCarryTheSameEvidence | client/src/app/checkout-quote.ts:981-1106 | Reserving and confirming carries, tender by tender, what the one request carries, for every clean draft |
| CheckoutRoutes.FixedRoutesAgree | client/src/app/checkout-quote.ts:1034-1070 | So for each fixed tender, despite the fallbacks to the balance's fields |
| CheckoutRoutes.BalanceRoutesAgree | client/src/app/checkout-quote.ts:1034-1070 | And for the balance |
| CheckoutRoutes.CleanPayment | client/src/app/checkout-quote.ts:606-684 | What a draft without issues carries, method by method |
| CheckoutRoutes.CleanWithoutQuote | client/src/app/checkout-quote.ts:1082 | A draft clean against its quote is clean without it, so its confirmation is not refused |
| CheckoutRoutes.FallbackWouldLend | client/src/app/checkout-quote.ts:1034-1070 | Without the checks the fallbacks would lend a fixed tender the balance's reference |
| CheckoutRoutes.BuildCheckoutRequest | client/src/app/checkout-quote.ts:776-834 | Built iff the ids are well formed, the quote matches and the draft is clean; a refusal names the first of these that fails, and for the draft its first issue |
| CheckoutRoutes.BuildReservationRequest | client/src/app/checkout-quote.ts:981-1032 | The same for the reservation |
| CheckoutRoutes.BuildConfirmationRequest | client/src/app/checkout-quote.ts:1072-1106 | Built iff the keys are well formed and the draft is clean without its quote; a refusal names the first reason |

## Left out

- Exchange: `clearAll` and `openDraftUnsafe`, which destroy or bypass the evidence the guarantees rest on.
- Exchange: `replacementLabel`, `saleNumber`, error codes and messages, `replayed`, `sessionExpired`, listeners and snapshots; they decide nothing.
- Exchange: the text of storage keys; a slot is addressed by user and sale, and records of keys that do not parse are skipped.
- Exchange: lower-casing and sorting outside ASCII and the basic plane; item ids there are refused as non-UUIDs anyway.
- Exchange: JSON text itself; a stored value is a parsed tree or unparseable.
- Exchange: how `navigator.locks` works; a lock that is denied or vanishes is a step of its own.
- Stream: the frozen contract data, the SQL that reads the catalogue, and the live checks that run before the stream (`assertLiveTypeContract`, `assertRelationDomainFacts`).
- Stream: SHA-256 itself; a digest is its message.
- Stream: what an abandoned writer has already sent to its sinks after a refusal; only that it does not advance.
- Resume: `protectTx` and `classifyStatement`, the statement texts, and the observer.
- Resume: a `randomNonce` that throws before the transaction; the nonce is a parameter.
- Resume: the backup snapshot exporter and the outcome tool that compares stored witnesses.
- ProtectedResume.Resume: takes the verifier as a function of two sets of rows; `ResumeVerified` puts the transformation verifier in its place.
- Runtime: what the composed baseline does behind `classify`, `seedDemo`, `backfillCompanyLocations` and `verifyBaseline`; each is an operation that is refused or passed on.
- Baseline: `classifyLocalTestBaseline` with `rowKey` and `sameRows`; its states are a cascade of equality tests, and the resume takes its answer as given.
- Transformation.VerifyTransformation: rows have the arity of their table, which `ResumeVerified.AcceptedRowsAreShaped` proves of every state the resume reads.
- ScopeConvergence.ConvergeCanonicalScopes: the canonical users are there, upserted just before in the same transaction; the source asserts as much (`api/prisma/seed.ts:467`).
- StreamWriter.ReadState: the queries of the catalogue and the live checks on their answers come before it.
- Transformation: sorting contents as JSON text before comparing them is modelled as comparing multisets.
- ScopeConvergence.ConvergeUser: deletes by ids that are unique in the table, as its primary key guarantees.
- Checkout: `referenceKey` is a parameter, because upper-casing is Unicode's; the order of `Array.sort` is any total order on texts.
- Checkout: parsing of quotes, results and reservations, the change preview, and the attempt states, which would only add easy members.
