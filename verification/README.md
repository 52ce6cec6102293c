# The family vault's protocols, in Dafny

The vault is a household's web application. Most of it is screens and wiring; this project
models the parts that carry a protocol, a state machine or exact arithmetic, and proves what
their documentation promises of them. Where a promise does not hold of the code, a lemma says
just when it does, and another gives a case, reached from an ordinary beginning.

## What is modelled

- **A record kept in two parts** (`Identity*.dfy`, from `apps/web/src/identity.tsx`,
  `packages/shared/src/identity.ts` and `apps/api/src/household/identity.ts`). A person's
  identity details are split between a part everyone may read and one for them alone. The
  form reads both, some values masked, and saves in two or three separate writes with no
  transaction, any of which may be refused. The vault's merge and its comparison of a write with what
  is stored are modelled as they are written. An edit is a run: things done in the form, saves
  refused part of the way, and records read again, with one id in both parts or not. Proved of
  every press of Save in every such run: it refines one write of each changed part; just when
  each entry, text and masked value survives it, wherever it is stopped; and, of a record read
  and not yet written to, that they do; what each thing done in the form leaves there, and what
  the finished save then stores of it. `IdentityFound.dfy` has the runs that end in a loss.
- **The page loader** (`BatchPages*.dfy`, `PageLoader.dfy`, from `apps/web/src/batch-pages.ts`): a bounded
  queue of fetches, a cache of object URLs, cancelling, and eras. A completion is two steps,
  with anything in between.
- **The uploader** (`BatchUploads*.dfy`, `BatchUploader.dfy`, from
  `apps/web/src/batch-store.tsx`): one step between awaits at a time, with Stop, abort,
  choosing and visits between them, requests that arrive late or never, and answers lost.
- **Notes** (`Notes*.dfy`, `NoteDrafts.dfy`, from `apps/web/src/notes.tsx`
  and `apps/web/src/note-drafts.ts`): writing against somebody else's change, with ETags, one
  quiet retry, refreshes, reloads and drafts.
- **Column widths** (`ColumnWidths.dfy`, from `apps/web/src/column-widths.tsx`): whole pixels
  shared out in proportion, by the function's own loops.
- **The leave guard** (`LeaveGuard*.dfy`, from `apps/web/src/leave-guard.tsx`): the browser's
  history as a sequence, Backs made after they are asked for, and whatever waits for the
  guard's entry to be taken off.
- **Log redaction** (`LogRedaction.dfy`, from `apps/api/src/log-redaction.ts`): both regular
  expressions as their engine runs them, against what they are to match.
- **Accept all Ready** (`AcceptReady.dfy`, from `apps/web/src/batch-review.tsx`), **settings
  checks** (`SettingsChecks.dfy`, `SettingsCheckService.dfy`, from `apps/api/src/settings-checks.ts`), and **numbers and
  amounts on a card** (`Details*.dfy`, from `apps/web/src/details.tsx`).

`Text.dfy` holds trimming, capitals and lists of codes as the client has them.

A protocol is given as functions from state to state, which the theorems are about; where the
source is an object, a class has its fields and a method for each of its methods, or for each
stretch of one between two awaits, proved equal to those functions. An await is where a
method ends; a caller may do anything there.

## Findings

Each is a lemma with the condition it turns on; where a case takes a run to reach, so is the run.

- Clearing a masked value as the only change is not written: the comparison takes a cleared
  value for none (`IdentityValues.ClearedAloneIsNotWritten`). The comment at
  `apps/web/src/identity.tsx:33-38` says a value cleared on purpose is sent; `MaskedValueAsMeant`
  says exactly when a value ends as it was meant to.
- An ID moved, its save refused at the third write, and then put back loses its number in the
  next save (`IdentityFound.PutBackLosesTheNumber`): the value is left out of a part that no
  longer has it. With another ID moved in that second save, the whole ID is stored nowhere
  after its first write (`PutBackIsStoredNowhere`): the order of the writes goes by where the
  form first read an entry, not by where it is. `IdentityStopped.NeverStoredNowhere` has the condition.
- The writes of a save are chosen before the first is made, so that the last of three may be
  left out though it is needed by then, and what leaves Only me stays in it as well
  (`IdentityFound.LeftOverIsReached`; `IdentityWhole.SavedAsTheFormSays`).
- A value that is not masked, emptied in the form, is kept by the vault
  (`IdentityFrame.VisibleValueEmptiedIsKept`).
- An ID moved between the parts loses a link its editor may not see
  (`IdentityFrame.UnseenLinkIsLostOnMove`).
- One id in both parts and both moved: a save stopped after its first write has lost one
  (`IdentityStopped.SwappedIdIsStoredNowhere`; `SurvivesUnlessSwapped`).
- A page's URL is leaked exactly when a second fetch of a page still held is stored
  (`BatchPages.LeaksExactlyWhenStoredOver`), and handed out revoked exactly when the page was
  forgotten between its store and its settling (`BatchPages.HandedOutRevoked`).
- Stop asked while a batch is made, or asked what arrived, is dropped
  (`BatchUploadsProofs.StopIsDroppedBeforeIt`); in the loop it is always heard.
- A note's title typed after a refresh is not held to the document again
  (`Notes.TitleTypedAfterARefresh`; `TitlesKeptExactly`), and what is typed while a save is on
  its way is dropped when it is made (`Notes.TypedWhileSavingIsDropped`).
- The leave guard: "Keep writing" after a save, a link followed while its entry is on its way
  off, a search made then, a leave behind a guard being put on again, and writing again while
  a leave's Back is under way each leave an entry astray or a page unasked
  (`LeaveGuard.KeptWritingAfterASave`, `FollowedWhileReleasing`, `SearchedWhileReleasing`,
  `LeftBehindTheGuard`, `WrittenWhileLeaving`). `Orderly` is the condition, on the state before
  a step; a step leaves the guard's promises kept, however many Backs follow it, if and only if
  it holds (`LeaveGuard.PromisedExactlyInOrder`).
- Of three Accepts, the second's files may still be undone and yet not be named by Undo, once
  the first's time is past (`AcceptReady.LetGoTogether`; `EarlierIsNamed`).
- A number of 22 digits or more, or under a millionth, is printed with an exponent and cannot
  be read back (`Details.NumberReadsBack`).

## Model

| member | source | states |
|---|---|---|
| `IdentityVault.FindMerged` | `packages/shared/src/identity.ts:366-393` | What a write makes of one entry depends on that entry alone, before and as sent: entries cannot disturb one another |
| `IdentityVault.PutAt` | `apps/api/src/household/identity.ts:532-602` | After a write every entry of the part is the merge of what was stored with what was sent, or gone if it was not sent; the other part is untouched |
| `IdentityVault.NoChangeIsAlike` | `packages/shared/src/identity.ts:310-347` | No change found between two parts means no difference in any entry, up to values sent as cleared, which the comparison cannot see |
| `IdentityVault.PutMovesVersion` | `apps/api/src/household/identity.ts:531-534` | A part still at the version it was read at is the part that was read; every write that changes a part moves its version |
| `Text.CodesReadBack` | `apps/web/src/identity.tsx:842-847` | Country codes joined for the form and read back are the same codes |
| `Text.SeparatorsPart` | `apps/web/src/identity.tsx:842-847` | A space, a comma or a semicolon parts what is typed: the codes before it, then those after |
| `Text.CodesAreCodes` | `apps/web/src/identity.tsx:842-847` | Whatever is typed in the field of codes, what is read of it is trimmed, in capitals, never blank |
| `IdentityParts.NoIdTwice` | `apps/web/src/identity.tsx:928-942` | No list of a built part holds an id twice, whatever draft it is built from |
| `IdentityParts.FindBuilt` | `apps/web/src/identity.tsx:928-942` | A built part holds of an entry exactly what is to be sent of it; of two of one id the one moved in takes the place of the one there, whichever is first in the draft |
| `IdentityParts.MergeTwice` | `packages/shared/src/identity.ts:366-393` | Merging the same entry twice is merging it once |
| `IdentityParts.UneditedIsKept` | `apps/web/src/identity.tsx:850-896` | An entry read into the form and not edited is sent so that the vault keeps it exactly, its masked value and an unseen document included |
| `IdentityShown.FormShows` | `apps/web/src/identity.tsx:775-803` | Every entry of the form just read is a stored one: its fields; its value in its field, unless kept back, as an ID’s always is and a hidden field’s; and its document, if its reader may see it |
| `IdentityShown.EveryEntryIsShown` | `apps/web/src/identity.tsx:804-840` | And every stored entry has its place in the form |
| `IdentityShown.EveryTextIsShown` | `apps/web/src/identity.tsx:804-840` | There is a field for every text: as its part has it, or empty and for everyone where neither part has one |
| `IdentityReading.ReadIsStored` | `apps/web/src/identity.tsx:804-840` | Every entry of the first draft is the masked view of the stored entry of that list and id |
| `IdentityReading.DraftFromOk` | `apps/web/src/identity.tsx:804-840` | The draft read from a well-kept record meets everything the save relies on |
| `IdentityReading.WrittenBackUntouched` | `apps/web/src/identity.tsx:805-945` | A part read into the form and written back unedited merges to exactly the stored part, in its order |
| `IdentitySave.StartAgrees` | `apps/web/src/identity.tsx:1139-1154` | At first what the form has of each part, merged again, leaves every entry of it as it is stored, one id in both parts or not |
| `IdentitySave.DoAgrees` | `apps/web/src/identity.tsx:1401-1434` | So it stays after every write: the vault has what the form last wrote, whatever was refused between |
| `IdentitySave.StoppedIsReached` | `apps/web/src/identity.tsx:1400-1434` | Leaving out beforehand the steps that change nothing reaches only states the full plan goes through |
| `IdentityWhole.SavedIsOneWrite` | `apps/web/src/identity.tsx:1367-1434` | Refinement, whatever was written before: two or three separate writes leave every entry as one merge of each changed part, both at once |
| `IdentityWhole.SavedTexts` | `apps/web/src/identity.tsx:1367-1434` | And every single-value field as the last write of its part has it |
| `IdentityWhole.SavedAsTheFormSays` | `apps/web/src/identity.tsx:1401-1410` | A finished save leaves in each part just what the form sends there, if and only if the last of three writes was not passed over before the first was made |
| `IdentityWhole.FirstLeavesNothingOver` | `apps/web/src/identity.tsx:1367-1434` | A first save never passes it over: what leaves Only me was read there |
| `IdentityStopped.CopySurvives` | `apps/web/src/identity.tsx:1361-1388` | Wherever a save is stopped, after whatever others, a copy of an entry that is safe is still stored, or the entry as it will be |
| `IdentityStopped.NeverStoredNowhere` | `apps/web/src/identity.tsx:1361-1388` | Stopped before any write, an entry stored when Save was pressed and still to be stored is in one of the parts, as it was or as it will be, if and only if its part has it or is written first, or the form read it from the other |
| `IdentityStopped.TextNeverStoredNowhere` | `apps/web/src/identity.tsx:1361-1388` | The same of every single-value field |
| `IdentityStopped.SurvivesUnlessSwapped` | `apps/web/src/identity.tsx:928-942` | With one id in both parts: an entry told apart from the other survives every stop of a save if and only if the two are not both moved |
| `IdentityStopped.SwappedIdIsStoredNowhere` | `apps/web/src/identity.tsx:1376-1383` | Both moved, the save stopped after its first write has the one that was in Only me in neither part |
| `IdentityStopped.TriedAgainFinishes` | `apps/web/src/identity.tsx:1400-1434` | A save refused part-way and made again of the same draft ends in the vault an unbroken save ends in |
| `IdentityValues.MaskedValueAsMeant` | `apps/web/src/identity.tsx:850-878` | Whatever was written before, a masked value ends as it was meant to if and only if it is sent, or cleared in a part that is written, or left out of a part that has it |
| `IdentityValues.MaskedValueSaved` | `apps/web/src/identity.tsx:850-896` | A first save: the vault then holds of a masked value what was typed, none if it was shown and cleared, else the old one, once; but for one cleared in a part not written |
| `IdentityValues.ClearedAloneIsNotWritten` | `apps/web/src/identity.tsx:1401-1410` | Found: clearing a masked value as the only change is no change to `identityChanges`, so nothing is written and the value stays |
| `IdentityFrame.LeftAloneIsKept` | `apps/web/src/identity.tsx:850-945` | Whatever else a save changes, an entry left as the vault has it is stored as it was |
| `IdentityFrame.TextLeftAloneIsKept` | `apps/web/src/identity.tsx:919-927` | Whatever else a save changes, a single-value field left as the vault has it is stored as it was |
| `IdentityFrame.VisibleValueEmptiedIsKept` | `packages/shared/src/identity.ts:383-390` | Found: a value not masked, emptied in the form, is left out of the write and kept; it ends as the form has it if and only if something is typed or the part had none |
| `IdentityFrame.UnseenLinkIsKept` | `packages/shared/src/identity.ts:372-381` | A link to a document the editor may not see is kept if and only if the part the ID ends in has it already |
| `IdentityFrame.UnseenLinkIsLostOnMove` | `packages/shared/src/identity.ts:372-381` | Found: so a first save keeps one if and only if its ID stays in its part |
| `IdentityFrame.StoppedIsWellKept` | `apps/web/src/identity.tsx:1390-1434` | Stopped anywhere or finished, a save leaves each part well kept: one the form may read again |
| `IdentityFrame.SavedIsHealthy` | `apps/web/src/identity.tsx:1390-1434` | A save of a draft with no id twice, nothing left over, leaves no entry in both parts, whatever was in both before it |
| `IdentityForm.DoneLeaves` | `apps/web/src/identity.tsx:1187-1316` | Whatever is done in the form changes the one entry or text it is of, as it says: a field typed reads so, a value is shown unless it is refused, gone or typed over, an ID linked or not, an entry last or gone; and every other entry, field and text is as it was |
| `IdentityForm.Form.ChangeDraft` | `apps/web/src/identity.tsx:1187-1316` | And so does the form’s own draft |
| `IdentityForm.EditKept` | `apps/web/src/identity.tsx:1187-1470` | Over every run of the form, with saves refused part of the way and records read again, the draft, the vault and what was last written go on agreeing |
| `IdentityEdits.UnshownIsWhatIsLost` | `apps/web/src/identity.tsx:901-916` | The check before a save refuses exactly the drafts of which it would lose a masked value: one moved, and left out of the part it moves to |
| `IdentityForm.NeverMovedUnshown` | `apps/web/src/identity.tsx:901-916` | In no such run is a masked value moved that was neither shown nor typed over: the check before a save never fires |
| `IdentityForm.MaskedValueOverRuns` | `apps/web/src/identity.tsx:850-878` | After any such run the save then made leaves a masked value as meant if and only if it is carried; until a save of the edit has written anything it is, but for one cleared in a part not written |
| `IdentityForm.EntryOverRuns` | `apps/web/src/identity.tsx:1361-1388` | After any such run the save then made, stopped anywhere, has an entry still stored if and only if it was safe; until a save of the edit has written anything it is |
| `IdentityForm.TextOverRuns` | `apps/web/src/identity.tsx:1361-1388` | The same of every single-value field |
| `IdentityEdits.DoneIsStored` | `apps/web/src/identity.tsx:850-942` | After any run and then anything done: the save then made, finished, stores an entry of the form, unless one moved in took it over, if and only if it holds anything of its own, or was read and is no contact; with its fields trimmed, hidden as it is or with a value left that is, and with its document |
| `IdentityEdits.TypedFieldIsStored` | `apps/web/src/identity.tsx:1591-1625` | A field typed, after any run: its entry reads it, all else is as it was, and the finished save stores it trimmed, a country in capitals, or has no such field if nothing is left of it |
| `IdentityEdits.AddedIsStored` | `apps/web/src/identity.tsx:1246-1262` | An entry added, after any run: the finished save has it in its part, with its fields, value and document, if and only if it holds anything, and in the other part never |
| `IdentityEdits.RemovedIsGone` | `apps/web/src/identity.tsx:1270-1273` | An entry removed, the only one of its id, after any run: the finished save leaves it in neither part, and every other entry is as it was |
| `IdentityEdits.LinkIsStored` | `apps/web/src/identity.tsx:1296-1316` | An ID linked, after any run: the finished save stores the link, unless its part has one the editor may not see |
| `IdentityEdits.UnlinkIsStored` | `apps/web/src/identity.tsx:878-881` | A link taken off, after any run: the finished save stores none the editor may see, if and only if the form had one there when it was read, the ID stays and its part is written |
| `IdentityEdits.TextIsStored` | `apps/web/src/identity.tsx:919-927` | A text typed or moved, after any run: the finished save stores it in its part, trimmed, a country in capitals, codes as a list, or not at all when nothing is left; and in the other part nothing, alone of its key and nothing left over |
| `IdentityForm.SameVersionSamePart` | `apps/api/src/household/identity.ts:531-534` | Whatever others write meanwhile, a write accepted at the version read replaces exactly what was read |
| `IdentityForm.VaultServer.Update` | `apps/api/src/household/identity.ts:518-635` | One write: refused when stale or not allowed, else the merge, the version moved just when something changed |
| `IdentityForm.Form.Save` | `apps/web/src/identity.tsx:1390-1470` | The loop over the steps leaves the vault after exactly the steps made, and the form as it was, or with what it wrote, or reading again, by how the save ended |
| `IdentityFound.PutBackLosesTheNumber` | `apps/web/src/identity.tsx:865-878` | Found, from any record with an ID in Only me and a masked one in the shared part: both moved, the third write refused, the second put back and saved, its number is in neither part |
| `IdentityFound.PutBackIsStoredNowhere` | `apps/web/src/identity.tsx:1367-1388` | Found: with a third ID moved into Only me in that second save, its first write alone leaves the whole ID put back in neither part |
| `IdentityFound.OneIdInBothParts` | `apps/web/src/identity.tsx:928-931` | From the same records, a save refused at its second write leaves one id in both parts of the record then read |
| `IdentityFound.LeftOverIsReached` | `apps/web/src/identity.tsx:1401-1405` | Found: a field emptied and written so, then typed again and moved to the shared part, is left in Only me as well |
| `BatchPages.RunSound` | `apps/web/src/batch-pages.ts:36-120` | In every run: `running` is the number of fetches under way from the current era, at most PAGES_AT_ONCE and exactly that while any waits; each request is waiting, on its way or settled, once; every held URL is unrevoked and of this era; none begun before `forgetAllPages` is handed out after it |
| `BatchPagesAsked.AskedIsPending` | `apps/web/src/batch-pages.ts:44-52` | In every run what is said to be asked for is: its promise is not settled, and waits or is on its way under that page’s own key |
| `BatchPagesAsked.AskedAnew` | `apps/web/src/batch-pages.ts:36-52` | In every run a page neither held nor waiting nor on its way is asked for anew: a promise of its own, started at once while fewer than four are on their way, else last in the queue |
| `BatchPagesAsked.CancelledIsAskedAnew` | `apps/web/src/batch-pages.ts:53-59` | A page cancelled before its turn and asked for again has a new promise, not settled, waiting or on its way |
| `BatchPagesAsked.FirstAskedStartFirst` | `apps/web/src/batch-pages.ts:63-69` | As many start as may, in the order they were asked for, and the others wait on as they were |
| `BatchPages.AllSettledOnce` | `apps/web/src/batch-pages.ts:44-85` | With nothing queued or in flight every request made was settled, and once |
| `BatchPages.AnswersBringItNearer` | `apps/web/src/batch-pages.ts:67-85` | Each step of a completion brings a measure of the work left down, whatever it answers |
| `BatchPages.NeverStuck` | `apps/web/src/batch-pages.ts:63-87` | While anything is left to settle there is a fetch under way to bring it on |
| `BatchPages.ForgottenIsGone` | `apps/web/src/batch-pages.ts:97-112` | After `forgetPages` no page of these items is held or asked for, and nothing of any other item is touched |
| `BatchPages.ForgetAllSound` | `apps/web/src/batch-pages.ts:115-120` | `forgetAllPages` leaves a sound, empty loader: nothing held, asked, queued or running |
| `BatchPages.QueueEmptied` | `apps/web/src/batch-pages.ts:97-117` | Listing every queued key as often as it is queued empties the queue, one queued twice included |
| `BatchPages.LeaksExactlyWhenStoredOver` | `apps/web/src/batch-pages.ts:70-76` | Every URL made is held, revoked or leaked, and a step leaks one if and only if a second fetch of a page still held comes back |
| `BatchPages.LeakIsReached` | `apps/web/src/batch-pages.ts:36-76` | Found: from the start, a page forgotten while it is fetched and asked for again is leaked once both fetches come back |
| `BatchPages.HandedOutRevoked` | `apps/web/src/batch-pages.ts:70-85` | A page stored and then landed in the same era is handed out with its URL revoked if and only if it was forgotten in between, before another fetch was stored over it |
| `BatchPages.RevokedIsReached` | `apps/web/src/batch-pages.ts:70-112` | Found: from the start, a page asked for, stored, forgotten and landed is handed out revoked |
| `PageLoaders.PageLoader.AskPage` | `apps/web/src/batch-pages.ts:36-52` | Asking a page: held, promised already, or queued and the queue pumped |
| `PageLoaders.PageLoader.Pump` | `apps/web/src/batch-pages.ts:63-69` | The loop starts fetches until enough run or none waits |
| `PageLoaders.PageLoader.CancelAsk` | `apps/web/src/batch-pages.ts:53-59` | Cancelling takes a waiting request out of the queue and of what is asked for, settled with nothing, so that it may be asked for anew (`CancelledIsAskedAnew`); one already started is left |
| `PageLoaders.PageLoader.CameBack` | `apps/web/src/batch-pages.ts:70-76` | The first half of a completion: kept only if of this era and still asked for |
| `PageLoaders.PageLoader.Lands` | `apps/web/src/batch-pages.ts:78-85` | The second half: settled; and of this era only, counted off and the next started |
| `PageLoaders.PageLoader.ForgetPages` | `apps/web/src/batch-pages.ts:97-112` | Every listed key let go in turn, its URL revoked and its first queued request settled |
| `PageLoaders.PageLoader.ForgetAllPages` | `apps/web/src/batch-pages.ts:115-120` | The era moved on, everything listed forgotten, the counts cleared |
| `BatchUploadsRuns.RunSound` | `apps/web/src/batch-store.tsx:221-502` | The invariant of every run: keys told apart, items asked for, one call at a time, at most one file sending and it is the one the call is at |
| `BatchUploadsProofs.UploadKeepsItsWord` | `apps/web/src/batch-store.tsx:269-502` | Over every run, requests and answers lost at will: a chosen file makes at most one item, and a file marked sent or skipped has its bytes in the batch; two runs never overlap |
| `BatchUploadsProofs.SoundMakesOneItem` | `apps/web/src/batch-store.tsx:269-277` | No two items of a batch were made for one chosen file |
| `BatchUploadsProofs.StepForward` | `apps/web/src/batch-store.tsx:425-487` | In every step files keep their place, key and bytes, and those sent, skipped or refused their state, until all is forgotten; and only the file marked sending is ever requested |
| `BatchUploadsProofs.AbortIsHeard` | `apps/web/src/batch-store.tsx:382-396` | Wherever an abort lands: of what was chosen only the file then marked sending can still go, and once the call ends all is forgotten with `busy` and `aborted` false |
| `BatchUploadsProofs.AbortCutsTheOne` | `apps/web/src/batch-store.tsx:383-388` | An abort cuts short the request on its way, and only that |
| `BatchUploadsProofs.StopIsHeardInTheLoop` | `apps/web/src/batch-store.tsx:424-433` | A Stop in the loop: no file goes but the one then marked sending, and the run ends stopped |
| `BatchUploadsProofs.StopIsDroppedBeforeIt` | `apps/web/src/batch-store.tsx:411-419` | Found: a Stop asked while the batch is made, or asked what arrived, changes nothing of the run that follows |
| `BatchUploadsProofs.TheRunEnds` | `apps/web/src/batch-store.tsx:424-501` | After as many answers as the loop has left, whatever they say and whatever the page does between, the run has ended; done only with nothing ready or failed |
| `BatchUploadsProofs.StepOfLoop` | `apps/web/src/batch-store.tsx:424-501` | Each await answered leaves strictly fewer to come, every other event leaves the call where it is |
| `BatchUploadsProofs.ProgressAddsUp` | `apps/web/src/batch-store.tsx:98-107` | What arrived, waits and is going add up to what is to send; one file is going exactly while its token or answer is awaited |
| `BatchUploadsProofs.ChooseFits` | `apps/web/src/batch-store.tsx:250-281` | Choosing never takes a batch past its most, loses no file, and chooses a file once |
| `BatchUploadsSteps.ErrorMeans` | `apps/web/src/batch-store.tsx:142-176` | A sending that throws, by its error. No answer, 408, 429, 500 or more, or an upload in progress: that file failed, no other touched, the call stopped. Else 404, 403, a batch ended or full: that file and all that wait refused, the call stopped. Cut short: that file ready again. Any other: that file alone refused, and the loop goes on |
| `BatchUploadsSteps.ThereIsNotSentAgain` | `apps/web/src/batch-store.tsx:423-446` | In every run in which a hash asked for was had, no file goes that has the size and the bytes of anything listed in its batch |
| `BatchUploadsSteps.ChooseIs` | `apps/web/src/batch-store.tsx:250-281` | A file added is the first picked of its key, ready if and only if it is of a kind taken, not too big, and the batch had room for it then |
| `BatchUploadsSteps.EveryStep` | `apps/web/src/batch-store.tsx:221-502` | Every step of every run changes the files, the call, the requests and the items as it is to, and nothing else: a run is done if and only if nothing waits, nothing stopped it and no Stop was asked |
| `BatchUploader.Uploader.ChooseFiles` | `apps/web/src/batch-store.tsx:250-281` | The loop over the files picked adds exactly what the model of choosing says |
| `BatchUploader.Uploader.NextFile` | `apps/web/src/batch-store.tsx:423-434` | The head of the loop: ended, a hash awaited if a file of its size is there, or the file marked |
| `BatchUploader.Uploader.AnswerCame` | `apps/web/src/batch-store.tsx:449-461` | An item made: the file is sent, and the loop goes on |
| `BatchUploader.Uploader.Caught` | `apps/web/src/batch-store.tsx:461-486` | What a thrown error does is what `ErrorMeans` says of it |
| `NoteDrafts.KeysHoldLastKept` | `apps/web/src/note-drafts.ts:58-131` | In every run of draft operations the tab holds, under a person and a document, exactly what that person last kept for it |
| `NoteDrafts.DraftOfIsLastKept` | `apps/web/src/note-drafts.ts:73-103` | What is given back is what the same person last kept for the same document, nothing of anybody else |
| `NoteDrafts.AskingForgetsOthers` | `apps/web/src/note-drafts.ts:78-79` | Asking removes everybody else’s drafts, keeps one’s own, and touches no other key |
| `NoteDrafts.NoDraftUnlessForEveryone` | `apps/web/src/note-drafts.ts:60-83` | Of a document not for everyone no draft of that person remains after keeping or asking |
| `NoteDrafts.KeysApart` | `apps/web/src/note-drafts.ts:58-58` | One storage key is one person’s and one document’s |
| `NoteDrafts.TabStorage.ForgetEach` | `apps/web/src/note-drafts.ts:113-131` | Keys collected, then removed: every draft but those of whoever is kept |
| `NoteDrafts.TabStorage.KeepOne` | `apps/web/src/note-drafts.ts:60-71` | Kept for a document everyone sees, forgotten for any other |
| `NoteDrafts.TabStorage.AskFor` | `apps/web/src/note-drafts.ts:78-103` | Others’ drafts forgotten, then one’s own given back if the document is for everyone |
| `Notes.RunSound` | `apps/web/src/notes.tsx:226-478` | The invariant of every run: what a save would replace is the note the edit began from or one shown as theirs, through refreshes, drafts and the retry |
| `Notes.NothingReplacedUnseen` | `apps/web/src/notes.tsx:422-478` | A save that is made replaced the words the edit began from, or a note shown as theirs when Save was pressed; it holds the words as written, and a title left alone is unchanged |
| `Notes.OneSaveTwoWrites` | `apps/web/src/notes.tsx:422-478` | One press of Save is at most two writes, of which at most one is made |
| `Notes.NoDraftOfAPrivateNote` | `apps/web/src/notes.tsx:358-364` | No draft is kept once the page knows the document is not for everyone |
| `NotesKept.TypedComesBack` | `apps/web/src/notes.tsx:238-253` | After any run: typed, and then, after anything that neither types, closes nor saves, the page loaded anew with the document for everyone: the edit reads as typed, from the note it began from, theirs shown if and only if it is another; and Save sends it, trimmed, with the document’s ETag |
| `NotesKept.SentAgainExactly` | `apps/web/src/notes.tsx:448-475` | A save refused is sent again if and only if it is the first of its press and the note is still the one begun from: the same words and title, with the newer ETag; else nothing is sent, and theirs is shown, or it is said that the note changed again |
| `NotesKept.SavedAsTyped` | `apps/web/src/notes.tsx:390-447` | An edit begun, anything typed and saved, nobody else writing: the document is as it was but for the last words typed and, if another, the last title, both trimmed; no edit and no draft is left |
| `Notes.TheirsIsShownFirst` | `apps/web/src/notes.tsx:324-334` | A refresh to somebody else’s words shows them before Save can send their ETag |
| `Notes.TitlesKeptExactly` | `apps/web/src/notes.tsx:226-478` | A step leaves every title the edit would replace begun from or shown first, if and only if it is not a title typed over one that is neither, or typed while a write was on its way that is then refused |
| `Notes.NoTitleReplacedUnseen` | `apps/web/src/notes.tsx:422-478` | Over every run with no such step, a save that changes the title replaced the one the edit began from, or one shown as theirs when Save was pressed |
| `Notes.TitleTypedAfterARefresh` | `apps/web/src/notes.tsx:324-334` | Found, from any beginning: the title changed by somebody else, the page refreshed, a title typed and saved: theirs is replaced, neither begun from nor shown |
| `Notes.ThereItIsUnseen` | `apps/web/src/notes.tsx:324-334` | And it is the title typed that leaves theirs unseen: up to it none was |
| `Notes.TypedWhileSavingIsDropped` | `apps/web/src/notes.tsx:415-447` | Found: what is typed of the words or the title while a save is on its way is neither saved nor kept; the document is as if it were, if and only if it would have been sent the same |
| `Notes.TypedWhileSavingIsReached` | `apps/web/src/notes.tsx:415-447` | Reached from any beginning, whatever is typed first and then |
| `NotesSection.NotesSection.constructor` | `apps/web/src/notes.tsx:305-310` | A draft from before a reload opens the editor as it was kept, on the document as it is now; with none, or a narrower document, there is no edit |
| `NotesSection.NotesSection.Write` | `apps/web/src/notes.tsx:378-397` | Typing changes the text or title and keeps a draft where one may be kept |
| `NotesSection.NotesSection.Refresh` | `apps/web/src/notes.tsx:324-334` | The edit carries on from the document now, theirs shown if it is not the one begun from |
| `NotesSection.NotesSection.Save` | `apps/web/src/notes.tsx:422-443` | One write from the edit as shown, with the ETag it stands on |
| `NotesSection.NotesSection.Conflict` | `apps/web/src/notes.tsx:457-472` | Refused: theirs shown, or sent again once from the document now |
| `NotesSection.NotesSection.Answer` | `apps/web/src/notes.tsx:444-477` | Each answer to a save is its step |
| `ColumnWidths.RoundingLeaves` | `apps/web/src/column-widths.tsx:134-146` | Shared out in whole pixels, what is left is none, or fewer pixels than there are shares not whole |
| `ColumnWidths.GrownFillsTheRoom` | `apps/web/src/column-widths.tsx:134-147` | With room to spare every pixel of it is given to the other columns |
| `ColumnWidths.ShrunkFitsTheRoom` | `apps/web/src/column-widths.tsx:150-170` | Short by no more than the slack, exactly what is short is taken |
| `ColumnWidths.GrownIsFair` | `apps/web/src/column-widths.tsx:134-146` | A column’s extra is within one pixel of its exact share by weight, and never negative |
| `ColumnWidths.ShrunkIsFair` | `apps/web/src/column-widths.tsx:150-169` | What a column gives up is within one pixel of its exact share, and it stays between its tight and its base |
| `ColumnWidths.ByWeightSorted` | `apps/web/src/column-widths.tsx:141-142` | Pixels left over go to the heaviest columns first |
| `ColumnWidths.ByWeightStable` | `apps/web/src/column-widths.tsx:141-142` | Columns of one weight keep the order they are shown in |
| `ColumnWidths.HeaviestGivenFirst` | `apps/web/src/column-widths.tsx:141-146` | No column gets a pixel rounding left over while a heavier one, or one of its weight shown before it, has only its share |
| `ColumnWidths.FirstShownGivesFirst` | `apps/web/src/column-widths.tsx:162-169` | No column gives a pixel more than its share while one shown before it has not, and could |
| `ColumnWidths.WidthsFillTheRoom` | `apps/web/src/column-widths.tsx:92-103` | With a column nobody sized, and room to spare or slack enough, the widths add up to exactly the whole room |
| `ColumnWidths.TooShortKeepsWords` | `apps/web/src/column-widths.tsx:149-161` | Shorter than the slack, every column starts whole and the table is wider than its room by what is missing |
| `ColumnWidths.WidthsOf` | `apps/web/src/column-widths.tsx:104-171` | The function: a width for each column and no other; kept ones the nearest whole pixel within their bounds; an unsized title 240 pixels or more and, beside others, the most that neither the room to spare nor a quarter of the room forbids; the room filled when it can be |
| `ColumnWidths.GiveLeft` | `apps/web/src/column-widths.tsx:141-146` | The loop that gives what is left over ends within one pass of the columns, a pixel each to the first in order |
| `ColumnWidths.TakeLeft` | `apps/web/src/column-widths.tsx:162-169` | The loop that takes what is left ends before a second pass: while any is left, a column not yet come to can give |
| `ColumnWidths.KeptReadsBack` | `apps/web/src/column-widths.tsx:177-194` | Kept widths read back are within bounds, read twice the same, and draw the table as it was |
| `ColumnWidths.FitHolds` | `apps/web/src/column-widths.tsx:206-210` | A fitted column holds the widest of its words unless that is over its most, and is less than a pixel too wide unless at its least |
| `LeaveGuard.RunSound` | `apps/web/src/leave-guard.tsx:34-178` | The invariant of every run of Backs, links, searches, saves and leaves whose steps are in order |
| `LeaveGuard.PromisedExactlyInOrder` | `apps/web/src/leave-guard.tsx:34-178` | From any such state a step leaves the promises kept, however many Backs follow, if and only if it is in order: written in with no Back to leave by under way, nor waiting without a link; left only with no release on its way; leave confirmed with no guard waiting to go on first; “Keep writing” where no entry is put on |
| `LeaveGuard.KeptExactlyInOrder` | `apps/web/src/leave-guard.tsx:34-178` | And the invariant is kept if and only if it is |
| `LeaveGuard.OneGuardWhileUnsaved` | `apps/web/src/leave-guard.tsx:93-157` | The promises, in every run in order: while something is unsaved and not being left the page stands on exactly one guard entry and listens; with nothing unsaved, or leaving, and no release on its way none is at or behind the page |
| `LeaveGuard.BackIsAsked` | `apps/web/src/leave-guard.tsx:119-136` | A Back then is asked about, and the page stays, guarded again |
| `LeaveGuard.LeftOnlyWhenSaid` | `apps/web/src/leave-guard.tsx:93-178` | What is unsaved is left only after leaving was confirmed |
| `LeaveGuard.LeaveLeaves` | `apps/web/src/leave-guard.tsx:170-177` | A confirmed leave follows its link, or goes back behind the page, with the guard’s entry gone from the history |
| `LeaveGuardSteps.EveryStep` | `apps/web/src/leave-guard.tsx:29-178` | What is done at a guarded page at once: a link or a leave asked about and nothing else while there is something unsaved or anybody to ask, followed with the guard undone otherwise; a Back asked about with the guard put on again; leaving and staying each with the history as it is to be |
| `LeaveGuard.KeptWritingAfterASave` | `apps/web/src/leave-guard.tsx:160-164` | Found, from any beginning: “Keep writing” pressed once the note was saved meanwhile leaves a stray entry |
| `LeaveGuard.FollowedWhileReleasing` | `apps/web/src/leave-guard.tsx:55-79` | Found, from any beginning: a link followed while the guard’s entry is on its way off is undone by that Back |
| `LeaveGuard.SearchedWhileReleasing` | `apps/web/src/leave-guard.tsx:29-37` | Found, from any beginning: a search made once leaving was confirmed is asked of nobody, and goes while the entry is on its way off |
| `LeaveGuard.WrittenWhileLeaving` | `apps/web/src/leave-guard.tsx:119-145` | Found, from any beginning: written in again while a leave’s Back is on its way, the page is left unasked |
| `LeaveGuard.LeftBehindTheGuard` | `apps/web/src/leave-guard.tsx:137-145` | Found, from any beginning: a leave that waits behind a guard being put on again leaves that entry behind |
| `LeaveGuarding.Guarding.Resume` | `apps/web/src/leave-guard.tsx:65-72` | The loop: whatever waited for the release goes on in the order it waited |
| `LeaveGuarding.Guarding.Popped` | `apps/web/src/leave-guard.tsx:65-72` | A Back made: the guard’s listener, then the release’s, then the page shown |
| `LeaveGuarding.Guarding.Confirm` | `apps/web/src/leave-guard.tsx:170-177` | Leave: the entry off first, then away |
| `LeaveGuarding.Guarding.LeaveThen` | `apps/web/src/leave-guard.tsx:29-37` | Asked about while there is anybody to ask, and done otherwise |
| `LogRedaction.MatchIsAddress` | `apps/api/src/log-redaction.ts:79-84` | Whatever the expression matches is a name, an @ and a domain whose last part starts with a letter |
| `LogRedaction.AddressIsMatched` | `apps/api/src/log-redaction.ts:79-84` | Where such a text begins it matches, and the longest there is |
| `LogRedaction.ScrubLeavesNoAddress` | `apps/api/src/log-redaction.ts:97-98` | Scrubbed, no part of a text is an address |
| `LogRedaction.ScrubTwice` | `apps/api/src/log-redaction.ts:97-98` | Scrubbing is idempotent, and changes a text if and only if it holds an address |
| `LogRedaction.ScrubCutsAddresses` | `apps/api/src/log-redaction.ts:97-98` | A text is scrubbed of addresses, each put as the mark in its place, and of nothing else |
| `LogRedaction.ErrorKeepsNoAddress` | `apps/api/src/log-redaction.ts:86-108` | A logged error has no address in its message or stack, which are as they were if they held none; its kind, and of its fields only the seven named, are as they were |
| `LogRedaction.KeptIsWhole` | `apps/api/src/log-redaction.ts:31-42` | A name is kept if and only if it is the whole segment |
| `LogRedaction.CutIs` | `apps/api/src/log-redaction.ts:33-46` | A route’s segment is cut if and only if it is neither empty nor a kept name; the rest of the path is as it was |
| `LogRedaction.SecretsAreOneLine` | `apps/api/src/log-redaction.ts:48-53` | URLs that differ only in a secret segment are one line, with a query or without |
| `LogRedaction.LoggedOnce` | `apps/api/src/log-redaction.ts:48-53` | A logged URL logged again is the same, with nothing after its first ? but the mark |
| `LogRedaction.QueriesAreOneLine` | `apps/api/src/log-redaction.ts:48-53` | URLs that differ only in their query are one line |
| `LogRedaction.LeftAsItIs` | `apps/api/src/log-redaction.ts:48-53` | A path is logged as it is if and only if there is nothing to cut in it, or it is cut already |
| `AcceptReady.TurnsFit` | `apps/web/src/batch-review.tsx:76-80` | Every turn but the last is full, none empty, none over its size |
| `AcceptReady.TurnsAreAll` | `apps/web/src/batch-review.tsx:76-80` | The turns one after another are the ids |
| `AcceptReady.SentIsAPrefix` | `apps/web/src/batch-review.tsx:459-488` | What is sent is a prefix of the ids shown, in order, at most ACCEPT_READY_MAX a turn |
| `AcceptReady.StopsAtTheFirst` | `apps/web/src/batch-review.tsx:459-488` | The turns sent are every one up to the first not answered or that failed in part, that one, and none after it |
| `AcceptReady.SendTurns` | `apps/web/src/batch-review.tsx:450-488` | The loop sends turns up to the first that is not answered, or that failed with more to send; what was done is what the answers before say, with the earliest deadline |
| `AcceptReady.AllAccepted` | `apps/web/src/batch-review.tsx:475-480` | All accepted is the answers’ accepted, in order, and the deadline the earliest of theirs |
| `AcceptReady.AcceptSays` | `apps/web/src/batch-review.tsx:489-516` | An Accept leaves an Undo, while there is anything to undo, of what came before in the batch and may still be undone, then of what it accepted; and says why its rest were not sent |
| `AcceptReady.UndoNamesTheLast` | `apps/web/src/batch-review.tsx:496-553` | After any run of Accepts, Undos and dismissals, an Undo there is names exactly what was accepted since it began, in order, of one batch, until the earliest of their deadlines; and it began where there was none, or one of another batch, or one with something past its deadline |
| `AcceptReady.UndoBeganOnce` | `apps/web/src/batch-review.tsx:496-515` | Where it began is one place only: from it all accepted since have joined, and nothing before it could |
| `AcceptReady.EarlierIsNamed` | `apps/web/src/batch-review.tsx:496-515` | What was accepted earlier, nothing since against its being undone, is named if and only if what it joined at first is still joined to all since |
| `AcceptReady.LetGoTogether` | `apps/web/src/batch-review.tsx:496-515` | Found: of three Accepts the second’s items, still to be undone, are not named once the first’s deadline is past |
| `AcceptReady.UndoTurns` | `apps/web/src/batch-review.tsx:522-546` | Undo is sent in turns of BATCH_MAX_FILES, all of it if every turn is answered; else Undo is there to try again |
| `AcceptReady.UndoneIs` | `apps/web/src/batch-review.tsx:522-546` | All answered, nothing is left to undo; else the toast is as it was, to be tried again, or busy still with nobody signed in |
| `SettingsChecks.NeverTooMany` | `apps/api/src/settings-checks.ts:74-99` | In every one-minute window a household asks at most SETTINGS_CHECKS_PER_MINUTE, and unanswered tests of one kind are never closer than the hold, over every run |
| `SettingsChecks.RefusedWhen` | `apps/api/src/settings-checks.ts:73-99` | After any run a question is refused just as if no row were ever cleared: not an owner’s; else 20 of the household’s, of all ever asked, within the minute; else a test of the mailbox asked within half a minute, or of the local AI within one, that no answer came to |
| `SettingsChecks.AskAdds` | `apps/api/src/settings-checks.ts:99-104` | Asked and not refused, a row of its own is added, waiting, after all there were; refused, nothing changes |
| `SettingsChecks.FoundLeaves` | `apps/worker/src/jobs/settings-check.ts:190-203` | An answer leaves the rows asked within a day of it, and no others; its own answered, if it was not, and the rest as they were |
| `SettingsChecks.ViewTells` | `apps/api/src/settings-checks.ts:136-186` | In any run a look at a check says done if and only if an answer came to it, else late if and only if it was asked more than a minute ago |
| `SettingsChecks.ViewOnlyGoesOn` | `apps/api/src/settings-checks.ts:136-186` | Looked at twice in any run a check has only gone on from waiting to late to done, and a result never changes |
| `SettingsCheckServices.SettingsCheckService.Ask` | `apps/api/src/settings-checks.ts:68-107` | A question adds one row, or is refused for the reason given, in that order |
| `SettingsCheckServices.SettingsCheckService.Get` | `apps/api/src/settings-checks.ts:110-134` | An owner sees one of the household’s checks as it is; nobody else sees any |
| `Details.NumberReadsBack` | `apps/web/src/details.tsx:64-72` | A number printed for the card reads back as itself if and only if it is written without an exponent |
| `Details.MoneyReadsBack` | `apps/web/src/details.tsx:62-72` | An amount of at most two decimals printed for the card reads back as itself, unless it is whole and of 22 digits or more |
| `Details.CommasGroupThousands` | `apps/web/src/details.tsx:90-95` | In an accepted text every comma has a digit before it, three after it, and a whole number of threes up to the point |
| `Details.CommasAreOnlyThousands` | `apps/web/src/details.tsx:122-145` | A text with commas is read as the number its groups are, each counting a thousand times the next, with its decimals after it |
| `DetailsReading.NumberReadExactly` | `apps/web/src/details.tsx:122-133` | A number is read if and only if something is typed, its commas group thousands, and without them and its spaces it is a sign or none, digits and a point, a digit somewhere; nothing typed is no refusal |
| `DetailsReading.AmountReadExactly` | `apps/web/src/details.tsx:134-145` | And an amount, its marks aside: a minus or none, digits, and after a point one or two |
| `DetailsReading.ThousandsExactly` | `apps/web/src/details.tsx:90-95` | Commas group thousands if and only if the text is a sign or none, one to three digits, groups of three each after a comma, and a point and digits or none |
| `DetailsReading.PlainReadExactly` | `apps/web/src/details.tsx:128-132` | What has a number’s form is read with the value of its digits, its point where it is typed |
| `DetailsReading.SpacesDoNotMatter` | `apps/web/src/details.tsx:123-135` | A space anywhere in what is typed changes nothing of what is read |
| `DetailsReading.MarksDoNotMatter` | `apps/web/src/details.tsx:135-135` | Nor does a mark of money in an amount |

## Left out

- Rendering, focus, words said, styling and every screen's markup.
- Requests, storage and the database themselves: a server is the state it holds and the steps it may take.
- Alphabets: `Text.Upper` capitalises the letters A to Z, enough for country codes; no other case mapping is modelled.
- The identity editor is shown both parts and may write both; an editor of one part makes a plan's steps for that part alone.
- The filling of identity entries from documents (`suggestionsFrom`), the numbering of like entries (`idSuffixes`), and the reading again after a conflict, which starts a new draft.
- EditKept: a save not confirmed part of the way (`Form.Save` has it) leaves the form behind the vault, which refuses its next write of that part as stale; runs have the saves that are refused, and the record read again.
- MaskedValueOverRuns: speaks of values masked when the record was read; one the vault no longer has when it is asked for is not masked from then on.
- SurvivesUnlessSwapped: is of the first save of a record with one id in both parts; `CopySurvives` is of any, copy by copy.
- The audit log, sealing, size limits and link checks of an identity write: whether they refuse it is a parameter of each step.
- An upload's progress, words and folders, and how often the shell counts: nothing else depends on them.
- SHA-256 is taken as telling bytes apart; an item's `content` stands for both. Items removed from a batch while it is sent to are not modelled.
- Loops with an await in them are cut there: the uploader's and the note's retry are methods for each stretch, their counters kept in the state.
- A note's ETag is its place among the document's versions: two changes within one millisecond, which the vault's own ETag cannot tell apart, are not modelled; nor is the length limit, nor who last changed a note.
- A draft's JSON is taken to read back as written; household and person identifiers hold no dot.
- Column widths are in exact integers, the room and kept widths in exact reals; columns shown are distinct, as their table makes them. `max` binds only widths a person set.
- The leave guard's one-second fallback, Forward, and links within the page; a Back goes one entry, and the page behind is another page. What `leaveThen` does is taken as going to another page, and what it calls when the person stays as nothing.
- The rest of an error's fields are kept as they are, as the code does; a thrown value that is no error is not modelled.
- Undo pressed while an Accept all Ready is on its way, or another Undo, and what the vault does with each id.
- Which settings checks the worker answers, and with what: its answer is a parameter.
- Numbers are decimals printed by the rules of ECMAScript's Number-to-string; values that need more digits than a double has are not told apart from those it rounds them to. Dates, years and choices on a card, and `checkDetail`, which every number read here passes.
