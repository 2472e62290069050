# exe-hub, verified

exe-hub is a small federated social feed. A hub keeps an append-only log of signed
messages, materialises it into tables, pulls the logs of the hubs it trusts, and works
through lists of owed work in the background. This project models those parts and proves
what they keep over every run.

`dafny verify dfyconfig.toml` checks all of it.

## How it is laid out

Meaning first, then the code as it runs. Each operation is defined once as a function on
values; laws over whole runs are proved about those functions; and the source's own
stateful code (classes, loops, in-place updates) is written as classes and methods whose
`ensures` equate the new state with the function, or with a run of a state machine's moves.

| part | modules |
|---|---|
| messages, tables, one operation at a time | `Messages`, `Derive`, `Named`, `Files`, `Words`, `Hub` |
| the store as it runs | `Store` |
| laws of the store over every run | `ReplayLaws`, `Ledger`, `WordLaws`, `FileLaws`, `Threads`, `ThreadRuns`, `PinLaws`, `PinRuns`, `PinLoss`, `BoxMarks`, `Revisions` |
| hubs pulling each other | `Replica`, `Pending`, `Puller` |
| workers | `Drain`, `Archiver` |
| what pages and uploads rest on | `Punct`, `Paging`, `Flatten`, `SearchMarks`, `Drafts`, `Base58`, `Units`, `Sums` |

A message is one already parsed and verified; its id is an abstract number, ordered as its
hex text is. Ids are hashes, so an id names one envelope (`Replica` takes that as a function
from ids to envelopes) and no chain of replies returns to where it began (`Flatten` takes
that as a rank). A transaction that fails is a step that changes nothing. Clocks, answers
of other services and the interleaving of what runs at once are inputs, free unless a
property says otherwise.

## Where comments promise more than the code keeps

The model follows the code.

- `internal/store/store.go:555-558` says a replay lands on the live pin totals. A row whose
  count was right comes through with that count exactly when the log's references to the file
  never fell back to nought and no card or picture row of a missing post names it
  (`PinRuns.RebuildAgainstLive`); on any store at all `PinRuns.RebuildPins` says which rows
  survive and with what count. `PinLoss.RebuildLosesALivePin` is a run where a link card's
  picture loses its pin row while the card still holds it. A card may land after its post was
  deleted; `PinLoss.OrphanLosesAPin` and `PinLoss.OrphanFallsShort` are runs where that costs
  a photo other posts show its row, or a reference.
- `internal/lang/worker.go:114-116` and `:160-161` bound by n how many pieces are begun past
  the one that ends a pass. Only what is in flight is bounded. On a page of k pieces the bound
  holds, whatever happens, exactly when n is one or k is at most n + 1 (`Drain.PastTheEndIff`),
  and for a pass that misses end, at most n and the misses still wanting
  (`Drain.PastTheMissesIff`). On the first page of a pass, with the translator's page of four,
  that is every n but two (`Drain.FirstPagesHoldIff`).
- A pin's count equals its references all through a run exactly when no step of it makes a row
  over references already there, but by adopting it, and no rebuild that keeps the row finds a
  card or picture row naming the file for a deleted post (`PinRuns.RefsExactIff`;
  `PinLaws.FreshRowIsExactIff` says which row-making steps fall short).
  `PinLoss.UploadFallsShort` is a run where the sweep of staged uploads takes a file a post
  names.

## Model

| member | source | states |
|---|---|---|
| `ReplayLaws.ReplayRefinesLive` | internal/store/store.go:549-558 | after any run of accepted and refused messages, file and word writes and rebuilds, Rebuild succeeds and all nine derived tables, activity and last_reply included, are as they stood live |
| `ReplayLaws.RebuildKeeps` | internal/store/store.go:918-999 | on a store whose tables are its log's, Rebuild never fails and leaves tables and log alone |
| `ReplayLaws.IngestKeeps` | internal/store/store.go:461-528 | an accepted message leaves the tables equal to the grown log replayed, every held post logged, no id logged twice |
| `ReplayLaws.ReplayTakesTheSame` | internal/store/store.go:549-559 | what a live message did to the tables is what replaying it does: replay only relaxes refusals |
| `ReplayLaws.TouchReplays` | internal/store/store.go:549-559 | pins that are gone never stop a replay |
| `Ledger.TakenIff` | internal/store/store.go:461-528 | over a store derived from its log, a message is accepted if and only if its id is not in the log, its number was not used from the same origin, a delete or mark is its post's author's while the post stands, and, sent here, its number is past all the author's, a bookmarked post stands and the pins let it in |
| `Ledger.WhyRefused` | internal/store/store.go:473-492 | which refusals mean which: a copy, an old number, no such post, another's post, each exactly when, in that order |
| `FileLaws.PinsLetIn` | internal/store/store.go:567-580 | a message sent here passes the pin checks if and only if every embed and poster is pinned, an embed of measured media leaves the facts out or repeats them, and an avatar is the one held or a pin minted as one |
| `Ledger.ProfileIsLastSet` | internal/store/store.go:562-593 | a profile shows name, bio, avatar and arrival of the last profile.set by its fingerprint in the log, key and arrival of the first |
| `Ledger.PostIsItsCreate` | internal/store/store.go:596-600 | a held post has author, text, parent, time, arrival and embeds of its own post.create in the log |
| `Ledger.HeldIffNotDeleted` | internal/store/store.go:654-680 | a created post is held if and only if the log has no delete of it |
| `Ledger.OwnersAct` | internal/store/store.go:654-667 | every delete and mark in the log follows the create of its post, by the same fingerprint |
| `Ledger.BanIsLastSet` | internal/store/store.go:834-841 | a ban stands if and only if the last word on its target sets it, with that message's reason, admin and time |
| `Ledger.InviteIsLastSet` | internal/store/store.go:842-851 | the same of an invite's note, admin and time |
| `Ledger.InviteIsForFirst` | internal/store/store.go:842-848 | whom an invite is for is what the first set since it was last lifted named, whatever the sets after it say |
| `Ledger.PeerIsLastAdded` | internal/store/store.go:852-859 | a peer is held, at the address last given, if and only if the last word on it adds it |
| `Ledger.BookmarkIsLastSet` | internal/store/store.go:815-833 | a bookmark stands, dated by its arrival, if and only if the last of its author's words on the post and the post's delete set it while the post was held |
| `Ledger.SilentIsNone` | internal/store/store.go:559-866 | no profile, ban, invite, peer or bookmark stands that no message speaks of |
| `Ledger.AllOfHeld` | internal/store/store.go:681-700 | marks and bookmarks are of held posts |
| `Ledger.SeqIsHighest` | internal/store/store.go:515-520 | an author's number is at least every number of the author in the log and is one of them |
| `Ledger.NumbersRise` | internal/store/store.go:479-492 | over any run a message sent here has a number past all its author's before it, and no origin gives an author's number twice |
| `Ledger.PeerStateStays` | internal/store/store.go:855-863 | the cursors saved for a peer stay until saved anew, the peer is removed or the tables are rebuilt |
| `WordLaws.StandsAsWritten` | internal/store/store.go:986-998 | a language, translation or summary row of held posts stays word for word through any run that does not write or drop it or delete a post it is about |
| `WordLaws.WrittenIffAllowed` | internal/store/summary.go:81-132 | a language, translation or summary is written if and only if its post is here, a row to set right is kept, a summary's root is one with every cited reply below it, a translated summary's original is kept, and a peer's is newer than what is kept; else its row stays as it was |
| `WordLaws.RebuildLeaves` | internal/store/store.go:986-998 | a rebuild keeps every such row of held posts |
| `WordLaws.TranslationIsRead` | internal/store/store.go:1856-1882 | a translation kept here is read later in its words, by its model, as the hub's own, under a number past all given; one that failed has no words |
| `WordLaws.AcceptedIsRead` | internal/store/store.go:1985-2003 | a peer's translation taken is read as the peer made and dated it, under no number |
| `WordLaws.RewrittenIsRead` | internal/store/store.go:2110-2140 | one set right is read in the new words, by the model that made it; the hub's own under a new number and date, a peer's under the old |
| `WordLaws.LangIsRead` | internal/store/store.go:1764-1776 | a post is read as in the language found last, or in none when that failed |
| `WordLaws.SummaryIsRead` | internal/store/summary.go:81-132 | a summary kept while root and cited replies stand is read as kept until one of them goes |
| `WordLaws.SummaryTranslationIsRead` | internal/store/summary.go:264-319 | the same of a summary's translation, kept beside its original |
| `WordLaws.AcceptedSummaryIsRead` | internal/store/summary.go:346-367 | a peer's summary that is taken is read as the peer made it |
| `WordLaws.SaidOfHeld` | internal/store/store.go:986-998 | over any run languages, translations and summaries are of held posts |
| `WordLaws.DeletedIsUncited` | internal/store/store.go:745-759 | a deleted reply whose root is found is cited by no summary of its thread |
| `WordLaws.TranslationsAreDropped` | internal/store/store.go:2156-2168 | exactly the translations asked for go |
| `WordLaws.SummariesAreDropped` | internal/store/summary.go:186-198 | exactly the named step, or the newest, goes, in every language |
| `WordLaws.TriesAreCounted` | internal/store/store.go:1856-1882 | a try that reaches its row adds one to its tries, and nothing else adds any |
| `FileLaws.PinIsAsMade` | internal/store/store.go:2872-2884 | in every reachable store a pin has the size, type and date of the step that made its row, is an avatar if and only if a step since flagged it, and was measured as the last to measure it did |
| `FileLaws.SweptIffOld` | internal/store/store.go:3004-3019 | the sweep takes a file if and only if its count is nought and the step that made its row is older than the cutoff |
| `FileLaws.CardIsRead` | internal/store/store.go:1427-1463 | a post's card is read as last fetched, or as the bare link when that failed, through any run until it is set anew or the post goes |
| `FileLaws.PictureIsRead` | internal/store/store.go:1595-1627 | the same of a linked picture |
| `FileLaws.RebuildLeavesSide` | internal/store/store.go:969-985 | a rebuild keeps the card and pictures of a held post |
| `Threads.CreateKeeps` | internal/store/store.go:596-627 | a new post, bumping the root its walk finds, keeps activity above every reply below, last_reply held, and no two alike |
| `Threads.DeleteKeeps` | internal/store/store.go:760-790 | a delete anywhere in a thread, pointing back the one thread it was newest of, keeps the same |
| `Threads.WalkFinds` | internal/store/store.go:605-626 | the forty-step walk, when it ends in time, finds the root above exactly when the chain up is unbroken |
| `Threads.WalkStops` | internal/store/store.go:605-620 | a walk that does not end in time is at the post exactly forty steps up |
| `Threads.RootIsAbove` | internal/store/store.go:534-547 | a root is found for a post if and only if it is held, replies to nothing, and is an unbroken chain above within the levels looked |
| `Threads.DeleteNamesNewest` | internal/store/store.go:760-788 | a thread whose named reply is deleted then names the newest left anywhere below, by (received, id), and has its arrival as activity; with nothing left below it names none and has its root's |
| `ThreadRuns.ThreadsHold` | internal/store/store.go:530-547 | over any run with a clock that never goes back and chains within the walk: activity of a root is at least the arrival of every reply reachable below it, every last_reply names a held post, no two posts share one, and a post's activity is exactly the arrival of the reply its last_reply names, or its own when it names none, whatever order replies came and posts went |
| `PinLaws.MessageMoves` | internal/store/store.go:562-790 | a message keeps a CID's count within its references, exact when it was, and unpins only what nothing refers to |
| `PinLaws.FileStepMoves` | internal/store/store.go:1427-1463 | cards, pictures, uploads, adoption, sweeps and archive writes keep counts within the references, and exact unless a row is made over references |
| `PinLaws.FreshRowIsExactIff` | internal/store/store.go:2885-2888 | a row made by anything but AdoptPin is exact if and only if nothing named the CID before |
| `PinLaws.FileStepExactIff` | internal/store/store.go:2885-2915 | from an exact count, a file write keeps the CID exact if and only if it makes no row for it over references |
| `PinRuns.RefsWithin` | internal/store/store.go:895-912 | in every reachable store every refs is at least 0 and at most the references there are |
| `PinRuns.RefsExactIff` | internal/store/store.go:2885-2915 | refs equals the references after every step of a run if and only if no step makes a row over references (AdoptPin apart) and every rebuild either loses the row or finds no card or picture row naming the CID for a post the log deletes |
| `PinRuns.NothingReferencedIsTaken` | internal/store/store.go:895-912 | in every reachable store where the CID's refs equals its references, neither a message, a new card or picture, nor SweepStaged lets go of it while it is still referenced |
| `PinRuns.RebuildPins` | internal/store/store.go:918-987 | on every store derived from its log: a pin row survives Rebuild exactly when no message takes the log's count of it, less what card and picture rows name for posts deleted so far, to nought; its refs is then its references less what those rows named |
| `PinRuns.RebuildIsExactIff` | internal/store/store.go:969-985 | on every such store the counts Rebuild leaves are the references exactly when the row is lost or no card or picture row named the CID for a post the log deletes |
| `PinRuns.RebuildAgainstLive` | internal/store/store.go:555-558 | an exact live count is kept by Rebuild if and only if the log's count never returned to zero and no card or picture row of a missing post names the CID |
| `PinRuns.RebuildWithin` | internal/store/store.go:966-987 | even with rows for missing posts Rebuild counts no more than the references |
| `PinRuns.DeletedStaysDeleted` | internal/store/store.go:671-680 | a post the log deletes is not held afterwards, so nothing kept for held posts is lost in a replay |
| `PinLoss.RebuildLosesALivePin` | internal/store/store.go:555-558 | a five-step run after which Rebuild drops a pin row with a live reference |
| `PinLoss.OrphanLosesAPin` | internal/store/store.go:969-985 | a five-step run, a card landing after its post's delete, after which Rebuild drops the row of a photo another post shows, though the log's count never fell back to zero |
| `PinLoss.OrphanFallsShort` | internal/store/store.go:969-985 | the same with the photo shown twice: Rebuild leaves one reference beside two |
| `PinLoss.UploadFallsShort` | internal/store/store.go:2885-2888 | a two-step run after which the sweep takes a pin that a post names |
| `BoxMarks.BoxHoldsNewest` | internal/store/store.go:803-811 | a held post's box holds the greatest (ts, id) of all the marks of it in the log, and no mark when there is none |
| `BoxMarks.HubsAgree` | internal/store/store.go:115-125 | two hubs that took the same marks, in any orders with anything between, show the same boxes |
| `Revisions.NothingBehindAReader` | internal/store/store.go:1946-1966 | over any interleaving with a peer paging, stopping and starting over: own kept rows of both tables carry distinct numbers, and each at or below the peer's cursor was offered to it with its current words and time |
| `Revisions.OnlyOwnIsOffered` | internal/store/store.go:1946-1966 | over the same runs, whatever a peer was served was at the time this hub's own, kept, word for word: never a failed row or another peer's |
| `Revisions.RevisionsNeverComeAgain` | internal/store/store.go:1884-1897 | a number is never given twice, whatever rows were dropped since |
| `Revisions.PageComplete` | internal/store/summary.go:324-340 | a page by revision skips no row between its start and the cursor it returns |
| `Revisions.PageInOrder` | internal/store/store.go:1950-1966 | a page reads past its start in the order of the numbers |
| `Revisions.PageIsFull` | internal/store/store.go:1950-1966 | a page has as many rows as asked for, or every own kept row past its start |
| `Revisions.SummaryStepGood` | internal/store/summary.go:81-132 | keeping, failing, translating, taking and dropping summaries draw from the translations' counter without reusing a number |
| `Store.Store.Ingest` | internal/store/store.go:461-528 | all of a message or nothing: the new state, the refusal and the CIDs to unpin are those of the one-operation model, and a refusal rolls everything back |
| `Store.Store.Apply` | internal/store/store.go:559-866 | every op updates exactly the tables of the one-operation model, whose rows `Ledger.ProfileIsLastSet`, `Ledger.PostIsItsCreate` and their like pin to the log |
| `Store.Store.Rebuild` | internal/store/store.go:918-999 | clears, replays and recounts to the model's result, or rolls back |
| `Store.Store.BumpThread` | internal/store/store.go:605-626 | the loop up reply_to touches the root the walk finds, or nothing |
| `Store.Store.FindRoot` | internal/store/store.go:534-547 | the root within forty levels, none when the chain is broken or longer |
| `Store.Store.PointBackFrom` | internal/store/store.go:767-788 | the loop leaves the thread as the one-operation model does: naming the newest post left in its whole tree, or itself (`Threads.DeleteNamesNewest`) |
| `Store.Store.SelectTree` | internal/store/store.go:769-774 | the recursive walk down finds exactly what hangs below a post |
| `Store.Store.DropRef` | internal/store/store.go:897-912 | one reference less; the row goes and its CID is queued when none is left |
| `Store.Store.CountEmbeds` | internal/store/store.go:628-652 | embeds and posters counted in order, stopping at the first refusal |
| `Store.Store.ReleaseFiles` | internal/store/store.go:681-738 | a deleted post's embeds, card and pictures give up their references in order |
| `Store.Store.SetCard` | internal/store/store.go:1427-1463 | the old picture released, the new one pinned, archive columns reset, failed cards keeping only their link |
| `Store.Store.SetPicture` | internal/store/store.go:1595-1627 | the row of that url replaced in place or added, copies swapped on the pins |
| `Store.Store.AdoptPin` | internal/store/store.go:2889-2915 | the row starts with every kind of reference it already has, counted |
| `Store.Store.SetTranslation` | internal/store/store.go:1856-1882 | a kept answer takes the next number even when its post is gone and no row is written; a failed one is a try |
| `Store.Store.RewriteTranslation` | internal/store/store.go:2110-2140 | own words renumbered and redated, a peer's set right in place |
| `Store.Store.SetSummary` | internal/store/summary.go:81-132 | written exactly when the root stands and every cited reply still hangs under it |
| `Store.Store.SetSummaryTranslation` | internal/store/summary.go:264-319 | written exactly when the original it translates is still kept |
| `Store.Store.DropSummaries` | internal/store/summary.go:186-198 | every language of the step named, or of the newest one, forgotten |
| `Store.Store.TranslationsPage` | internal/store/store.go:1950-1966 | the page and cursor are the rows past the cursor by number, as they now read |
| `Replica.ReplicaShowsOrigin` | internal/replicate/replicate.go:117-143 | in every reachable world of an origin and a puller, whatever the page sizes, the interleaving, whom the puller bans and lifts and where it stopped: of every author it never banned, posts, embeds, marks and profile are what the origin's log says up to the furthest message it handled, never behind its cursor |
| `Replica.CursorIsExact` | internal/replicate/replicate.go:117-143 | with no page cut short and no cursor lost, that is the saved cursor exactly |
| `Replica.DrainedReplicaIsEqual` | internal/replicate/replicate.go:117-143 | once drained the two hubs show the same of every author never banned, and all the same when nobody was |
| `Replica.SameContent` | internal/store/store.go:559-812 | hubs that show the same of an author take the author's next content message with the same result, whenever each received it and whatever else each holds |
| `Replica.NextIsNew` | internal/store/store.go:473-492 | the next message of the origin is never refused as a duplicate or for a number used twice |
| `Replica.ReplayCursor` | internal/store/store.go:855-863 | replaying a log leaves a peer's cursor where it was or back at the start (a peer.remove in it drops the peer's state), so a rebuild can only make a puller read again |
| `Replica.HandledBefore` | internal/replicate/replicate.go:437-497 | a message of an author never banned, or not content, handled again changes nothing |
| `Replica.NothingOfTheBanned` | internal/replicate/replicate.go:452-456 | over every world, whoever the puller bans and lifts and when: no message it took from the origin is by an author banned in its tables at the time |
| `Puller.Puller.Pull` | internal/replicate/replicate.go:117-143 | the page loop ends at the log's end and is, step for step, a run of the two-hub protocol |
| `Puller.PullCatchesUp` | internal/replicate/replicate.go:117-143 | a pull with nothing in its way ends with the puller showing all the origin shows of every author never banned |
| `Puller.Puller.Handle` | internal/replicate/replicate.go:437-497 | banned authors and anything but content passed over, the rest ingested as the peer's, a post that came settled, the cursor untouched |
| `Puller.Puller.Take` | internal/replicate/replicate.go:310-353 | one offer kept, passed or set aside, with its whole effect on the store and the waiting rows |
| `Puller.Puller.Settle` | internal/replicate/replicate.go:362-391 | after ageing, what waits for the post, or for any post held, is tried newest first, all of it or the newest five hundred, each row tried gone; when fewer waited nothing of it is left waiting |
| `Puller.Puller.WaitingFor` | internal/store/store.go:2035-2057 | the newest rows for a post, or for any held post, in order, complete up to the limit |
| `Pending.SetPendingCaps` | internal/store/store.go:2005-2030 | of a peer's rows past the cap exactly the cap's worth stay, each of which has waited less than each that goes; within it none goes; no other peer's rows and no row that stays is changed |
| `Pending.PeersAreCapped` | internal/replicate/replicate.go:297-303 | over every run of offers, settles, ageing and hub steps no peer ever has more than two thousand rows waiting |
| `Pending.NewestIsKept` | internal/replicate/replicate.go:287-391 | for one post and language, whatever the order of offers, arrival and settles, the newest acceptable offer ends as the one kept, once nothing waits and none was evicted or aged |
| `Pending.TakeHere` | internal/replicate/replicate.go:333-352 | an offer for a held post replaces exactly what is missing, failed or older |
| `Pending.KeptIsChecked` | internal/replicate/replicate.go:310-353 | over any run, what is kept from peers is of a held post, set by its language's rule, and passes the check against the post's words |
| `Pending.NotIntoItsOwn` | internal/replicate/replicate.go:333-335 | no offer is kept in the language its post is in |
| `Pending.WaitingIsWellFormed` | internal/replicate/replicate.go:310-328 | over any run only well-formed words wait |
| `Pending.WaitsOn` | internal/replicate/replicate.go:355-391 | a waiting row goes if and only if it was seen before the age kept or is tried with its post here, a full peer's rows apart, which one more can put out; till then it waits since first seen, with the latest words its peer gave |
| `Pending.StartsToWait` | internal/store/store.go:2005-2030 | an offer for a post that is not here waits as it came, unless its peer has its two thousand |
| `Drain.PassIsSound` | internal/lang/worker.go:89-195 | over any interleaving: at most n begun and not landed, and none once the pass has ended; outcomes judged in list order; false exactly when the last three judged were no answer, true only when a list failed, the store failed the last judged, or nothing owed is left that was not stepped over |
| `Drain.EveryPassEnds` | internal/lang/worker.go:117-195 | with finitely many arrivals and each written outcome settling a piece or spending a try, no pass goes on for ever |
| `Drain.NeverStuck` | internal/lang/worker.go:157-195 | until a pass ends the store's answer, a piece in flight or the pass itself has a move |
| `Drain.NothingNew` | internal/lang/worker.go:121-135 | a page longer than the step-over set with nothing new on it is everything owed |
| `Drain.ThreeMisses` | internal/lang/worker.go:138-151 | the missed counter reaches three exactly when the last three judged were no answer |
| `Drain.PastTheEndIff` | internal/lang/worker.go:160-161 | on any page just listed, at most n pieces are begun past the one that ends the pass in every run if and only if n is at most one or the page has at most n + 1 pieces |
| `Drain.PastTheMissesIff` | internal/lang/worker.go:112-116 | the same of a pass that misses end: if and only if n is at most one or the page has at most n and the misses still wanting when it was listed |
| `Drain.PastIsBounded` | internal/lang/worker.go:157-192 | in every run on a page none is begun past the end one at a time, and else all but one of the page at most, or all but the misses still wanting |
| `Drain.FirstPagesHoldIff` | internal/lang/worker.go:334 | every first page of a pass keeps the bound if and only if n is at most one or the page size at most n + 1 |
| `Drain.Drain` | internal/lang/worker.go:104-156 | one at a time the pass ends; false exactly after three misses; true only when it is dry, with an unanswered try against everything owed, or a list or the last write failed |
| `Drain.WorkPage` | internal/lang/worker.go:152-159 | a page's pieces are begun, judged and stepped over one after another, keeping the pass's invariant |
| `Archiver.OneRoundEach` | internal/card/archive.go:196-212 | at most one round per post is on a timer, queued or running, and busy says exactly which |
| `Archiver.RoundsAreBounded` | internal/card/archive.go:289-337 | a round makes at most one lookup more than the retries, one save and the polls |
| `Archiver.CallsRunOut` | internal/card/archive.go:289-337 | from any reachable state, for as long as a post stays busy its round makes no more calls than it had left: the retries, two and the polls in all |
| `Archiver.EveryRoundEnds` | internal/card/archive.go:196-200 | in every endless run in which time passes, due timers get their job queued and the goroutine and the service go on, busy is cleared of every post in it |
| `Archiver.NeverLost` | internal/card/archive.go:339-342 | a busy post's round is waiting, queued or running: it is never dropped without clearing busy |
| `Archiver.CallsArePolite` | internal/card/archive.go:344-365 | calls start at least a gap apart and none within the quiet after a 429 |
| `Archiver.RowsAreBegunThrice` | internal/store/store.go:1673-1686 | a card's row is begun at most three times, over an hour apart, until it is written anew |
| `Archiver.RoundEndsSo` | internal/card/archive.go:289-337 | a round ends only with a copy on the card, its one save refused, lost or asked about as often as it may be: a link with no copy is saved first |
| `Archiver.RoundGoesOnSo` | internal/card/archive.go:289-337 | a round that goes on does so as told: a failed lookup tried after its next wait until they run out, a link with no copy saved at once, a save asked about after each poll's wait in turn |
| `Archiver.BegunIsOwed` | internal/card/archive.go:273-287 | a round is begun only on a card read well, no post's own, with no copy, none in flight, and looks up that card's link |
| `Archiver.QueueIsCapped` | internal/card/archive.go:235-241 | never more jobs queued than the queue holds |
| `Archiver.Archiver.Step` | internal/card/archive.go:243-254 | a job taken off the queue runs as moves of the state machine |
| `Archiver.Archiver.LookUp` | internal/card/archive.go:289-314 | lookup, retry, fall through to a save: a run of moves |
| `Archiver.Archiver.HearPoll` | internal/card/archive.go:316-337 | what each poll's answer leaves of the round |
| `Archiver.Archiver.BeginRound` | internal/card/archive.go:273-287 | a round opens only when none is in flight and the store opens it |
| `Punct.TidyIsFixed` | internal/lang/punct.go:58-62 | the rule for Chinese, for Japanese and by language is its own fixed point |
| `Punct.TidyKeepsSpans` | internal/lang/punct.go:54-58 | the code spans and links found in the output are those of the input, in order |
| `Punct.TidyKeepsWords` | internal/lang/punct.go:45-57 | spaces apart, nothing changes but marks set wide |
| `Punct.TidyRewrites` | internal/lang/punct.go:45-112 | every character of the output stands, in order, for one of the input: itself, or a half-width mark outside code and links set wide; what has gone is exactly the one free space right after each mark that turned; and a mark of the language is set wide if and only if, no face and outside code and links, its script stands right before it, right after it or after the one space, or it is a comma or semicolon jammed after a span |
| `Punct.CoverStays` | internal/lang/punct.go:68-75 | changing a mark outside every match, and dropping the space after it, moves no match |
| `Punct.UrlTailIsLongest` | internal/card/card.go:36-42 | the link matcher's tail is the longest run of link characters ending as a link may |
| `Punct.SetFullWidth` | internal/lang/punct.go:67-112 | the kept array and the index loop compute the rule |
| `Punct.KeepMatches` | internal/lang/punct.go:68-75 | exactly the characters of the leftmost, non-overlapping matches are marked kept |
| `Punct.CodeIsSpan` | internal/card/card.go:53-62 | a code span starts a text if and only if it opens and closes with a backquote, with neither one nor a line end between |
| `Punct.CoveredIsMatched` | internal/lang/punct.go:68-75 | a character is kept only inside a match, and none starts where none is kept |
| `Paging.NextVisitsAll` | internal/api/web.go:1228-1235 | following Next from the first page visits every post exactly once, newest first |
| `Paging.PrevIsThePageBefore` | internal/api/web.go:1206-1224 | Prev from any page past the second lands on exactly the page before |
| `Paging.PrevFromSecondIsHome` | internal/api/web.go:1196-1216 | Prev from the second page is the redirect home |
| `Paging.PrevComesBack` | internal/api/web.go:1206-1224 | Next after Prev returns to where one was |
| `Paging.CursorSplits` | internal/store/store.go:2217-2272 | the two keyset queries answer exactly what stands before and after the cursor in the one order |
| `Paging.WebPageOf` | internal/api/web.go:1203-1242 | the page as built, reversal loop included, is the page specified |
| `Flatten.ThreadIsPermutation` | internal/store/store.go:2692-2702 | the output is the fetched replies, each exactly once |
| `Flatten.SubtreesAreContiguous` | internal/store/store.go:2692-2695 | a placed reply is followed at once by its whole subtree in one piece |
| `Flatten.ReadsInOrder` | internal/store/store.go:2692-2746 | over positions in the output: a placed reply comes before the replies to it, and of two replies to one post the one received earlier, by id when at once, comes first |
| `Flatten.NoLimitLeavesNone` | internal/store/store.go:2695-2701 | with no limit nothing is left over and Depth is the length of the reply chain to the root |
| `Flatten.LayOut` | internal/store/store.go:2725-2746 | the kids map, the recursive walk and the leftovers compute that layout |
| `SearchMarks.WrittenIsRight` | internal/api/web.go:963-976 | dropping the mark tags gives back the text, and a character is marked exactly when it lies in an occurrence of some query word, A to Z read as small |
| `SearchMarks.MarksAreHits` | internal/api/web.go:1012-1041 | marks are disjoint, ordered, never touch and cover exactly the hits |
| `SearchMarks.WriteMarked` | internal/api/web.go:1006-1043 | the search, sort and merge loops compute those marks |
| `Drafts.AlwaysInBudget` | internal/api/draft.go:26-32 | over any run what is held stays within the total cap and each address within its count and byte caps |
| `Drafts.AtMostPerMinute` | internal/api/draft.go:80-96 | any window of a minute grants an address at most 24 requests |
| `Drafts.WaitIsEnough` | internal/api/draft.go:80-96 | a caller that waits the seconds answered (Retry-After, section 10.2.3 of RFC 9110) and asks nothing meanwhile is granted |
| `Drafts.WaitIsNoLonger` | internal/api/draft.go:80-96 | told to wait w seconds, a caller that comes back before w - 1 of them are over is refused again |
| `Drafts.GrantedIffBelowRate` | internal/api/draft.go:80-96 | over any run a request is granted if and only if fewer than 24 of the address's were granted within the last minute |
| `Drafts.PutIsAnswered` | internal/api/draft.go:102-145 | a file put is answered as sent for ten minutes, whatever else happens, unless dropped |
| `Drafts.RefusedIffOver` | internal/api/draft.go:111-123 | a new file is refused if and only if with it the budget would be broken |
| `Drafts.NeverLapsed` | internal/api/draft.go:139-145 | a lapsed draft is never answered, a live one always is |
| `Drafts.Drafts.Put` | internal/api/draft.go:102-137 | the budget is asked and charged as specified, and bytes stays the sum of the bodies |
| `Drafts.Drafts.Allow` | internal/api/draft.go:82-96 | the request is counted or told how long to wait |
| `Drafts.Drafts.Sweep` | internal/api/draft.go:61-78 | exactly what lapsed goes, bytes with it, and each address's requests over a minute old |
| `Drafts.Drafts.Get` | internal/api/draft.go:140-145 | what is answered is live |
| `Drafts.Drafts.Drop` | internal/api/draft.go:147-154 | one draft less and its bytes with it |
| `Base58.DecodeOfEncode` | internal/gate/gate.go:229-248 | a decoder restores the bytes and their leading zeros |
| `Base58.EncodeOfDecode` | internal/gate/gate.go:229-248 | every text in the alphabet is the text of one key |
| `Base58.EncodeIsInjective` | internal/gate/gate.go:231-248 | no two keys print alike |
| `Base58.Print` | internal/gate/gate.go:232-248 | dividing down and prepending computes it |
| `Units.ReadsBack` | internal/api/api.go:1224-1248 | dropping the commas, refilling the fraction and joining gives back the raw amount |
| `Units.PrintsWell` | internal/api/api.go:1224-1248 | every comma group is three digits and no zero ends the fraction |
| `Units.Print` | internal/api/api.go:1228-1248 | the padding, trimming and grouping loops compute it |

## Left out

- HTTP handlers, server-sent events, templates, the desk, push notifications: input and output.
- Signatures, hashes, JSON and base64: a message is already parsed and verified, the well-formedness and length limits of what a peer offers are one predicate of `Pending.Rules`, and lang.Check another.
- The SQL engine: a table is a map, a query a function or a loop over it, a recursive query reachability, a transaction one step; where a query without an order could answer any of several rows (the post whose last_reply is a given one) the model takes the first by id, and `ThreadRuns.ThreadsHold` shows there is at most one.
- IPFS, archive.org, the language model: their answers are chosen freely.
- Store.Store.SetCard: the plays columns of a card row are not modelled.
- Translation notes, push subscriptions and the migration that numbers translations kept before numbers (internal/store/store.go:1902-1944).
- Summaries offered by peers wait and settle in a table of their own (internal/replicate/replicate.go:798-925); only their acceptance, `Words.AcceptSummary`, is modelled.
- Summary citations staying inside the thread: deleting an uncited middle reply detaches its subtree and a later delete inside it finds no root to clean (internal/store/store.go:750-759), so it does not hold in general.
- Mirroring and healing of files in the puller: the pins they make are the AddPin and AdoptPin steps of `Hub.Run`, at any time.
- Punct.TidyIsFixed: text is valid UTF-8; the bytes Go decodes as replacement characters are not modelled. The Unicode script tables are predicates of which it is asked only that the full-width marks belong to none.
- SearchMarks.WrittenIsRight: one text node, unescaped, with the query's words given (none empty); splitting the page at its tags and the query at spaces is not modelled.
- Paging.NextVisitsAll: the feed stands still between pages, and a cursor names a row of the feed.
- Drain.Drain: the pool of n is modelled as a state machine (`Drain.PassIsSound`), not as goroutines; the method is the code's own path for one at a time.
- Archiver.Archiver.Step: what other goroutines do between two lines of Run is in the state machine, not in the method.
- Counting to-do boxes (internal/card/list.go:106-109) against what the page's renderer draws.
- Calls cut off after two minutes (internal/card/archive.go:290): that a call is answered at all is a premise of `Archiver.EveryRoundEnds`.
