# Zumeet matching service: verified model

Zumeet matches tenant profiles with rental listings. Each side expresses interest; when both have, a
match row is made and contacts are shown; a matched tenant books a viewing slot of limited capacity.
This project models the parts of the service whose correctness rests on concurrency, ordering or date
arithmetic, and proves what the service relies on.

Verify with `dafny verify dfyconfig.toml`.

## How the model is built

- `Schema` holds the tables as values, `Handlers` the meaning of each request when it runs alone, and
  `Server` the handlers as methods that update the tables in place, statement by statement, each proved
  equal to its function in `Handlers` and to keep the tables in order (`Upkeep`). `Meanings` says in the
  columns of the rows when each request is accepted, what each refusal means and what changes; `Authority`
  whose rows a request can touch; `Outcomes` what one request undoes, ends, shows or hides, whatever
  requests follow.
- `Protocol` is a machine of interleaved SQL statements for express, withdraw, book, reschedule and
  cancel. A statement sees the committed tables overlaid with its own transaction's writes (read
  committed). Advisory locks are held by hash value, the hash is arbitrary and may collide. Row locks,
  the one-active-viewing unique index, crashes, and edits of profiles, listings, schedules, blocks,
  suspensions, matches and viewings by other handlers may happen between any two statements. A run is
  any sequence of events; an event that cannot happen changes nothing.
- `ProtocolInvariant` and `ProtocolSafety` state and prove the invariant; `ProtocolTheorems`,
  `Deadlock`, `Refinement`, `Scheduling`, `Bookings`, `Collisions`, `Overlap` and `WriteSkew` draw the
  consequences; `Grounds` says what a transaction's own statements had found before its commit. `Races`,
  `Renting`, `Deleting`, `Admin`, `PhotoRace` and `PhotoLimit` show what holds for requests one at a time
  and not under interleaving: at exactly which steps it breaks, with a run for each, put together from the
  steps in `Runs`.
- `Lifecycle` runs whole requests one after another. `Views`, `Browse` and `Paging` are the read side.
- `Slots` is the viewing calculator, `Photos`, `Drag` and `Grouping` the order-sensitive algorithms
  around it, `Refresh` the token refresh shared by browser and server.

Time is integer seconds; Taipei is a fixed offset of +28800; a day is `(t + 28800) / 86400` rounded
down, and its weekday `(day + 4) mod 7`. Ids are numbers; only their order and equality matter. The
clock, the session time zone, the answers of queries with a free row order, and the order in which an
UPDATE visits rows are parameters.

## Where code and comments differ

The model follows the code.

- `apps/api/handler/reports_blocks.go:147` says interests go with the account; the loop compares a
  profile id with a user id (`apps/api/handler/reports_blocks.go:135`). `Handlers.InterestsStandIff` and
  `Handlers.InterestsGoIff` give the exact conditions, `Outcomes.InterestOutlivesAccount` five requests on
  empty tables after which the interest of a deleted account is still there.
- `apps/api/handler/admin.go:402` calls the administrator's deletion of a user the same as the user's own.
  It deletes interests by the profile's owner, leaves viewings alone, and takes no pair lock. The module
  `Admin` gives the exact consequences.
- A match row, once there, is never replaced (`apps/api/handler/interests.go:191-199`), while browsing
  hides only active matches (`apps/api/handler/matching.go:114-119`). So a pair whose match has ended
  can be browsed and answered "matched" again without becoming active: `Browse.BothExpress` gives the
  exact condition, `Browse.EndedMatchIsBrowsed` the four requests that lead there.
- Refresh revokes the old token and inserts the new one in two separate statements
  (`apps/api/handler/auth.go:184-196`). A refresh is answered that its token was revoked exactly when
  another one has spent the token by the time of the lookup (`Refresh.RevokedIffSpent`), which takes a
  rotation that broke off or a response that was lost (`Refresh.SpentMeansFault`). Each fault alone does
  it: `Refresh.BrokenRotation` with every response delivered, `Refresh.LateRevocation` with every rotation
  complete and a token that was still good when its refresh started.
- `README.md:130` promises that contact is never returned before a mutual match, and the schema comment
  at `apps/api/db/schema.sql:248-250` that a viewing opens no new way to it. Both hold:
  `ProtocolTheorems.ListsRespectContact` and `ProtocolTheorems.AnswerRespectsContact`.

## Model

| member | source | states |
|---|---|---|
| ProtocolTheorems.NeverAMissedMatch | apps/api/handler/interests.go:76-220 | In every state of every interleaved run, for every lock hash: both sides interested means exactly one match row for the pair, and an undeleted match row means both sides are interested. |
| ProtocolSafety.Invariant | apps/api/handler/interests.go:85-202 | Every schedule of statements, crashes and outside edits keeps the table invariants (one match per pair, none missed, owners of a pair are the parties of its match and viewings, one active viewing per match, capacity) and what each transaction in flight has established. |
| ProtocolInvariant.EmptyIsInitial | apps/api/db/schema.sql:221-246 | Empty tables satisfy what the runs start from. |
| WriteSkew.UnlockedMissesAMatch | apps/api/handler/interests.go:85-92 | Without the advisory lock: from any state where both owners may express interest and no interest or match exists, there is a run that answers both "pending", leaves both interested and makes no match. |
| Refinement.Serializable | apps/api/handler/interests.go:85-92 | Every interleaved run ends with the interests and matches, and gave the answers, of requests of that run served one at a time: every finished request once and no other, requests that compete for one lock in the order they got it. Between them, other handlers only end an active match or delete one. |
| Refinement.SerializableHandlers | apps/api/handler/interests.go:94-150 | While nobody edits the catalog, the serial run is of the whole handlers, reads and refusals included, with the same ledger and the same answers; its records are of requests of the run. |
| Bookings.ViewingsSerializable | apps/api/handler/viewings.go:370-403 | Every interleaved run leaves the viewings of its decided bookings and reschedulings served one at a time, with the same answers, each on what it had read of match and schedule and on the viewings as they are at its decision; every answered request once and no other; those that compete for a slot's lock in the order they got it. Between them rows only change status without coming to occupy room, or are deleted. |
| Bookings.BookingsAreHandlers | apps/api/handler/viewings.go:328-403 | While nobody edits the catalog or ends a match: in every interleaved run the step that decides a booking or rescheduling does to the whole database what the whole handler does there, reads and refusals included, and its other steps do nothing. |
| Scheduling.StatementServes | apps/api/handler/viewings.go:635-655 | The step that gives a booking or rescheduling its answer does to the viewings what the request does alone; every other of its steps leaves them. |
| Scheduling.ServeOnIsBook | apps/api/handler/viewings.go:328-403 | On the match row and the schedule of one database, the serial booking is the whole handler. |
| Scheduling.ServeOnIsReschedule | apps/api/handler/viewings.go:594-656 | The same for rescheduling. |
| Collisions.CollisionsOnlyRemove | apps/api/handler/interests.go:87-92 | The events that do something under a coarser hash are, in the same order, a run under any finer hash with the same tables, transactions, answers and lock order. |
| Deadlock.NoDeadlock | apps/api/handler/viewings.go:203-211 | In every reachable state with an unfinished transaction some transaction can execute its next statement, whatever the mix of requests and the collisions. |
| Deadlock.SomeoneCanStep | apps/api/handler/viewings.go:612-635 | Row lock first, advisory lock second, unique index last: following what a transaction waits for reaches one that need not wait. |
| Deadlock.RunProgress | apps/api/handler/interests.go:76-220 | A statement that need not wait brings its transaction strictly closer to its end, and the lock discipline is kept. |
| ProtocolTheorems.NeverOverbooked | apps/api/handler/viewings.go:370-403 | In every run, the confirmed and completed viewings of one slot never exceed the largest capacity the listing has had. |
| ProtocolTheorems.PeakIsCapacityHad | apps/api/handler/viewings.go:244-289 | That bound is honest: it only ever rises, and only to a capacity being stored for the listing. |
| ProtocolTheorems.CommitWithinCapacityRead | apps/api/handler/viewings.go:203-211 | When a booking or rescheduling commits, its slot holds at most the capacity that claim read. |
| Overlap.NeverOvercrowded | apps/api/handler/viewings.go:103-138 | While a listing keeps one schedule with disjoint windows, at no instant of any run are more than its capacity of viewings underway. |
| ProtocolTheorems.NeverDoubleBooked | apps/api/db/schema.sql:346-347 | In every run a match has at most one viewing that is confirmed or completed. |
| ProtocolTheorems.EndedForever | apps/api/handler/viewings.go:554-591 | From every state that satisfies the invariant, through every continuation: a cancelled viewing stays cancelled, a deleted one deleted, none disappears. |
| ProtocolTheorems.ListsRespectContact | apps/api/handler/matches.go:158-225 | In every reachable state, every contact that the profile's matches, the mutual list and the viewing list show is that of the other owner of a matched pair with neither interest withdrawn. |
| ProtocolTheorems.AnswerRespectsContact | apps/api/handler/interests.go:204-219 | The same for the contact in the answer to an expressed interest, at its commit. |
| ProtocolTheorems.ListsPartition | apps/api/handler/matches.go:457-531 | For two different owners with accounts and no block: a pair with some interest is in exactly one of incoming, outgoing and mutual for each owner; one's incoming is the other's outgoing. |
| ProtocolTheorems.IncomingIs | apps/api/handler/matches.go:491-514 | A pair is incoming for an owner exactly when only the other side has expressed interest. |
| ProtocolTheorems.OutgoingIs | apps/api/handler/matches.go:565-588 | A pair is outgoing for an owner exactly when only that owner has expressed interest. |
| ProtocolTheorems.MutualIs | apps/api/handler/matches.go:428-437 | A pair is in the mutual list of either owner exactly when both are interested. |
| Meanings.ExpressMeans | apps/api/handler/interests.go:94-220 | An interest is accepted exactly if the profile is there, undeleted and active, the listing there, undeleted, not removed by an administrator and open, the actor owns the side acted for, and no block stands between the owners. Then that interest is on, a match row is made exactly if the other side's is on and the pair has none, and the answer says whether it is on, with the other owner's contact; else nothing changes. |
| Meanings.ExpressRefusals | apps/api/handler/interests.go:94-150 | Which answer each missing condition gives, in the order of the checks: profile, its activity, its owner, listing, its status, its owner, blocks. |
| Meanings.WithdrawMeans | apps/api/handler/interests.go:284-343 | A withdrawal is accepted exactly if the acting side's row is there, undeleted and the actor's, and the pair has no undeleted match; it turns off that interest and touches nothing else; each refusal is named. |
| Grounds.WantedWasAllowed | apps/api/handler/interests.go:94-158 | In every interleaved run an interest comes to be on only by the commit of an express for it, of which statements had found the profile undeleted, active and, if it acts, the actor's; the listing public, open and, if it acts, the actor's; and no block between the owners. |
| Grounds.WithdrawnByOwner | apps/api/handler/interests.go:284-343 | In every interleaved run an interest goes off only by the commit of a withdrawal for it whose actor owns the acting side, with no undeleted match of the pair at that moment. |
| Meanings.BookMeans | apps/api/handler/viewings.go:328-403 | A viewing is booked exactly if the match is there, active and the actor's as tenant, its listing is there, the slot is later than the clock, on the stored schedule and not full, and the match has no viewing that is confirmed or completed; the row stored and the answer are determined. |
| Meanings.BookRefusals | apps/api/handler/viewings.go:328-403 | Which answer each missing condition gives, in the order of the checks. |
| Meanings.RescheduleMeans | apps/api/handler/viewings.go:594-656 | A viewing is moved exactly by one of its parties while it is confirmed, to such a slot of its listing; only its times change. |
| Meanings.ViewingRefusals | apps/api/handler/viewings.go:559-574 | Rescheduling and cancelling refuse alike: no viewing, not a party, not confirmed. |
| Meanings.StatusMeans | apps/api/handler/listings.go:357-472 | Only the owner changes a listing's status, never to a draft, and to open only with a photo and the compliance confirmed; nothing else in the catalog changes; renting out ends exactly the listing's active matches and confirmed viewings, the other changes touch none. |
| Grounds.PlacedWasOpen | apps/api/handler/viewings.go:203-211 | In every interleaved run a viewing comes to its time only by the commit of a booking or rescheduling, and that time is later than the clock at which its transaction counted, on the schedule one of its statements had read from the listing, with room when it counted. |
| Grounds.CancelledByParty | apps/api/handler/viewings.go:554-591 | In every interleaved run a viewing comes to be cancelled only by a renting out, or by a request whose actor was, when it looked, a party of the confirmed viewing; the status says whether the landlord. |
| Authority.RequestsStayOwn | apps/api/handler/tenant_profiles.go:279-410 | Every request, of any kind, changes only the actor's own profiles, listings and blocks, interests of the actor's side, and matches and viewings the actor is a party to; the account deletion also takes blocks of the actor by others, and interests of a profile with the actor's own id. |
| Authority.OthersLeaveRows | apps/api/handler/listings.go:255-355 | Whatever sequence of requests others make, a user's profiles and listings stay as they are. |
| Authority.OpensByPublishing | apps/api/handler/listings.go:379-416 | A listing comes to be open to the public only by its owner's publishing it with a photo and the compliance confirmed. |
| Authority.EditsMean | apps/api/handler/listings.go:185-355 | An edit whose fields pass their own checks is stored exactly for the owner of a row that is there, in the columns it is about; a new listing is a draft without a schedule. |
| Authority.ScheduleMeans | apps/api/handler/viewings.go:53-91 | A schedule is stored exactly for the owner of a listing that is there, if it is off or its lengths are within 15 to 240 minutes, 0 to 20 groups and 1 to 60 days, its weekdays within 0 to 6 and its windows not empty. |
| Views.MatchListsMean | apps/api/handler/matches.go:158-225 | The profile's owner is listed exactly its active matches, a party exactly the matches that are on or were ended by a renting out, except where a block stands. |
| Views.ViewingListMeans | apps/api/handler/viewings.go:441-518 | A party is listed exactly the undeleted viewings of the side asked for, except where a block stands; the other's contact is shown exactly while the match is on. |
| Outcomes.MatchIsListed | apps/api/handler/matches.go:389-454 | A match that an express makes is at once in both owners' lists, each with the other's contact. |
| Outcomes.BookingIsListed | apps/api/handler/viewings.go:441-518 | A viewing that is booked is at once in the lists of both parties, on their own side only, each with the other's contact, unless they are blocked. |
| Races.AttendedUndoneIff | apps/api/handler/viewings.go:575-586 | A completed viewing stops being completed by exactly one kind of step: the update of a cancellation that has read it before, on a row nobody locks. |
| Races.CancelAfterAttendance | apps/api/handler/viewings.go:554-591 | From every state with a confirmed viewing that nobody locks, a run of four events completes it and then cancels it. |
| Races.MatchedWhileInactive | apps/api/handler/interests.go:94-202 | From every state in which an express would make a match, a run has the profile set inactive after it was read and commits the match all the same. |
| Renting.ConfirmedBrokenIff | apps/api/handler/viewings.go:370-403 | A confirmed viewing comes to be without an active match by exactly two kinds of step: a cascade that reaches the match before the viewing, and the commit of a booking that had read the match while it was on. |
| Renting.RentedBrokenIff | apps/api/handler/interests.go:117-131 | A rented listing comes to have an active match by exactly two kinds of step: storing it as rented before its matches end, and the commit of a match whose express had read the listing before. |
| Renting.MatchedAfterRent | apps/api/handler/interests.go:117-220 | From every state in which an express would make a match, a run makes it after the listing's whole renting out, cascade included; the match stays on, and all else is as the renting out leaves it. |
| Renting.BookedAfterRent | apps/api/handler/viewings.go:346-403 | From every state in which the tenant of an active match may book, a run rents the listing out, cascade included, and then books: a confirmed viewing of an ended match on a rented listing. |
| Renting.BookedOnRented | apps/api/handler/viewings.go:328-403 | The match made after the renting out can be booked: a run leaves a confirmed viewing of an active match on a rented listing. |
| Admin.AdminDeleteMeans | apps/api/handler/admin.go:403-416 | Row by row an administrator's deletion is the user's own, but it takes exactly the interests of the user's profiles, and no viewing. |
| Admin.AdminKeepsLedger | apps/api/handler/admin.go:403-416 | Run alone, an administrator's deletion keeps one match per mutual pair, none missed, live matches mutual. |
| Admin.AdminKeepsLifecycleIff | apps/api/handler/admin.go:403-416 | It keeps the lifecycle invariant exactly if no undeleted viewing names the user. |
| Admin.AdminAmidExpressIff | apps/api/handler/admin.go:407-409 | Its statements running while an express is about to commit its match, it leaves a match without both interests exactly if the user owns the pair's profile and the acting side has no interest row yet; on a row that is there it waits for the express, and then deletes the match too. |
| Admin.HalfMatchShows | apps/api/handler/matches.go:425-438 | The landlord's list of matches then shows the contact of the deleted user for that match. |
| Admin.DroppedStayOut | apps/api/handler/interests.go:152-158 | No later sequence of requests brings back an interest that went with the deleted user's profile: the upsert is not reached. |
| Lifecycle.RentedHoldsNothing | apps/api/handler/listings.go:425-458 | After any sequence of requests: an undeleted confirmed viewing has an undeleted active match; a rented listing has no active undeleted match and no confirmed undeleted viewing. |
| Lifecycle.DeletedIsForgotten | apps/api/handler/reports_blocks.go:120-194 | Once an account is deleted, no undeleted match or viewing names its user, whatever requests follow one at a time. |
| Deleting.NamedBrokenIff | apps/api/handler/reports_blocks.go:120-194 | Interleaved, an undeleted match or viewing comes to name a deleted user by exactly three kinds of step: the commit of a match and the commit of a booking that had read their rows before the deletion, and the deletion itself while rows are still to do. |
| Deleting.MatchedAfterDeletion | apps/api/handler/interests.go:94-220 | From every state in which an express would make a match, a run deletes the account of one of the owners, who has an earlier match, and then makes the match, which names the deleted user; all else is as the deletion leaves it. |
| Deleting.BookedAfterDeletion | apps/api/handler/viewings.go:346-403 | From every state in which the tenant of an active match may book, a run deletes the tenant's account and then books: a confirmed viewing of the deleted tenant. |
| Lifecycle.OverIsOver | apps/api/handler/listings.go:439-446 | A match that is ended or deleted is never active and undeleted again. |
| Lifecycle.RunGood | apps/api/handler/viewings.go:346-389 | Every sequence of requests keeps the lifecycle invariant: parties are owners, confirmed viewings have their match on, rented listings have none, deleted accounts own nothing undeleted. |
| Handlers.DeleteAccountMeans | apps/api/handler/reports_blocks.go:130-189 | The loop over tables amounts to: matches and viewings naming the user and the user's profiles and listings are deleted, blocks by or of the user are gone, interests are gone whose profile has the user's own id, everything else stands. |
| Handlers.InterestsStandIff | apps/api/handler/reports_blocks.go:135 | The interests are untouched exactly if no interest's profile has the user's own id. |
| Handlers.InterestsGoIff | apps/api/handler/reports_blocks.go:147 | The user's interests are all gone exactly if each profile with one has the user's own id. |
| Outcomes.InterestOutlivesAccount | apps/api/handler/reports_blocks.go:130-137 | From empty tables, for any users, pair and offer: a profile, a listing, its publishing, an expressed interest and the account's deletion lead to tables in order with the interest still wanted and its profile deleted. |
| Handlers.AttendMeans | apps/api/handler/viewings.go:521-551 | Only the landlord records attendance, exactly on an undeleted viewing that has not been cancelled; every other row stands. |
| Upkeep.ExpressHealthy | apps/api/handler/interests.go:76-220 | Run alone, an express keeps the tables in order: ledger, lifecycle, one active viewing per match. |
| Upkeep.DeleteAccountHealthyIff | apps/api/handler/reports_blocks.go:120-194 | An account deletion keeps them in order exactly if no undeleted match of two other users is of a profile with the deleted user's own id. |
| Upkeep.RunHealthy | apps/api/db/schema.sql:221-246 | Every sequence of requests keeps them in order, as long as no user who acts has the id of a profile. |
| Outcomes.CancelIsFinal | apps/api/handler/viewings.go:575-586 | Whatever requests follow a cancellation, the row stays as it left it, or is deleted. |
| Outcomes.AttendIsFinal | apps/api/handler/viewings.go:537-541 | The same for attendance, with requests one at a time; `Races.AttendedUndoneIff` is the interleaved case. |
| Outcomes.CancelFrees | apps/api/handler/viewings.go:159-178 | A cancellation frees exactly one place, in its own slot, and its match for another booking. |
| Outcomes.CancelThenRebook | apps/api/handler/viewings.go:328-403 | What was cancelled in time can be booked again in the same slot, as long as the match is on. |
| Outcomes.BlockHides | apps/api/handler/reports_blocks.go:67-97 | After a block, whatever requests follow but the blocker's unblocking: no list of matches or viewings has a row naming both, no pair between them is browsed or can be asked for, and none is in a list of unanswered interest as long as both accounts are there. |
| Outcomes.UnblockUndoes | apps/api/handler/reports_blocks.go:67-117 | Unblocking ends the block exactly if the other side has none, and gives back the tables from before the blocking exactly if there was none then. |
| Outcomes.DeletionUnhidesIff | apps/api/handler/matches.go:491-522 | Deleting a blocked account takes the block along, and the lists of interest do not look at deleted profiles: its pair is back among the blocker's incoming interest exactly if its owner's interest stood there unanswered. |
| Server.Database.ExpressInterest | apps/api/handler/interests.go:76-220 | Executing the statements in place gives the tables and the answer of the reference request, and keeps the tables in order; accepted exactly as `Meanings.ExpressMeans` says. |
| Server.Database.WithdrawInterest | apps/api/handler/interests.go:269-344 | As above, for withdrawing and `Meanings.WithdrawMeans`. |
| Server.Database.CountBookedStarts | apps/api/handler/viewings.go:159-178 | The counting loop gives, for every instant, the number of confirmed or completed undeleted viewings of the listing that start then. |
| Server.Database.ClaimSlot | apps/api/handler/viewings.go:203-211 | The claim made on the stored tables is the reference claim. |
| Server.Database.BookViewing | apps/api/handler/viewings.go:328-403 | Executing the statements in place gives the tables and the answer of the reference booking. |
| Server.Database.RescheduleViewing | apps/api/handler/viewings.go:594-656 | As above, for rescheduling. |
| Server.Database.CancelViewing | apps/api/handler/viewings.go:554-591 | Succeeds exactly for a party of a confirmed undeleted viewing, which then is cancelled by the landlord exactly if the actor is; every other row stands; the tables stay in order. |
| Server.Database.SetAttendance | apps/api/handler/viewings.go:521-551 | Succeeds exactly for the landlord of an undeleted viewing that has not been cancelled, which then is completed; every other row stands; the tables stay in order. |
| Server.Database.UpdateListingStatus | apps/api/handler/listings.go:357-472 | As above, for the status change with its rented cascade. |
| Server.Database.DeleteAccount | apps/api/handler/reports_blocks.go:120-194 | The loop over the table list, interests included, gives the tables of the reference deletion and keeps the lifecycle invariant; with no interest's profile under the user's own id it keeps all tables in order and the interests untouched. |
| Server.Database.BlockUser | apps/api/handler/reports_blocks.go:67-97 | Succeeds exactly for another, existing, undeleted user; exactly that block is added; the tables stay in order. |
| Server.Database.UnblockUser | apps/api/handler/reports_blocks.go:100-117 | Exactly the actor's own block of the target goes; the tables stay in order. |
| Slots.Capacity | apps/api/handler/viewings.go:39-44 | The effective capacity is at least one and at least the stored one, and nothing else. |
| Slots.ComputeOpenSlots | apps/api/handler/viewings.go:103-138 | The triple loop returns the specified list of slots. |
| Slots.OpenSlotsMean | apps/api/handler/viewings.go:103-138 | A slot is in that list exactly if its start is after the clock, a whole number of slot lengths of sixty seconds a minute after the opening of a window of its day's weekday, counted from a Thursday at 28800 seconds east, on a day no earlier than today and at most the range later and no exception; it ends one length later and within the window; fewer groups than the capacity are counted for it; and its counts are those. |
| Slots.OpenSlotsExact | apps/api/handler/viewings.go:103-138 | The same as one remainder test per window, without enumeration. |
| Slots.ValidateOpenSlot | apps/api/handler/viewings.go:182-197 | The scan returns the end of the first open slot with the given start, if any. |
| Slots.OpenSlotEndMeans | apps/api/handler/viewings.go:182-197 | The scan accepts an instant exactly if such a slot starts then, and the end is one slot length later even if windows overlap. |
| Slots.OpenSlotsAscending | apps/api/handler/viewings.go:116-136 | Sorted disjoint windows give strictly increasing slot starts. |
| Slots.GridPointsDisjoint | apps/api/handler/viewings.go:116-136 | With disjoint windows, two different grid points, of whatever days, give slots that do not overlap. |
| Schema.BookedStartsCounts | apps/api/handler/viewings.go:159-178 | Looking a start up in the count map gives the occupancy of that slot. |
| Paging.ParseLimit | apps/api/handler/matching.go:339-351 | The limit is the number asked for if it parses and is in 1..100, 100 if it is larger, 20 otherwise. |
| Paging.CutPage | apps/api/handler/matching.go:199-203 | The extra row is dropped and its predecessor becomes the cursor. |
| Paging.PageMeans | apps/api/handler/matching.go:176-203 | A page is the top of what matches under the cursor; what matches and is not on it lies under the next cursor; there is no next cursor only if nothing is left. |
| Paging.AnswerExists | apps/api/handler/matching.go:176-182 | Every query has an answer. |
| Paging.AnswerUnique | apps/api/handler/matching.go:176-182 | The ordered, limited query has only one answer over given rows. |
| Paging.CollectDescends | apps/api/handler/matching.go:178-203 | Following the cursor gives strictly descending ids, so none twice, over a table that changes arbitrarily between pages. |
| Paging.CollectsOnce | apps/api/handler/matching.go:178-203 | A row that matches on every page is received exactly once when the last page is reached. |
| Paging.CollectSound | apps/api/handler/matching.go:178-203 | Whatever is received matched when its page was read. |
| Paging.PagesNeeded | apps/api/handler/matching.go:199-203 | On an unchanging table the last page is reached after exactly max(1, n / limit rounded up) pages. |
| Paging.CompletePaging | apps/api/handler/matching.go:176-203 | Paging an unchanging table to the end gives exactly its rows, once and in order. |
| Paging.PagingAlwaysEnds | apps/api/handler/matching.go:199-203 | From any cursor, paging can be carried on to its end over a table that may be a different one at every page. |
| Paging.PagingShort | apps/api/handler/matching.go:199-203 | Under a cursor c no paging reads more than c / limit + 1 pages, whatever joins or leaves between them. |
| Browse.DateClauseBounds | apps/api/handler/matching.go:85-88 | At most seven days apart passes the date clause; what passes is less than eight days apart; for any session offset. |
| Browse.DateClauseTight | apps/api/handler/matching.go:85-88 | Neither bound can be improved by a second. |
| Browse.ListingsShown | apps/api/handler/matching.go:76-209 | A profile's complete browse shows exactly the listings with a rent within its budget, a location and room type among its own, at least its area, nothing of the seven terms it needs refused, a date within seven calendar days; both rows active and undeleted, the listing not removed; two different owners, none suspended, unblocked; without an active match. |
| Browse.ProfilesShown | apps/api/handler/matching.go:212-335 | A listing's complete browse shows exactly the profiles to which, by the same conditions, it would be shown. |
| Browse.ShownWithinDays | apps/api/handler/matching.go:85-88 | What is shown is less than eight days apart; dates at most seven days apart keep no pair from being shown; for any session offset. |
| Browse.BrowseRefusals | apps/api/handler/matching.go:131-155 | A browse is refused exactly if the row is not there, not the user's or not active, and the answer says which. |
| Browse.BrowseListings | apps/api/handler/matching.go:122-209 | A tenant's request is refused as the owner and activity checks say, or answered with the top of the suiting listings under the cursor and the right next cursor. |
| Browse.BrowseProfiles | apps/api/handler/matching.go:212-335 | The same for a landlord's request and the suiting profiles. |
| Browse.SuitsIffShown | apps/api/handler/matching.go:76-209 | A complete browse exists for every page size, and a pair suits exactly if one shows it. |
| Browse.TwoWayBrowse | apps/api/handler/matching.go:76-119 | The profile's complete browse shows the listing exactly when the listing's complete browse shows the profile, for any two page sizes; and then both owners pass the entry checks. |
| Browse.BrowsedMayExpress | apps/api/handler/interests.go:94-150 | Interest of either owner in a browsed pair passes every check in that state, and is answered "matched" with the other's contact exactly if the other side is waiting. |
| Browse.MatchedNotBrowsed | apps/api/handler/matching.go:114-119 | A pair with an active undeleted match is in neither browse. |
| Browse.EndedMatchIsBrowsed | apps/api/handler/listings.go:425-458 | From every suiting pair without a match, both owners' interest, renting out and publishing again lead to a pair that is browsed, mutual and matched, but not active. |
| Browse.BothExpress | apps/api/handler/interests.go:191-199 | After both owners of a browsed pair expressed interest, in either order, the pair is still browsed exactly if it already had a match row before. |
| Photos.AcceptsOrder | apps/api/handler/listings.go:681-713 | The duplicate, length and membership checks accept exactly the permutations of the active photos. |
| Photos.PhotoStore.Update | apps/api/handler/listings.go:724-731 | One UPDATE, visiting rows in the given order and checking the index at each write, stores all targets or nothing. |
| Photos.ParkSucceeds | apps/api/handler/listings.go:722-731 | With distinct positions from one on, negating them meets the unique index in no row order. |
| Photos.ParkAlwaysIff | apps/api/handler/listings.go:722-731 | With distinct positions, negating them succeeds in every row order exactly if no two are each other's negative. |
| Photos.UnparkSucceeds | apps/api/handler/listings.go:732-745 | From there, writing the final positions meets it in no row order either. |
| Photos.PhotoStore.ReorderPhotos | apps/api/handler/listings.go:652-751 | For every pair of row orders: a permutation of the active photos is stored by rank, anything else is refused and nothing changes. |
| Photos.ReadsBack | apps/api/handler/listings.go:715-745 | After an accepted reorder, reading by position gives the requested order and no other. |
| Photos.RunKeeps | apps/api/db/schema.sql:350-351 | Over every serial run of uploads, deletions and reorders: live positions are distinct and at least one, and at most ten photos are live. |
| PhotoRace.RunDistinct | apps/api/db/schema.sql:350-351 | With uploads, deletions, publishing and the checks and two updates of reorders interleaved statement by statement, live positions are always distinct. |
| PhotoRace.PositiveBrokenIff | apps/api/handler/listings.go:732-745 | Positions stop being at least one by exactly one kind of step: the second update of a reorder whose order does not name every row that the first has negated. |
| PhotoRace.RunOk | apps/api/handler/listings.go:681-745 | In a run in which no upload inserts while an accepted order waits for its updates, live positions stay distinct and at least one. |
| PhotoRace.LateUploadSinks | apps/api/handler/listings.go:681-745 | From every state with an accepted order and an upload about to insert, in every row order: the upload and then the updates leave the new photo at the negative of the position it was given. |
| PhotoRace.ThenReorderFails | apps/api/handler/listings.go:724-731 | A run from one photo to the positions -1, 0 and 1, where the first update of an accepted order can meet the unique index. |
| PhotoLimit.LimitBrokenIff | apps/api/handler/listings.go:528-571 | The limit of ten is passed by exactly one kind of step: an insert at ten photos that had counted while there was room. |
| PhotoLimit.PhotosBounded | apps/api/handler/listings.go:528-571 | With at most k uploads between count and insert at once, a listing never has more than 9 + k photos. |
| PhotoLimit.BoundReached | apps/api/handler/listings.go:528-571 | From every listing with nine photos and no reorder under way, k uploads at once have a run to 9 + k. |
| PhotoLimit.OpenBrokenIff | apps/api/handler/listings.go:379-416 | A published listing comes to have no photo by exactly two kinds of step: deleting its last one, and publishing on a check made before that. |
| PhotoLimit.PublishedWithoutPhoto | apps/api/handler/listings.go:621-641 | From no photos, an upload, the publishing and a deletion, one after another, leave a published listing without a photo. |
| Photos.PhotoStore.UploadPhoto | apps/api/handler/listings.go:528-571 | Refused at ten photos; otherwise the photo takes the position after the largest, and the index never objects. |
| Photos.PhotoStore.DeletePhoto | apps/api/handler/listings.go:621-641 | Only a live photo of the listing is deleted, and nothing else changes. |
| Photos.OnePhaseIff | apps/api/handler/listings.go:722-723 | Writing the final positions at once succeeds in every row order exactly when no requested position is held by another live photo. |
| Photos.OnePhaseOnlyIdentity | apps/api/handler/listings.go:722-723 | With positions 1 to n that means: only when the order does not change. |
| Drag.PhotoSection.OnDragOver | apps/web/features/listings/ListingFormModal.tsx:118-128 | The splices move the dragged photo to the hovered index, as the reference step does. |
| Drag.PhotoSection.OnDragEnd | apps/web/features/listings/ListingFormModal.tsx:129-135 | Sends the local order exactly if it differs from the server's. |
| Drag.RunOk | apps/web/features/listings/ListingFormModal.tsx:115-135 | Any sequence of drag events and server reports over the same photos keeps the shown order a permutation of them. |
| Drag.MovedLists | apps/web/features/listings/ListingFormModal.tsx:124-126 | One move loses and repeats nothing. |
| Drag.MovedKeepsOthers | apps/web/features/listings/ListingFormModal.tsx:124-126 | The photos not dragged keep their order among themselves. |
| Drag.HoverPlaces | apps/web/features/listings/ListingFormModal.tsx:118-128 | After hovering, the dragged photo is at the index the hovered one had. |
| Drag.SubmittedAccepted | apps/web/features/listings/ListingFormModal.tsx:129-135 | Letting go after any drags sends the order shown exactly if it is not the server's; if the stored photos are still those shown it is accepted, and is what is then read back. |
| Drag.OnlyHoverReorders | apps/web/features/listings/ListingFormModal.tsx:103-135 | The order shown changes only by hovering, or by a report of the server while there is no local order. |
| Drag.SettlesIff | apps/web/features/listings/ListingFormModal.tsx:108-112 | The local order is dropped exactly when the server has it. |
| Grouping.GroupBy | apps/web/lib/groupBy.ts:1-8 | Distinct keys in first-seen order, each with all of its items in their order. |
| Grouping.GroupsLoseNothing | apps/web/lib/groupBy.ts:1-8 | The groups together hold every item as often as it was given. |
| Grouping.GroupsUnique | apps/web/lib/groupBy.ts:1-8 | That description determines the result. |
| Grouping.FlattenUndoesGrouping | apps/web/lib/groupBy.ts:1-8 | When equal keys stand together, putting the groups end to end gives back the list. |
| Grouping.SlotsByDay | apps/web/components/SlotPicker.tsx:27-30 | The offered slots grouped by calendar day flatten to the offered list, for any schedule. |
| Refresh.SingleFlightBounds | apps/web/lib/api.ts:15-73 | For n requests and any schedule of 401s, at most one refresh is in flight, at most n refreshes and 2n sends happen. |
| Refresh.RunEnds | apps/web/lib/api.ts:15-73 | No run is longer than 7n events, and while a request is unanswered another event is possible. |
| Refresh.ResumeMeans | apps/web/lib/api.ts:57-71 | After its refresh a request is sent once more, marked as a retry, exactly if the refresh was delivered with a new token; else it fails and nothing is sent. |
| Refresh.EndsIff | apps/web/lib/api.ts:17-71 | In every run a request has failed exactly if it met a 401 on the landing page, a 401 as a retry, or a refresh that was lost or brought no token, and has finished exactly if it met any other answer. |
| Refresh.SendsExact | apps/web/lib/api.ts:15-73 | The number of sends is that of the requests started and of the refreshes with a token that were waited for. |
| Refresh.AllFinish | apps/web/lib/api.ts:15-73 | If every refresh is delivered with a token and no 401 comes on the landing page or for a retry, no request fails, and once no event is left every request has finished. |
| Refresh.RevokedIffSpent | apps/api/handler/auth.go:144-163 | At the lookup, a refresh is answered that its token was revoked exactly when another one has spent the same token. |
| Refresh.SpentMeansFault | apps/api/handler/auth.go:184-196 | For the refresh the browser waits for, that other one was lost on the way or broke off between revoking and issuing. |
| Refresh.BrokenRotation | apps/api/handler/auth.go:184-196 | A run with every response delivered in which one broken rotation makes the next refresh fail as revoked. |
| Refresh.LateRevocation | apps/web/lib/api.ts:48-71 | A run with every rotation complete in which a lost refresh revokes the token of the next one between its start and its lookup. |
| Refresh.StaleIffWasted | apps/api/handler/auth.go:144-196 | At its start, a refresh presents a token that is already revoked exactly when the token was spent by a refresh whose new token did not reach the browser. |
| Refresh.NeverRevoked | apps/api/handler/auth.go:144-196 | If every response arrives and no rotation breaks off between its two statements, no refresh is ever answered that its token was revoked. |
| Refresh.Session.OnResponse | apps/web/lib/api.ts:17-55 | The interceptor up to its await does what the reference step does: share the promise or start one, give up on the landing page or after one retry. |
| Refresh.Session.OnResume | apps/web/lib/api.ts:57-71 | After the await: resend once with the retry mark, or fail. |
| Refresh.Session.OnSettled | apps/web/lib/api.ts:48-55 | The promise is cleared whichever way the refresh ends, and the cookie is replaced only by a delivered success. |
| Refresh.Session.FindToken | apps/api/handler/auth.go:144-163 | The lookup answers a revoked token with a refusal and lets any other pass. |
| Refresh.Session.RotateToken | apps/api/handler/auth.go:184-196 | Revoking and issuing are two statements; a failure between them leaves the token revoked without a successor. |

## Left out

- HTTP, JSON, cookies, JWT, OAuth, e-mail, storage, geocoding, logging, configuration: plumbing or library calls.
- Role checks (`requireRole`), which only add a refusal before each handler; a deleted account is refused, as in `apps/api/middleware/auth.go:82-100`, in `Lifecycle`.
- The contact text itself: the model says whose contact is shown, not what it reads.
- Text parsing of hours and date formatting: windows are minutes 0 to 1439, a day's label is any injective function of the day.
- Interest ids, timestamps, viewing notes, attendance values, the mark on a browsed card that interest was sent, and the status filter of the viewing list: no modelled decision depends on them. Photos and profile details attached to list rows are not part of the views.
- The lists of one profile's incoming and outgoing interests (`apps/api/handler/matches.go:228-386`): the same conditions as the lists over all profiles, restricted to one.
- `AdminDeleteUser` (`apps/api/handler/admin.go:403-416`) is not an event of the machine: it deletes interests without the pair lock, so `NeverAMissedMatch` and the contact theorems do not hold beside it, and viewings of the user outlive it. `Admin.AdminKeepsLifecycleIff` gives the exact condition for the deletion run alone, `Admin.AdminAmidExpressIff` that for one committed around an express that is about to commit its match, with `Admin.HalfMatchShows` for the contact; deletions at earlier moments of an express are not covered.
- Meanings.RescheduleMeans: a slot that cannot be had has one answer, as for booking; in the source the two differ in code and form.
- Authority.EditsMean: the bounds on the fields of profiles and listings (rent, area, room counts, required texts) are not part of the model.
- Grounds.WantedWasAllowed: the three facts are found by statements of the transaction at different instants, as read committed allows. They need not hold at the commit (`Races.MatchedWhileInactive`).
- A deleted interest row: the model drops it, while the source keeps it and its upsert does not clear `deleted_at` (`apps/api/handler/interests.go:152-158`). For requests one at a time the two agree on what an administrator's deletion took (`Admin.DroppedStayOut`), and on what a user's own deletion took unless a profile has the user's id.
- The interests statement of account deletion is not an event of the machine either: it matters only if a profile and a user have the same id.
- Waits on the unique indexes of interests and matches: the pair lock excludes two writers of one pair among the requests of the machine; the wait of an administrator's deletion, which takes no pair lock, is part of `Admin.AdminAmidExpressIff`. Waits on the viewing rows and on the one-active-viewing index are modelled.
- Pairs whose profile and listing have one owner: `ListsPartition` assumes two different owners, as browsing does.
- Photo rows of other listings: the index is per listing, and a foreign id fails the membership check.
- Refresh.RunEnds: says that a next event exists, not that a fair scheduler chooses it; timeouts are the loss of a response.
- Refresh.RevokedIffSpent: covers one tab and no logout; a missing cookie, expiry and suspension are refusals before the rotation.
- Lifecycle.RentedHoldsNothing: holds for requests one at a time; the match row is not locked, so a booking that has read it can outlive the renting out (`Renting.BookedAfterRent`), and neither is the listing row, so a match can be made after it (`Renting.MatchedAfterRent`). `Renting.ConfirmedBrokenIff` and `Renting.RentedBrokenIff` give the exact steps. The machine takes the rows of a renting out or of a deletion one by one, where the source has one transaction: among those steps are ones at which it is half done. The runs do not use that.
- Lifecycle.DeletedIsForgotten: holds for requests one at a time; a match or booking that has read its rows commits after the deletion all the same (`Deleting.NamedBrokenIff`, with runs).
- Deleting.MatchedAfterDeletion: the machine marks a user as gone with the user's matches, so its run is for an owner who has one; the interests statement is left out as said above.
- Photos.RunKeeps: holds for requests one at a time. Otherwise positions stay distinct (`PhotoRace.RunDistinct`), but a reorder can leave an upload's photo below one (`PhotoRace.PositiveBrokenIff`), after which a reorder can fail (`PhotoRace.ThenReorderFails`); `PhotoLimit.PhotosBounded` and `PhotoLimit.BoundReached` say how many photos there can be.
- PhotoRace.RunOk: the checks of a reorder are one step, since they read the rows in one query; its two updates are one step each, with the rows locked in between. A statement that has to wait is a step that does nothing yet; the first update may miss rows inserted after the order was accepted, as one that waits does.
- ProtocolTheorems.EndedForever: speaks of the cancelled statuses; a completed viewing can still become cancelled, exactly as `Races.AttendedUndoneIff` says.
- Bookings.ViewingsSerializable: each request is served on the match row and the schedule it had read, which others may have changed since; the order is that of the decisions. `Bookings.BookingsAreHandlers` is the case in which nobody has.
- Refinement.SerializableHandlers: needs a catalog that nobody edits during the run, because the checks of one request read profile, listing and blocks at different instants; with edits `Refinement.Serializable` holds for what each request read.
- Browse.TwoWayBrowse: both directions truncate dates with the same fixed session offset.
