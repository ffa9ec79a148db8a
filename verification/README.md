# Keera Gateway: what its control plane and command line keep

Dafny models of the parts of the gateway that are easiest to get wrong, with proofs that hold for every input and every
run. Each module is one component; the imperative code is a class or a method proved against a specification, and the
protocols are state machines whose steps interleave in any order and stop anywhere.

| module | component |
|---|---|
| LiveLog | the cursor of a live request stream: rows appear behind ones already sent |
| OutcomeCounts | the stream's counts by outcome, kept incrementally |
| StreamCounts | the counts of a stream's own cursor |
| RequestFeed | the one-slot channels that wake streams, and the notices that do so |
| Catalogue, CatalogueRuns | models, filters, routers, MCP servers and guardrails that name each other, under a lock |
| ModelKeys | which hosts a stored API key may be sent to |
| Payments | charging a saved card, with crashes, lost answers and stale reads; the balance |
| Money | VAT in floating point, the fee, and what pays in full |
| Roles | the roles of one person in many organisations |
| CliLogin | a sign-in of `keera login`: flow, code, token |
| EditDistance, Wrap, Table, StepNames, Rules | the text algorithms of the command line |
| Text | the string functions these use |

## What turned out not to hold as written

Each is stated with the exact condition under which it does.

- A late row is lost when it is first looked at `streamSettle` after a newer one was recorded, although that very look
  could send it: `settle` runs before the query (`LiveLog.LateRowIsLost`; the condition is `LiveLog.DeliveredIff`).
- A stale list of pending payments can settle as retryable a charge that was tied late and then submitted
  (`Payments.LateTieIsChargedTwice`). Giving up a listed payment does so exactly when its charge was submitted, or is about
  to be, by then, which asking for a missing transaction as it settles would rule out (`Payments.GiveUpStrandsIff`); it
  happens to every card payment that is tied between (`Payments.LateTieStrands`) and to no other
  (`Payments.RetriedWasNotSubmitted`).
- The block that a charge without an end sets is lifted by any payment of the organisation that is paid, a recurring
  charge of the same card too. Then the card is charged for the same again without anyone acting
  (`Payments.PaidChargeLiftsTheBlock`). Exactly two steps lift a block (`Payments.LiftedExactlyBy`), and a card is charged
  for the same again exactly when every earlier charge of it is paid, may be retried or was lifted
  (`Payments.ChargedAgainIff`, `Payments.SecondChargeIff`).
- A member's or administrator's role outside the person's own organisation does change when the directory makes them an
  operator, and only then (`Roles.OtherRolesStand`). Adding a row that is linked to an operator's identity leaves that
  person's rows mixed until they sign in again (`Roles.AddKeepsUniformIff`).
- A line of one cell in a painted table is printed as written, so what shows is the layout exactly when the layout did
  not change it (`Table.RepaintShows`, `Table.FlushShows`). A row loses its paint where a blank cell stands before one
  that starts with a space (`Table.PaintStays`).
- A count of thousands that passes 64 bits is read as another number (`Rules.LargeCountsWrap`).
- The counts of a stream equal one count of the window exactly when no row of it committed behind a count that had passed
  its id (`OutcomeCounts.CountsAreTheWindowIff`). When rows are written within the settling time, only rows at or below the
  stream's start and rows that a full batch passed can do so (`StreamCounts.StreamCountsIff`), and they do
  (`StreamCounts.Miscounts`).

## What is assumed

- One statement of the store is atomic, and `LockReferences` excludes other holders in the organisation.
- The id of an organisation is not empty and holds no comma.
- Random states, codes and tokens are new, and where it is said so, hashing is injective.
- PostFinance never takes back that a transaction is fulfilled or failed, and charges a card only for a transaction whose
  charge was submitted.
- Rounding to doubles is within a relative error of 2^-53 up to 2^53, exact on halves of integers up to 2^52, and keeps tiny
  numbers tiny and their sign (`Money.IsDouble`).
- A router's own shape, a filter's fields and rules, a guardrail's limits and a model's key are checked too: in a handler
  alone `fits` says whether what is put passes those checks, and side by side a request may stop at any time.

## Model

| member | source | states |
|---|---|---|
| LiveLog.LiveCursor.Settle | internal/control/live.go:253-262 | the new cursor is the one `Cursor.Settle` gives: the records older than the settling time move `settled`, and what was sent behind it is forgotten |
| LiveLog.LiveCursor.Took | internal/control/live.go:264-276 | the batch is remembered, the newest id recorded, and a full batch moves `settled` to its oldest row |
| LiveLog.LiveCursor.Forget | internal/control/live.go:278-280 | exactly the ids above `settled` stay, in their order |
| LiveLog.LiveCursor.SendRequests | internal/control/live.go:293-307 | one look: settle, query, take |
| LiveLog.NewestIsTheTop | internal/control/live.go:246-249 | the query sends the newest candidates, newest first, and leaves out only rows older than a full batch |
| LiveLog.NoRowTwice | internal/control/live.go:219-280 | over any run of looks, whatever is visible at each, no row is sent twice |
| LiveLog.DeliveredIff | internal/control/live.go:219-307 | a row past the start is sent exactly once, or not at all exactly when a full batch or an expired record had passed it by the first look that could see it |
| LiveLog.TimelyRowIsSent | internal/control/live.go:43-45 | a row committed, queried and looked at within the settling time is sent unless a full batch passed it |
| LiveLog.LateRowIsLost | internal/control/live.go:297-299 | the bound is tight: at exactly the settling time the row is lost |
| LiveLog.SettledIsCommitted | internal/control/live.go:224-237 | nothing can still appear behind `settled`: when rows are written in time, every row past the start that it has reached is committed, unless a full batch passed it |
| LiveLog.NewestIsTheNewestSent | internal/control/live.go:264-270 | the recorded newest id is that of the newest row sent, or the start |
| LiveLog.NewestIsTheGreatest | internal/control/live.go:264-270 | over every run no delivered id is past the id a reconnecting reader resumes from, which is one of them or the start |
| LiveLog.LookRecordsTheGreatest | internal/control/live.go:264-276 | each look records so the greatest of what was delivered by then, its own rows included |
| OutcomeCounts.OutcomeTally.CountOutcomes | internal/control/live.go:344-385 | one count: the tally moves as `Tally.Next` and the answer adds the rows past the cursor |
| OutcomeCounts.BaseCountsHeld | internal/control/live.go:350-380 | over any run the base counts a set of rows: its ranges do not overlap |
| OutcomeCounts.HeldMeans | internal/control/live.go:350-380 | which rows those are: in the window as of the last recount, and visible to the count whose range their id fell into |
| OutcomeCounts.CoverIsTheFirstPast | internal/control/live.go:366-376 | the ranges since the recount leave no gap: an id is covered by the first count that settled past it |
| OutcomeCounts.ReportedIs | internal/control/live.go:377-385 | the answer counts those rows and the ones past the cursor, each once |
| OutcomeCounts.CountsAreTheWindowIff | internal/control/live.go:282-385 | the answer equals one count of the whole window exactly when every settled row of it was visible to the count that covered it |
| OutcomeCounts.WindowIsOfThisMinute | internal/control/live.go:352-366 | the last count is less than a minute later than the recount whose window it reports |
| OutcomeCounts.CountAfterAMinute | internal/control/live.go:352-366 | a count a minute or more after all the earlier ones reports exactly the visible rows past the cursor or within its own window |
| OutcomeCounts.OutcomesPartition | internal/store/requests.go:36-45 | the four outcomes by status and error, and that every row has exactly one |
| OutcomeCounts.LateRowIsNotCounted | internal/control/live.go:366-376 | a row that becomes visible behind a count is left out |
| StreamCounts.CountsAreValid | internal/control/live.go:306-312 | a stream's own counts move forward over a growing log, which the results on counts ask for |
| StreamCounts.StreamCountsIff | internal/control/live.go:282-385 | when rows are written in time, a stream's counts are exact exactly when the rows at or below its start and those a full batch passed were visible to their count |
| StreamCounts.Miscounts | internal/control/live.go:271-276 | and such a row, committing between two looks, is left out although it was written in time |
| RequestFeed.BuildPayload | internal/store/store.go:40-57 | the loop builds `EventsPayload` |
| RequestFeed.BatchWakes | internal/store/store.go:40-57 | a batch that wrote a request of an organisation has a notice, and that wakes every stream of it |
| RequestFeed.NoticeWakesExactly | internal/store/store.go:40-66 | a notice wakes exactly the streams of the organisations written for and those of all of them, everyone only when the names do not fit, and there is none when nobody is to wake |
| RequestFeed.Feed.Watch | internal/control/live.go:67-79 | a new channel is subscribed without a tick |
| RequestFeed.Feed.Wake | internal/control/live.go:93-106 | every channel concerned holds a tick afterwards, and no other changes |
| RequestFeed.StepsAreTheFeeds | internal/control/live.go:67-106 | a run of streams does to the subscriptions what the methods of the feed do |
| RequestFeed.NoLostWakeUp | internal/control/live.go:65-216 | after a wake, an open stream it concerns has a tick, has noted that the log grew, or has begun a look since |
| RequestFeed.WakeIsLookedAt | internal/control/live.go:189-214 | a stream that stays open after a wake, and sooner or later takes its tick and then polls, has begun a look since, whatever happens in between |
| RequestFeed.IdleStays | internal/control/live.go:189-214 | a stream that looked and that no wake concerns does not look again, however often it polls |
| RequestFeed.OpenedLooksFirst | internal/control/live.go:189-214 | a stream that is opened looks at its first poll, before any wake |
| CatalogueRuns.Handlers.SaveModel | internal/control/models.go:148-192 | the handler alone: refused without a change when its fields or key do not fit, its alias is a router's, or it turns into a subscription in use; else written, and allowed if new |
| CatalogueRuns.Handlers.DropModel | internal/control/models.go:385-406 | a model is deleted exactly when it is there and no filter and no router uses it, and comes off every allow-list |
| CatalogueRuns.Handlers.SaveFilter | internal/control/filters.go:100-118 | a filter is saved exactly when its fields fit and its model can read, is allowed and runs where the organisation allows |
| CatalogueRuns.Handlers.SaveRouter | internal/control/routers.go:120-166 | a router is saved exactly when its shape fits and its references, readers and alias are right, and is then allowed as allowReaching does |
| CatalogueRuns.Handlers.DropUnused | internal/control/hooks.go:85-119 | a filter, router or server is deleted exactly when it is there and nothing uses it |
| CatalogueRuns.Handlers.SaveGuardrail | internal/control/policy.go:356-375 | a guardrail is stored tidied exactly when its limits fit and its filters, readers and tools are right |
| CatalogueRuns.KnownFilters | internal/control/filters.go:361-396 | the loop keeps each known filter once and refuses an unknown one |
| Catalogue.KeptIs | internal/control/filters.go:377-394 | what it keeps: exactly the trimmed names that are not blank, none twice |
| CatalogueRuns.ServedTools | internal/control/mcp.go:197-227 | entries are trimmed, and refused exactly when one is no tool entry or names no server |
| Catalogue.StepsName | internal/policy/router.go:139-250 | which aliases a router uses, reads with, applies and can end at, step by step |
| CatalogueRuns.SavesModel | internal/control/models.go:155-192 | when a model is saved, step by step of what names it; a new alias is on the organisation's list afterwards, and nothing else on any list changes |
| CatalogueRuns.SavesFilter | internal/control/filters.go:207-246 | when a filter is saved, and that it only is written |
| CatalogueRuns.SavesRouter | internal/control/routers.go:176-206 | when a router is saved; a new one comes onto a list without its alias exactly when every model step's model and every destination without a branch is on it, and nothing else on any list changes |
| CatalogueRuns.SavesGuardrail | internal/control/filters.go:301-394 | when a guardrail is stored, that it is tidied, and that nothing else changes |
| CatalogueRuns.DeletesModel | internal/control/models.go:385-406 | when a model is deleted, and that its alias comes off every list and nothing else changes |
| CatalogueRuns.DeletesFilter | internal/control/filters.go:272-290 | the same of a filter, which no router and no guardrail may name |
| CatalogueRuns.DeletesRouter | internal/control/routers.go:323-345 | the same of a router, which no project's or key's list may name |
| CatalogueRuns.DeletesServer | internal/control/hooks.go:85-119 | the same of a server, which no list of tools may name |
| Catalogue.WriteKeepsSound | internal/control/models.go:148-198 | a write whose checks hold keeps every reference, the difference of aliases and the readers allowed |
| Catalogue.PutModelKeeps | internal/control/models.go:155-181 | a model is no router's alias, and turns into a subscription only while unused |
| Catalogue.DeleteModelKeeps | internal/control/models.go:385-406 | deleting an unused model strands no filter, router or reader |
| Catalogue.PutFilterKeeps | internal/control/filters.go:207-246 | a saved filter reads with a model that is there, no subscription, and allowed |
| Catalogue.PutRouterKeeps | internal/control/routers.go:127-146 | every model a saved router uses is there and no subscription, and its readers are allowed |
| Catalogue.StepsAreUsable | internal/policy/router.go:288-351 | the checks of single steps cover all a router uses |
| Catalogue.DeleteRouterKeeps | internal/store/routers.go:176-202 | taking a router off the allow-lists strands no reader, because aliases differ |
| Catalogue.PutGuardrailKeeps | internal/control/filters.go:301-346 | an organisation's allow-list holds every reader's model |
| Catalogue.AllowKeepsSound | internal/store/guardrails.go:227-240 | allowing one alias more keeps all of it |
| CatalogueRuns.UnlockedKeepsCheck | internal/control/mcp.go:46-98 | saving a server, dropping a scope and copying a key's guardrail, which take no lock, undo no check |
| CatalogueRuns.Reachable | internal/store/guardrails.go:87-120 | over every interleaving of handlers and unlocked writes, with crashes, the catalogue is sound |
| CatalogueRuns.HandledAlone | internal/control/models.go:148-192 | the steps of an undisturbed handler come to what the handler alone does |
| CatalogueRuns.LockIsNeeded | internal/store/guardrails.go:87-96 | without the lock two handlers whose checks both pass break a reference, in either order |
| CatalogueRuns.AliasesMustDiffer | internal/control/routers.go:319-330 | were aliases shared, deleting a router would strand a reader |
| ModelKeys.SameOrigins | internal/control/models.go:206-228 | true exactly when every next origin is a usable one of the previous |
| ModelKeys.Rows.PutRow | internal/control/models.go:115-180 | when a put is refused for its key, and the row it leaves |
| ModelKeys.RefusedIff | internal/control/models.go:118-168 | a put is refused exactly for a key to a row that takes none, or for an address without an origin or with a new one while a key is kept |
| ModelKeys.HasKeyIff | internal/control/models.go:170-178 | a row has a key after a put exactly when that enters one, or leaves alone one the row may keep |
| ModelKeys.KeyStaysUntilTaken | internal/control/models.go:170-178 | over any puts and deletes a key that was entered stays until a put or a delete takes it |
| ModelKeys.KeyStaysAtItsOrigins | internal/control/models.go:115-180 | over any puts and deletes, a stored key's row has only origins the key was last entered for |
| ModelKeys.KeptKeyGoesNowhereNew | internal/control/models.go:164-177 | keeping the key adds no origin; a row on the deployment's key or a subscription ends with none |
| ModelKeys.KeyIsOfTheLastEntry | internal/control/mcp.go:71-87 | over any puts and deletes, what a stored key was entered for are the origins of the last put that entered one, which may be anywhere |
| Payments.Ledger.CreatePayment | internal/store/credit.go:254-287 | a payment is recorded exactly while it is due, and for a card while the store's other conditions hold |
| Payments.DueIff | internal/store/charges.go:121-132 | when a payment of each kind is due |
| Payments.Ledger.SetTransaction | internal/store/credit.go:289-293 | only a pending payment is tied |
| Payments.Ledger.End | internal/store/credit.go:351-432 | a pending payment ends, and a failed one that is paid, as `Settle` says |
| Payments.SettleDoes | internal/store/credit.go:351-432 | what ending a payment credits, lifts and blocks, and the period it moves; nothing happens to any other payment |
| Payments.Ledger.EndWith | internal/control/payments.go:550-604 | a transaction ends its payment as it says, and only the full amount pays |
| Payments.Ledger.ChargeCard | internal/control/payments.go:680-730 | how the account stands after each course a charge can take, with its balance, blocks and periods |
| Payments.CourseIsARun | internal/control/payments.go:680-730 | what a course does to the account is what a run of the steps does, side by side with others |
| Payments.Ledger.SettlePending | internal/control/payments.go:745-779 | the loop over a list that may be stale |
| Payments.CheckEndsAsRead | internal/control/payments.go:750-779 | how the account stands after each listed payment: untied and old failed and may be retried, open for a day failed and blocked, fulfilled in full paid, otherwise ended failed and blocked, no answer or younger unchanged |
| Payments.RoundEnds | internal/control/payments.go:745-779 | so each payment of a list ends over the whole round |
| Payments.CheckIsAStep | internal/control/payments.go:750-779 | each look of the round is a step that reads side by side with others take |
| Payments.NextKeepsInv | internal/control/payments.go:680-793 | every step of starters, readers, PostFinance and administrators keeps the invariant |
| Payments.CreditIsConserved | internal/control/payments.go:494-604 | over every run the balance is the grants and paid top-ups less what was spent, and a payment is paid only from a transaction read as fulfilled in full |
| Payments.PaidStays | internal/store/credit.go:359-363 | a paid payment stays paid, so it is credited once |
| Payments.PeriodMovesExactly | internal/store/charges.go:134-147 | a charge moves to its next period with each step that pays the one that is due, and with no other step |
| Payments.PaidPeriodIsPast | internal/store/charges.go:121-147 | over every run a period that a card paid is never due again |
| Payments.PaidWhileDueIsPast | internal/store/charges.go:121-147 | nor is one that was paid while it was due, on the page too |
| Payments.ReadAsPaidStaysPaid | internal/control/payments.go:494-546 | however a payment stands, also marked failed, it is paid ever after its transaction was read as paid in full and that is acted on |
| Payments.RetriedWasNotSubmitted | internal/control/payments.go:680-758 | over every run, what was settled to be retried was not submitted and will not be, unless it was tied after being listed as interrupted |
| Payments.TimelyTiesAreNotLate | internal/control/payments.go:732-741 | and that does not happen when payments are tied in time |
| Payments.NoSecondCharge | internal/store/credit.go:166-176 | a card is charged for the same while an earlier charge may go through only if an administrator, or a paid payment of the organisation, lifted the block |
| Payments.GiveUpStrandsIff | internal/control/payments.go:751-757 | giving up a listed payment strands a charge exactly when that was submitted or is about to be, and never while it has no transaction |
| Payments.LateTieStrands | internal/control/payments.go:751-757 | from any state, a listed card payment tied before it is given up is retried and submitted |
| Payments.ChargedAgainIff | internal/store/credit.go:166-176 | over every run, a card may be charged for the same again exactly when every earlier charge of it is paid, may be retried, or was lifted |
| Payments.SecondChargeIff | internal/store/credit.go:166-176 | so, with one that may go through, exactly when that one was lifted and the others are done |
| Payments.LiftedExactlyBy | internal/store/credit.go:390-398 | a block is lifted exactly by an administrator or by settling an unpaid payment that was read as paid in full |
| Payments.LateTieIsChargedTwice | internal/control/payments.go:751-758 | a run in which a charge tied late is retried and submitted |
| Payments.PaidChargeLiftsTheBlock | internal/store/credit.go:390-398 | a run without an administrator in which a card is charged twice for automatic top-ups, both still open |
| Money.VatIsExact | internal/control/payments.go:336-339 | VAT in doubles is the exact share to the nearest centime, ties included |
| Money.FeeIsToTheCentime | internal/control/payments.go:341-345 | the fee is within half a centime of its formula, monotone and at least 0.38 |
| Money.NothingOverflows | internal/control/charges.go:17-19 | up to the largest charge every total is whole centimes within 64 bits, and every product is exact |
| Money.AskedIsWhole | internal/control/payments.go:311-320 | every top-up and every charge of an accepted amount is such a payment |
| Money.PaidInFullIff | internal/control/payments.go:614-618 | of whole centimes read as doubles exactly the amount asked for pays in full |
| Money.PaidInFullRounds | internal/control/payments.go:614-618 | any other amount pays in full within half a centime, and not beyond |
| Money.LineItemsAddUp | internal/control/payments.go:348-374 | the line items as written add up to what pays in full |
| Money.AmountReads | internal/payment/postfinance.go:371-379 | a written amount reads as its centimes |
| Money.AmountIs | internal/payment/postfinance.go:371-379 | an amount is written with digits, a point and two digits |
| Roles.ContainsFold | internal/authn/principal.go:183-196 | true exactly when a wanted name that is not blank is had |
| Roles.RoleFor | internal/authn/principal.go:163-181 | an operator exactly by group or address; otherwise an administrator by group, else the default |
| Roles.SyncedRoleIs | internal/control/auth.go:424-446 | what syncing one row decides, case by case |
| Roles.Users.SyncRole | internal/control/auth.go:424-446 | the row's role becomes that, and nothing else changes |
| Roles.Users.SyncOtherRoles | internal/control/auth.go:448-476 | the loop over a list read before it syncs every row of the person and no other |
| Roles.Users.SignInAs | internal/control/auth.go:258-294 | a sign-in links and syncs, or is refused |
| Roles.Users.Switch | internal/control/memberships.go:131-215 | switching carries the operator role along, over an invitation too |
| Roles.LinkDoes | internal/store/session.go:332-380 | linking finds the identity's row, takes an invitation, refuses another identity's row, or makes one |
| Roles.SignInRefusedIff | internal/control/auth.go:258-294 | a sign-in is refused exactly when the identity's row is disabled, or it has none and the address is another identity's or a disabled invitation's |
| Roles.SwitchDoes | internal/control/memberships.go:131-215 | which row becomes the person's on a switch and with which role, and that no other changes |
| Roles.ChangeRoleDoes | internal/control/users.go:168-215 | a role is changed exactly where the directory does not decide it and no operator is concerned |
| Roles.AddUserDoes | internal/control/users.go:15-64 | a person is added exactly when neither address nor identity is there and the role may be given |
| Roles.SignInMakesUniform | internal/control/auth.go:255-294 | whatever was before, after a sign-in the person's rows hold the operator role exactly when the directory says so |
| Roles.RecheckMakesUniform | internal/control/directory.go:111-119 | so after a fresh answer of the directory, which changes nobody else's rows |
| Roles.RunKeepsUniform | internal/control/memberships.go:196-210 | over any run of sign-ins, rechecks, switches, role changes and additions the rows stay all or none |
| Roles.OtherRolesStand | internal/control/auth.go:418-446 | after a sign-in, a role that stood in another organisation is the same exactly when the row does not become the person's or they are no operator |
| Roles.StandingRolesStay | internal/control/directory.go:111-119 | no sign-in, recheck or switch changes such a role but to the operator's |
| Roles.AddKeepsUniformIff | internal/control/users.go:36-64 | adding a linked row keeps a person uniform exactly when they are no operator |
| CliLogin.CliLoginFrom | internal/control/cliauth.go:87-110 | a handshake is accepted exactly when it is absent, or whole with an accepted address, a valid challenge and a usable state; and it is what was asked for, trimmed |
| CliLogin.Store.TakeLoginFlow | internal/store/session.go:164-170 | a flow is read and removed at once |
| CliLogin.Store.CLIHandOver | internal/control/cliauth.go:163-174 | the code is the person's, under the flow's challenge, and goes to the flow's address |
| CliLogin.Store.CLIToken | internal/control/cliauth.go:178-230 | a code is used up by whoever presents it, and a token granted exactly for its verifier |
| CliLogin.NextKeepsInv | internal/control/auth.go:164-252 | every step of callbacks, passkeys, passwords and redeemers keeps the invariant |
| CliLogin.OneCodeOneToken | internal/control/password.go:131-138 | over every interleaving a sign-in yields at most one code, and a code at most one token |
| CliLogin.TokenIsOfItsFlow | internal/control/cliauth.go:161-230 | a token is of the person who completed that flow, for that flow's code and a verifier of its challenge |
| CliLogin.UndisturbedHandsOver | internal/control/passkeys.go:162-212 | a sign-in that nothing disturbs hands its code over |
| CliLogin.UndisturbedPasskey | internal/control/passkeys.go:162-212 | so does one with a passkey |
| CliLogin.UndisturbedPassword | internal/control/password.go:63-140 | and one with a password, which uses up the flow only once it is right |
| CliLogin.CallbackNeedsItsBrowser | internal/control/auth.go:164-174 | a callback from another browser takes nothing |
| CliLogin.OtherProvidersAreRefused | internal/control/passkeys.go:162-212 | a passkey or a password answers for no flow of another provider |
| CliLogin.UndisturbedRedeems | internal/control/cliauth.go:191-218 | and the code yields its token |
| CliLogin.WrongVerifierYieldsNothing | internal/control/cliauth.go:191-218 | a code presented with a wrong verifier is used up and yields nothing |
| EditDistance.FillRow | internal/cli/help.go:1198-1205 | the inner loop fills the row of the table that follows the one above |
| EditDistance.Distance | internal/cli/help.go:1187-1210 | two rows compute the last cell of the whole table |
| EditDistance.LevIsLeast | internal/cli/help.go:1187-1210 | that is the least cost of all edit scripts |
| EditDistance.LevZeroIff | internal/cli/help.go:1187-1210 | zero only for equal strings |
| EditDistance.LevIsSymmetric | internal/cli/help.go:1187-1210 | symmetric |
| EditDistance.LevTriangle | internal/cli/help.go:1187-1210 | the triangle inequality |
| EditDistance.SpellingsAre | internal/cli/help.go:1152-1185 | what is tried: the name and the aliases of exactly the commands that are not hidden |
| EditDistance.SpellingsInOrder | internal/cli/help.go:1152-1185 | in the order of the commands |
| EditDistance.Suggest | internal/cli/help.go:1152-1167 | the first command with a nearest spelling, or nothing when none is within 2 |
| EditDistance.SuggestSub | internal/cli/help.go:1169-1185 | the same for the verbs of a command |
| EditDistance.SuggestionIsUnique | internal/cli/help.go:1152-1167 | what is suggested is settled by what is tried: the first of the nearest |
| Wrap.WrapAt | internal/cli/help.go:998-1018 | the loop writes the lines of the greedy breaking, each but the first behind its indentation |
| Wrap.WrapKeepsWords | internal/cli/help.go:998-1018 | the words and their order are kept |
| Wrap.LinesFit | internal/cli/help.go:998-1018 | the lines of the output are those, and none passes the width unless it holds one word |
| Wrap.LinesHoldWords | internal/cli/help.go:998-1018 | each line is its indentation and its words with one space between them |
| Wrap.GreedyIsLeast | internal/cli/help.go:998-1018 | no breaking of the same words that fits has fewer lines |
| Table.StripANSI | internal/cli/style.go:134-158 | the scan is the recursive `Strip` |
| Table.StripAppends | internal/cli/style.go:134-158 | stripping works through closed text piece by piece |
| Table.StripKeeps | internal/cli/style.go:134-158 | of closed text no escape shows, and stripping only takes characters away |
| Table.AfterEscapeIff | internal/cli/style.go:142-152 | what is taken away: an escape, a bracket, digits and semicolons, and one final character |
| Table.PaintShowsNothing | internal/cli/style.go:35-40 | paint does not show |
| Table.PaintIs | internal/cli/style.go:35-40 | the code before a text and the reset after it, and nothing around nothing |
| Table.PadToShows | internal/cli/style.go:126-132 | padding widens what shows, whatever sequences stand before it |
| Table.PadToKeeps | internal/cli/style.go:126-132 | padding only adds spaces behind the text |
| Table.RepaintLine | internal/cli/table.go:70-102 | the walk over a line comes to `Repaint` |
| Table.GapsAreOfTheLayout | internal/cli/table.go:67-101 | a repainted row keeps every cell, with the gaps of the layout |
| Table.RepaintKeepsCells | internal/cli/table.go:67-102 | a row of a layout is its written cells in gaps that lay its texts out the same, or the layout where those are not steady; a line of one cell is as written |
| Table.RepaintShows | internal/cli/table.go:67-102 | what shows of a repainted line is the layout, exactly when it is a row or the layout did not change it |
| Table.PaintStays | internal/cli/table.go:76-101 | exactly which padded rows keep their paint |
| Table.Flush | internal/cli/table.go:32-65 | the loop over lines comes to `Flushed`, for any layout |
| Table.FlushedLines | internal/cli/table.go:44-64 | without escapes or with other lines the layout is printed, otherwise every line is the repainted line |
| Table.FlushShows | internal/cli/table.go:32-65 | what shows of a table is its layout, exactly when its lines of one cell are unchanged |
| StepNames.NameSteps | internal/cli/router.go:388-414 | every id is set, given ones stay, new ones are no other step's and have the first free number; the search ends |
| StepNames.NewIdIs | internal/cli/router.go:395-408 | a new id is the kind with hyphens, a hyphen and the number in decimal |
| StepNames.CounterIsBounded | internal/cli/router.go:403-412 | a counter never passes the number of taken ids |
| StepNames.NameRouter | internal/cli/router.go:388-414 | so over a whole tree, which is the same otherwise |
| StepNames.RelabelKeepsTheTree | internal/policy/router.go:115-135 | ids set in the order of the walk change nothing else |
| Rules.ParseRules | internal/cli/rules.go:33-66 | the loop reads the lines into rules, or names the first bad one |
| Rules.RefusalsAreRead | internal/cli/rules.go:68-91 | the spellings of a refusal and what follows it |
| Rules.FormatRules | internal/cli/rules.go:93-111 | each rule is printed with the arrows lined up |
| Rules.LinesAreAligned | internal/cli/rules.go:93-111 | every arrow stands at the width of the widest pattern, before what the rule does |
| Rules.ReadsBack | internal/cli/rules.go:33-111 | printed rules are read back as the same list exactly when each is valid and printable |
| Rules.ReadRulesPrint | internal/cli/rules.go:33-91 | every list that was read is |
| Rules.PrintOfReadReadsBack | internal/cli/rules.go:93-111 | so printing what was read loses nothing |
| Rules.CountReadsBack | internal/cli/rules.go:174-197 | every positive count is read back from its print |
| Rules.SignsAreRead | internal/cli/rules.go:174-189 | a sign may stand before a number, and nothing else may |
| Rules.OnlyPositiveCounts | internal/cli/rules.go:174-189 | no count is nothing or less |
| Rules.CountIsAsWrittenIff | internal/cli/rules.go:174-189 | a count is read as written exactly when it fits 64 bits |
| Rules.LargeCountsWrap | internal/cli/rules.go:174-189 | more thousands than fit are read as another count |

## Left out

- HTTP, JSON, cookies, audit entries, log lines and message texts carry no state the properties need.
- Errors of the store end a handler where they happen, as a crash does; what a reader is told of them is not modelled.
- LiveLog: a stream that reconnects starts a new run; rows lost between two streams, and rows that leave the time window
  between recounts, are not claimed.
- LiveLog.LiveCursor.SendRequests: does not model names of new keys and the writing of the event.
- RequestFeed: the listener's reconnects, the keepalive and shutdown; a stream's ticker is a step that can always happen.
- Catalogue: kinds and locations of models after they change are not kept, so nothing is claimed of them.
- CatalogueRuns.Handlers.SaveModel: does not model the fields and the key of a model, which `fits` stands for; the key is
  ModelKeys'.
- CatalogueRuns.Handlers.SaveFilter: does not model a filter's mode, prompt and rules, which `fits` stands for.
- CatalogueRuns.Handlers.SaveRouter: does not model a router's shape, which `fits` stands for.
- CatalogueRuns.Handlers.SaveGuardrail: does not model rate limits, budgets, prompts and the locations of a scope's
  filters, which `fits` stands for.
- Catalogue.Step: a router is the list of its steps in the order of the walk; a step's tree position, ceilings, headers,
  prompts and fallback are left to the router's own validation.
- CatalogueRuns: limits a key is created with are written outside the lock by another service and name only models.
- CatalogueRuns.KnownFilters: returns the cleaned list instead of writing it into the guardrail in place, and
  CatalogueRuns.ServedTools likewise, so aliasing of the request's lists is not captured.
- Tidying of a router's steps (`tidySteps`) is done before the model's requests start.
- ModelKeys: sealing of keys, and concurrent puts of one MCP server, which take no lock.
- Payments: side by side, a charge may start whenever no block and no other charge under way stands against it.
- Payments.Ledger.CreatePayment: does not model balance, due date, saved card and the ten minutes between two charges,
  which `ready` stands for, because they only keep a charge from starting.
- Payments.Ledger.End: does not model saving a card and lifting a sign-up limit, because no property here reads them;
  invoices and receipts are not modelled either.
- Payments: a page payment that races a card charge for one period is detected and reported by the code, not prevented.
- Payments: a charge that is deleted while it is being paid.
- Money: `int64` is unbounded with its bounds proved; floating point is any function within `IsDouble`.
- Roles: names and changed addresses of an identity, passkey accounts and the operator key's stand-in, which have one row,
  and two role changes of one person at the same moment; an error of the store between two rows leaves them mixed until
  the next sign-in.
- Roles.Users: `ChangeRole` and `AddUser` are single statements of the store, so they are functions on the rows.
- Roles.ChangeRoleDoes: does not model that nobody changes their own role, because who asks is not part of the rows.
- CliLogin: what an address or a challenge must look like, how long flows, codes and tokens last, sessions, sign-up and
  the limits on password attempts.
- EditDistance, Wrap, Table, Rules: strings are sequences of characters where the code counts bytes or runes; case folding
  is ASCII where a refusal is read, and abstract where groups are compared.
- Table.RepaintLine: keeps what is left of the layout instead of a position in it.
- StepNames: a step's place in the tree is the list of steps below it, in the order of the walk; ids are set by position in
  that walk, and the tree is rebuilt with them.
- Rules: whether an expression compiles and what it matches is a parameter; destinations and header values
  (`parseDestinations`, `parseValues`) are left out, as they add no harder property.
