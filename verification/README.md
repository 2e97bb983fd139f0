# Verified model of the Sund relay

Sund is a small message relay.  Accounts hold devices; a device owns one-way queues; a sender who
knows a queue's sender id drops ciphertext into it and the owner drains it.  The relay's whole
behaviour is a state machine over an SQLite database (accounts, invitations, devices, queues,
messages, bundles, statements) and an in-memory replay cache, driven by signed requests.  This
project models that machine in Dafny, proves the imperative store and handlers against it, and
proves the promises that only show over whole runs or over interleavings.

Verify everything with `dafny verify dfyconfig.toml`.

## How it is laid out

- **Tables and operations.** `Tables` holds the tables as values and the SQL selections, deletions and
  sums as recursive functions; `StoreSpec` gives one function per store method, and `Apply`, one
  step of the store.  `RowFacts` and `Integrity` prove what every such step keeps.
- **The program itself.** `Persistence.Store` is the store as a class whose methods update the
  tables in place, with loops for each SUM, COUNT, DELETE and UPDATE; `Nonces.NonceCache` is the
  replay cache; `Service.Server` is the handlers.  Their `ensures` tie them to the functions, and
  `Service.ServeAll` ties a whole run of them to the runs the theorems speak of.
- **Atomic requests.** `Handlers` splits a request into lookup, authorisation and store steps;
  `Serve` runs them on one state, and `Runs` iterates it from the empty relay.  What every request
  is answered and changes is stated on rows, by decision tables that know nothing of handlers and store
  methods: `Transcripts` says what a request and its answer tell of each table, `Answers`, `Admission`
  and `Rulebook` which answer it gets.  On whole runs: `LastWrites` and `Authority`,
  `Cascade`, `Admins`, `Quotas`, `Bulkhead`, `Expiry`, `Effects`, `Delivery`, `Replays`, `InvitationLedger`,
  `StatementLog`, and tenant isolation in `Tenancy`, `Neighbours`, `NonInterference`, `TenantRuns`.
- **Interleaved requests.** `Interleaving` gives each request a thread with a program counter and a
  possibly stale snapshot, and lets any schedule advance them; a thread nobody interrupts is proved
  to do what `Serve` does.  On these schedules: `SenderBinding`, `RetireRace`, `RetireWitness`,
  `CascadeRace`, `AdminRace`, `AuthorityRace`, `RaceAnswers`, and in `Schedules` what quotas, invitations and the replay defence keep,
  there with clock readings in any order.
- **Smaller cores.** `Ttl` (the lifetime clamp on 64-bit arithmetic), `Rfc3339` (timestamps as text),
  `SigningString` (what a signature covers), `Address` (server addresses), over the text cuts of `Texts`.

Signatures are modelled by the set of keys a request's signature verifies under, hashes by their
inputs, and fresh ids by inputs that a request brings along; an id that is already taken makes the
insert fail as the schema's constraints do.  A signed request brings the clock reading at which its
window was checked; its later steps read the clock anew, once for all of them when it is served
atomically and at every turn when it is interleaved.

## Where the code and its comments part

The model follows the code.  In six places the comments say, or let one read, more than the code
does; each is settled by a lemma:

- `RevokeDevice` says two admins revoking each other concurrently cannot both pass.  They can when
  they are the account's only live devices (`AdminRace.MutualRevocationRace`); the exact condition is
  `Admins.MutualRevocation`.
- Retiring a queue drops its undelivered messages, and a retired queue then holds none as long as
  requests are atomic (`Cascade.RevocationCascade`); but `AppendMessage` does not look at the flag, so a send already past
  its lookup can still store a message (`RetireRace.RetiredCanHold`, and `RetireWitness` from an empty
  relay); `RetireRace.RetiredHoldsIffStray` says exactly when.
- A revoked device's queues are said to be unreachable and its endpoint gone
  (internal/store/store.go:612-616), and so they are as long as requests are atomic; but creating a queue, writing a bundle and setting an endpoint do not look at the
  flag, so a request of the device's own that was authorised before the revocation can leave it with one
  after (`CascadeRace.RevokedCanOwn`); `CascadeRace.RevokedHasIffLateGift` says exactly when.
- A nonce is said to need remembering for the skew window only, as a stale timestamp is already refused.
  But the window and the cache are asked at two clock readings, the second taken before the cache is
  locked.  A replay whose window is checked in time passes if its cache reading is at the expiry or past
  it (`Nonces.ReplayAtExpiry`, `Nonces.SplitReadingsReplay`), and also if both its readings are before
  the expiry but a call with a reading past it has taken the lock first (`Nonces.OvertakenReplay`).
  `Nonces.NoReplay`, `Replays.ActedOnOnce` and `Schedules.ActedOnOnceInterleaved` say exactly when; with
  one reading a request and requests in order, the expiry is the only instant (`Replays.ActedOnOnceInOrder`).
- The seven-day clamp multiplies in 64-bit nanoseconds and is exact only as far as that product does
  not wrap (`Ttl.ClampExactness`, `Ttl.ClampOverflows`).
- An address is said to print back in its canonical form.  A host with a colon that did not come in
  brackets, or a bracketed one in web-PKI form on port 443, prints to a text that no longer reads as
  that address; the exact condition is `Address.PrintReadsBack`.

## Model

| member | source | states |
|---|---|---|
| `Persistence.Store.StoredBytes` | internal/store/queue.go:174-220 | the SUM over live rows, joins included, as a loop that equals the recursive sum at any of the three levels |
| `Persistence.Store.DeleteWhere` | internal/store/queue.go:241-291 | a DELETE by any of the WHERE clauses leaves exactly the other rows in order and reports how many it removed |
| `Persistence.Store.ReadQueue` | internal/store/queue.go:246-268 | reads a queue's rows in rowid order |
| `Persistence.Store.CreateQueue` | internal/store/queue.go:47-75 | opens a queue for an existing device, refusing bad keys and taken ids |
| `Persistence.Store.BindSenderKey` | internal/store/queue.go:93-109 | binds the sender key only if the queue is unbound and live, and says whether it did |
| `Persistence.Store.RetireQueue` | internal/store/queue.go:113-127 | drops the queue's messages and marks it retired |
| `Persistence.Store.RoomFor` | internal/store/queue.go:166-220 | the three ceilings checked narrowest first, skipping those not set, agree with the rule that landing on a ceiling is allowed |
| `Persistence.Store.AppendMessage` | internal/store/queue.go:134-237 | stores the message if the queue resolves, all three ceilings have room and the id is new; otherwise changes nothing and reports why |
| `Persistence.Store.DrainMessages` | internal/store/queue.go:241-269 | purges the queue's expired rows and returns the rest in order |
| `Persistence.Store.DeleteMessages` | internal/store/queue.go:273-291 | deletes the named messages of this queue only, counting expired rows too |
| `Persistence.Store.PurgeExpired` | internal/store/queue.go:321-328 | deletes every expired row and counts them |
| `Persistence.Store.SetDeviceQuota` | internal/store/store.go:706-716 | sets a live device's ceiling, and nothing else |
| `Persistence.Store.SetQueueQuota` | internal/store/store.go:737-747 | sets a live queue's ceiling, and nothing else |
| `Persistence.Store.CreateAccount` | internal/store/store.go:348-374 | provisions an account with its ceiling resolved and its mode checked |
| `Persistence.Store.CreateInvitation` | internal/store/store.go:392-435 | mints an invitation whose grant is normalised to admin in a flat account |
| `Persistence.Store.RevokeInvitation` | internal/store/store.go:471-484 | revokes exactly the account's unconsumed, unrevoked invitations with that id and reports whether that was one |
| `Persistence.Store.AssertNotLastAdmin` | internal/store/store.go:841-865 | the two counts decide exactly whether the act would strip the last admin |
| `Persistence.Store.RegisterDevice` | internal/store/store.go:490-574 | consumes a redeemable invitation and enrols a device in its account, or leaves both untouched |
| `Persistence.Store.RevokeDevice` | internal/store/store.go:627-672 | applies the last-admin check to acts on others, then takes messages, queues, bundle and endpoint in one step |
| `Persistence.Store.SetDeviceRole` | internal/store/store.go:791-833 | changes a live device's role in a managed account unless that demotes the last admin |
| `Persistence.Store.PromoteDevice` | internal/store/store.go:870-886 | the operator's recovery: makes a live device of a managed account an admin |
| `Persistence.Store.AppendStatement` | internal/store/store.go:914-951 | numbers the statement after the highest kept and trims to the newest 256 |
| `Persistence.Store.ListStatements` | internal/store/store.go:957-977 | returns the rows numbered above `since`, oldest first |
| `Nonces.NonceCache.CheckAndAdd` | internal/server/auth.go:126-141 | the pruning loop and both strict comparisons compute exactly the specified cache and answer |
| `Service.Server.ExtractSignature` | internal/server/auth.go:39-63 | accepts a present timestamp within the skew on either side of the reading the window is checked at |
| `Service.Server.VerifyAndRecord` | internal/server/auth.go:70-77 | verifies before it records, so a forged request never changes the cache |
| `Service.Server.RequireSignature` | internal/server/auth.go:84-110 | for every call a device may make: refused unless the device is live and the request authentic |
| `Service.Server.AuthorizeRecipient` | internal/server/transport.go:257-279 | for every call on a queue: not found when unknown or retired, refused when not authentic |
| `Service.Server.HandleSend` | internal/server/transport.go:77-161 | does and answers what serving the send atomically does, in every branch |
| `Service.Server.HandleRecv` | internal/server/transport.go:192-213 | does and answers what serving the drain atomically does |
| `Service.Server.HandleAck` | internal/server/transport.go:220-237 | does and answers what serving the acknowledgement atomically does |
| `Service.Server.HandleRetire` | internal/server/transport.go:240-251 | does and answers what serving the retirement atomically does |
| `Service.Server.HandleSetQueueQuota` | internal/server/transport.go:303-329 | does and answers what serving the queue's ceiling write atomically does |
| `Service.Server.HandleRegister` | internal/server/devices.go:32-59 | does and answers what serving the registration atomically does |
| `Service.Server.HandleRevoke` | internal/server/devices.go:67-130 | does and answers what serving the revocation atomically does |
| `Service.Server.HandleSetRole` | internal/server/devices.go:352-390 | does and answers what serving the role change atomically does |
| `Service.Server.HandleCreateInvitation` | internal/server/devices.go:183-221 | does and answers what serving the mint atomically does |
| `Service.Server.HandleRevokeInvitation` | internal/server/devices.go:256-273 | does and answers what serving the invitation's revocation atomically does |
| `Service.Server.HandleAppendStatement` | internal/server/statements.go:41-82 | does and answers what serving the statement atomically does |
| `Service.Server.HandleListStatements` | internal/server/statements.go:91-118 | does and answers what serving the poll atomically does |
| `Service.Server.HandleListDevices` | internal/server/devices.go:278-297 | does and answers what serving the device list atomically does |
| `Service.Server.HandleListInvitations` | internal/server/devices.go:231-251 | does and answers what serving the invitation list atomically does |
| `Service.Server.HandleGetQuota` | internal/server/devices.go:314-337 | does and answers what serving the quota read atomically does |
| `Service.Server.HandleUpdatePush` | internal/server/push.go:66-87 | does and answers what serving the endpoint update atomically does |
| `Service.Server.HandleSetBundle` | internal/server/bundles.go:25-55 | does and answers what serving the bundle write atomically does |
| `Service.Server.HandleGetBundle` | internal/server/bundles.go:65-98 | does and answers what serving the bundle read atomically does |
| `Service.Server.HandleCreateQueue` | internal/server/transport.go:39-63 | does and answers what serving the queue's creation atomically does |
| `Service.Server.ProvisionAccount` | main.go:305-350 | the operator's account creation and founding invitation, as served atomically |
| `Service.Server.Handle` | internal/server/transport.go:77-161 | whatever the request, the imperative server does and answers what atomic service specifies |
| `Service.ServeAll` | internal/server/transport.go:77-161 | a server handed a run of requests one by one ends in the run's state and gives its answers, so every theorem about runs holds of it |
| `Integrity.StepKeepsValid` | internal/store/store.go:135-235 | every store step, whoever asks, keeps foreign keys, the sender index, rowid order and positive account ceilings |
| `Integrity.StepAges` | internal/store/store.go:135-235 | no store step removes a keyed row or undoes an identity, an owner, a bound sender key or a revoked, retired or consumed flag |
| `Integrity.MessagesAfter` | internal/store/queue.go:113-328 | a store step appends one row, deletes by one WHERE clause, or leaves the messages alone |
| `Runs.RunKeepsValid` | internal/store/store.go:135-235 | both of those over whole runs of requests |
| `Runs.ServeIsGuarded` | internal/server/transport.go:77-161 | in an atomically served request each store step that adds to a queue or device finds it live, and each revocation its caller entitled, when it is taken |
| `Answers.GenuineIff` | internal/server/auth.go:46-77 | authentication passes exactly if the timestamp is within five minutes either way of the reading it was checked at, the key verifies the signature, and the nonce is not on record past the cache's reading |
| `Answers.SetRoleDone` | internal/store/store.go:791-833 | an admin's role change writes exactly the role asked, or is refused: unknown role, flat account, target not live in the account, or the caller demoting itself as the last admin |
| `Answers.RevokeInvitationEarns` | internal/store/store.go:471-484 | a revocation marks every unconsumed invitation of the account with that id, and is acknowledged exactly if just one was open |
| `Answers.CallServed` | internal/server/devices.go:67-390 | any management request: the answer by the rows it depends on, and in every table just the change that the answer tells |
| `Admission.AppendRefusedIff` | internal/store/queue.go:134-237 | with a new id, an append is refused for a quota exactly if it would bring its queue, device or account over a positive ceiling, and otherwise stored |
| `Admission.SendServed` | internal/server/transport.go:77-161 | any send, the binding one included: not found, unauthorized, malformed, too large, full exactly for a ceiling it would bring a level over, and otherwise stored and answered its own id; a genuine first send binds its key whatever becomes of the body |
| `Rulebook.QueueCallServed` | internal/server/transport.go:192-329 | any request of a queue's owner: a live queue and a genuine signature always get a drain its live rows, an acknowledgement the rows before less the rows after, a ceiling written as asked |
| `Rulebook.RegisterServed` | internal/server/devices.go:32-59 | a registration enrols exactly with a key of 32 bytes and an invitation neither consumed nor revoked nor expired, and the row it adds |
| `Rulebook.OperatorServed` | main.go:182-350 | the operator's three acts: their answers, and the rows they write |
| `Rulebook.ServedByTheBook` | internal/server/transport.go:39-329 | every request on every valid database is answered by these tables, and every table changed as the answer tells |
| `Rulebook.RunTold` | internal/server/transport.go:39-329 | so the database of any run is what its requests and answers tell, from the empty one on |
| `Rulebook.DrainDelivers` | internal/server/transport.go:192-213 | in any run a genuine drain of a live queue is answered exactly what the run owes it |
| `LastWrites.RoleIsLastGiven` | internal/store/store.go:791-886 | over any run a device has the role of the last acknowledged role change or promotion naming it, else the one it enrolled with |
| `LastWrites.PushIsLastSet` | internal/store/store.go:605-671 | and the endpoint it enrolled with or last set, none once it is revoked |
| `LastWrites.BundleIsLastWritten` | internal/server/bundles.go:25-98 | and the bundle it last wrote, none once it is revoked |
| `LastWrites.BundleReadIsLastWritten` | internal/server/bundles.go:65-98 | so who reads a device's bundle gets the one it last wrote |
| `LastWrites.CeilingIsLastAsked` | internal/store/store.go:706-747 | a queue's or device's ceiling is the one last asked for and acknowledged, or none |
| `Authority.OnlyAdminsAct` | internal/server/devices.go:183-195 | an invitation, role change or statement is acknowledged to live admins only; a live member's genuine request is forbidden and changes nothing |
| `Authority.MintedByAuthority` | internal/server/devices.go:183-221 | over any run every invitation was minted, on the terms its row states, by the operator or by a device that was a live admin of its account at that request |
| `Authority.EnrolledByAuthority` | internal/store/store.go:490-574 | so every enrolment redeems an invitation minted with authority, before it expires |
| `Authority.RevocationKills` | internal/store/store.go:471-484 | a known device's request leaves every invitation of its account with that id dead, and says whether just one was open |
| `Authority.RevokedNeverEnrols` | internal/store/store.go:471-518 | over any run, once a revocation is acknowledged no invitation of that account with that id enrols anyone |
| `Effects.ServeEffect` | internal/server/transport.go:77-251 | what any request does to the messages can be read off the request and its answer |
| `Cascade.RevocationCascade` | internal/store/store.go:656-671 | in every reachable state a revoked device has no endpoint, no bundle and only retired queues, and a retired queue no messages |
| `Cascade.RevokedForEver` | internal/server/auth.go:84-110 | a revoked device's requests are refused in every later state and change nothing |
| `Cascade.RetiredToItsOwner` | internal/server/transport.go:257-263 | a retired queue answers its owner not found for ever, changing nothing |
| `Cascade.RetiredToItsSender` | internal/server/transport.go:79-88 | a retired queue answers its sender not found for ever, changing nothing |
| `Admins.LastAdminRule` | internal/store/store.go:841-865 | any store step that costs an account its last live admin is a self-revocation or a revocation that leaves no live device |
| `Admins.MutualRevocation` | internal/store/store.go:623-655 | of two admins revoking each other the second passes exactly if another admin stays or nobody else does |
| `Admins.EnrolmentAdmin` | internal/store/store.go:531-551 | after an enrolment the account has an admin exactly if it had one, is flat, the grant is admin, or it never had a device |
| `Admins.AdminExists` | internal/server/devices.go:67-110 | if no device of an account revokes itself with success, the account has a live admin in every state after its first enrolment, whatever refused attempts there are |
| `Admins.FlatForEver` | internal/store/store.go:801-807 | in a flat account every device ever enrolled stays an admin and every invitation grants admin |
| `AdminRace.LastAdminTurn` | internal/store/store.go:841-865 | the last-admin rule under any interleaving, however stale the caller's authorisation |
| `AdminRace.MutualRevocationRace` | internal/store/store.go:623-626 | two admins alone in an account, both authorised before either acts, both succeed and leave it empty |
| `AdminRace.InTurnTheSecondIsRefused` | internal/server/auth.go:96-100 | served in turn the second of them is refused |
| `AuthorityRace.AdminStepsEarned` | internal/server/devices.go:183-195 | under any interleaving each invitation, role change and statement is the founding of an account, or of a request whose lookup found its device a live admin of the account |
| `AuthorityRace.MintedInterleaved` | internal/server/devices.go:183-221 | so under any schedule that is where every invitation comes from |
| `RaceAnswers.LostBind` | internal/server/transport.go:108-121 | under any interleaving a bind is turned away as unauthorized, changing nothing, exactly if the queue is bound or retired by then |
| `RaceAnswers.RecapTooLate` | internal/server/transport.go:303-329 | a ceiling's write is turned away as not found exactly if its queue is retired by then |
| `RaceAnswers.RevocationConflict` | internal/store/store.go:627-655 | a revocation of another device is a conflict exactly if by then it would leave live devices without a live admin, and otherwise disables the device whatever became of the caller |
| `RaceAnswers.RoleChangeTooLate` | internal/store/store.go:791-833 | a role change is not found or a conflict exactly by the rows it then finds |
| `Quotas.StepRespectsCeiling` | internal/store/queue.go:174-220 | no store step brings the bytes of a capped level that are live at any later time above the larger of its ceiling and what would have been live then |
| `Quotas.CeilingStays` | internal/store/store.go:706-747 | a ceiling stands until it is written again |
| `Quotas.AcknowledgedRecap` | internal/store/store.go:706-747 | a ceiling asked for and acknowledged is the one in force |
| `Quotas.RecappingDeletesNothing` | internal/store/store.go:706-716 | writing a ceiling deletes no message |
| `Quotas.CeilingHolds` | internal/store/queue.go:134-237 | from any valid state, while no write of the ceiling succeeds, it stands, and if positive live bytes at the level stay within the larger of it and what was there at the start and is still live; the clock may go backwards |
| `Quotas.SinceLastSet` | internal/store/store.go:706-747 | over any run, the ceiling in force is the one the last acknowledged request asked for, and if positive bounds the live bytes from then on |
| `Quotas.AccountCeilings` | internal/store/store.go:348-374 | in every reachable state every account is within its ceiling at any time from the latest clock reading on |
| `Bulkhead.BytesAddUp` | internal/store/queue.go:187-216 | account bytes are the sum of its devices' bytes, and device bytes of its queues' |
| `Bulkhead.QuotaBulkhead` | internal/store/queue.go:148-220 | if the devices are within positive ceilings that fit in the account's, a send is accepted exactly when it brings neither its own queue nor its own device over a ceiling |
| `Bulkhead.LiveDevicesBulkhead` | internal/store/queue.go:134-237 | the same of the append itself, asking only about live devices, wherever revoked devices hold nothing |
| `Expiry.SweepsThin` | internal/store/queue.go:321-328 | a run with sweeps and the run without end in states that differ only by expired rows |
| `Expiry.LazyExpiry` | internal/store/queue.go:321-328 | leaving all sweeps out changes no answer: same drains, quota decisions and stored-bytes reads; only an acknowledgement's count may be larger |
| `Delivery.RowsAreOwed` | internal/store/queue.go:222-232 | a queue's live rows are exactly what the requests and answers of the run say is owed |
| `Delivery.CountedIsDeliverable` | internal/store/queue.go:174-190 | the bytes held against a queue's ceiling are the bytes a drain would hand out at that time |
| `Delivery.FifoDelivery` | internal/store/queue.go:241-269 | a drain returns, in append order, exactly the accepted messages not acknowledged, dropped or expired |
| `Delivery.OwedIff` | internal/store/queue.go:241-269 | a message is owed exactly if some accepted send carried it, it is live, and nothing dropped it since |
| `Delivery.AckedNeverReturns` | internal/store/queue.go:273-291 | a dropped id is returned again only if a later send was given the same id |
| `Delivery.Redelivered` | internal/store/queue.go:241-269 | what one drain returned the next returns again unless dropped or expired between |
| `Tenancy.OwnStep` | internal/store/store.go:471-484 | a store step on one account's rows leaves everything outside that account as it was |
| `Neighbours.NeighbourStep` | internal/store/queue.go:205-220 | a store step elsewhere does and replies the same with the account removed |
| `NonInterference.StepsAddressed` | internal/server/devices.go:67-110 | a request addressed to an account takes steps on that account's rows only, and others none there |
| `TenantRuns.TenantNonInterference` | internal/server/devices.go:67-110 | deleting every request addressed to one account from a run leaves every other request's answer unchanged |
| `TenantRuns.RenumberedInOrder` | internal/store/store.go:199-210 | the messages of the other accounts are the same rows in the same order, up to an order-preserving renumbering |
| `Nonces.AnswersAsFullHistory` | internal/server/auth.go:126-141 | asked in the order of its clock readings, the pruned cache answers every call as the full history of accepted keys would |
| `Nonces.EntriesStand` | internal/server/auth.go:126-141 | whatever the order of the readings, the map holds a key exactly if an accepted call with it was neither accepted once more nor passed by a reading past its expiry |
| `Nonces.AcceptsAgainIff` | internal/server/auth.go:126-141 | asked again about a key for the first time since, the cache accepts it exactly at its expiry or later, or after a call with a reading past it |
| `Nonces.NonceKeyInjective` | internal/server/auth.go:76 | nonces of different principals never meet in the cache |
| `Nonces.AcceptedIff` | internal/server/auth.go:46-77 | a signed request is accepted exactly if its timestamp is in the window and no accepted showing of its nonce stands against it: not expired, not accepted once more, and not pruned by a later reading |
| `Nonces.NoReplay` | internal/server/auth.go:46-77 | once accepted, and its nonce unused since, it is accepted again exactly if its window is checked in time and the cache is asked at timestamp plus skew or later, or was asked past it in between; never before some reading has got there |
| `Nonces.NoReplayInOrder` | internal/server/auth.go:46-77 | if the cache is asked in the order of its readings only the request's own two count |
| `Nonces.EarlierExpiryReplays` | internal/server/auth.go:66-77 | any shorter expiry would let a request be replayed within its window |
| `Nonces.WindowIsNeeded` | internal/server/auth.go:46-52 | without the window the cache accepts the same request again at any time from its expiry on; past that instant the window alone refuses it |
| `Nonces.ReplayAtExpiry` | internal/server/auth.go:131-138 | at the expiry instant itself the replay is accepted |
| `Nonces.SplitReadingsReplay` | internal/server/auth.go:50-127 | with the window checked in time, a replay whose cache reading is at the expiry or any time later is accepted |
| `Nonces.OvertakenReplay` | internal/server/auth.go:126-141 | with both readings before the expiry it is accepted too, if a call of another nonce read the clock past it and locked the cache first |
| `Replays.OnlyAuthenticActs` | internal/server/auth.go:84-110 | a signed request that fails window, signature or nonce changes no table |
| `Replays.SeenIsReplayed` | internal/server/auth.go:70-77 | the cache of any run is the one its verified showings make |
| `Replays.AuthenticIsAccepted` | internal/server/auth.go:70-77 | passing the defence in a run is being accepted among its showings |
| `Replays.ActedOnOnce` | internal/server/auth.go:70-77 | in any run a signed request acted on once, and its nonce unused since, is acted on again exactly if its window is checked in time and it is served at timestamp plus skew or later, or the cache was asked past that in between |
| `Replays.ActedOnOnceInOrder` | internal/server/auth.go:46-77 | with a clock that does not go backwards only its own two readings count, and where they are one it is acted on again at no other instant than timestamp plus skew |
| `InvitationLedger.ServeRegisters` | internal/server/devices.go:32-59 | a registration answers with the device and its account exactly if it enrolled it |
| `InvitationLedger.InvitationConservation` | internal/store/store.go:500-562 | over any run the enrolments are a one-to-one correspondence of devices and consumed invitations, account by account, none of them revoked |
| `InvitationLedger.AsManyDevices` | internal/store/store.go:500-562 | an account has as many devices ever enrolled as consumed invitations |
| `InvitationLedger.EnrolledAsGranted` | internal/store/store.go:531-551 | the enrolled role is the stored grant, except that an account's first device ever is an admin |
| `StatementLog.AppendRefines` | internal/store/store.go:914-951 | appending to the trimmed log gives the tail of the untrimmed one |
| `StatementLog.LogIsWindow` | internal/store/store.go:890-951 | after any run an account's rows are numbers max(1, n-255) to n with the accepted blobs, n the lifetime count |
| `StatementLog.NumberedByLifetime` | internal/server/statements.go:41-82 | each accepted statement is answered its lifetime number |
| `StatementLog.ReaderReconstructs` | internal/store/store.go:953-977 | a reader polling with its highest number has the whole history exactly if no poll found it more than 256 behind |
| `StatementLog.DiligentReader` | internal/server/statements.go:91-118 | the same of a device polling in a run of the relay |
| `Interleaving.TurnIsOneStep` | internal/server/transport.go:77-161 | a turn of any thread changes the database by at most one store step |
| `Interleaving.ScheduleKeepsValid` | internal/store/store.go:135-235 | under any schedule the database stays valid and what is for ever stays |
| `Interleaving.UninterruptedIsAtomic` | internal/server/transport.go:77-161 | a thread nobody interrupts does and answers what atomic service does |
| `Schedules.CeilingHoldsInterleaved` | internal/store/queue.go:134-237 | quota safety under any interleaving and any order of clock readings: while no turn sets a ceiling it stands, and if positive live bytes stay within the larger of it and what was there at the start and is still live |
| `Schedules.SinceLastSetInterleaved` | internal/store/store.go:706-747 | under any schedule the ceiling in force is the one the last turn to set it wrote, with the same bound |
| `Schedules.AccountCeilingsInterleaved` | internal/store/store.go:348-374 | under any schedule, whatever the order of the clock readings, every account is within its ceiling |
| `Schedules.InvitationConservationInterleaved` | internal/store/store.go:500-562 | under any schedule the enrolments are a one-to-one correspondence of devices and consumed invitations, none of them revoked |
| `Schedules.EnrolledAsGrantedInterleaved` | internal/store/store.go:531-551 | under any schedule the enrolled role is the grant, but for an account's first device |
| `Schedules.ActedOnOnceInterleaved` | internal/server/auth.go:46-141 | concurrent showings of one signed request, with separate readings for window and cache that come in any order: exactly when it passes once more |
| `SenderBinding.OneBind` | internal/store/queue.go:93-109 | in any schedule at most one bind of a queue succeeds |
| `SenderBinding.KeyIsForEver` | internal/store/queue.go:93-109 | a bound key never changes |
| `SenderBinding.BoundToVerifiedKey` | internal/server/transport.go:102-121 | a bind binds the key its send was verified under |
| `SenderBinding.BoundIffBoundOnce` | internal/server/transport.go:108-121 | a queue is bound to a key exactly if some turn bound it |
| `SenderBinding.SenderBinding` | internal/server/transport.go:77-150 | every message ever stored on a queue was verified under exactly the key the queue is bound to, then and ever after |
| `RetireRace.SendsOnlyLand` | internal/server/transport.go:79-88 | a send in flight on a retired queue was in flight when it was retired |
| `RetireRace.RowsOfRetiredAreStray` | internal/server/transport.go:138 | every row found in a retired queue was stored, that very row, after the retirement by a send that had looked the queue up before |
| `RetireRace.RetiredHoldsIffStray` | internal/store/queue.go:134-237 | in any schedule a retired queue holds a message at some point exactly if some turn takes the append of a send that looked it up before its retirement |
| `RetireRace.QuietForEver` | internal/store/queue.go:113-127 | once no send is in flight on a retired queue no row is ever added |
| `RetireRace.PurgedForGood` | internal/store/queue.go:321-328 | then one purge at or after its last expiry leaves it empty for good |
| `RetireRace.RetiredCanHold` | internal/store/queue.go:156-166 | the race from its requests: on any live bound queue with room, a send and a retirement arrive, look up and are authorised, the retirement acts first, both are answered with success and the retired queue holds the message |
| `RetireWitness.RetiredHoldsFromEmpty` | internal/server/transport.go:77-161 | a concrete schedule of requests to an empty relay ends that way |
| `CascadeRace.RevokedHasIffLateGift` | internal/store/store.go:605-671 | in any schedule a revoked device has an endpoint, a bundle or a live queue at some point exactly if some turn gives it one for a request of its own that had found it live before the revocation |
| `CascadeRace.BareForEver` | internal/server/auth.go:96-108 | once no such request is left unanswered, a revoked device that has nothing never gets anything |
| `CascadeRace.RevokedAgainForGood` | internal/store/store.go:638-671 | and one more revocation then takes whatever it was left with, for good |
| `CascadeRace.RevokedCanOwn` | internal/server/transport.go:39-63 | the race from its requests: a device opens a queue while it is revoked, the revocation acts first, both are acknowledged, and the revoked device owns a live queue its sender id leads to |
| `Ttl.ClampBounds` | internal/server/transport.go:282-291 | never more than seven days, and exact for seconds up to 9223372036 |
| `Ttl.ClampExactness` | internal/server/transport.go:282-291 | beyond that exact precisely when the wrapped product is still over the maximum |
| `Ttl.ClampOverflows` | internal/server/transport.go:282-291 | the next value yields a message dead on arrival |
| `Rfc3339.CivilOfSecond` | internal/store/store.go:329 | every second has one valid date and time, and that date and time stands for it |
| `Rfc3339.TextOrder` | internal/store/store.go:8-10 | for years 0000 to 9999 comparing the stored texts is comparing instants cut to the second |
| `Rfc3339.FifthDigit` | internal/store/store.go:8-10 | from year 10000 on it is not |
| `Rfc3339.MessageLifetime` | internal/store/queue.go:139-185 | by text comparison a message is live until a second before sent plus ttl and dead from then on, with ttl at most seven days |
| `Rfc3339.PurgeComplementsLive` | internal/store/queue.go:243 | the purge's comparison and the sums' comparison of texts are complements |
| `Address.ParsedIsWellFormed` | client/address.go:54-98 | whatever is accepted has a proper host, a port in range, and a fingerprint exactly in pinned mode |
| `Address.AcceptedIffWellFormed` | client/address.go:54-98 | and every such address is what some text is accepted as |
| `Address.PrintReadsBack` | client/address.go:113-124 | a well-formed address reads back from its print exactly unless its host has a colon and is printed bare (web-PKI on port 443) or may not stand in brackets |
| `Address.RoundTrip` | client/address.go:54-124 | the same of every accepted text |
| `Address.RoundTripForIpLiterals` | client/address.go:54-124 | if only IP addresses may be bracketed, the accepted texts that round-trip are exactly the hosts without a colon and the bracketed IP literals of pinned mode |
| `Address.PrintIsInjective` | client/address.go:113-124 | one print, one address |
| `Address.DeletionKeepsPin` | client/address.go:54-98 | no deletion of characters turns a valid pinned address into a valid web-PKI one |
| `SigningString.ReadsBackIffClean` | internal/sigauth/sigauth.go:37-43 | the fields read back from the string exactly if method, timestamp and nonce carry no newline, whatever the path holds |
| `SigningString.SignsOneRequest` | internal/sigauth/sigauth.go:37-43 | then equal strings mean equal method, path, timestamp, nonce and digest |
| `SigningString.NewlinesConfuse` | internal/sigauth/sigauth.go:37-43 | a newline in any of the three makes two requests sign alike |

## Left out

- HTTP routing, JSON and base64 decoding: a request arrives decoded, with `None` where decoding failed.
- Ed25519, SHA-256 and the random generator: inputs, as described above; forgery is not modelled.
- SQLite itself: a transaction is one atomic step; migrations, `created`, `last_seen`, `capabilities` and the account's status column are left out.
- Push wake-ups, TLS and certificate pinning, the command line, the health route and the client's request wrappers.
- The order of device and invitation lists: both are modelled as maps and sets.
- `GetQuota`, `PromoteDevice` and `CreateInvitation` (its read of the account's mode and its insert) run two statements each; the model takes each as one step.  So does the interleaving of a handler's authorisation with the read of a revocation's or a bundle's target row.
- Restarts: one empties the replay cache, so a request shown before it can be shown again within its window.
- Sums of payload bytes are unbounded integers, not int64.
- The operator's read-only command that shows a device's ceiling.
- `created`-time tie-breaking, and for the theorems about runs that say so (expiry, delivery, tenants) a clock that steps backwards.
- Address.ParsedIsWellFormed: URLs are read by the grammar of RFC 3986, with `<`, `>`, `"` and non-ASCII characters let through in hosts and, as a parameter, colons outside brackets; percent-encoding, IPv6 zones and square brackets inside an unbracketed host, which Go's parser treats in its own way, are not modelled.
- Address.AcceptedIffWellFormed: the accepted texts are those of that grammar, for the same reason.
- Address.RoundTrip: ranges over the texts that grammar accepts, for the same reason.
- SigningString.SignsOneRequest: two bodies with the same SHA-256 digest sign alike; digests stand for bodies.
- Expiry.LazyExpiry: assumes that no send's fresh message id equals that of a row still stored.
- TenantRuns.TenantNonInterference: assumes fresh ids, and says nothing of the sweep's own row count.
