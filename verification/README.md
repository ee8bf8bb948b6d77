# Verification of the askpass service

A Dafny model of the parts of ssh-askpass-fido where credentials and popups can go wrong, with proofs
about every run of them. `dafny verify dfyconfig.toml` checks the whole project.

## What is modelled

**The credential cache.** `CacheModel` gives each operation of the store (`Begin`, `Current`, `Reject`,
`Commit`, `Forget`, `Sweep`) as one atomic step on values, with the clock readings as parameters and
expiry as a relation, because the order in which overdue entries are wiped decides their numbers.
`CacheStore.Store` is the same store with records and byte buffers changed in place; each method is proved
to be such a step, and its invariant says that every buffer ever allocated belongs to exactly one slot or
is all zero. `CacheInvariant`, `CacheHistory`, `CacheLife`, `CacheRetry` and `CacheLease` prove facts over
all interleavings of operations; `CacheAnswers` says, by the numbers, what every look, check, sweep and
forget must answer and leave behind. `CacheIdentity` has the identities with their file and device stamps,
`Ipc` is the version-1 endpoint over that store.

**The request controller.** `HandleModel` is `Service.Handle` as a step machine per request and a world
of any number of requests, version-1 clients, forgetting and sweeping that share one store and the
hardware slot. User, devices and clock are free. `HandleScript` is one request as a function of everything
it meets (answers of user, devices, cache and connection), proved to take exactly the machine's steps;
`HandleClass` is the same code as a loop over attempts inside a loop over device selections, proved to do
and to end exactly as that function says. `HandleSafety`, `HandleDelivery`, `HandleSlot` and
`HandleMisdirect` say what no run does, `HandleVerdict` and `HandleAnswers` what every run must do with a
verdict, a hit or the user's choice to keep a credential; `HandleExample` has two runs from the start of the
service. `Adapter` is the askpass adapter and `Exchange` puts it at the other end of one request's
connection.

**The passive touch pipeline.** `Descriptor` is the one-pass HID descriptor parser; `DescriptorBytes` fixes
which bytes the items are by an encoder of its own, `DescriptorMeaning` is a declarative reading of the item
list that knows nothing of stacks, `DescriptorParse` proves that reading and parser agree, and
`DescriptorShape` that 32-bit words suffice. `Tracker` follows CTAPHID channels. `Monitor` opens the devices
a scan finds and turns what they report into alternating starts and ends per device; `MonitorScan` and
`MonitorModel` say which devices a scan must open and what a poll must take from them. `Popups*` is the
wake-up mailbox with its workers, and `TouchPipeline` runs monitor and popups together, from the reports of
the devices to the workers.

**Prompts.** `Askpass` classifies OpenSSH prompts; `Prompts` prints them and proves when reading back
gives the same key; `Notices` says which prompts announce a touch, however they are spaced. `Text` has UTF-8 and unpadded base64 as far as they are needed.

## Findings

- A request that holds the hardware slot does not always know the live credential of its device. Its
  first look into the cache can withhold a live PIN, because there is no room for a ticket or a retry
  record, or because the caller has a retry record naming another version. A later look of the same
  request can then hit: its secret is not used, but its version is remembered, so the next refused PIN
  rejects a credential that was never tried. `HandleMisdirect.MisdirectedIff` says exactly when this can
  happen, by the guards of those branches at the first look, and `HandleMisdirect.LaterHitIff` that a later
  look can hit under the same condition and no other.
  - The record branch alone suffices only if a sweep finds the caller dead while its own request is open,
    since a caller with a record is handed nothing before that. The helper ends its request when its
    parent, the caller, dies (internal/app/app.go:32-33), so this takes a helper that outlives its parent.
    `HandleExample.RejectsUntried` is such a run.
  - As long as every sweep finds the callers of unfinished requests alive, the condition is that there was
    no room and, where records were what ran out, that another caller holds one. Room comes back when a
    ticket is used up or a record is swept. `HandleExample.RejectsUntriedAttended` is such a run, with all
    256 tickets taken at the first look.
- The unquoted prompt for a path `key '` has the beginning and the end of a quoted prompt, which overlap;
  the code reads the path `:` from it, and no form of prompt prints that path so
  (`Prompts.OverlapMisread`). `Prompts.OnlyPrinted` shows that a recognised prompt was printed from the key
  read if and only if its quotes do not overlap.

## Model

| member | source | states |
|---|---|---|
| Text.ValidUtf8Iff | internal/askpass/protocol.go:61-63 | the byte-level validity test accepts exactly the encodings of Unicode strings |
| Text.DecodeEncode64 | internal/askpass/protocol.go:92-93 | strict unpadded base64 decoding inverts encoding on all byte strings |
| Askpass.FingerprintIff | internal/askpass/protocol.go:86-94 | accepted fingerprints are exactly the canonical encodings of 32-byte digests |
| Askpass.ValidIsShaped | internal/askpass/protocol.go:84-94 | every valid fingerprint fits the pattern the agent prompt is matched with |
| Askpass.ValidateIff | internal/askpass/protocol.go:57-65 | a response is fit to print or keep if and only if it is the UTF-8 form of a text of at most 1022 bytes without NUL or line break |
| Notices.TouchIff | internal/askpass/protocol.go:37-39 | however it is spaced, a prompt announces a touch if and only if its first five words are "Confirm user presence for key" |
| Notices.NotifiesIff | internal/askpass/protocol.go:29-48 | for all arguments and hints, a request is a silent notification if and only if the hint is "none", or there is no hint and the prompt announces a touch |
| Prompts.PrintedIsInput | internal/askpass/protocol.go:29-55 | a printed key prompt, whatever follows its beginning, is an input request, never a touch notification, and PIN prompts get the PIN title |
| Prompts.PathRoundTrip | internal/askpass/protocol.go:96-129 | printing a path in any of the recognised forms, then parsing and extracting the key, gives the path and kind back if and only if the path meets the form's stated limits |
| Prompts.FingerprintRoundTrip | internal/askpass/protocol.go:83-105 | the same for agent keys: back if and only if the fingerprint is valid, always under the PIN title |
| Prompts.PinsAreTitled | internal/askpass/protocol.go:49-50 | for all arguments and hints, a key of kind pin comes only with the title that makes its verification compulsory |
| Prompts.PinsIffTitled | internal/askpass/protocol.go:49-50 | for all arguments and hints, a key that may be cached is of kind pin if and only if its request carries the PIN title |
| Prompts.OnlyPrinted | internal/askpass/protocol.go:98-129 | what is recognised as a key was printed from that key if and only if the prompt is not one that passes the test of the quoted branch with quotes that overlap |
| Prompts.OverlapMisread | internal/askpass/protocol.go:107-111 | the unquoted prompt for the path `key '`, with or without the last space, is read as the path `:`, from which no form of prompt prints it |
| CacheIdentity.DeviceStampInjective | internal/service/service.go:247 | device stamps determine both base stamp and connection, whatever the connection holds, and are never plain stamps |
| CacheIdentity.ResolvesIff | internal/cache/identity.go:31-55 | a key resolves if and only if it is the PIN of an agent key, or a passphrase or PIN of a path with a regular file of this user |
| CacheIdentity.SameFileIff | internal/cache/identity.go:41-54 | two files give the same identity if and only if their canonical path, device, inode, size and both times agree |
| CacheInvariant.StepKeeps | internal/cache/store.go:62-218 | every atomic operation keeps the store's invariant, changes no version it keeps, and creates live secrets only by a successful commit of those bytes |
| CacheInvariant.BeginAnswers | internal/cache/store.go:62-115 | a look answers a hit, a lease or a refusal, and what it may do to the entry in each case |
| CacheAnswers.LooksAreAnswered | internal/cache/store.go:62-115 | in every reachable state a look is Disabled exactly without a lifetime, else Capacity exactly with 256 tickets in date, 4096 records and one more needed, or 256 entries and one more needed, else a hit exactly for an unexpired credential of that identity and a caller without a record, else a new token with the reason |
| CacheAnswers.LeaseLastsTenMinutes | internal/cache/store.go:112-114 | an issued token is for this caller, this identity and the version the look leaves in place, until ten minutes after the look |
| CacheAnswers.CurrentByOperations | internal/cache/store.go:118-125 | a check succeeds if and only if the version it names was committed for this identity less than the lifetime before and no operation has ended it since |
| CacheAnswers.SweepLeaves | internal/cache/store.go:188-218 | a sweep keeps exactly the records of living callers, their tickets in date, and the entries with an unexpired credential or with such a ticket; empty entries nobody waits for go |
| CacheAnswers.ForgetLeaves | internal/cache/store.go:158-172 | a forget removes exactly the entries and tickets of its key, or all of them, and nothing else |
| CacheAnswers.AgentPINIff | internal/cache/identity.go:22-24 | the keys that leave no retry record are exactly the PINs known by the canonical fingerprint of a 32-byte digest |
| CacheExpiry.ExpiryExists | internal/cache/store.go:174-186 | in every state and at every time some order of expiry is possible |
| CacheHistory.CapacitiesHold | internal/cache/store.go:77-88 | in every reachable state at most 256 entries, 256 tickets and 4096 records; live tickets have entries and, for files, records |
| CacheHistory.VersionStamps | internal/cache/store.go:59-60 | in any run, two moments at which entries carry the same version agree on key, identity, bytes and expiry |
| CacheHistory.HitThenCurrent | internal/cache/store.go:118-125 | a hit followed any time later by a positive check of its version means the same, unexpired bytes |
| CacheHistory.HitWasStored | internal/cache/store.go:100-108 | every hit goes back to one commit of those bytes for that identity, less than the lifetime before, however many hits came between |
| CacheHistory.IssuedOnce | internal/cache/store.go:112-114 | no token is issued twice |
| CacheHistory.CommitIff | internal/cache/store.go:136-156 | a commit succeeds if and only if its token was issued to this caller for this identity, unused, unexpired, unswept, unforgotten, for a version still in place, and the answer is valid and not empty |
| CacheHistory.OneCommitPerVersion | internal/cache/store.go:145-151 | of all leases on one version at most one ever commits |
| CacheHistory.ForgottenStaysForgotten | internal/cache/store.go:158-172 | a lease issued before a forget of its key can never commit after it |
| CacheLife.StepEndsIff | internal/cache/store.go:62-218 | an operation leaves a live credential exactly as it is if and only if it neither reaches its expiry nor is aimed at that version or its key |
| CacheLife.StaysUntilEnded | internal/cache/store.go:62-218 | in any run a live credential is there, unchanged, exactly as long as nothing has ended it, and never comes back |
| CacheLife.CommittedStaysUntilEnded | internal/cache/store.go:148-155 | a committed answer is live under its identity with its expiry from its commit on, exactly until something ends it |
| CacheRetry.OneCandidatePerCaller | internal/cache/store.go:70-112 | from its first tracked look until it is swept as dead, a caller is handed no second cached secret for a file key |
| CacheRetry.AgentLeavesNoRecord | internal/cache/store.go:71-75 | agent fingerprint keys never leave a retry record |
| CacheRetry.RetryErasesIff | internal/cache/store.go:95-99 | a retry wipes a live entry if and only if its version is one the caller was handed or itself stored; a newer answer is left as it is |
| CacheLease.VersionStays | internal/cache/store.go:62-218 | the version of an entry, live or empty, is in place exactly as long as no operation of the run has ended it, as told from the operations, if no sweep drops the entry |
| CacheLease.CommitByOperations | internal/cache/store.go:134-156 | a commit succeeds if and only if the answer is valid and not empty, a look by the same caller for the same identity issued the token, and no operation in between took the ticket away or ended the leased version |
| CacheStore.Store.Begin | internal/cache/store.go:62-117 | refines the atomic step in place; a returned secret is a fresh copy never owned by the store |
| CacheStore.Store.Current | internal/cache/store.go:118-125 | refines the atomic step in place |
| CacheStore.Store.Reject | internal/cache/store.go:126-132 | refines the atomic step in place, wiping the buffer it drops |
| CacheStore.Store.Commit | internal/cache/store.go:134-156 | refines the atomic step in place; the stored buffer is a fresh copy, the caller's buffer is unchanged and not kept |
| CacheStore.Store.Forget | internal/cache/store.go:158-172 | refines the atomic step in place, in any order of the maps |
| CacheStore.Store.Sweep | internal/cache/store.go:188-218 | refines the atomic step in place, in any order of the maps |
| CacheStore.Store.Expire | internal/cache/store.go:174-186 | the expiry loops compute some allowed order of expiry and wipe every buffer they drop |
| CacheStore.Store.Wipe | internal/cache/store.go:60 | the buffer is cleared, the slot renumbered, all other slots unchanged |
| Ipc.Handle | internal/cacheipc/ipc.go:305-360 | a version-1 request is refused exactly for another version, an unknown operation, a begin or commit without caller, absolute path or identity, or a forget of a key no entry can have, with the reason that holds; refused, it is no operation on the store, else those of its verb, one or two, for the process asking and the identity its key resolves to; the client's bytes are wiped and never kept |
| Ipc.ResolvedIsPlain | internal/cache/identity.go:31-55 | what version-1 clients begin or commit never carries a device stamp |
| HandleClass.Request.Handle | internal/service/service.go:143-438 | for every complete course of answers from user, devices, cache and connection, the nested loops and the jump back to the selection meet all of it in order, do to cache and devices exactly what the request's script makes of it, and end as the script does |
| HandleScript.StepIff | internal/service/service.go:143-438 | the script and the request machine have exactly the same steps: each step of the machine is the answer to something met, and each answer is a step |
| HandleScript.CodesFit | internal/service/service.go:143-438 | a request ends with the code that the last thing it met calls for: 2 only when a window could not be shown, 1 only when the user gave up, had cancelled or was told of an error, 0 only after the answer was stored or needed no storing, none only when slot, connection or context was gone |
| HandleScript.ValuesAreGiven | internal/service/service.go:256-288 | what is tried, committed or delivered is, byte for byte, something the user submitted or the cache handed out in this request |
| HandleSafety.HandlerKeeps | internal/service/service.go:143-438 | each request keeps its own invariant under any answers |
| HandleSafety.WorldKeeps | internal/service/service.go:143-438 | every step of the concurrent service keeps the world invariant: slot ownership, versions in use, accepted bytes |
| HandleSafety.WorldReachable | internal/service/service.go:143-438 | the invariant holds at every moment of every run |
| HandleSafety.StoredPinsWereAccepted | internal/service/service.go:411-417 | every live secret stored under a device stamp was accepted earlier by a device of exactly that connection |
| HandleSafety.CachedPinsStayOnTheirDevice | internal/service/service.go:247-256 | a cached value given to a device was accepted earlier over the connection it is now tried on |
| HandleDelivery.DeliveredPinsWereVerified | internal/service/service.go:339-393 | in verified mode a secret goes out only if the latest device call accepted exactly those bytes on the selected device, no cancellation was seen afterwards, and a cached version was confirmed after the call |
| HandleDelivery.ForgettingSuppresses | internal/service/service.go:348-353 | a delivered cached answer was in the cache, unexpired, from its origin to the check after verification, so forgetting, rejection or expiry before it suppresses the answer |
| HandleDelivery.CommittedPinsWereTyped | internal/service/service.go:407-418 | what a request commits was typed in it and not handed out by the cache, and the user asked to keep it |
| HandleVerdict.RefusedVersionsLeave | internal/service/service.go:359-366 | in every run from the start, once a device has answered Invalid, Blocked or TemporaryBlock to a request using version g, then when the request is next at an attempt or at its end no entry under its identity carries g, unless it was cut off in between by cancellation or a lost connection |
| HandleVerdict.RefusedOnce | internal/service/service.go:359-366 | no cached version is refused twice in a run unless the first request was cut off before it could reject |
| HandleVerdict.VersionsOfGoneDevicesLeave | internal/service/service.go:316-330 | when a device has gone before a PIN could be tried, no entry under the request's identity or any other carries the version in use once its error message is due |
| HandleVerdict.TriedVersionsWereCurrent | internal/service/service.go:298-304 | before each device call with a cached version, the cache has confirmed that version in this attempt, with no other step of the request that could change it in between |
| HandleAnswers.RejectionsHaveCause | internal/service/service.go:316-362 | a request rejects only the version it uses, under its own identity, and only because its device has gone or has just refused the PIN |
| HandleAnswers.HitsAreUsed | internal/service/service.go:250-256 | after a first hit, until the cache is asked again, every device call and every delivery is of the bytes handed out, and no new selection starts |
| HandleAnswers.AttemptsStartFromALook | internal/service/service.go:298-366 | each attempt of a request that may use the cache starts from the answer of its latest look, made under its present identity |
| HandleAnswers.OnlyEligibleUseCache | internal/service/service.go:250-252 | only requests allowed to use the cache ever operate on it |
| HandleAnswers.TriedDevicesAreKnown | internal/service/service.go:236-247 | no PIN is tried on a device without a known connection |
| HandleAnswers.KeptIff | internal/service/service.go:407-419 | an acknowledged answer is committed if and only if there is a token, the user asked to keep it, it is not empty, and the key still resolves to the identity the request came with |
| HandleAnswers.DeclinedIsForgotten | internal/service/service.go:420-422 | when the user declines to keep a credential there is a token for, its key has no entry and no ticket afterwards |
| HandleAnswers.OnlyWrongPinsAreAskedAgain | internal/service/service.go:359-381 | after a refusal the user is asked again if and only if the PIN was wrong, and told of a failure if and only if it is blocked |
| HandleSlot.NobodyElseStores | internal/service/service.go:164-172 | while a request holds the slot, no other request, client, sweep or forget puts a live secret under its device-bound identity |
| HandleSlot.NoRebeginHits | internal/service/service.go:298-304 | no later look of a selection hits once the request knows the live credential |
| HandleSlot.KnowingIsWellDirected | internal/service/service.go:360-362 | a request that knows the live credential rejects only the bytes just tried |
| HandleMisdirect.WithholdsIff | internal/cache/store.go:77-98 | a look leaves a live credential in place without handing it out if and only if there is no room for a ticket or record, or the record names another version |
| HandleMisdirect.MisdirectedIff | internal/service/service.go:348-366 | after the first look, a refused PIN can come to reject an untried credential if and only if that look withheld one from a request allowed to use the cache and not cancelled; as long as sweeps find the callers of unfinished requests alive, if and only if it did so for want of room that can come back |
| HandleMisdirect.LaterHitIff | internal/service/service.go:298-304 | a later look of the selection can hit under exactly the same condition on the first look, with and without such sweeps |
| HandleMisdirect.MisdirectedInRunsIff | internal/service/service.go:348-366 | both at every first look of every run from the start |
| HandleExample.RejectsUntried | internal/service/service.go:348-366 | a concrete run from the start of the service reaches such a rejection, by a sweep that finds the requester dead while its request is open |
| HandleExample.RejectsUntriedAttended | internal/service/service.go:348-366 | another run reaches one with every sweep finding the callers of unfinished requests alive, by a first look when all tickets are taken |
| AdapterModel.AdapterAlwaysOk | internal/app/app.go:58-119 | for all frames and failures, standard output holds nothing or the start of one validated response, and exit 0 after an answer means it is there in full |
| AdapterModel.LastInput | internal/app/app.go:61-69 | exit 0 comes only after a whole response, or silently on a cancelled notification |
| AdapterModel.OneAnswer | internal/app/app.go:81-119 | over any inputs at most one response is ever chosen, it is never replaced, and what is printed is never taken back |
| AdapterModel.NonzeroIsSilent | internal/app/app.go:81-85 | a nonzero result ends the adapter with that code and nothing printed |
| AdapterClass.WriteResponse | internal/askpass/protocol.go:67-79 | what reaches the writer is a prefix of the exact bytes and one line feed; it succeeds if and only if the response is valid and the output takes all of it without an error; an invalid response writes nothing, and the buffer is wiped |
| AdapterClass.Run | internal/app/app.go:58-119 | the adapter's loops end where its steps lead on exactly the frames and failures met, in order; exit code and output are those of the first turn that decides: 0 and all bytes for a valid answer the output takes whole, 2 for one it does not, the code of a failure, 0 for a cancelled notification, 1 for any other cancellation, 2 for the rest |
| Exchange.PairsOk | internal/app/app.go:58-119 | request and adapter together keep their invariant in every run over their connection |
| Exchange.CommittedAfterPrinting | internal/service/service.go:393-417 | a credential is committed only after its exact bytes and one line feed were completely written to standard output |
| Exchange.SuccessMeansPrinted | internal/app/app.go:81-116 | success at either end means the whole answer was printed, and nothing is printed before the answer is sent |
| Descriptor.Parse | internal/touch/report.go:19-141 | the loop over bytes with its stacks, tables and early returns computes the fold over the items, in any order of the closing loop; DescriptorBytes.ItemsIff says which items the bytes are |
| Descriptor.Collect | internal/touch/report.go:123-140 | the closing loop's result does not depend on the order in which the table is visited |
| DescriptorBytes.ItemsIff | internal/touch/report.go:35-54 | bytes are read as given items if and only if all are short items whose value fits and the bytes are their encoding: prefix 16*tag + 4*type + size code, then the value, lowest byte first |
| DescriptorBytes.EncodedItemsAreRead | internal/touch/report.go:35-54 | writing any short items and reading them gives them back |
| DescriptorBytes.ReadItemsAreEncoded | internal/touch/report.go:35-54 | any bytes that are read as items are what those items are written as |
| DescriptorMeaning.PoppedHere | internal/touch/report.go:72-82 | a Pop brings back exactly the globals in force at its matching Push |
| DescriptorParse.InsideIs | internal/touch/report.go:93-104 | the flag inherited down the stack is set exactly under some enclosing FIDO application collection |
| DescriptorParse.ExecIff | internal/touch/report.go:35-122 | the pass stops at the first item the declarative reading calls malformed and no other |
| DescriptorParse.RecognizeIff | internal/touch/report.go:19-141 | a layout is returned if and only if the descriptor is well formed, and it lists exactly the FIDO reports with their lengths |
| DescriptorShape.NothingOverflows | internal/touch/report.go:48-112 | no sum or product in the pass leaves 32 bits, and the page and a short usage never overlap |
| DescriptorShape.LayoutsAreShaped | internal/touch/report.go:123-140 | a layout is report 0 alone or has no report 0, and all lengths lie in 8 to 1025 |
| TrackerClass.Tracker.Report | internal/touch/report.go:159-216 | the method's effect on the pending map is that of the signal the report carries |
| TrackerClass.Tracker.Expire | internal/touch/report.go:217-223 | exactly the channels whose deadline is reached are dropped, in any order |
| TrackerClass.FitsIff | internal/touch/report.go:181-184 | one comparison accepts exactly the lengths that fit the first packet and at most 128 continuations |
| TrackerClass.SignalIff | internal/touch/report.go:174-216 | the bytes behind each signal: a keepalive of length 1 with status 2 asks for a touch, with status 1 is busy; a CBOR response of any length that fits, an error of length 1 or an INIT response of length 17 completes; nothing else tells anything |
| TrackerHistory.PendingIff | internal/touch/report.go:159-223 | a channel is pending if and only if it had an admitted request with no completion since and no expiry that reached its latest keepalive plus three seconds |
| TrackerHistory.EpisodePending | internal/touch/report.go:186-202 | while pending, the deadline is the latest keepalive plus three seconds |
| TrackerHistory.PendingBounded | internal/touch/report.go:177-197 | at most 32 channels are pending and never 0 or the broadcast channel |
| TrackerHistory.OtherChannels | internal/touch/report.go:186-215 | a report never alters another channel |
| TrackerHistory.PacketsAreWhole | internal/touch/report.go:160-174 | with a layout from the parser, the ID byte is stripped exactly when IDs are in use and the packet left has 8 to 1024 bytes |
| MonitorLog.StartsAndEnds | internal/touch/linux.go:239-252 | in an alternating log each path has as many ends as starts, less one while it is on |
| MonitorClass.Monitor.State | internal/touch/linux.go:31-36 | an activation or deactivation is recorded, is one call of the setter, and changes the mailbox's paths by exactly this one, never dropped for capacity |
| MonitorClass.Monitor.Scan | internal/touch/linux.go:149-207 | the first 256 entries have their turns in order and only FIDO ones among them stay open (MonitorScan.OpensIff and RoomForAll say which); full coverage is claimed if and only if there was no error, there are at most 256 entries, all understood, some FIDO, and all FIDO ones open under paths of their own |
| MonitorScan.OpensIff | internal/touch/linux.go:149-200 | a FIDO entry with a path of its own is open after the scan if and only if its node was open already, or its handle opens and fewer than 32 others were open when its turn came; with its old reader in the one case and a new one in the other |
| MonitorScan.RoomForAll | internal/touch/linux.go:149-200 | when the devices open before and the FIDO ones that open are at most 32 in all, exactly those already open on their node and those that open are open afterwards |
| MonitorScan.CoverIs | internal/touch/linux.go:149-206 | the counts the scan keeps tell full coverage, repeated paths included |
| MonitorModel.PolledIs | internal/touch/linux.go:208-254 | after a poll a device is open if and only if it was, did not fail, and was not found gone within its first 64 reads after nothing but reports; it has then heard the reports before the first other read, at most 64, in order, and last the check for expiry |
| MonitorClass.Monitor.PollAll | internal/touch/linux.go:208-254 | exactly the devices in trouble are dropped, every other one takes its burst of at most 64 reports and then checks expiry, in any order of the devices; full coverage is lost if and only if a device is dropped |
| MonitorClass.Monitor.DesiredIff | internal/touch/linux.go:238-253 | a popup is desired exactly for the open devices some channel of which waits for a touch |
| MonitorClass.Monitor.Run | internal/touch/linux.go:117-256 | open devices and coverage follow every scan and poll as Scan and PollAll say; what is reported only grows, alternates per path, and before and after every scan and poll leaves on exactly the open devices that wait for a touch; nothing is on, desired or covered afterwards |
| PopupsSafety.CoreKept | internal/service/touch.go:61-168 | every move of setters, workers and Run keeps the invariant on episodes, workers and records |
| PopupsSafety.LaunchIsNew | internal/service/touch.go:159-166 | a worker is started only for an episode later than every one its path has had a worker for |
| PopupsDelivery.HeardKept | internal/service/touch.go:136-167 | nothing Run has not seen goes without a wake-up under way |
| PopupsDelivery.NobodyHeldBack | internal/service/touch.go:160 | at rest the device limit holds no worker back |
| PopupsDelivery.NothingLost | internal/service/touch.go:55-168 | in every interleaving, at rest every desired device has a running worker of its current episode or one that ended without ever being cancelled, and no other worker runs |
| PopupsDelivery.OnlyOutdatedAreCancelled | internal/service/touch.go:142-146 | until Run ends, a worker is cancelled only when its device is no longer desired or is so for a later episode |
| PopupsDelivery.EndingCancelsAll | internal/service/touch.go:122-129 | when Run ends, every worker has ended or is cancelled |
| PopupsDelivery.WorkersStay | internal/service/touch.go:142-166 | a worker keeps its path and episode, and that it was cancelled or has ended is never taken back |
| PopupsDelivery.ActivationsAreRecorded | internal/service/touch.go:61-66 | an activation is recorded, under a number above all others on, unless its device is on already or 32 are |
| PopupsDelivery.RecordsAreFew | internal/service/touch.go:153-157 | between passes ended workers are on record only for devices of the last copy, 32 at most |
| PopupsDelivery.OneWorkerPerEpisode | internal/service/touch.go:61-72 | an episode starts at most one worker |
| PopupsDelivery.OneUnfinishedPerPath | internal/service/touch.go:142-166 | a path has at most one unfinished worker, and its episode exceeds all ended and recorded ones |
| PopupsDelivery.NoneOutlivesRun | internal/service/touch.go:122-129 | no worker outlives Run |
| TouchPipeline.DesiredIsWaiting | internal/touch/linux.go:220-253 | with monitor and popups interleaved in any way, at every moment exactly the open devices that wait for a touch are desired |
| TouchPipeline.WaitingIsShown | internal/service/touch.go:55-168 | whenever the popups are at rest, a device is shown if and only if it is open and waits for a touch and no worker of this episode has ended of itself, never cancelled; and every running worker shows such a device |
| TouchPipeline.HearIsSteps | internal/touch/linux.go:238-253 | what hearing a report or expiry does to readers and mailbox is one step of the pipeline, then the signal when the sink was called |
| PopupsClass.TouchPopups.SetTouch | internal/service/touch.go:55-73 | a call is the change under the lock followed by the signal of the protocol |
| PopupsClass.TouchPopups.Reconcile | internal/service/touch.go:136-167 | a pass between two wake-ups, in any order of the maps and with any moves of setters and workers between its steps, is a sequence of the protocol's moves from waking to waiting, and only theirs come from outside |

## Left out

- Dialog rendering, worker processes and their sockets: the user is a free source of answers and a latched cancellation.
- libfido2 and USB access: discovery and PIN checks give arbitrary results.
- hidraw files, ioctls and sysfs: scans, polls and reads are inputs of the monitor.
- Process lookup, pidfds and the boot clock: callers are strings, liveness a predicate fixed per sweep, the clock nondecreasing.
- JSON frames, socket ownership and deadlines: messages are typed values on ordered channels that may break at any time.
- Configuration, command line, tracing, notification requests without a prompt, confirmation dialogs and device preferences: they touch neither the cache nor the touch pipeline.
- The file system behind Resolve: what it shows of a file is a parameter that may differ from call to call; the numbers are unbounded.
- Wrap-around of the 64-bit sequence number and of clock plus lifetime: both are unbounded here.
- Prompts that are not valid UTF-8: prompts are sequences of Unicode scalar values; answers are arbitrary bytes.
- Lookup.Reason is an enumeration without an empty reason; the empty lookup of an uncacheable request has an arbitrary one.
- HandleSafety.WorldKeeps: requests are step machines rather than calls, because the property is about their interleaving; HandleClass has the calls.
- HandleClass.Request.Handle: a request is given everything it meets until it ends, so one that never ends is not covered here, only by the machine; the cache's answers are arbitrary, and the world constrains them; wiping the local buffers of typed and cached answers is not shown, since answers are values.
- MonitorClass.Monitor.State: the mailbox is empty when the monitor starts and has no other setter, as in the service.
- MonitorClass.Monitor.Run: open devices are values of the readers map with their tracker's map and history, so that sharing of reader records is not modelled; TrackerClass has the tracker in place.
- PopupsClass.TouchPopups.Reconcile: others move between the turns of the loops, not within one; a turn reads of them only whether its worker has ended, once.
- TouchPipeline.WaitingIsShown: the change of a reader and the locked part of the setter's call it leads to are one step, since nobody else sees the reader.
- PopupsDelivery.NothingLost: device labels and the inside of a popup worker are not modelled; a worker may end at any time.
- DescriptorParse.RecognizeIff: a descriptor with an unreadable item is refused whole, as in the code, so the reading says nothing about its earlier items.
