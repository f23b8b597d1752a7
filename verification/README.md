# Push gateway: verified model

The gateway has two halves. A watcher follows the AT Protocol event stream and turns likes,
replies, follows and verifications into push notifications for registered devices. A relay
takes encrypted Web Push deliveries from Fediverse servers and forwards them to the device an
endpoint belongs to. This project models the stateful and arithmetic parts of both and proves
what they promise over every input, every run and every interleaving.

The files follow the program:

| file | what it models |
|---|---|
| `Base58.dfy` | decoding of multibase keys, and the encoder that inverts it |
| `Base64.dfy`, `Vapid.dfy`, `Strings.dfy` | the four base64 variants, the VAPID header, the check against a pinned key |
| `Utf8.dfy`, `PostText.dfy` | the one-pass sanitizer and the code-point truncator, on bytes |
| `Codecs.dfy` | the codecs and the header pinned to their standards: alphabets, digit values, what is read at all |
| `RateLimiter.dfy`, `LimiterRuns.dfy` | the fixed-window limiter with opportunistic purging, and its runs |
| `RelayState.dfy`, `Relay.dfy`, `RelaySteps.dfy`, `RelayRuns.dfy`, `RelayDelivery.dfy`, `ApnsBudget.dfy` | register, unregister and push, runs with overlapping pushes, what is stored and delivered, the payload size |
| `StoreState.dfy`, `Store.dfy`, `StoreRuns.dfy`, `StoreLaws.dfy`, `BlockStream.dfy`, `BlockRuns.dfy` | tables and in-memory indexes, restarts, block records and the promise to suppress |
| `EvictingCache.dfy`, `LookupRuns.dfy` | the bounded caches, and concurrent lookups |
| `Push.dfy`, `Consumer.dfy`, `WhoIsTold.dfy` | what a commit asks for and sends; who is told what, by the record |
| `Pipeline.dfy`, `WatcherSteps.dfy`, `WatcherAlone.dfy` | the reader, its cursor and the queue; workers that handle commits at once, and one with nothing in between |

Objects that the program updates in place are classes whose methods are proved against
functions and relations on values (`RateLimiter.Allowed`, `RelayState.Pushed`,
`StoreState.AddBlock`, `EvictingCache.QuarterEvicted`, `Consumer.Sent`); the promises are then
proved about whole runs of those, and what single operations do is also stated in the terms of
their arguments alone, with the numbers and names of the source (`RelayDelivery`, `StoreLaws`,
`WhoIsTold`, `Codecs`). The concurrent parts (`Pipeline`, `LookupRuns`, the pushes in
`RelaySteps`, the workers in `WatcherSteps`) are state machines over atomic steps, so their
results hold for every interleaving.

What came out of the proofs that reading the code does not show at once:

- The limiter admits at most 119 calls of a key in any closed minute, one less than two full
  windows: the call that opens a window cannot share an interval with the next window. The
  bound is reached.
- A push that reports a dead device is answered 404 even when deleting the endpoint failed, so
  the sender gives up while the endpoint stays (`RelayRuns.FailedDeleteLeavesEndpoint`). The
  promise that a 404 means "gone" holds exactly when the deletion went through.
- A push that is under way when its device registers again can delete the new endpoint: a device
  reported dead loses whatever endpoint it has by then (`RelayRuns.LateReportEndsSuccessor`).
- `docs/NOTIFICATIONS.md` says that all notifications are suppressed if a block exists between
  the two. For any two people, the code keeps that promise exactly as long as three things hold
  (`BlockRuns.PromiseKeptExactly`). While one of them is registered, the commit that writes a
  record between them is handled, as a creation, unless they are blocked already; and no handled
  deletion takes their pair while another record holds them, unless the other direction is
  blocked. And neither is registered over a record for which they are not blocked. Unregistrations,
  backfills and loading the indexes again never break it, nor does anything between other people.
  What does break it:
  - registering over a record made while neither was registered, which stays missed until the
    blocker's backfill lists it (`BlockRuns.RegistrationBreaksIt`, `Consumer.EarlierBlockIsMissed`,
    `BlockRuns.BackfillHealsExactly`);
  - a block commit that is lost before it is handled: unreadable, dropped at a full queue, waiting
    when the process stops, or sent while it is down (`BlockRuns.LostBlockIsMissed`);
  - two records for one pair, one of them deleted (`BlockStream.SecondRecordIsLost`).

  The converse, that only people with a record are blocked, fails when a restart forgets an rkey
  (`BlockStream.RestartForgetsRKey`) or a creation is handled after its deletion
  (`BlockRuns.ReorderedBlockStays`); `BlockRuns.FollowedExactlyWhileSafe` has its exact condition.
  Records count in the order in which commits are handled or lost. The model follows the code.
- With workers at once, a notification can still go out after a block is in force, but only if its
  gate was checked before (`WatcherSteps.BlockInForceIsNotCrossed`, `WatcherSteps.LateBlockIsReached`).
- With a server that resumes at the first event not older than the cursor, reconnecting skips
  nothing, delivers the last event decoded a second time, and never brings back a dropped commit
  older than the cursor (`Pipeline.ResumingRepeatsExactly`).
- Unregistering by device removes nothing when the strings that were registered carry white
  space at an end, since only register trims (`RelayRuns.UnregisterByDeviceExactly`).

Library behaviour the code relies on is modelled from its documentation: `encoding/base64`
ignores line breaks and nonzero trailing bits, ranging over a string reads an invalid UTF-8
byte as U+FFFD of width one, `TrimSpace` trims Unicode white space, `big.Int.Bytes` is the
shortest big-endian form.

Inputs from outside are parameters: clock readings, random bytes, database failures, what the
network says about a post or a DID, the provider's answer to each push, whether a point is on
the curve and a token validly signed. The hash of endpoint ids is any injective function, and
an issued id is one that no earlier request named.

## Model

| member | source | states |
|---|---|---|
| Base58.Base58Decode | internal/did/resolver.go:370-399 | nil exactly when some character is outside the alphabet; otherwise the bytes whose encoding is the text |
| Base58.Base58Encode | internal/did/resolver_test.go:207-223 | the loop yields the encoding, and decoding it gives the bytes back |
| Base58.EncodeNumber | internal/did/resolver_test.go:208-216 | repeated division yields the shortest base-58 text of the number |
| Base58.DecodeInvertsEncode | internal/did/resolver.go:370-399 | decoding inverts encoding for every byte string, leading zero bytes included |
| Base58.EncodeInvertsDecode | internal/did/resolver.go:370-399 | encoding inverts decoding for every accepted text, leading ones included |
| Base58.RecodeTwice | internal/did/resolver.go:373-398 | changing base while carrying leading zeros over is undone by changing back, for all bases |
| Base58.IndexOfAlphabet | internal/did/resolver.go:371-377 | every alphabet character is found at its own digit |
| Codecs.Base58Alphabet | internal/did/resolver.go:371 | the alphabet is the digits and letters in the order of their codes without 0, I, O and l |
| Codecs.Base58KeepsValue | internal/did/resolver.go:373-398 | decoding keeps the number, and one leading zero byte for each leading one |
| Base64.DecodeInvertsEncode | internal/vapid/vapid.go:135-144 | each of the four encodings is undone by its decoder |
| Base64.DecodersAgree | internal/vapid/vapid.go:135-144 | a text that two of the decoders accept means the same bytes to both |
| Base64.RawAccepts | internal/vapid/vapid.go:136-138 | line breaks aside, the raw decoders accept exactly digit texts whose length is not 1 modulo 4 |
| Base64.PaddedAccepts | internal/vapid/vapid.go:137-139 | line breaks aside, the padded decoders accept exactly whole groups filled by at most two signs |
| Codecs.Base64Alphabet | internal/vapid/vapid.go:135-140 | the characters of both alphabets, digit by digit |
| Codecs.Base64KeepsValue | internal/vapid/vapid.go:135-140 | one to three bytes are digits of the same number, most significant first, and padding fills to four |
| Codecs.LineBreaksAreIgnored | internal/vapid/vapid.go:141-144 | a line break anywhere in a key text changes nothing |
| Vapid.ParseHeader | internal/vapid/vapid.go:51-80 | the loop computes the parsed header; accepted ones have nonempty, trimmed, comma-free values; Missing exactly for the empty header |
| Vapid.ParseInvertsPrint | internal/vapid/vapid.go:51-80 | parsing inverts printing for every scheme case, spacing and parameter order |
| Vapid.AcceptedIsWellFormed | internal/vapid/vapid.go:62-79 | an accepted header can be printed plainly and parses to the same values again |
| Codecs.HeaderIsReadExactly | internal/vapid/vapid.go:51-80 | a header is read exactly when it begins with the scheme in any case and its last t and k are not empty; it is read as these |
| Vapid.DecodeKeyIsAnyDecoder | internal/vapid/vapid.go:133-146 | the order of the four decoders does not matter, and None means none accepts |
| Vapid.DecodeKeyInvertsEncode | internal/vapid/vapid.go:133-146 | every encoding of a key in any surrounding white space decodes to the key |
| Vapid.SameKeyIgnoresEncoding | internal/vapid/vapid.go:121-128 | for every mix of encodings, comparing key texts is comparing keys |
| Vapid.PinnedCheck | internal/vapid/vapid.go:89-115 | a printed header passes a pin exactly when the offered key equals it, is a valid point and signed the token |
| Utf8.DecodeRuneInvertsEncode | internal/jetstream/posttext.go:22-34 | decoding the encoding of a rune gives the rune and its width, whatever follows |
| Utf8.RunesOfCut | internal/jetstream/posttext.go:52-54 | cutting any bytes at a rune boundary and appending a new rune yields exactly those runes |
| Codecs.OnlyRunesAreRead | internal/jetstream/posttext.go:22-34 | what starts with no encoded rune reads as U+FFFD of one byte |
| PostText.SanitizePostText | internal/jetstream/posttext.go:15-37 | the flagged single pass equals mapping, collapsing runs and trimming, on every byte string |
| PostText.TruncatePostText | internal/jetstream/posttext.go:44-59 | identity within the limit, else the bytes up to the max-th rune plus an ellipsis, and exactly those runes |
| PostText.SanitizedIsClean | internal/jetstream/posttext.go:13-37 | output is one line, single-spaced and trimmed, and keeps every rune between the trimmed ends that is not written as a space, in order |
| PostText.SanitizedIsCollapsedCore | internal/jetstream/posttext.go:13-37 | trimming first and then mapping and collapsing gives the same |
| PostText.SanitizedIsItsWords | internal/jetstream/posttext.go:13-37 | the output is the words of the trimmed text with one space in between |
| PostText.TruncatedExactly | internal/jetstream/posttext.go:40-59 | the text itself, or its first max runes and one ellipsis, cut from its bytes |
| PostText.SanitizedFixpoints | internal/jetstream/posttext.go:13-37 | exactly the clean texts are left alone |
| PostText.SanitizeTruncateTwice | internal/jetstream/consumer.go:520 | on every byte string truncating after sanitizing is clean, bounded, and gives the same bytes when done again |
| RateLimiter.Limiter.Allow | internal/relay/relay.go:431-456 | answers and new windows, for windows shared by reference |
| RateLimiter.Limiter.PurgeExpired | internal/relay/relay.go:440-446 | deleting while ranging leaves exactly the unexpired windows of a map above the threshold |
| LimiterRuns.PurgeInvisible | internal/relay/relay.go:438-446 | on every run with a nondecreasing clock purging changes no answer |
| LimiterRuns.OpenedMapIsSmall | internal/relay/relay.go:438-448 | after opening a window the map has at most 10001 entries or only unexpired ones |
| LimiterRuns.SmallMapIsKept | internal/relay/relay.go:440-446 | no window of another key goes from a map of up to 10000 |
| LimiterRuns.WindowBound | internal/relay/relay.go:451-455 | calls admitted since a window opened are its count, at most 60 |
| LimiterRuns.SlidingIntervalBound | internal/relay/relay.go:422-456 | at most 119 admitted calls of a key in any closed minute |
| LimiterRuns.SlidingIntervalBoundIsReached | internal/relay/relay.go:422-456 | some run admits 119 |
| LimiterRuns.RefusalIsEarned | internal/relay/relay.go:451-453 | a call is refused only if 60 were admitted within the minute before it |
| Relay.Handler.HandleRegister | internal/relay/relay.go:145-191 | statuses, the endpoint stored for the trimmed request, the URL |
| Relay.Handler.HandleUnregister | internal/relay/relay.go:203-236 | which endpoints go, and exactly when 400, 500 and 204 are answered |
| Relay.Handler.HandlePush | internal/relay/relay.go:244-376 | status, sends, limiter and endpoints after a push, with every early answer in order |
| Relay.Handler.Forward | internal/relay/relay.go:340-375 | one send; a dead device takes its endpoints with it |
| RelayDelivery.RegistrationStores | internal/relay/relay.go:145-191 | whatever the white space, a registration is stored by the cores of its fields and answered 201 exactly when they are good, else 400 |
| RelayDelivery.FailedRegistration | internal/relay/relay.go:173-186 | a database failure stores nothing and answers 500 |
| RelayDelivery.URLOf | internal/relay/relay.go:188-190 | the URL is the base without slashes at its end, "/relay/" and the id |
| RelayDelivery.UnregisteringRemoves | internal/relay/relay.go:210-221 | a URL that ends in a slash and an id, or the id alone, removes the endpoint of that id and nothing else |
| RelayDelivery.PinnedPushDelivers | internal/relay/relay.go:282-375 | for a pinned endpoint and a printed header: one note to the device exactly when the offered key is the pinned one and signed the token, and the body has 1 to 2800 bytes and a known encoding; else 202, or 500 for an unreadable body |
| RelayDelivery.UnpinnedPushDelivers | internal/relay/relay.go:282-375 | without a pin, exactly when the body is acceptable |
| RelayDelivery.EarlyAnswers | internal/relay/relay.go:244-271 | 500, 404 and 429 before anything is checked |
| RelayDelivery.PinnedPushGoesOn | internal/relay/relay.go:282-340 | the same for the admission step with anything going on between the steps |
| RelayDelivery.UnpinnedPushGoesOn | internal/relay/relay.go:282-340 | the same without a pin |
| RelayDelivery.LookupAndSend | internal/relay/relay.go:340-375 | what is found goes on, and what passed is sent once |
| RelayDelivery.RegisteredKeyIsAsked | internal/relay/relay.go:166-310 | after registering with a key, a push delivers exactly when signed with it and acceptable |
| RelayDelivery.NothingPastTheRegisteredKey | internal/relay/relay.go:295-310 | after registering with a key, no push with any header sends without a token that the key signed |
| RelaySteps.StepsMakeAPush | internal/relay/relay.go:244-376 | the four steps of a push, with nothing in between, are what the handler does |
| RelayRuns.PushDestroysExactly | internal/relay/relay.go:17-34 | a 4xx other than 408 and 429 is answered exactly for an unknown endpoint or a device reported dead |
| RelayRuns.DestroyedIsGoneExactly | internal/relay/relay.go:353-363 | in every run, after such an answer the endpoint is gone exactly when it was unknown or its deletion succeeded |
| RelayRuns.FailedDeleteLeavesEndpoint | internal/relay/relay.go:359-363 | a push that is answered 404 and leaves the endpoint |
| RelayRuns.DestroyedOnlyWhenGone | internal/relay/relay.go:244-376 | in every run with overlapping pushes, after such an answer the endpoint is absent in every later state |
| RelayRuns.PushAnswers | internal/relay/relay.go:282-375 | in every run 201 is one accepted send, past the pin, whose "m" decodes to the body; other codes but 404 and 502 are answered before anything is sent |
| RelayRuns.EverySendIsMadeBy | internal/relay/relay.go:244-376 | in every run each send came from a push to an endpoint of that device, live when looked up, whose pin signed the token of that push |
| RelayRuns.OneIdSendsAtMost | internal/relay/relay.go:264-271 | in every run at most 119 notifications come of the pushes to one endpoint id that ask the limiter within any minute |
| RelayRuns.RunKeepsOnePerDevice | internal/store/webpush.go:53-90 | no reachable state has two endpoints for one device and app |
| RelayRuns.EndpointLife | internal/store/webpush.go:58-125 | whatever pushes are under way, an issued id resolves to its registered data exactly until replaced, unregistered or its device is reported dead |
| RelayRuns.OneStepOfLife | internal/store/webpush.go:58-125 | one step ends an endpoint exactly when it is one of those |
| RelayRuns.LateReportEndsSuccessor | internal/relay/relay.go:353-363 | a run in which a push to a replaced endpoint deletes the endpoint that replaced it |
| RelayRuns.UnregisterInvertsRegister | internal/relay/relay.go:188-218 | for every base URL, returning the URL to unregister removes exactly that endpoint |
| RelayRuns.UnregisterByDeviceExactly | internal/relay/relay.go:222-223 | unregistering by the registered strings works exactly when they have no white space at the ends |
| ApnsBudget.CiphertextIsPlain | internal/relay/relay.go:344-346 | the base64url text needs no JSON escaping and has length ceil(4n/3) |
| ApnsBudget.ForwardedFits | internal/push/apns.go:112-146 | the payload is ceil(4n/3) + 122 characters, so every accepted body fits 4096; the largest body that fits is 2980 |
| StoreRuns.RunAgrees | internal/store/store.go:100-221 | after every sequence of operations and restarts indexes equal tables, no DID exceeds 20 tokens, and registered means having a token |
| StoreRuns.RestartChangesNoAnswer | internal/store/store.go:100-156 | a restart changes no answer about registration, blocks or verifications |
| StoreRuns.RegisterAgrees | internal/store/store.go:160-200 | registering keeps indexes and tables in agreement and the cap |
| StoreRuns.UnregisterAgrees | internal/store/store.go:202-221 | unregistering drops the DID exactly with its last token |
| Stores.Store.constructor | internal/store/store.go:33-98 | opening a database leaves the indexes its tables determine |
| Stores.Store.LoadIntoMemory | internal/store/store.go:100-156 | the three loops build the indexes, for every row order |
| Stores.Store.LoadRegistered | internal/store/store.go:101-113 | exactly the DIDs with a token row are registered |
| Stores.Store.LoadBlocks | internal/store/store.go:115-136 | every pair is in the block index; the rkey index names a row for each nonempty rkey |
| Stores.Store.RegisterToken | internal/store/store.go:160-200 | refused exactly at 20 other tokens or an unknown platform, else upserted and registered |
| Stores.Store.UnregisterToken | internal/store/store.go:202-221 | removes the one matching row, and the DID with its last row |
| Stores.Store.GetTokensForDID | internal/store/store.go:235-254 | every row of the DID once |
| StoreLaws.RegisterTokenExactly | internal/store/store.go:160-200 | in every reachable state a known token is always refreshed, a new one accepted exactly below 20, on three platforms; its row holds what was given and no other row changes |
| StoreLaws.RegisteredIsListed | internal/store/store.go:235-254 | what was registered is listed with its platform and app |
| StoreLaws.UnregisterTokenExactly | internal/store/store.go:202-221 | exactly the row that agrees in all four goes, and the DID stays registered exactly with a row left |
| Stores.Store.AddBlock | internal/store/store.go:256-279 | the row keeps its first rkey, the nested indexes record the block and every rkey |
| Stores.Store.RemoveBlockByRKey | internal/store/store.go:301-324 | removes the block an rkey names and returns its subject |
| Stores.Store.RemoveBlock | internal/store/store.go:326-342 | removes row and index entry |
| Stores.Store.IsBlocked | internal/store/store.go:344-356 | the nested lookup answers whether either direction is blocked |
| StoreLaws.RKeyNamesTheLast | internal/store/store.go:256-324 | without restarts an rkey names the subject that was given last |
| StoreLaws.AddBlockExactly | internal/store/store.go:256-279 | a row keeps its first rkey, the index takes every nonempty one, and both directions are blocked |
| StoreLaws.RemoveBlockByRKeyExactly | internal/store/store.go:301-342 | row, pair and entry of the named subject go, and nothing else |
| Stores.Store.AddVerification | internal/store/store.go:367-384 | replaces the row and the index entry |
| Stores.Store.RemoveVerificationByRKey | internal/store/store.go:388-415 | removes row and entry and returns the subject |
| StoreLaws.VerificationIsTheLast | internal/store/store.go:367-415 | after every run a verifier's rkey names the subject that the last operation on it gave |
| BlockStream.WellFormedStream | internal/store/store.go:256-356 | with one record per pair and rkey, restarts included, blocked means a live record in either direction and the rkey index is the live records |
| BlockStream.RestartKeepsIndex | internal/store/store.go:115-136 | a restart in such a stream rebuilds the same rkey index |
| BlockStream.IndexIsDetermined | internal/store/store.go:121-136 | rows that mirror the records leave one possible index, whatever the row order |
| BlockStream.SecondRecordIsLost | internal/store/store.go:301-342 | a stream after which a live record no longer blocks |
| BlockStream.RestartForgetsRKey | internal/store/store.go:121-136 | a stream with a restart after which a pair without a record stays blocked |
| BlockRuns.PromiseKeptExactly | internal/jetstream/consumer.go:562-592 | for any two people, over commits handled or lost, tokens, backfills and restarts: if a block exists between them and one is registered, they are blocked, from some moment on exactly when every event keeps to a condition on the state before it |
| BlockRuns.SilentIsNoOpenGate | internal/jetstream/consumer.go:738-746 | that is the same as: if a block exists, no notification between the two passes its gate |
| BlockRuns.StepSilent | internal/jetstream/consumer.go:562-592 | one event, a lost commit or a registration included, keeps it so exactly when it meets that condition |
| BlockRuns.RegistrationBreaksIt | internal/xrpc/handler.go:180-187 | a registration over a record made earlier breaks it, and listing the record mends it |
| BlockRuns.LostBlockIsMissed | internal/jetstream/consumer.go:413-418 | two registered people, a block between them whose commit is dropped, and a gate that stays open |
| BlockRuns.ReorderedBlockStays | internal/jetstream/consumer.go:299-311 | a deletion handled before its creation leaves the pair blocked and no record |
| BlockRuns.NoNotificationAcrossABlock | internal/jetstream/consumer.go:738-746 | while it is so for two people between whom a block exists, no commit notifies one of the other |
| BlockRuns.FollowedExactlyWhileSafe | internal/store/store.go:256-342 | with commits handled or lost, the blocked pairs of a blocker are exactly its records from some moment on exactly when each of its events is safe |
| BlockRuns.StepFollows | internal/store/store.go:256-342 | one event keeps that so exactly when it is safe |
| BlockRuns.BackfillHealsExactly | internal/xrpc/blocks.go:67-81 | without stale pairs before, a backfill leaves exactly the records of the blocker when and only when it lists what was missing and nothing that is gone |
| BlockRuns.StepPairs | internal/jetstream/consumer.go:422-453 | what each event does to the blocked pairs, which stay those of the table |
| EvictingCache.Cache.EvictOldest | internal/posttext/resolver.go:148-175 | exactly max(1, n/4) entries go, none newer than any that stays, survivors keep their values |
| EvictingCache.QuarterExactly | internal/posttext/resolver.go:159-174 | of fewer than four entries one goes, else the fourth part, none newer than any that stays |
| EvictingCache.StoringExactly | internal/posttext/resolver.go:103-111 | the entry is there, nothing else is changed, and nothing goes while there is room |
| EvictingCache.Cache.RemoveOldest | internal/posttext/resolver.go:164-174 | each round deletes an oldest entry and the list stays a permutation of the cache |
| EvictingCache.Cache.OldestIndex | internal/posttext/resolver.go:165-170 | an index of the least time |
| EvictingCache.Cache.ListEntries | internal/posttext/resolver.go:154-157 | the list holds every entry once, for every map order |
| EvictingCache.SwapRemoveLists | internal/did/resolver.go:206-208 | swap-remove lists exactly the other entries |
| EvictingCache.Cache.Put | internal/posttext/resolver.go:103-111 | stores the entry, after evicting when full |
| EvictingCache.Cache.constructor | internal/posttext/resolver.go:57-71 | sizes up to 0 fall back to the default |
| EvictingCache.ResolveText | internal/posttext/resolver.go:83-115 | served from a fresh entry, else fetched and stored, negative answers with their own time to live |
| EvictingCache.ResolveDID | internal/did/resolver.go:152-178 | the same with one time to live and no caching of failures |
| LookupRuns.RunCounts | internal/posttext/resolver.go:83-115 | in every interleaving the cache stays within its cap, and evictions times a fourth of the cap are at most the misses |
| LookupRuns.RunServesFreshAnswers | internal/posttext/resolver.go:88-98 | in every interleaving a cached answer was fetched for that URI and stored less than its time to live ago |
| LookupRuns.FreshIsNotFetched | internal/posttext/resolver.go:88-98 | a fetch is made only for what is not cached or past its time to live |
| LookupRuns.InsertSize | internal/posttext/resolver.go:103-111 | an insert keeps the cap, and one that evicts frees a quarter less one |
| Pipeline.EventsAreConserved | internal/jetstream/consumer.go:372-419 | every received event is accounted for; queued commits are taken in order and each handled once, in flight or waiting; the queue is bounded |
| Pipeline.DropsOnlyWhenFull | internal/jetstream/consumer.go:413-418 | an event is dropped exactly when offered to a full queue, with at least 1024 commits unhandled |
| Pipeline.KeepingUpDropsNothing | internal/jetstream/consumer.go:299-311 | nothing is dropped while the backlog stays below the capacity |
| Pipeline.ResumingSkipsNothing | internal/jetstream/consumer.go:263-267 | over every run with reconnects, each event from the first decoded one to the place reached was decoded, lost on the way or in hand, and each decoded commit queued, dropped or being offered |
| Pipeline.ResumingRepeatsExactly | internal/jetstream/consumer.go:404-419 | a reconnect repeats an event exactly when its time is the cursor: always the last one, and no dropped commit older than it |
| Consumer.Watcher.SendNotification | internal/jetstream/consumer.go:738-816 | nothing unless the gate is open; then one attempt per device, counters, and exactly the dead tokens removed |
| Consumer.Watcher.SendTo | internal/jetstream/consumer.go:773-815 | one device: its notification, one counter, its token removed exactly when reported dead |
| Consumer.SendingPrunes | internal/jetstream/consumer.go:803-812 | the DID stays registered exactly when a device was not reported dead; other DIDs keep their tokens |
| Consumer.Watcher.HandleCommit | internal/jetstream/consumer.go:422-453 | bookkeeping, then the requests of the commit handled one after the other, each with one attempt per device, and all three counters |
| Consumer.Watcher.HandleSubject | internal/jetstream/consumer.go:467-511 | likes and reposts ask for the author and the reposter |
| Consumer.Watcher.HandlePost | internal/jetstream/consumer.go:513-546 | replies, quotes and every mention, in order |
| Consumer.Watcher.HandleBlock | internal/jetstream/consumer.go:562-592 | block records are kept for registered sides and removed by rkey |
| Consumer.Watcher.HandleVerification | internal/jetstream/consumer.go:594-639 | verifications are kept and announced, removals too |
| Consumer.CommitNotifiesOnlyAllowed | internal/jetstream/consumer.go:467-639 | every notification goes to someone registered, unblocked both ways and other than the actor unless about a verification |
| Consumer.LikeReachesAtMostTwo | internal/jetstream/consumer.go:467-511 | a like or repost reaches at most two recipients |
| Consumer.RequestsFromCommit | internal/jetstream/consumer.go:467-639 | requests name the actor and someone else, and a like's two requests have distinct targets |
| Consumer.CommitTextsFit | internal/jetstream/consumer.go:763-801 | every post text in the data of a notification is clean and within the limit, and only replies, quotes and mentions carry the actor's own |
| Consumer.EachDeviceOnce | internal/jetstream/consumer.go:773-816 | one request makes exactly one attempt for each device of an open gate |
| Consumer.AttemptsCounted | internal/jetstream/consumer.go:738-816 | a commit makes as many attempts as its requests have devices, less those that die on the way, and matches as many requests as have open gates |
| Consumer.OnePushPerRequest | internal/jetstream/consumer.go:738-816 | over a commit no device gets more pushes than there are requests for its owner, and a living one exactly one for each unblocked request |
| Consumer.SentMissesNobody | internal/jetstream/consumer.go:738-816 | over a commit every device left to an unblocked target has been reached |
| WatcherSteps.EverySendPassedTheGate | internal/jetstream/consumer.go:738-816 | in every interleaving of workers and token requests, each send is for one of the requests of a commit, after the commit was taken and recorded and its target then seen registered, then unblocked, then owning the device |
| WatcherSteps.EverySendIsProper | internal/jetstream/consumer.go:763-801 | in every interleaving a notification goes to someone else unless it is about a verification, with clean and bounded texts |
| WatcherSteps.LikeReachesAtMostTwo | internal/jetstream/consumer.go:467-511 | in every interleaving a like or repost reaches at most two people |
| WatcherSteps.BlockInForceIsNotCrossed | internal/jetstream/consumer.go:743-746 | while a block is in force, only what had its gate checked before is still sent |
| WatcherSteps.LateBlockIsCrossed | internal/jetstream/consumer.go:743-803 | a block after the check, before the tokens are fetched, does not stop the send |
| WatcherSteps.LateBlockIsReached | internal/jetstream/consumer.go:743-803 | a run from the start that does so |
| WatcherSteps.StoreAndCountersAgree | internal/jetstream/consumer.go:803-814 | in every interleaving indexes and tables agree, no DID exceeds 20 tokens, and sent and errors add up to the attempts |
| WatcherAlone.StepsMakeACommit | internal/jetstream/consumer.go:422-453 | the steps of one worker with nothing in between make the calls that the handler makes |
| WhoIsTold.PostTells | internal/jetstream/consumer.go:513-546 | a post tells a living device of somebody unblocked once as a reply if the parent is theirs, once as a quote if the embedded record is, once per mention, and for no other reason |
| WhoIsTold.LikeTells | internal/jetstream/consumer.go:467-511 | a like or repost tells the author, and the reposter it came by exactly when that is somebody else and the subject is neither the actor's nor nobody's |
| WhoIsTold.FollowTells | internal/jetstream/consumer.go:548-560 | a follow tells its subject |
| WhoIsTold.VerificationTells | internal/jetstream/consumer.go:594-616 | a verification tells its subject |
| WhoIsTold.UnverificationTells | internal/jetstream/consumer.go:618-639 | in every run a deleted verification tells the subject that the record had |
| WhoIsTold.NothingElseTells | internal/jetstream/consumer.go:422-453 | no other commit tells anybody |
| WhoIsTold.PostSays | internal/jetstream/consumer.go:771-801 | whose device and platform, who and where, the text of the post, and what it replies to or quotes |
| WhoIsTold.LikeSays | internal/jetstream/consumer.go:763-801 | the same with the subject and its fetched text |
| WhoIsTold.GraphSays | internal/jetstream/consumer.go:771-801 | the same without texts |
| WhoIsTold.ExtractIs | internal/jetstream/consumer.go:456-465 | a URI is read as t's exactly when it is "at://t" with or without a path |
| Consumer.BlockCountsExactly | internal/jetstream/consumer.go:572-576 | a new record blocks exactly when a side is registered or the pair was blocked |
| Consumer.EarlierBlockIsMissed | internal/jetstream/consumer.go:572-576 | a block made before its target registers does not suppress a later follow, as long as the blocker has not registered |
| Consumer.ExtractOfRecordURI | internal/jetstream/consumer.go:456-465 | the DID of a record URI is its author |

## Left out

- Network and process plumbing: websocket, zstd, HTTP clients, reconnect backoff, pings, configuration, logging.
- Cryptography: curve membership, JWT signatures, SHA-256 and randomness are parameters.
- JSON decoding of requests, events and records: decoded values, or the fact that decoding failed, are inputs.
- Titles, alert bodies and display names of watcher notifications: templates filled with the actor's name and the post text that `Consumer.TextOf` models.
- Row timestamps, the backfill marker and backfill paging (`BlockRuns` takes each listed record as an event), the stats counters and the 405 probe.
- Private-address blocking, origin verification and bearer authentication: flat lists of cases.
- The profile cache, a third copy of the loop in `EvictingCache`.
- Database errors in the store operations, and store operations interleaved inside one another: each is one atomic step, as is the bookkeeping of a commit with its check of who is registered. The relay's handlers do take database failures as inputs; its pushes and the watcher's commits overlap.
- A crash in the middle of a commit's sends, which cuts them short: restarts come between commits in `BlockRuns` and not at all in `WatcherSteps`.
- Two tickers the lookups read: `ResolveText` and `ResolveDID` take the times of lookup and insert as parameters; their interleavings are in `LookupRuns`.
- Stores.Store.constructor: the tables are maps kept by primary key, so SQL text and index choice are not modelled.
- Pipeline.ResumingSkipsNothing: one lifetime of the process and a server that sends events in the order of their times; the cursor is not kept on disk, so a new process starts wherever the server begins.
- Consumer.LikeReachesAtMostTwo: counts recipients; their devices are counted by `OnePushPerRequest`.
