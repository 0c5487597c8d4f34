# A model of easy_mcp, and what it keeps

The project models the parts of `easy_mcp` whose correctness does not show in any one function: matching a URI
against a template and deciding what may be cached for everyone, telling clients about changes from many threads and
one event loop, and state with limits that several workers share. `dafny verify dfyconfig.toml` checks all of it.

| file | what it models |
|---|---|
| `UriTemplate.dfy`, `UriSplit.dfy`, `Matching.dfy` | templates, the backtracking greedy split as the reference, the linear-time worklist that replaces it, `match` and `may_overlap` |
| `Routing.dfy` | who sees what, `bind`, which definition a read runs, the shadowed templates and the cache scope; the resource registry |
| `Notifier.dfy` | `ChangeNotifier` and `_Sink` as a state machine: one action for each lock section, push or callback |
| `NotifierBooks.dfy` | what holds of the books, sinks and queues in every reachable state |
| `NotifierProgress.dfy` | every operation of the loop comes to an end |
| `NotifierPushes.dfy` | what each action pushes to a sink; a session that unsubscribed is not told |
| `NotifierUpdates.dfy` | no resource update to a session is lost |
| `NotifierStreams.dfy` | no resource update to a listen stream is lost, and none is sent more often than published |
| `NotifierWatches.dfy` | what a session is subscribed to, which streams are refused, how a stream the server ends is told |
| `NotifierLists.dfy` | list changes converge; when one is missed |
| `NotifierHandover.dfy` | every change is told by a notice, also one made while no stream was open |
| `NotifierFrames.dfy` | what a listen stream is sent, in order, and nothing after its end |
| `NotifierClass.dfy` | the notifier's and a sink's lock sections as methods of objects, equal to the steps of the state machine |
| `ListDigests.dfy` | the list digests kept per visibility class and registry version |
| `RedisSessions.dfy`, `RedisCap.dfy`, `RedisRecords.dfy`, `RedisScripts.dfy`, `RedisCounts.dfy` | the Lua scripts: as steps, their cap, what they do to one session and answer, as the commands they are made of, and the ones beside the session records |
| `MemoryStore.dfy` | the in-memory store |
| `CallCap.dfy` | the cap on calls of one tool in one session, with no store, with Redis, with the in-memory store |
| `RateLimit.dfy`, `RateLimiter.dfy` | the sliding window, in process and in Redis, against one log; the in-process limiter as an object |
| `SigningKeys.dfy` | the timed cache of an issuer's signing keys |
| `Middleware.dfy` | middleware chains and their three policies |
| `Schema.dfy` | checking and normalizing values against a schema |
| `Pagination.dfy` | keyset pagination while the list changes |

## How it is modelled

- **Threads and the loop.** Publishers, registrars and subscribers run on any thread and interleave at each lock
  section; what a thread has still to do is a token that may be taken at any time and in any order. Operations on the
  loop hold no await and exclude each other, but every lock section, push and callback inside one is a step of its
  own, so the threads may come in between. One loop is assumed, that is not closed mid-run, and pushes that do not
  call back into the notifier.
- **Baselines and registration are two steps**, as in the code: `open` and `_watch_session` compute the baselines
  before they take the notifier's lock. A change of a watched list announced in between does not reach the sink being
  opened (`NotifierLists.AnAnnouncementIsMissed` is such a run). `WhenAStreamIsUntold` and `WhenASessionIsUntold` say
  exactly when a sink is left untold of a list; convergence is proved for every other sink and list (`Converges`), and
  without exception where no such announcement falls between the two steps (`ConvergesWhenApart`). A stream that hands
  over its predecessor's baselines compares again after it is registered and has no such gap.
- **Normalizing twice** may change more than normalizing once, where an `anyOf` has two options for arrays or for
  objects: `list[Literal[3] | list[int]] | list[int | list]` does so with `[3.0, [3.0]]`. `WhenNormalizeChangesAgain`
  says exactly when.
- **A close is claimed once in each life of a session.** Two reports that a session was removed are as far apart as
  removals are remembered unless its ref was created again in between; with a new life the bound does not hold
  (`RedisSessions.AClaimPerLife`).
- **Time** is an integer or real clock that never goes back; the in-process limiter's read of it and the lock section
  that follows are one step (the code reads the clock before it takes the lock, so two threads may record their stamps
  out of order); a key expires at its deadline, and the Redis limiter's
  keys on the same clock that scores its members.
- **Floats** are reals, with NaN and the infinities apart.
- **Library calls** are parameters: percent-decoding is a partial function of the text, a digest a function of the
  list, a parameter's conversion a partial function of its value.

## Model

| member | source | states |
|---|---|---|
| UriTemplates.FitsIffSplit | easy_mcp/uritemplate.py:170-188 | values expand to the URI, each non-empty and free of its stops, exactly when the places they end at are a split and they are the text it cuts out |
| UriTemplates.SplitFits | easy_mcp/uritemplate.py:281-285 | the pieces of a split joined with the literals rebuild the URI |
| UriTemplates.BacktrackSound | easy_mcp/uritemplate.py:202-210 | what a backtracking greedy matcher finds is a split |
| UriTemplates.BacktrackFindsLatest | easy_mcp/uritemplate.py:202-219 | where any split exists the greedy matcher finds one, pointwise the latest of all |
| UriTemplates.GreedyIs | easy_mcp/uritemplate.py:202-219 | the greedy answer is the pointwise latest split, and none exactly when there is no split |
| UriSplit.RFind | easy_mcp/uritemplate.py:255 | the last occurrence at or before the cap, or none, and the places it was tried at, one after the other from the cap |
| UriSplit.FirstStop | easy_mcp/uritemplate.py:275-278 | the first stop character in a stretch, if any, and the places looked at, one after the other from its start |
| UriSplit.Floors | easy_mcp/uritemplate.py:232-240 | the earliest place each point can have in any split, the last one past the last stop of the last value; each place is tried at most once a stop character |
| UriSplit.Worklist.PushLeft | easy_mcp/uritemplate.py:249-266 | points only move left, never past any split: the first to the last occurrence at or before the cap, each before it that moved to the last that leaves the next value a character; no place is tried twice for a literal; a failure means no split exists |
| UriSplit.Worklist.Look | easy_mcp/uritemplate.py:271-280 | one turn of the queue looks at no place a second time for a value and keeps every split at or below the points |
| UriSplit.Worklist.Settle | easy_mcp/uritemplate.py:269-280 | once the queue is empty every value is free of its stops, so the points are a split |
| UriSplit.SettledIsValid | easy_mcp/uritemplate.py:210-219 | points on their literals with every value searched are a valid split |
| UriSplit.FindPoints | easy_mcp/uritemplate.py:231-280 | the points are the latest split, or there is none; each place is tried at most once a literal, looked at at most once a value, and tried for the floors at most once a stop of the last value |
| UriSplit.SplitOne | easy_mcp/uritemplate.py:227-230 | a single value is the whole stretch, unless it holds a stop |
| UriSplit.Split | easy_mcp/uritemplate.py:202-285 | an answer exactly when some values fit; it is the greedy one, its ends the latest; each place of the URI is tried at most once a literal and a stop and looked at at most once a value, so all is linear in its length |
| UriSplit.LooksStep | easy_mcp/uritemplate.py:242-243 | a stretch looked at lies before where the value is known to be clean, so none of it was looked at before |
| UriSplit.NewPlaces | easy_mcp/uritemplate.py:205-219 | places before a mark that only moves left were never tried, and never are again |
| Matching.MatchUri | easy_mcp/uritemplate.py:170-188 | an answer exactly when the greedy expression matches, which it does exactly when some values fit, and every raw value holds whole escapes and decodes to one that leads nowhere but below where it is put; then each variable, and nothing else, has what its raw value decodes to |
| Matching.MatchMeans | easy_mcp/uritemplate.py:170-188 | the same of the function the other results use |
| Matching.UnsafeIs | easy_mcp/uritemplate.py:76-84 | the traversal guard refuses exactly what is empty, holds a backslash or a control character, and for one segment a slash or a dot segment, for several a leading slash or a dot segment between slashes or ends |
| Matching.SegmentsAre | easy_mcp/uritemplate.py:84 | splitting at slashes yields exactly the stretches between slashes and ends |
| Matching.CapturedIsGood | easy_mcp/uritemplate.py:41-42 | no captured value is empty, reaches the query or the fragment, or leaves its segment unless it is written {+name} |
| Matching.SharedUriOverlaps | easy_mcp/uritemplate.py:190-200 | two templates that some URI fits overlap as the prefix and suffix test says |
| Matching.OverlapIs | easy_mcp/uritemplate.py:190-200 | may_overlap says no exactly when no text begins as both templates do, or none ends as both do |
| Routing.ClassDecidesVisibility | easy_mcp/server.py:2549-2560 | callers of one visibility class see the same items; a caller who does not step up sees just the items it may use |
| Routing.WhoSees | easy_mcp/security/auth.py:244-275 | everyone sees what is not protected, a holder of one of its scopes what is, and with step-up every token all; who may use it, and which error the others get |
| Routing.BindUri | easy_mcp/resources.py:181-196 | the arguments are exactly what each variable's own value converts to; none where the URI does not match or one does not convert |
| Routing.BoundMeans | easy_mcp/resources.py:181-196 | the same of the function the other results use |
| Routing.BoundFits | easy_mcp/resources.py:181-196 | a URI that binds is one that some values of the template expand to |
| Routing.OrderIsUnique | easy_mcp/resources.py:371-375 | there is one order of most literal characters first, then by text |
| Routing.ChangesAreVersioned | easy_mcp/resources.py:328-353 | every change of the registry takes a new version, and unregistering undoes registering |
| Routing.ResourceRegistry.Register | easy_mcp/resources.py:328-341 | a definition is added under its key and the version grows, or one is there already and nothing changes |
| Routing.ResourceRegistry.Unregister | easy_mcp/resources.py:343-353 | the resource, or else the template, of that key goes and the version grows, or nothing changes |
| Routing.ResolveResource | easy_mcp/server.py:2079-2107 | the concrete resource if visible, else the first visible template that binds; whether something was hidden |
| Routing.ShadowCache.FindShadowed | easy_mcp/server.py:2015-2029 | exactly the public templates that an earlier protected template overlaps or a protected resource binds |
| Routing.ShadowCache.IsShadowed | easy_mcp/server.py:2003-2030 | the cached set belongs to the version it is kept under, whatever changes between the three reads of the registry |
| Routing.NothingInTheWay | easy_mcp/server.py:2003-2030 | nothing protected that is tried before an unshadowed public template binds a URI that it binds |
| Routing.FoundAt | easy_mcp/server.py:2079-2107 | where the walk over the templates stops, and that every template before is unbound or unseen |
| Routing.WhatAReadRuns | easy_mcp/server.py:2079-2107 | the resource of that URI if seen; else of the templates that bind it and are seen the one with most literal characters, then first by text, with what it binds; else nothing, and hidden says whether anything is there; nothing past 2048 characters |
| Routing.PublicReadIsEveryones | easy_mcp/server.py:1973-2030 | when a read may be cached for everyone, every caller's read of that URI runs the same definition with the same arguments |
| Routing.WhenAReadIsPublic | easy_mcp/server.py:1973-2030 | an answer may be cached for everyone exactly when it is no retry, neither oauth nor request middleware is set, the item is not protected, and for a template no protected resource binds it and no protected template tried before shares a beginning and an end with it |
| Routing.ConcreteShadowIsReal | easy_mcp/server.py:2003-2029 | a template in the shadow of a concrete resource does answer two callers differently |
| ListDigests.ShownByClass | easy_mcp/server.py:2509-2560 | callers of one visibility class get the same list, which is what the notifier assumes of its views |
| ListDigests.ShownAt | easy_mcp/server.py:2509-2540 | wherever it stands in the list, an item adds its text at its place exactly if the caller sees it |
| ListDigests.DigestCache.ListDigest | easy_mcp/server.py:2562-2587 | the digest is that of the list the caller saw at one of the versions the registry had meanwhile |
| ListDigests.DigestCache.Cached | easy_mcp/server.py:2568-2574 | the first lock section: a digest exactly when one of that version is kept for the class, which becomes the last used, the others in their order; or none and nothing changes |
| ListDigests.DigestCache.Store | easy_mcp/server.py:2582-2587 | the second: the new digest is the last used, the others in their order, and only the least recently used of too many goes |
| NotifierBooks.Bookkeeping | easy_mcp/subscriptions.py:588-670 | the counters are the registered streams and within their caps, no channel is empty, no closed sink is registered, held updates are of watched URIs and wait only without a sink |
| NotifierBooks.InvHolds | easy_mcp/subscriptions.py:280-399 | in every reachable state also: exactly one window is scheduled for an open sink with lists to check and one flush for one with updates, and a closed sink has nothing waiting |
| NotifierBooks.InvStep | easy_mcp/subscriptions.py:440-946 | every action keeps the invariant |
| NotifierBooks.CoreUnregistered | easy_mcp/subscriptions.py:928-946 | unregistering a sink keeps the counters exact and the maps clean |
| NotifierBooks.CoreRegisterListen | easy_mcp/subscriptions.py:798-827 | opening a stream keeps the counters exact and within their caps |
| NotifierBooks.CoreRegisterSession | easy_mcp/subscriptions.py:532-546 | registering a session's sink, replacing one or not, keeps the counters, the maps, the windows and the flushes exact |
| NotifierBooks.OthersStayRegistered | easy_mcp/subscriptions.py:928-946 | unregistering one sink leaves every other registered |
| NotifierProgress.OperationsEnd | easy_mcp/subscriptions.py:307-399 | every step of an operation on the loop leaves less to do, whatever other threads do meanwhile, so each of them ends |
| NotifierProgress.NoneIsStuck | easy_mcp/subscriptions.py:307-399 | in every reachable state some step of the operation the loop is in can be taken |
| NotifierPushes.WhatIsPushed | easy_mcp/subscriptions.py:307-399 | what each action adds to what a client was sent: one frame, by a push that is taken, to the sink the loop is at, and nothing else |
| NotifierPushes.NotToldOnceUnsubscribed | easy_mcp/subscriptions.py:650-675 | for as long as a session does not watch a URI no sink of it is sent an update of it, even one that was waiting, but for a push already decided on |
| NotifierUpdates.NoUpdateLost | easy_mcp/subscriptions.py:680-748 | once an update is published to a session that watches the URI, and for as long as it watches it and is sent no frame of it, the update is held, waits in the session's sink, or is in the hands of an operation that requeues it, along every run |
| NotifierUpdates.SafeStep | easy_mcp/subscriptions.py:339-399 | no action loses such an update |
| NotifierUpdates.SafeRegisterSession | easy_mcp/subscriptions.py:532-546 | nor does replacing a sink |
| NotifierUpdates.SafeDropped | easy_mcp/subscriptions.py:845-870 | nor does dropping one, mid-flush or not |
| NotifierUpdates.SafeTakeOffer | easy_mcp/subscriptions.py:339-360 | nor does a publisher whose sink closed before it was handed the update |
| NotifierUpdates.WhereAnUpdateRests | easy_mcp/subscriptions.py:680-748 | at rest such an update is held for a session without a sink, or waits in the open sink with exactly one flush on its way |
| NotifierUpdates.OwedStays | easy_mcp/subscriptions.py:680-748 | an update stays owed to a session until the session stops watching the URI or is sent it |
| NotifierStreams.NoStreamUpdateLost | easy_mcp/subscriptions.py:680-715 | a stream open when an update is published that was acknowledged for the URI is sent it, or it is about to be offered, waits in the stream or is in its flush, for as long as the stream stays open, along every run |
| NotifierStreams.WhereAStreamUpdateRests | easy_mcp/subscriptions.py:339-379 | at rest it waits in the open stream with exactly one flush on its way |
| NotifierStreams.NoMoreThanPublished | easy_mcp/subscriptions.py:339-379 | over every run a stream is sent an update, and has it on its way, no more often than it was published |
| NotifierStreams.AccountedStep | easy_mcp/subscriptions.py:339-379 | no step makes a copy of an update or drops the last one, but by publishing, sending or ending |
| NotifierWatches.WhatIsWatched | easy_mcp/subscriptions.py:588-670 | what each action makes of what a session watches: subscribing up to the cap, unsubscribing, a whole set, forgetting, and a sink that leaves only where nothing is kept without one |
| NotifierWatches.WhoseUpdatesWait | easy_mcp/subscriptions.py:588-670 | whether updates wait for a session's next sink is what its subscriptions were last given with, they do for one that subscribed here, and nothing else changes it |
| NotifierWatches.WhenAStreamIsRefused | easy_mcp/subscriptions.py:797-810 | in every reachable state a stream is refused exactly when one of its id is open on its channel, its client has eight open, or the server as many as it may |
| NotifierWatches.AnEndedStreamIsToldSo | easy_mcp/subscriptions.py:872-896 | a stream the server ends, as it closes or because a list fails, is sent its completion and on a shared channel the cancellation after what it was sent before, and no more, along every run |
| NotifierLists.Converges | easy_mcp/subscriptions.py:280-337 | what a registered sink was last told of a list is the list now, or a window will compare it, or the signal or the notice is on its way, or the sink was left untold of the list when it was registered |
| NotifierLists.ConvergesAtRest | easy_mcp/subscriptions.py:280-337 | at rest the sink is up to date or exactly one window will compare the list |
| NotifierLists.ConvergesWhenApart | easy_mcp/subscriptions.py:780-827 | where no announcement of a watched list falls between reading baselines and registering a sink that is not given its own, there is no exception |
| NotifierLists.WhenAStreamIsUntold | easy_mcp/subscriptions.py:779-810 | a stream is left untold of a watched list exactly when a change was announced, and every announcement taken, before it is registered, and the list is then not what its baselines say |
| NotifierLists.WhenASessionIsUntold | easy_mcp/server.py:2628-2650 | a session's sink is, exactly then, and never when it is given its predecessor's baselines |
| NotifierLists.AnAnnouncementIsMissed | easy_mcp/subscriptions.py:779-810 | a run in which an announcement falls in between and the stream is never told |
| NotifierLists.NoticesAreNews | easy_mcp/subscriptions.py:327-336 | a notice is pushed only for a list that differs from what the sink was last told, and becomes that |
| NotifierLists.HeardRefresh | easy_mcp/subscriptions.py:553-569 | a changed identity leaves the sink up to date or has every list compared |
| NotifierLists.WhatARefreshTells | easy_mcp/subscriptions.py:553-569 | an identity that sees the same lists changes nothing else; one that sees others has every watched list compared anew |
| NotifierHandover.ChangesAreTold | easy_mcp/subscriptions.py:307-337 | along every run: where a list is not what a sink was told of it at some time and the sink is up to date, a notice of it was sent since |
| NotifierHandover.WhatChangedMeanwhileIsTold | easy_mcp/server.py:2628-2664 | a list that changed while no stream of the session was open has been announced to its new stream once everything came to rest |
| NotifierHandover.WhatIsHandedOver | easy_mcp/server.py:2628-2650 | a new sink is measured from the digests its predecessor left, or from the lists as they are; it watches those that were asked for, given and can be computed |
| NotifierHandover.RemembersStep | easy_mcp/subscriptions.py:307-337 | what a sink was last told of a list changes only by a notice of it, or with the identity it is for |
| NotifierLists.HeardAnnounce | easy_mcp/subscriptions.py:914-921 | an announcement reaches every sink that is told of the list |
| NotifierLists.HeardCompared | easy_mcp/subscriptions.py:315-328 | comparing a list leaves the sink up to date, or about to be told |
| NotifierFrames.FramesOfAStream | easy_mcp/server.py:2667-2744 | a listen stream is sent one acknowledgment, then notices of acknowledged kinds and URIs only, then at most one completion, cancelled only where its channel is shared |
| NotifierFrames.CompletionIsFollowed | easy_mcp/subscriptions.py:872-896 | on a shared channel the cancellation follows the completion with nothing in between, on its own channel nothing follows |
| NotifierFrames.NothingAfterTheEnd | easy_mcp/subscriptions.py:829-896 | nothing is pushed to a stream after it was dropped, cancelled or ended |
| NotifierFrames.StreamStep | easy_mcp/subscriptions.py:307-399 | every action keeps the stream's form, and what waits for it was asked for |
| NotifierClass.ChangeNotifier.SetSubscriptions | easy_mcp/subscriptions.py:595-606 | the books of the step: exactly the wanted URIs, and the held updates among them in their order |
| NotifierClass.ChangeNotifier.AddSubscription | easy_mcp/subscriptions.py:617-631 | the books of the step: one URI more, or nothing where no sink here delivers |
| NotifierClass.ChangeNotifier.Subscribe | easy_mcp/subscriptions.py:633-648 | whether the session watches the URI now; it does not only at the cap |
| NotifierClass.ChangeNotifier.Unsubscribe | easy_mcp/subscriptions.py:650-659 | the books of the step: the URI, its held update, and an empty entry go |
| NotifierClass.ChangeNotifier.Publish | easy_mcp/subscriptions.py:693-704 | the sinks picked are those of the watching sessions and the listen streams acknowledged for the URI; the update is held for exactly the other sessions that keep one, and they are counted |
| NotifierClass.ChangeNotifier.WatchSession | easy_mcp/subscriptions.py:532-540 | the books of the step, the sink replaced and the updates held until now |
| NotifierClass.ChangeNotifier.Open | easy_mcp/subscriptions.py:797-810 | the stream is registered and counted exactly when it is no duplicate and neither cap is reached |
| NotifierClass.ChangeNotifier.Unregister | easy_mcp/subscriptions.py:928-946 | a sink is removed exactly when it is the one registered |
| NotifierClass.Keep | easy_mcp/subscriptions.py:606 | the held updates that are still wanted, in order |
| NotifierClass.SinkQueue.RequestFlush | easy_mcp/subscriptions.py:280-293 | the sink of the step, and a callback exactly when no window was open |
| NotifierClass.SinkQueue.RequestUpdate | easy_mcp/subscriptions.py:339-360 | the sink of the step; taken unless it is closed; a callback exactly when no flush was on its way |
| NotifierClass.SinkQueue.Close | easy_mcp/subscriptions.py:381-399 | what was waiting, taken in the step that closes the sink |
| RedisSessions.StepValid | easy_mcp/store/redis_store.py:11-12 | every key but the index keeps a deadline still to come, a session's two deadlines are one, the memory of removals outlives its members |
| RedisSessions.ClosesAreClaimedOnce | easy_mcp/store/redis_store.py:91-183 | two calls that report the same session as removed are at least the memory's 600 s apart, unless it was created again in between |
| RedisSessions.ClaimIsRemembered | easy_mcp/store/redis_store.py:91-183 | what a call reports as removed has neither record nor index entry and is remembered |
| RedisSessions.AClaimPerLife | easy_mcp/store/redis_store.py:91-183 | a session created again may be claimed again at once |
| RedisSessions.NoCloseGoesUnclaimed | easy_mcp/store/redis_store.py:139-183 | a session that is gone is answered for as removed by another call only if some call did report it within the memory's length |
| RedisSessions.AliveIsIndexed | easy_mcp/store/redis_store.py:91-165 | without losses a record is alive exactly when its index score lies in the future, and the two are equal |
| RedisSessions.OnlyCreateCreates | easy_mcp/store/redis_store.py:91-250 | no script but SESSION_CREATE brings a record into being |
| RedisCap.SessionsAreCapped | easy_mcp/store/redis_store.py:91-111 | live sessions exceed the cap by no more than the index entries of live sessions that were lost |
| RedisCap.RefusedAtCap | easy_mcp/store/redis_store.py:94-103 | a create is refused at the cap exactly when as many index entries have yet to lapse, however many lapsed ones are left |
| RedisRecords.WhatAStepDoes | easy_mcp/store/redis_store.py:91-250 | a session stays exactly unless it is deleted, lapses or is lost; whose it is and when it began never change; its deadline and index entry move by a heartbeat naming it or a touch with its own credential only |
| RedisRecords.StrangersDoNotExtend | easy_mcp/store/redis_store.py:113-133 | over every run without a heartbeat for it or a touch with its own credential a session is over by the deadline it had, whatever others send for it |
| RedisRecords.WhatATouchDoes | easy_mcp/store/redis_store.py:117-133 | the deadlines move exactly when a ttl is given and the credential is the session's own or not said, the version exactly when one is given, nothing else |
| RedisRecords.WhatACreateAnswers | easy_mcp/store/redis_store.py:91-111 | 0 at the cap, -1 where the ref is taken, else 1 and the session is the caller's, begins now and lasts for the ttl |
| RedisRecords.WhatAHeartbeatAnswers | easy_mcp/store/redis_store.py:139-165 | for each session of the list 1, -1, -2 or 0 by whether it is recorded, indexed, unknown or remembered as removed |
| RedisRecords.WhatADeleteAnswers | easy_mcp/store/redis_store.py:170-183 | the session is gone from record and index and remembered; 1 exactly where the index named it or no removal is remembered |
| RedisScripts.Redis.SessionCreate | easy_mcp/store/redis_store.py:91-111 | command by command, the step's database and reply; the pruned are the first to have lapsed, at most 64 |
| RedisScripts.Redis.SessionTouch | easy_mcp/store/redis_store.py:117-133 | the step, and what a touch leaves field by field: extended exactly when a ttl is given and bound to the given credential; the record as it then is, where it is wanted |
| RedisScripts.Redis.SessionRefreshMany | easy_mcp/store/redis_store.py:139-165 | the step for every ref in turn, a repeated one included |
| RedisScripts.Redis.SessionDelete | easy_mcp/store/redis_store.py:170-183 | the step and whether this call removed the session |
| RedisScripts.Redis.SessionBaselines | easy_mcp/store/redis_store.py:187-191 | the text is saved exactly where the session exists |
| RedisScripts.Redis.SessionReserve | easy_mcp/store/redis_store.py:235-240 | the step: one unit more, or -1 at the limit, or -2 where the session is gone |
| RedisScripts.Redis.SessionUnreserve | easy_mcp/store/redis_store.py:244-250 | the step: one unit less, never below zero, nothing where the session is gone; the reply is what is left |
| RedisScripts.Redis.RangeLapsed | easy_mcp/store/redis_store.py:94 | the lapsed sessions with the lowest scores, 64 of them or all |
| RedisCounts.ClientKeepsUnits | easy_mcp/store/redis_store.py:253-267 | a client's unit is reserved and given back as a session's is, every key written gets a deadline, giving back makes no key |
| RedisCounts.FilledIs | easy_mcp/store/redis_store.py:199-232 | additions stop at the cap, what was there stays in front, each URI is there once |
| RedisCounts.KeptIs | easy_mcp/store/redis_store.py:205-217 | each URI that is not removed is kept once, in the order they were first there |
| RedisCounts.UpdateSubscriptions | easy_mcp/store/redis_store.py:199-232 | the URIs kept and then the additions there is room for, nothing else; none where the session is gone or of another kind |
| MemoryStore.EveryEndIsReported | easy_mcp/store/memory.py:103-210 | a session ends exactly when an operation reports it, and only a create that says so makes one |
| MemoryStore.HeldSessionsStay | easy_mcp/store/memory.py:86-159 | a session in use ends only by a delete, and loses a hold only by a release |
| MemoryStore.ReleaseUndoesAcquire | easy_mcp/store/memory.py:122-159 | taking a session and giving it back untouched changes nothing |
| MemoryStore.WhichSessionsEnd | easy_mcp/store/memory.py:86-141 | opening a session ends exactly the idle ones of its kind, asking for an idle one ends it; it is opened exactly where there is room then and no session of its ref, and held by its opener |
| MemoryStore.IdleSinceItsLastUse | easy_mcp/store/memory.py:143-177 | a session is there for exactly its ttl from its last request's end or the last heartbeat that named it; a refused request leaves its idle time alone |
| MemoryStore.KindsAreCapped | easy_mcp/store/memory.py:103-120 | an operation keeps the sessions of a kind within the cap |
| MemoryStore.SessionsAreCapped | easy_mcp/store/memory.py:103-120 | over every run of operations the sessions of a kind stay within the cap |
| MemoryStore.Store.CreateSession | easy_mcp/store/memory.py:103-120 | the sessions of the operation, the status, and exactly the lapsed sessions of the kind as expired |
| MemoryStore.Store.AcquireSession | easy_mcp/store/memory.py:122-141 | found exactly when it is there and has not lapsed; a lapsed one goes and is reported |
| MemoryStore.Store.ReserveCall | easy_mcp/store/memory.py:215-231 | a unit as the cap on calls assumes, and no other count changes |
| MemoryStore.Store.ReleaseCall | easy_mcp/store/memory.py:223-236 | a unit given back, never below zero, and no other count changes |
| MemoryStore.Store.TouchClient | easy_mcp/store/memory.py:238-250 | the client's counts kept unless idle past the ttl, the client last, the others in their order, and only the least recently seen of too many gone |
| MemoryStore.AtMostLimitStartInMemory | easy_mcp/store/memory.py:214-236 | on this store, running on, the count is the session's and at most the limit of calls start in one life of the session |
| CallCap.AtMostLimitStart | easy_mcp/server.py:2980-3079 | whatever interleaves, at most the limit of calls ever start; without a store the count is the calls started and those in flight unstarted |
| CallCap.ConservedStep | easy_mcp/server.py:2980-3079 | every unit of the count is a started call's, a waiting call's, on its way back, or leaked |
| CallCap.NoStartAfterRefund | easy_mcp/server.py:3061-3116 | a call whose unit is given back, or about to be, never starts |
| CallCap.WhoIsLetThrough | easy_mcp/server.py:2989-3040 | over every run a call is turned away only at the cap, for invalid arguments, or where the session is gone: without a store exactly while fewer calls than the cap have started or wait, with one while fewer units are spent |
| CallCap.WhatBecomesOfACall | easy_mcp/server.py:3040-3080 | a call let through is open, and counts as started from when it is started, running or over; the count of the cap stays |
| CallCap.UnitsComeBack | easy_mcp/server.py:3066-3095 | a call that ends unstarted has its unit taken off the count, at once without a store, by its release with one |
| CallCap.WhatTheStoreKeeps | easy_mcp/server.py:2995-3095 | with a store a call that ends unstarted is given back there; one cancelled while asking never starts but may cost its unit; none is granted once the session is gone |
| CallCap.RedisKeepsUnits | easy_mcp/store/redis_store.py:235-250 | Redis reserves and releases as the cap assumes, and touches no other count |
| CallCap.AtMostLimitStartOnRedis | easy_mcp/store/redis_store.py:235-250 | on a Redis running on, the count is the one in the session's record and at most the limit of calls start in one life of the session |
| CallCap.CountStays | easy_mcp/store/redis_store.py:91-250 | nothing but its own calls changes a session's count, except by taking the session away |
| RateLimit.SweepingIsInvisible | easy_mcp/security/ratelimit.py:69-126 | on every sequence of requests the limiter answers as a log that forgets nothing would |
| RateLimit.BothLimitersAgree | easy_mcp/store/redis_store.py:273-285 | RATE_HIT and the in-process limiter admit and refuse alike, with the same retry times |
| RateLimit.NeverMoreThanMax | easy_mcp/security/ratelimit.py:69-90 | at no time do more than max recorded, unrefunded requests lie in the last window |
| RateLimit.AdmittedWhereThereIsRoom | easy_mcp/security/ratelimit.py:69-83 | on every ordered run a request is admitted exactly when fewer than max of the client's were admitted in the window ending then, counted from what callers were told |
| RateLimit.LogIsWhatWasAdmitted | easy_mcp/security/ratelimit.py:69-83 | the log holds exactly the admitted requests, in order, as long as none is taken back |
| RateLimit.WhatIsTakenBack | easy_mcp/security/ratelimit.py:85-90 | a refund takes one such request back, a reset all of the client's, and nobody else's change |
| RateLimit.RetryIsExact | easy_mcp/security/ratelimit.py:79-81 | every earlier retry is refused, one at that moment or later is admitted |
| RateLimit.PeekTells | easy_mcp/security/ratelimit.py:92-109 | looking names a time exactly when asking would be refused, and the same one |
| RateLimit.CheckRefines | easy_mcp/security/ratelimit.py:69-83 | one check keeps the limiter's deques the end of the log |
| RateLimit.SweptRefines | easy_mcp/security/ratelimit.py:111-118 | a sweep drops only what no window will count again |
| RateLimit.HitRefines | easy_mcp/store/redis_store.py:273-285 | one hit keeps the key's members the end of the log, and its deadline at when the newest leaves the window |
| RateLimiter.SlidingWindowRateLimiter.Record | easy_mcp/security/ratelimit.py:69-83 | the reply and the state of one check, popping and sweeping included |
| RateLimiter.SlidingWindowRateLimiter.Refund | easy_mcp/security/ratelimit.py:85-90 | the first such stamp is taken back, if still counted |
| RateLimiter.SlidingWindowRateLimiter.RetryAfter | easy_mcp/security/ratelimit.py:96-109 | the reply of a look, and nothing changes |
| RateLimiter.SlidingWindowRateLimiter.Sweep | easy_mcp/security/ratelimit.py:111-118 | exactly the clients idle since the cutoff go |
| RateLimiter.SlidingWindowRateLimiter.Reset | easy_mcp/security/ratelimit.py:120-126 | one client's history, or everyone's, is forgotten |
| SigningKeys.OldKeysOnlyAfterAFailedRefresh | easy_mcp/security/oauth.py:1091-1140 | keys an hour old are answered with only after a refresh begun when they were due failed |
| SigningKeys.NorAfterAWait | easy_mcp/security/oauth.py:1132-1140 | the same for a request that waited for a fetch |
| SigningKeys.HeldUpOnce | easy_mcp/security/oauth.py:1116-1121 | after that failure, along every run in which no fetch brings an answer, no request that knows its key waits |
| SigningKeys.WithdrawnWithTheFetch | easy_mcp/security/oauth.py:1142-1220 | a fetch that brings keys, or none, ends the use of the earlier ones |
| SigningKeys.FetchesAreSpaced | easy_mcp/security/oauth.py:1078-1088 | fetches begin 30 s apart while keys are cached, 5 s apart while none are |
| SigningKeys.WhatARequestStarts | easy_mcp/security/oauth.py:1078-1140 | whatever was asked and fetched before: a request starts a fetch exactly when none is on its way and there are no keys and 5 s of quiet, or 30 s of quiet and keys 55 minutes old or lacking the named one; it waits exactly when it cannot go on and a fetch is on its way; else it gets the keys of the last fetch that was answered |
| SigningKeys.RemembersRun | easy_mcp/security/oauth.py:1142-1220 | the state is a function of the attempts made: the keys of the last answered, whether a due one failed since, when the last was |
| SigningKeys.ValidStep | easy_mcp/security/oauth.py:1142-1220 | what ties the age of the keys to the last attempt, kept by every step |
| SigningKeys.IssuerState.SigningKeys | easy_mcp/security/oauth.py:1091-1140 | the state and answer of the step; by the attempts made so far, when a fetch is scheduled, when the request waits, and which keys it gets |
| SigningKeys.IssuerState.BeginRefresh | easy_mcp/security/oauth.py:1157-1163 | the state of the step |
| SigningKeys.IssuerState.EndRefresh | easy_mcp/security/oauth.py:1169-1220 | the state of the step, for each of the three ends |
| Middleware.RunsIfAllCallOn | easy_mcp/middleware.py:915-1026 | a chain that can refuse runs its terminal once if every layer calls on and not at all otherwise |
| Middleware.TheTerminalsOwn | easy_mcp/middleware.py:1021-1022 | where every layer returns the very object it awaited, the result is the terminal's own object |
| Middleware.TheOutermostDeviation | easy_mcp/middleware.py:922-1026 | otherwise the answer is that of the outermost layer that did not: its error's code of the era or tool error where it raised one that may be shown, -32603 for anything else, with the tool's outcome still visible |
| Middleware.PassedOnOnly | easy_mcp/middleware.py:1004-1022 | a layer's result is what call_next gave it exactly when it awaited that and returned the very object, and the terminal's exactly when every layer inside does |
| Middleware.ObservedOnce | easy_mcp/middleware.py:1333-1382 | a message that cannot be refused runs its terminal exactly once, and what it answers is the answer |
| Middleware.AtMostOnce | easy_mcp/middleware.py:915-920 | the terminal runs at most once under every policy |
| Middleware.ToolStaysVisible | easy_mcp/middleware.py:1222-1298 | whatever replaces the answer of a tools/call, the tool's own outcome stays visible further out, unless a layer made a tool error of it; on any other request there is none |
| Middleware.OnlyCodesOfTheEra | easy_mcp/middleware.py:1201-1205 | whatever its layers raise, a chain answers with no reserved code of theirs, nor a forbidden one in the stateless era |
| Middleware.Chain.RunLayer | easy_mcp/middleware.py:922-1026 | the result and the state of the chain's meaning; what reaches the client is the terminal's own answer only if no layer left the path, else the outermost such layer's |
| Schemas.CheckMeaning | easy_mcp/schema.py:658-704 | there is no violation exactly when the value satisfies the schema |
| Schemas.ErrorsAre | easy_mcp/schema.py:658-704 | what is reported is exactly what is wrong: an error for every place where the value breaks the schema, with the way that leads there, and no other |
| Schemas.ErrorsInOrder | easy_mcp/schema.py:658-704 | errors come in the order of the value: what is missing first, then its entries one after the other, items by their place |
| Schemas.WhatATypeTakes | easy_mcp/schema.py:638-655 | which types each scalar has: a bool is no number, a number without a fraction is an integer; an enum takes what it lists, of the same type, but for NaN |
| Schemas.FirstMeaning | easy_mcp/schema.py:664-668 | the option found is the first the value satisfies |
| Schemas.NormalizedIsTyped | easy_mcp/schema.py:707-737 | a valid value normalized is valid, and an int wherever an integer is promised |
| Schemas.NormalizeKeepsNumbers | easy_mcp/schema.py:707-737 | every number keeps its value, and nothing but floats without a fraction changes |
| Schemas.NormalizeIsIdempotent | easy_mcp/schema.py:707-737 | normalizing again changes nothing on schemas none of whose anyOf has two options for arrays or two for objects |
| Schemas.AnyOfIsNotIdempotent | easy_mcp/schema.py:712-716 | with a parameter that takes either of two lists it may change more |
| Schemas.WhenNormalizeChangesAgain | easy_mcp/schema.py:707-737 | for every schema and valid value, it changes more exactly where an earlier option of an anyOf accepts what the first pass made of the value and changes it |
| Schemas.TypedIsValid | easy_mcp/schema.py:638-655 | what has the promised types is valid |
| Schemas.Validate | easy_mcp/schema.py:604-635 | the normalized value exactly when the value is valid, else every violation |
| Schemas.CheckValue | easy_mcp/schema.py:658-704 | the violations, in the order they are found |
| Schemas.CheckRequired | easy_mcp/schema.py:688-690 | the missing names, in order |
| Schemas.NormalizeValue | easy_mcp/schema.py:707-737 | the normalized value |
| Pagination.ServedKeysIncrease | easy_mcp/pagination.py:67-85 | following cursors while the list changes, the keys served strictly increase |
| Pagination.NothingIsSkipped | easy_mcp/pagination.py:67-85 | a walk that ended served every key that was in the list all along |
| Pagination.UnchangedListIsWhole | easy_mcp/pagination.py:67-85 | on an unchanged list the pages put together are the list, and the walk ends |
| Pagination.BisectSplits | easy_mcp/pagination.py:79-81 | a page starts at the first item after the cursor's key |
| Pagination.PageIs | easy_mcp/pagination.py:52-85 | a cursor is refused exactly where it is one of another list; else the page is sorted, within its size, after the cursor, and names where the next one starts |
| Pagination.PagesAreFull | easy_mcp/pagination.py:82-85 | a page that is not the last holds 100 items, and one is the last exactly when all that comes after the cursor is on it |

## Left out

- Parsing a template's text (`UriTemplate.__init__`): templates are given as literals, variables and stops, with what parsing guarantees of them (`WellFormed`).
- Percent-decoding itself: `unquote` is any function of the raw text; which raw escapes and decoded values are refused is modelled.
- `easy_mcp/subscriptions.py`: a loop that closes mid-run (its `RuntimeError` branches), anchors and finalizers, audit and log lines, `wait_ended`, and the text of the messages. Session keys, channels and subscription ids are numbers, and a session's channel is its key.
- `_Sink.deliver`, `_flush_updates`, `drop`, `end` and `_redeliver` have no method of their own in `NotifierClass.dfy`: they push, or call several lock sections, and are the actions of the state machine.
- NotifierClass.ChangeNotifier.Publish: counts the sessions it holds the update for; how many sinks take it is known only once each was offered it, outside the lock.
- How long a debounce window or a push takes, and fairness: the results say where an update or a change is, and that a callback for it is on its way, not when that runs.
- NotifierStreams.NoMoreThanPublished: counts what one listen stream is sent; how often a session is sent an update, over the sinks that replace each other, is not counted.
- ListDigests.DigestCache.ListDigest: other threads' lock sections may fall between its two; each keeps the cache right, and the two are stated on their own.
- RedisSessions.ClosesAreClaimedOnce: losses are of records and index entries; a lost memory of removals would let a close be claimed again.
- Redis outages, replies that never arrive and the connection: a script is one step that happens or does not. A reservation whose answer is lost is the leaked unit of `CallCap`.
- CallCap.AtMostLimitStart: one limit for all calls of the tool; a stateless client's counts lapse with idleness, and the bound is then one of each life of the count.
- The in-memory store's `save_baselines`, `update_subscriptions`, and the idle time of a session it reports as expired.
- RateLimit.BothLimitersAgree: both clocks tick alike; rounding of a window to whole milliseconds and of a key's deadline is not modelled.
- Cancelled signing-key fetches, several loops sharing an issuer's state, metadata discovery, and log lines.
- Middleware that runs `call_next` in a task of its own, cancellation accounting, and the audit trail; a second `call_next` raises in the middleware, which then ends as any does; which of its breaches a log line names.
- Pydantic models in schemas, `enum` options that are no scalars, the wording of violations, and building a schema from annotations.
- The encoding of a cursor, and cursors that are no text this server made.
- Transports, `_handle_listen`'s filter and token deadline, JWT and JWK parsing, connectors, telemetry, completion filtering: not part of this model.
