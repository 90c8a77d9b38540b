# A model of the SGX key agent

This project models the key agent of the SKC client side and proves what its sessions, keys, cache and tokens keep. A *key
agent* loads application keys on behalf of a PKCS#11 module. It asks a *network plug-in* (NPM) for a key; the KMS plug-in
answers a server's challenge with a quote, posts it for a *session* with a symmetric wrapping key (swk), and fetches the key
under that session. The agent hands the key to a *secure transfer module* (STM), which unwraps it inside the token.

`dafny verify dfyconfig.toml` checks everything.

## How it is built

* **Specification.** `AgentModel` is the agent as a state machine on values: tables of sessions, keys, STMs and requests, an
  explicit heap of session structures, the cache database and the token library. An NPM is any finite sequence of callbacks.
  `KmsModel` is the KMS plug-in against any script of server replies. What the server answers, whether a statement or a
  Cryptoki call succeeds, and the order in which a hash table is visited are parameters.
* **Properties.** `AgentLaws`, `AgentCache`, `AgentRuns`, `AgentLoads`, `AgentCalls`, `AgentGuarantees`, `KmsLaws` and `KmsReplies` prove invariants over all
  runs, with exact conditions where the code keeps a property only sometimes.
* **In place.** `KeyAgent`, `Kms`, `OnDemand`, `Cache.LocalCache`, `Token.TokenLibrary`, `Buffers.Pool`, `Initialization.ApiModule` and
  `Labels` hold the imperative code: objects with the fields of the C++ structures, loops and updates as in the source, each
  method proved to do to its structures exactly what the specification does to the state they stand for.
* **Supporting code.** `KeyTransfer`, `SessionIds`, `RequestIds`, `SwkTypes` and `Strings`.

Token cryptography is symbolic: a handle leads to a term that records how the object came about, such as "this payload
unwrapped under the wrapping key that was unwrapped from this swk under the private half of that pair".

## Where the code and its intent differ

The model follows the code. Where a property fails because of it, an exact condition and a concrete run are proved.

* `key.cpp:146` removes a key by the address of its URL although the table is keyed by quarks (`key.cpp:73`). `Config.cascade`
  selects the removal as written or as meant, and every theorem about removal says which it needs.
* `utils.c:418-422` leaves its block with CKR_OK when the second search succeeds without finding the token, so a token without
  a session is cached at `utils.c:445` (`Token.InitApimoduleToken`, `OnDemand.CachesWithoutSession`) and every later load fails
  (`OnDemand.TokenWithoutSessionBlocks`, `OnDemand.TokenWithoutSessionExample`).
* `cache-key.cpp:199` and `229` carry `ret` from row to row (`Cache.SweepIsExact`, `Cache.SweepLosesAesRow`).
* `__keyagent_uncache_key` does not ask whether key caching is on (`Cache.UncacheWithCachingOff`,
  `Cache.UncacheHitsOldRow`).
* `intf.cpp:252-257` leaves a key in the table that its STM refused (`AgentLoads.LeftUndelivered`,
  `AgentGuarantees.RefusedKeyIsAnsweredLater`, `AgentGuarantees.RefusedKeyExample`).
* `session.cpp:82-110` leaves an STM with a stale pointer when a known id is reused under another STM
  (`AgentLaws.CreatedPointersListed`, `AgentLaws.ReusedIdLeavesStalePointer`).
* The parse of a "Session-Id" header takes the third ':' token, which is a session id only for a one-session list
  (`SessionIds.ManySessionHeader`).

## Model

| member | source | states |
|---|---|---|
| AgentRuns.RunKeepsInv | key-agent/src/intf.cpp:208-332 | Any run of events under registered requests, by any NPM, keeps the invariant: every pointer live, every table keyed by its own entries, each session of the table the current session of the STM it names, cache and token consistent, and with the meant removal every key bound to a session of the table |
| AgentRuns.StepKeepsInv | key-agent/src/intf.cpp:225-259 | The same for one event: a request opened or closed, a session or key created, a challenge taken, a session set, a key handed over |
| AgentLoads.LoadsKeepInv | key-agent/src/intf.cpp:285-332 | The same over any sequence of `loadkey` calls, each walking any NPMs that create sessions under registered requests and set none but sessions of the table |
| AgentLoads.OwnLoadsTame | key-agent/src/intf.cpp:225-259 | NPMs that create sessions under their own request id and set none directly are among these, in every state |
| AgentLoads.LoadIsRun | key-agent/src/intf.cpp:208-332 | Between taking and dropping the lock, a load changes the state exactly as the run of its events does |
| AgentLoads.FreshInv | key-agent/src/intf.cpp:73-180 | A freshly initialised agent satisfies the invariant and agrees with its cache |
| AgentLaws.OneSessionPerStm | key-agent/src/session.cpp:82-87 | No two sessions of the table name the same STM |
| AgentLaws.CreateSessionEffect | key-agent/src/session.cpp:60-112 | A call that fails the two checks changes nothing; any other leaves exactly the state described field by field: old session and its keys gone, swk taken over or structure added, cached, STM pointer moved, wrapping key set |
| AgentLaws.CreatedWired | key-agent/src/session.cpp:60-112 | An admitted creation leaves no dangling pointer, keeps sessions under their ids and keys under the quarks of their URLs, and STM pointers on sessions that name their STM |
| AgentLaws.CreatedCurrent | key-agent/src/session.cpp:82-110 | Each session of the table stays the current one of its STM, also when the STM refuses or an id is reused, if and only if the request is registered or the id was known |
| AgentLaws.CreatedPointersListed | key-agent/src/session.cpp:82-110 | An STM pointer keeps leading to a session of the table if and only if no session gives way or the STM it gives way for gets the new one; a known id reused under another STM leaves a stale pointer |
| AgentLaws.ReusedIdLeavesStalePointer | key-agent/src/session.cpp:82-110 | A concrete state with two STMs in which reusing an id leaves one of them a stale pointer |
| AgentRuns.SetSessionCurrentExact | key-agent/stm/stm_init.cpp:132-173 | Setting a session directly keeps the table current if and only if the request is unknown, the session is in the table, or no other session of the table names that STM |
| AgentRuns.RunKeepsTypes | key-agent/src/session.cpp:67-72 | The wrapping key type of every session stays one that lookup finds, along every run, whatever the NPMs do |
| AgentLaws.GoingKeysAre | key-agent/src/key.cpp:132-157 | As meant, the keys removed are exactly those of the session that gives way; as written, none are |
| AgentLaws.CreatedBoundAsMeant | key-agent/src/key.cpp:132-157 | With removal by quark: no key outlives its session, exactly the old session's keys go, and every other key stays as it was |
| AgentLaws.CreatedBoundAsWritten | key-agent/src/key.cpp:143-147 | With removal by address, as the code has it: the key table never shrinks, and every key stays bound if and only if no key belonged to a session that gave way |
| AgentGuarantees.StepBoundAsWritten | key-agent/src/key.cpp:143-157 | As written, one event keeps every key bound if and only if it replaces no session that still has keys |
| AgentGuarantees.BoundAsWrittenExact | key-agent/src/key.cpp:143-157 | As written, no key ever outlives its session in a run if and only if no session with keys ever gives way in it |
| AgentGuarantees.KeyOutlivesItsSession | key-agent/src/key.cpp:143-147 | A session, a key under it and a second session for the STM: as written the key is left behind, as meant it is gone |
| AgentGuarantees.KeyOutlivesItsSessionExample | key-agent/src/key.cpp:143-147 | One concrete run that leaves a key behind its session |
| AgentGuarantees.HandedUnderOwnSession | key-agent/stm/stm_init.cpp:225-262 | A key of a listed session is handed over under that very session: its STM, its wrapping key type, and the parts of its own record |
| AgentGuarantees.StaleKeyIsHandedElsewhere | key-agent/stm/stm_init.cpp:225-262 | A key whose session left the table is handed over under a different session |
| AgentGuarantees.RunKeepsWrap | api-module/pkcs11/src/apimodule-sgx.cpp:386-396 | While every attempt to set a session succeeds, the token's wrapping key is the unwrapping of the current session's swk, however challenges, failures, updates and replacements interleave |
| AgentGuarantees.WrapHistory | api-module/pkcs11/src/apimodule-sgx.cpp:214-221 | And it was unwrapped under the challenge private key that was current at the last attempt |
| AgentGuarantees.RefusedWrapExact | key-agent/stm/stm_init.cpp:150-166 | After a refused attempt the wrapping key matches if and only if it already was an unwrapping of the same bytes |
| AgentGuarantees.EndToEnd | key-agent/stm/stm_init.cpp:212-265 | From a fresh agent, a key that an STM takes is in the token as the unwrapping of its own bytes under the unwrapping of the swk of the session it was created under |
| AgentGuarantees.TakenExactly | key-agent/stm/stm_init.cpp:212-265 | While the wrapping key matches, a key of a listed session is taken if and only if its STM is the SGX one, the request carries module data of the matching type, its record parses with an iv and the unwrap call succeeds |
| AgentLoads.LoadResult | key-agent/src/intf.cpp:285-332 | A load of an acceptable URL returns TRUE if and only if the key was in the table or an STM took it in this call; then the key is in the table and repeating the call runs no NPM and changes nothing |
| AgentLoads.WalkDelivers | key-agent/src/intf.cpp:208-271 | The NPM walk returns TRUE with the key in the table if and only if the key was handed to an STM that took it |
| AgentLoads.LoadLeavesRequests | key-agent/src/intf.cpp:225-262 | On every return path the lock is as at entry, and the request table is, if and only if no request id in flight was handed out again |
| AgentLoads.UrlAcceptedExact | key-agent/src/intf.cpp:294-303 | The check at the door by the text of the URL: one without a colon passes, of one with a colon neither what is in front of it nor what follows up to the next may be empty |
| AgentGuarantees.RefusedKeyIsAnsweredLater | key-agent/src/intf.cpp:247-257 | A load leaves its key undelivered if and only if some NPM takes part and each that does leaves a key that its STM cannot take; every later load then returns TRUE without an NPM |
| AgentLoads.TakeableExact | key-agent/stm/stm_init.cpp:212-265 | When an STM takes a key, in every state: STM, request, record, type and wrapping key |
| AgentLoads.LeftUndelivered | key-agent/src/intf.cpp:208-271 | A load returns FALSE with the key in the table if and only if some NPM takes part and each that does leaves a key that its STM cannot take |
| AgentGuarantees.LeftUndeliveredExactly | key-agent/src/intf.cpp:208-271 | With the meant removal, and while attempts to set a session succeed, if and only if each NPM that takes part leaves a key that does not fit its request: of another STM, without module data, of the other type, or with a record that does not parse with an iv |
| AgentGuarantees.RefusedKeyExample | key-agent/src/intf.cpp:247-257 | A concrete load after which that is the case |
| AgentGuarantees.RunKeepsSessionsCached | key-agent/src/cache-session.cpp:140-180 | With session caching on and its inserts succeeding, every session of the table has the row of its STM with equal swk, id and type under its own cache id, along every run |
| AgentGuarantees.RunKeepsKeysCached | key-agent/src/cache-key.cpp:310-370 | With key caching on and its inserts succeeding, every key has the row of its URL under its own cache id, and an RSA key's bytes are read back by it, along every run, whatever the NPMs do |
| AgentCache.SessionCacheExact | key-agent/src/cache-session.cpp:140-180 | One session creation keeps the agreement if and only if it was not admitted or its insert and its select succeed |
| AgentCache.KeyCacheExact | key-agent/src/cache-key.cpp:310-370 | One key creation keeps the agreement if and only if it was refused or its insert, its select and, for an RSA key, its attribute insert succeed |
| AgentCache.CreatedKeysCached | key-agent/src/cache-key.cpp:372-382 | Session changes delete the rows of the keys that go and no others |
| AgentCache.CreateKeyEffect | key-agent/src/key.cpp:42-83 | Creating a key succeeds if and only if the URL is known or attributes, key data and a known session id are given; a refused call changes nothing, an accepted one sets one entry |
| AgentCache.OneRowPerKey | key-agent/src/cache-init.cpp:77-83 | A key's cache id names one row, that of its URL |
| AgentCalls.SessionCallExact | key-agent/src/session.cpp:59-112 | A session creation succeeds if and only if type and STM are known, the STM of the session under that id, known or new, is the SGX one, the request carries module data, and the token has a challenge pair and unwraps the swk |
| AgentCalls.SessionCallTables | key-agent/src/session.cpp:59-112 | Every table after the call by the arguments: a known session takes over the swk and keeps STM and type, a new one has what was given; of the other ids only that of the session the STM had before goes; the STM pointer moves if and only if the request is registered |
| AgentCalls.SessionCallWraps | api-module/pkcs11/src/apimodule-sgx.cpp:332-399 | The token gets one new object, the given swk unwrapped under the challenge private key, as its wrapping key; a call that fails leaves the token alone |
| AgentCalls.SessionCallRows | key-agent/src/cache-key.cpp:372-382 | Of the three key tables exactly the rows of the keys that left go, with everything under their ids |
| AgentCalls.KeyCallExact | key-agent/src/key.cpp:41-89 | A known URL succeeds and keeps its entry but for the cache id; a new one succeeds if and only if key data and a known session id are given, and gets the entry that was given |
| AgentCalls.ChallengeCallExact | key-agent/stm/stm_init.cpp:175-210 | A challenge succeeds if and only if STM, request, module data, a token with a session and every library call are there; the new quote then holds the given nonce and the public half of a new pair, and nothing outside the token library changes |
| AgentCalls.ChallengeCallSetsUp | api-module/pkcs11/src/pkcs11-apimodule.cpp:328-337 | A missing token is set up by a challenge with the PIN of the URI behind the request if and only if STM, request and module data are there and the set-up works; a token that is there keeps PIN and session |
| AgentCalls.SetSessionCallExact | key-agent/stm/stm_init.cpp:132-173 | Setting a session moves the STM pointer if and only if STM and request are known, and succeeds if and only if the token unwraps its swk under the challenge private key |
| AgentCalls.HandOverExact | key-agent/stm/stm_init.cpp:225-262 | What an STM is given with a key in every state: the session that the STM has now with its type, the module data of the request, type and record of the key; nothing if and only if STM, its session or the request is missing or the record does not parse |
| AgentCalls.CachingOffCalls | key-agent/src/cache-session.cpp:140-180 | With caching off no row is written: the object gets the next value of the counter as its id |
| Cache.CacheSessionStores | key-agent/src/cache-session.cpp:140-180 | The row of an STM is written if and only if insert and select succeed; other STMs' rows and the key tables stay; a failed call yields -1 |
| Cache.CacheKeyStores | key-agent/src/cache-key.cpp:310-370 | A key is stored if and only if every statement it needs succeeds, under a new id; a failed attribute insert leaves no row under that id; other rows stay in every case |
| Cache.CachingOff | key-agent/src/cache-session.cpp:140-180 | With caching off a call changes no table and yields the next value of the counter |
| Cache.FreshIdIsBare | key-agent/src/cache-init.cpp:77-83 | An id handed out later has no key or attribute rows yet |
| Cache.DeleteIsExact | key-agent/src/cache-key.cpp:178-185 | Deleting ids removes every row that carries one of them from the three key tables and nothing else |
| Cache.DeleteAllIsSet | key-agent/src/cache-key.cpp:187-192 | Deleting ids one by one deletes the set of them |
| Cache.DeleteOrderIrrelevant | key-agent/src/cache-key.cpp:233-237 | The order and repeats of a delete list make no difference |
| Cache.UncacheWithCachingOff | key-agent/src/cache-key.cpp:372-382 | With key caching off, uncaching leaves the tables alone if and only if no stored row carries the counter value used as id |
| Cache.UncacheHitsOldRow | key-agent/src/cache-key.cpp:372-382 | A concrete table whose row an agent that does not cache keys deletes |
| Cache.SweepIsExact | key-agent/src/cache-key.cpp:194-238 | The start-up sweep: surviving RSA rows are exactly the readable ones, a row of another type survives if and only if the flag carried to it is true, deleted ids leave nothing in the three tables, survivors are unchanged |
| Cache.CarriedIsNearest | key-agent/src/cache-key.cpp:199-230 | The carried flag is decided by the nearest RSA row at or before the place |
| Cache.SweepLosesAesRow | key-agent/src/cache-key.cpp:199-230 | The row of an AES key as the agent caches it is deleted by the sweep if it stands alone and kept behind a readable RSA row |
| Cache.LocalCache.StoreSession | key-agent/src/cache-session.cpp:140-180 | The tables, the cache id and the result are those of one insert and one select by STM label, or a fresh counter value when caching is off |
| Cache.LocalCache.StoreKey | key-agent/src/cache-key.cpp:310-370 | The tables, the cache id and the result are those of insert, select and, for an RSA key, attribute insert with clean-up on failure |
| Cache.LocalCache.DeleteKeyAndAttrs | key-agent/src/cache-key.cpp:178-185 | Three statements delete the id from the three tables |
| Cache.LocalCache.Uncache | key-agent/src/cache-key.cpp:372-382 | Deletes at once, or appends to the delete list while a result set is open |
| Cache.LocalCache.Flush | key-agent/src/cache-key.cpp:232-236 | Working through the delete list deletes all its ids and empties it |
| Cache.LocalCache.UncacheDeferred | key-agent/src/cache-key.cpp:372-382 | Deferred and flushed deletions give the tables that the same ids deleted at once would give, in any order and with repeats |
| Cache.LocalCache.LoadKeys | key-agent/src/cache-key.cpp:194-238 | The loop over the rows leaves the swept tables |
| KeyAgent.Agent.AddStm | key-agent/stm/stm_init.cpp:11-49 | A loaded STM enters the table without a session |
| KeyAgent.Agent.BuildDeleteList | key-agent/src/key.cpp:132-140 | The list holds exactly the keys of the session, whatever the order of the visit |
| KeyAgent.Agent.RemoveListed | key-agent/src/key.cpp:142-156 | Walking the list removes what the removal key of each entry finds and deletes the cached rows of what goes |
| KeyAgent.Agent.RemoveBySession | key-agent/src/key.cpp:149-157 | The key table, its cached rows and nothing else change as specified |
| KeyAgent.Agent.RemoveSession | key-agent/src/session.cpp:125-130 | Leaving the session table takes the session's keys along |
| KeyAgent.Agent.ClearTheWay | key-agent/src/session.cpp:82-87 | The STM's session is removed if it has another id |
| KeyAgent.Agent.TakeOverSwk | key-agent/src/session.cpp:88-93 | A known session takes over a different swk in place |
| KeyAgent.Agent.NewSessionObject | key-agent/src/session.cpp:96-103 | A new structure at a new address enters the table |
| KeyAgent.Agent.StoreSession | key-agent/src/cache-session.cpp:140-180 | The row of the session's STM is replaced, and the structure gets the id of the new row, the counter value, or -1 on a failed statement |
| KeyAgent.Agent.SetSession | key-agent/stm/stm_init.cpp:132-173 | The pointer of the STM moves before the STM is asked; the result is the STM's |
| KeyAgent.Agent.CreateSession | key-agent/src/session.cpp:60-112 | The structures end up standing for the state that AgentLaws.CreateSessionEffect describes, and the result is the STM's word |
| KeyAgent.Agent.StoreKey | key-agent/src/cache-key.cpp:310-370 | The row of the key's URL is replaced, and the structure gets the id of the new row, the counter value, or -1 on a failed statement |
| KeyAgent.Agent.CreateKey | key-agent/src/key.cpp:41-83 | The structures end up standing for the state that AgentCache.CreateKeyEffect describes, and the result says whether the arguments were accepted |
| KeyAgent.Agent.TakeChallenge | key-agent/stm/stm_init.cpp:175-210 | The token of the request's module data is asked if STM and request are known |
| KeyAgent.Agent.KeyDetails | key-agent/stm/stm_init.cpp:225-261 | What the STM gets: the record cut into its parts and the type of the STM's current session |
| KeyAgent.Agent.LoadToStm | key-agent/stm/stm_init.cpp:212-265 | The token changes as specified and nothing else does |
| KeyAgent.Agent.Call | key-agent/types.h:195-213 | Each of the four callbacks of an NPM acts on the structures as its specification does on the state |
| KeyAgent.Agent.TryNpm | key-agent/src/intf.cpp:208-271 | One NPM: request registered, callbacks, delivery, request dropped |
| KeyAgent.Agent.WalkNpms | key-agent/src/intf.cpp:313-318 | The walk ends with the first NPM that returns TRUE |
| KeyAgent.Agent.LoadUrl | key-agent/src/intf.cpp:285-332 | The whole load in place, lock included |
| KmsLaws.KmsEndToEnd | npm/kms/src/intf.cpp:211-361 | For every script of server replies: after a load of the plug-in that succeeds, the STM takes the key if and only if the last reply fits the request; the token then holds its payload unwrapped under the unwrapping of the swk of the session that this reply named |
| KmsLaws.KmsInLoad | key-agent/src/intf.cpp:285-332 | The whole loadkey call over the plug-in, for every script of server replies: TRUE if and only if the key was there, or the plug-in takes the URL, its protocol succeeds and the last reply fits |
| KmsLaws.KmsRunIsKms | npm/kms/src/intf.cpp:211-361 | For every script some callbacks under the plug-in's own request make the agent end in the state that the plug-in reaches |
| KmsLaws.KmsServes | npm/kms/src/intf.cpp:211-361 | To a server that challenges, makes the session and then grants the key under it, every agent in a sound state that can serve the challenge answers with success, in exactly two key requests |
| KmsLaws.KmsIsAnNpm | npm/kms/src/intf.cpp:211-361 | Whatever the server replies, the plug-in acts on the agent only through callbacks under its own request id |
| KmsLaws.RequestsBounded | npm/kms/src/intf.cpp:212-219 | The recursion ends, after at most two key requests and two session requests |
| KmsLaws.RepeatedExactly | npm/kms/src/intf.cpp:288-307 | The key request is sent a second time if and only if the first reply is a well-formed challenge and a session came out of it |
| KmsLaws.RepeatedOnlyWithSession | npm/kms/src/intf.cpp:92-209 | When it is repeated, the challenge's session is in the table, installed, its swk unwrapped under the private half of the pair made for this challenge, and listed in the repeated request |
| KmsLaws.ResultExact | npm/kms/src/intf.cpp:211-361 | For a URL not in the table the load returns TRUE if and only if a request was sent and the last key reply was a complete 200 naming a known session; the key in the table has the type and the bytes that this reply names |
| KmsLaws.AcceptKeyExact | npm/kms/src/intf.cpp:308-347 | A 200 is accepted if and only if it is complete and its header names a known session |
| KmsLaws.KmsKeyIsListed | npm/kms/src/intf.cpp:211-361 | Even with the removal as written, the key just created belongs to a session of the table |
| KmsReplies.RoundExact | npm/kms/src/intf.cpp:92-209 | A challenge round succeeds if and only if the 401 is complete, asks for the SGX STM by post, its challenge is taken, and the 201 has a status and a known type, its swk unwraps and the id is free or names an SGX session |
| KmsReplies.RoundParts | npm/kms/src/intf.cpp:122-192 | A challenge round is the challenge of the 401 and, if it stands and a 201 with status and type answers, the creation of the session with the fields of that 201; the agent ends up accordingly, whether they succeed or not |
| KmsReplies.RoundSends | npm/kms/src/intf.cpp:137-157 | It sends one GET with the ids of all sessions and, if the 401 stands, one POST with the STM and the challenge of the 401 and the quote over its nonce; each takes one reply |
| KmsReplies.RoundLeaves | npm/kms/src/intf.cpp:178-192 | Under the id of the 401 stands an SGX session with the swk of the 201, empty if missing, and if new with its type; the token holds the quote over the nonce of the 401 and the swk of the 201 unwrapped under the private half that belongs to it |
| KmsReplies.KmsUrls | npm/kms/src/intf.cpp:249-259 | The plug-in works on URLs that begin with the token KMS, registers for those with a second token, and asks the server for the text up to the second colon |
| KmsReplies.SecondReply | npm/kms/src/intf.cpp:300-347 | After a successful round the load succeeds if and only if the second reply grants the key under the session just made or a known one that did not give way |
| KmsReplies.KmsExact | npm/kms/src/intf.cpp:211-361 | The whole protocol by its replies: TRUE if and only if the first grants the key under a known session, or starts a round that succeeds and the second grants it; the key in the table has the type the algorithm names, RSA, AES or invalid, and the payload, empty if missing |
| KmsReplies.EndsAtOnce | npm/kms/src/intf.cpp:237-349 | A load that the first reply ends without a key changes nothing in the agent and sends one GET; on a URL of another plug-in not even that |
| KmsReplies.ServedKey | npm/kms/src/intf.cpp:92-361 | A server that challenges, makes the session and grants the key is served in every sound state: the key stands under the session of the 201, whose swk is unwrapped under the private half made for the 401 |
| KmsReplies.KmsDelivers | npm/kms/src/intf.cpp:92-361 | From the 401 into the token: loadkey returns TRUE if and only if the 200 carries an RSA key for a private-key URI or an AES key for another, in a record that parses with an iv, and it unwraps; the token then holds the payload of the 200 under the swk of the 201 under the pair of the 401 |
| Kms.Plugin.SendKeyRequest | npm/kms/src/intf.cpp:249-277 | The request lists the ids of all sessions and consumes one reply |
| Kms.Plugin.StartSession | npm/kms/src/intf.cpp:92-209 | At most one challenge, one post and one session creation happen, in this order, each only after the one before succeeded; agent, script and log of requests end up accordingly |
| Kms.Plugin.AcceptKey | npm/kms/src/intf.cpp:308-347 | A key is created under the id of the last session header, with the type that the algorithm names and the payload or an empty buffer |
| Kms.Plugin.LoadKey | npm/kms/src/intf.cpp:211-361 | Agent, script, log of requests and result are those of the protocol specification entered with the counter value at entry; the counter never exceeds two and is the measure of the recursion |
| Kms.Plugin.KeyLoad | npm/kms/src/intf.cpp:424-433 | Agent, script, log of requests and result are those of the protocol specification entered with the counter at zero |
| Token.ChallengeLeavesWrapping | api-module/pkcs11/src/apimodule-sgx.cpp:173-330 | A challenge leaves the wrapping key alone; a successful one quotes the public half of a new pair whose private half is current from now on, a failed generation leaves no pair |
| Token.ChallengeExact | api-module/pkcs11/src/pkcs11-apimodule.cpp:310-354 | A challenge succeeds if and only if there is module data, the STM is the SGX one, the token, be it one set up just now, has a session, and every library call succeeds |
| Token.ChallengeSetsUp | api-module/pkcs11/src/utils.c:379-450 | A token that the challenge sets up has the PIN of the URI and the session that was opened for it, and no handles; one that is there keeps its own |
| Token.ChallengeMakesPair | api-module/pkcs11/src/apimodule-sgx.cpp:172-330 | Which objects and handles each way through a challenge leaves: a new pair, none, or those before; the quote changes with the whole challenge only |
| Token.WrappingKeyIsSet | api-module/pkcs11/src/apimodule-sgx.cpp:332-399 | Setting succeeds if and only if token, STM, challenge pair and unwrapping are there; the wrapping key then is the unwrapping under the current private half, else nothing changed |
| Token.LoadedUnderWrapping | api-module/pkcs11/src/apimodule-sgx.cpp:122-170 | Loading adds one object, unwrapped under the wrapping key, or changes nothing |
| Token.NoSessionNoUse | api-module/pkcs11/src/apimodule-sgx.cpp:172-399 | With a token that lacks a session no challenge, wrapping key or key load succeeds or changes anything |
| Token.InitApimoduleToken | api-module/pkcs11/src/utils.c:379-450 | Exactly when a token is cached with a session, and exactly when it is cached without one |
| Token.TokenLibrary.MakeChallengePair | api-module/pkcs11/src/apimodule-sgx.cpp:172-222 | Both handles are invalidated before a pair is made |
| Token.TokenLibrary.Challenge | api-module/pkcs11/src/pkcs11-apimodule.cpp:310-354 | The token is set up if missing, gets a new pair and a quote over its public half that holds the nonce; each failing call leaves what was done before it |
| Token.TokenLibrary.UseWrappingKey | api-module/pkcs11/src/pkcs11-apimodule.cpp:356-393 | The swk is unwrapped under the private half into a new object whose handle becomes the wrapping key; a failure changes nothing |
| Token.TokenLibrary.InstallKey | api-module/pkcs11/src/pkcs11-apimodule.cpp:446-490 | The parts are unwrapped under the wrapping key into a new object if token, STM, type and iv allow it; a failure changes nothing |
| OnDemand.DemandResult | api-module/pkcs11/src/pkcs11-apimodule.cpp:258-308 | CKR_OK if and only if the token's session shows the object, or the agent has or gets the key, with a PIN other than the token's or a failed search hiding both |
| OnDemand.DemandKeepsInv | api-module/pkcs11/src/pkcs11-apimodule.cpp:258-308 | Loading on demand keeps the agent's invariant, whatever tame callbacks the NPMs make |
| OnDemand.KeyUrlIsForKms | api-module/pkcs11/src/pkcs11-apimodule.cpp:290-303 | The URL built from a URI is accepted by agent and plug-in if and only if the key id is not empty and does not begin with a colon, and names this key id if and only if it has no colon |
| OnDemand.KeyUrlParts | api-module/pkcs11/src/pkcs11-apimodule.cpp:291 | The URL is KMS, key id, key label and the text of the URI, joined by colons, and its tokens are theirs |
| OnDemand.KeyUrlInjective | api-module/pkcs11/src/pkcs11-apimodule.cpp:291 | Two URIs without colons in id and label share a URL, and with it a table entry, if and only if they agree in id, label and text |
| OnDemand.LookedUp | api-module/pkcs11/src/pkcs11-apimodule.cpp:270-274 | The token after the look-up, field by field: one that is there stays, a missing one is set up with the PIN of the URI if it is found |
| OnDemand.DemandCases | api-module/pkcs11/src/pkcs11-apimodule.cpp:258-308 | The call by its fields: no token means a load; with a token another PIN, no session or a failed search fails, an object that is there succeeds without the agent, an absent one means exactly the load |
| OnDemand.ChallengeServesPin | api-module/pkcs11/src/pkcs11-apimodule.cpp:276-282 | A token set up by a challenge serves later calls under the PIN of that load, whatever happens in between, and fails those under any other |
| OnDemand.TokenWithoutSessionBlocks | api-module/pkcs11/src/utils.c:418-445 | Once a token without a session is in the table, it stays, and every further load on demand fails and changes nothing, whatever else happens in between |
| OnDemand.CachesWithoutSession | api-module/pkcs11/src/utils.c:379-450 | A load on demand caches such a token if and only if the token is found at first and missing at the second look; the load fails without asking the agent |
| OnDemand.TokenWithoutSessionExample | api-module/pkcs11/src/utils.c:418-445 | Two concrete calls: the second fails, which on an agent without a token succeeds |
| OnDemand.OnDemandKeyLoad | api-module/pkcs11/src/pkcs11-apimodule.cpp:258-308 | The token is looked up or set up, pin and object are checked, and the agent is asked only if the object is not there; the agent's structures end up accordingly |
| Initialization.PreloadsAtMostOnce | api-module/pkcs11/src/pkcs11-apimodule.cpp:115-131 | Over any run keys are preloaded at most once if and only if at most 2^32 calls were accepted, and at least once if and only if one was |
| Initialization.InitializeCounts | api-module/pkcs11/src/pkcs11-apimodule.cpp:115-131 | However calls nest, a preload begins at every 2^32-th accepted call, starting with the first, and at no other, and nesting is bounded by their number |
| Initialization.NestingIsBounded | api-module/pkcs11/src/utils.c:411-416 | Over every run that ends, calls are nested at most one deeper than the flag has gone round; up to 2^32 accepted calls at most two are active at once |
| Initialization.ReinitsOnlyCount | api-module/pkcs11/src/utils.c:411-416 | The initialise calls made by token creation begin no preload before the flag wraps around |
| Initialization.ReinitsEnd | api-module/pkcs11/src/utils.c:411-416 | The initialise calls set off by a load end and begin no preload as long as the flag has room for them |
| Initialization.FirstCallPreloads | api-module/pkcs11/src/pkcs11-apimodule.cpp:115-131 | The first accepted call preloads once; while the flag does not wrap around, its loads are those of the lines up to the first failure |
| Initialization.PreloadResult | api-module/pkcs11/src/pkcs11-apimodule.cpp:492-532 | TRUE if and only if there is a readable file with at least one line and every line loads |
| Initialization.LinesExact | api-module/pkcs11/src/pkcs11-apimodule.cpp:507-520 | The lines are attempted in turn up to the first that fails |
| Initialization.LinesAccept | api-module/pkcs11/src/utils.c:404-416 | A preload in which no other nests makes every initialise call that its loads set off |
| Initialization.LinesDepth | api-module/pkcs11/src/utils.c:404-416 | It is nested one deeper than itself if and only if one of its loads creates a token |
| Initialization.InitializeEnds | api-module/pkcs11/src/pkcs11-apimodule.cpp:115-131 | Initialisation ends, from any value of the flag, if no preload sets off 2^32 calls or more |
| Initialization.StormNeverEnds | api-module/pkcs11/src/pkcs11-apimodule.cpp:115-131 | The bound is sharp: with 2^32 accepted calls in a one-line preload, initialisation never ends |
| Initialization.CalmRunsEnd | api-module/pkcs11/src/pkcs11-apimodule.cpp:115-131 | Below the bound every run of initialisations and loads ends |
| Initialization.CalmNesting | api-module/pkcs11/src/utils.c:411-416 | And at most two initialise calls are ever active at once, however often the flag has gone round |
| Initialization.ApiModule.CInitialize | api-module/pkcs11/src/pkcs11-apimodule.cpp:115-131 | Flag and counts end up as specified; the flag, which counts before the preload begins, is the measure that makes the recursion end |
| Initialization.ApiModule.PreloadKeys | api-module/pkcs11/src/pkcs11-apimodule.cpp:492-532 | The loop over the lines ends with the first that fails; flag, counts and result end up as specified |
| Initialization.ApiModule.LoadOnDemand | api-module/pkcs11/src/utils.c:404-416 | Each token that a load creates is followed by one initialise call |
| Buffers.Conservation | include/k_types.h:49-120 | Over any legal run: outer count, byte count and number of owners agree, a buffer is freed if and only if it has no owner left, and once, bytes and structure together |
| Buffers.ConservationFromEmpty | include/k_types.h:49-120 | In particular from the empty state: exactly the buffers without an owner were freed, each once |
| Buffers.StepKeeps | include/k_types.h:49-120 | The same for one alloc, ref, unref, attribute add with overwrite, table ref or unref, or session step |
| Buffers.DataStays | include/k_types.h:49-81 | Along every legal run the bytes of a live buffer never change |
| Buffers.AllocHolds | include/k_types.h:49-62 | A new buffer holds the bytes it was made from and belongs to its caller |
| Buffers.AddAttrHolds | key-agent/types.h:49-54 | An added entry holds the buffer it was given; no other entry or session changes |
| Buffers.NewSessionHolds | key-agent/src/session.cpp:96-98 | A new session holds the buffer it was given |
| Buffers.SetSwkHolds | key-agent/src/session.cpp:88-93 | After an swk update the session holds the bytes it was given; it keeps its old buffer if and only if those bytes were equal |
| Buffers.HandlesAreHeld | include/k_types.h:64-81 | References that callers take and drop are the pointers they hold; nothing stored changes |
| Buffers.TableLives | include/k_types.h:106-120 | An attribute table lives until its last holder lets go, and then takes exactly its own entries along |
| Buffers.NewTableIsEmpty | include/k_types.h:98-104 | A new table has no entry and belongs to its caller |
| Buffers.TableRefIsHeld | include/k_types.h:106-112 | A table reference is one more holder |
| Buffers.Pool.BufferAlloc | include/k_types.h:49-62 | A new buffer with both counts at one, held by the caller |
| Buffers.Pool.BufferRef | include/k_types.h:64-70 | Both counts rise by one |
| Buffers.Pool.BufferUnref | include/k_types.h:72-81 | Both counts fall by one; bytes first, then the structure, are freed at zero; NULL is left alone |
| Buffers.Pool.AddAttribute | key-agent/types.h:49-54 | The table takes a reference and lets go of a value that it replaces; NULL adds nothing |
| Buffers.Pool.AttributesUnref | include/k_types.h:114-120 | Both counts fall by one; at zero every entry is let go and the table is freed |
| Buffers.Pool.FreeEntries | include/k_types.h:91-96 | Every entry of a dying table is let go once, in any order |
| Buffers.Pool.SetSessionSwk | key-agent/src/session.cpp:88-93 | If the bytes differ, the session lets go of the old swk and holds the new one |
| Labels.Utf8ToChar | api-module/pkcs11/src/utils.c:10-27 | The trimming loop yields the trimmed label, or NULL for a blank one |
| Labels.TrimmedIsPrefix | api-module/pkcs11/src/utils.c:10-27 | Trimming yields the longest prefix that does not end in a blank |
| Labels.LabelRoundTrip | api-module/pkcs11/src/utils.c:232-234 | For a name of 1 to 32 characters, trimming the padded label gives the name back if and only if the name does not end in a blank |
| Labels.LabelsOfOtherNames | api-module/pkcs11/src/utils.c:232-234 | A name of more than 32 characters loses its end; no name at all leaves a blank label of 31 |
| Labels.TruncatedIsPrefix | api-module/pkcs11/src/utils.c:195-201 | Truncate-then-compare is the prefix test |
| Labels.MatchesExactly | api-module/pkcs11/src/utils.c:184-205 | A slot matches if and only if its token can be read and its trimmed label is not empty and starts with the wanted one |
| Labels.FirstMatchIsFirst | api-module/pkcs11/src/utils.c:184-205 | The search specification names the first matching slot |
| Labels.FindToken | api-module/pkcs11/src/utils.c:150-210 | The slot id becomes that of the first readable slot whose trimmed label starts with the wanted one and stays otherwise; the return value is as the loop leaves it |
| Labels.CreatedTokenIsFound | api-module/pkcs11/src/utils.c:184-234 | A created token is found under its name if and only if no earlier slot's label starts with the name |
| Labels.StrNCmpIsPrefix | api-module/pkcs11/tests/aes-test/aes_encrypt_decrypt.cpp:120-137 | The comparison of the sample client is the prefix test |
| Labels.SearchesAgree | api-module/pkcs11/tests/aes-test/aes_encrypt_decrypt.cpp:120-137 | Library and client agree on labels without NUL |
| Labels.SearchesDifferOnNul | api-module/pkcs11/tests/aes-test/aes_encrypt_decrypt.cpp:120-137 | With a NUL they differ: a concrete pair |
| KeyTransfer.ParseOfEncode | key-agent/stm/stm_init.cpp:240-253 | Parsing what was encoded gives exactly iv, wrapped key and tag size back, with no iv buffer for an empty iv |
| KeyTransfer.EncodeOfParse | key-agent/stm/stm_init.cpp:240-253 | Parsing fails if and only if the iv length exceeds 64; the slices are adjacent, and re-encoding gives the record up to the last byte that the header accounts for |
| KeyTransfer.RecordLayout | key-agent/stm/stm_init.cpp:240-253 | Which bytes of the record are which: sizes at 0, 4 and 8, the iv from 12 on, the wrapped key behind it; an iv of more than 64 bytes is refused |
| KeyTransfer.FieldBytes | key-agent/types.h:43-47 | A header field is four bytes, least significant first |
| SessionIds.GetIds | key-agent/src/session.cpp:8-36 | The visitor prints the comma-separated list of name:id pairs, NULL for an empty table |
| SessionIds.ListingRoundTrip | key-agent/src/session.cpp:8-36 | Reading the printed list gives back exactly one pair per entry, in any visiting order |
| SessionIds.FindTokens | npm/kms/src/intf.cpp:28-39 | The last matching header wins |
| SessionIds.LastHeaderWins | npm/kms/src/intf.cpp:310 | Of several session headers the last one counts, whatever stands before and after it |
| SessionIds.HeaderSpelling | npm/kms/src/intf.cpp:33 | Exactly the prefixes Session-Id: and session-id: make a session header |
| SessionIds.StripFixed | npm/kms/src/intf.cpp:332 | Stripping leaves an id alone if and only if it has no blank at either end |
| SessionIds.StripIsMiddle | npm/kms/src/intf.cpp:332 | Stripping takes blanks off both ends and nothing else |
| SessionIds.SpacesAre | npm/kms/src/intf.cpp:332 | The five characters that count as blanks |
| SessionIds.OneSessionHeader | npm/kms/src/intf.cpp:270-275 | For a one-session table the header parses back to the stripped session id, the id itself if and only if it has no blank ends |
| SessionIds.ManySessionHeader | npm/kms/src/intf.cpp:332 | With two or more sessions the same parse yields no session id |
| RequestIds.SetVersion | key-agent/src/request.cpp:23-40 | The four updates in place change bytes 6 and 8 as specified and no others |
| RequestIds.VersionIsForced | key-agent/src/request.cpp:23-40 | Version and variant hold and the other 122 bits stay |
| RequestIds.SixBitsFixed | key-agent/src/request.cpp:23-40 | Those two facts determine the result: exactly six bits are fixed |
| RequestIds.VersionIsIdempotent | key-agent/src/request.cpp:23-40 | Setting the version twice is setting it once |
| RequestIds.FillWords | key-agent/src/request.cpp:42-52 | The loop fills the id with the four words in order |
| RequestIds.TextRoundTrip | key-agent/src/request.cpp:10-21 | The text decodes to the same bytes and has hyphens at the four fixed places only |
| RequestIds.TextIsInjective | key-agent/src/request.cpp:10-21 | Distinct ids are distinct table keys |
| RequestIds.GenerateV4 | key-agent/src/request.cpp:42-54 | Four random words fill the id, then the version is set |
| RequestIds.GeneratedIds | key-agent/src/request.cpp:56-62 | Every generated id shows version and variant; two are equal if and only if their free bits are |
| RequestIds.RequestIdHoldsDraws | key-agent/src/request.cpp:56-62 | All four random words enter the generated id, each in its own four bytes, but for the six fixed bits |
| SwkTypes.SplitThenJoin | key-agent/src/session.cpp:139-149 | Splitting at - and joining with _ replaces each -, keeps the length and is idempotent under naming |
| SwkTypes.InitSwkTypes | key-agent/src/session.cpp:160-170 | The loop fills the table of the six names |
| SwkTypes.SixDistinctTypes | key-agent/src/session.cpp:160-170 | The six names are six entries, each mapping back to itself |
| SwkTypes.LookupIsExact | key-agent/src/session.cpp:151-158 | Lookup succeeds if and only if the form with _ is one of the six, and then yields KEYAGENT_SWKTYPE_ followed by that form |

## Left out

- HTTP, TLS, JSON and base64: a server reply is a value with optional fields; the nonce is taken as decoded.
- libgda, SQL parsing and transactions: a table is a map keyed by its UNIQUE ON CONFLICT REPLACE column, a statement succeeds or not; DELETE statements always succeed.
- Columns nothing reads back: `sealed_data`, `keyattr_id`, `keyattr_policy_id`, and the SQLite limits on column widths.
- `__keyagent_cache_loadsessions`: it reads rows and discards them. `__keyagent_cache_init` returns FALSE whenever key caching is on; the model starts behind it.
- The counter of fake cache ids is unbounded in the model; the source's wraps at 2^32.
- Quote contents and the cryptography inside the token: symbolic terms.
- Module loading, configuration, logging, command line and the fork handler.
- p11-kit parsing of URIs: the checked fields are inputs; the token label is always "KMS".
- Threads: one writer lock around a load and one around the cache make a sequential model enough.
- The list of STM names in the Accept-Challenge header, the api-module flag of an STM, and the `stm_name` and `npm_name` fields of a request: nothing decides on them.
- Freeing of session structures: the source never frees them; the model keeps them in its heap.
- The creation of sessions and keys with a given cache id: only the callbacks' -1 occurs in the modelled code.
- KeyAgent.Agent.LoadUrl: requires the lock to be free, since the source would wait for itself.
- AgentModel.HandOver: a record shorter than its own header says is a failed load; the source reads behind its end.
- Token.LoadedUnderWrapping: a record without an iv counts as a failed load; the source dereferences a NULL buffer.
- AgentModel.UrlAccepted: an empty URL is accepted as the code does when its token vector is empty; the read of the second entry of that vector is not modelled.
- KmsModel.StartSession: a challenge reply that cannot be parsed fails; the freeing of a header list that was never made is not modelled.
- Buffers.Conservation: covers runs in which callers hold what they pass and release only what they hold.
- KeyTransfer.ParseOfEncode: fields are little-endian, as on the hosts that SGX needs.
- Initialization.CalmRunsEnd: a key load shows only in the initialise calls that it sets off and in its result; the load itself is `OnDemand.OnDemandKeyLoad`.
- Initialization.ApiModule.CInitialize: requires that no preload sets off 2^32 calls or more, since beyond that the source may never return.
- Token.NoSessionNoUse: a Cryptoki call in a session that was never opened is taken to fail; sessions that the library closes later are not modelled.
- KmsLaws.ResultExact: is about a URL that is not in the table, which is the only case in which the agent runs an NPM.
