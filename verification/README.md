# Kaven DNS, verified

A Dafny model of the state machines inside Kaven DNS, a small DNS forwarder, and
proofs of what they promise. Code that changes things in place in the Go program
(the answer cache, the rule, history, log and configuration stores, the login
manager, the two servers) is modelled by classes and loops; each method is proved
equal to a step function on values, and the laws are proved about those functions
over all inputs and all runs. Library calls the program only passes values to
(address parsing, upstream exchange, bind results, file writes, password checks,
tokens, clocks) are parameters, so every theorem holds for each of their outcomes.

| module | part of the program |
|---|---|
| `Rules`, `RuleStore`, `Ties` | pattern matching, the best-match scan, the rule list, and which rule wins a tie |
| `CacheSteps`, `AnswerCache`, `Recency`, `Lru` | the TTL and LRU answer cache, eviction in any run, LRU as a stack algorithm |
| `ResolverSteps`, `Resolver`, `Keys` | the resolution pipeline and its cache keys |
| `Soundness`, `ResolveRuns` | whole runs of many queries among edits, and one query as such a run |
| `Race` | the race between upstreams |
| `History`, `LiveStream`, `Analytics` | the query log, its live stream and its hourly report |
| `LogStore` | the console and operation logs and their cursor |
| `Config`, `Reconfigure` | configuration clean-up and changes with rollback |
| `Auth` | login throttle and sliding sessions |
| `Import`, `Merge` | rule validation, signatures, and the import of rule lists |
| `Basics`, `Text` | options, splitting, joining and trimming |

`dafny verify dfyconfig.toml` checks everything.

Findings, each stated as a lemma below with its exact condition:

- A rule upstream that was never validated makes the cache take one question the
  resolver can come to for another exactly when it joins two to eight upstreams with
  commas, or its last two '|'-separated parts are a record type and one to eight
  upstreams, with no capitals in the parts before (`MistakenIffMisleading`).
- The documented "newer rule wins" (README.md:284) holds of a rule list if and only if
  each pattern that can win is carried last by its newest carrier, which edits give and a
  list installed whole need not (`NewestWinsIff`, `ReplacedListMayLetOlderWin`).
- A logout is undone by the next restart if and only if its write failed and nothing was
  written in between or at the close, while the file has the session unexpired
  (`LogoutForgottenIff`).
- An import can overwrite a rule of other domains if and only if some signature leads,
  through an ID two rules share, to a rule of another (`KeepsSignaturesIff`,
  `SharedIdOverwrites`).
- A second validation changes a remark exactly when the first cut it after a space
  (`ValidateTwice`, `SecondValidationChanges`).
- A DNS server that is down listens while its status says it does not, after a restart
  that fails, if and only if the place in its status could be opened (`ReopenedUntoldIff`).
- Once a Web move and the move back have failed, requests are accepted while nothing
  listens there, until one asks for a third place (`AcceptedListensIff`,
  `LostWebStaysLost`).

## Model

| member | source | states |
|---|---|---|
| Rules.MatchIsLabelSuffix | internal/rules/rules.go:251-256 | the text test with suffixes means that the pattern's labels are a suffix of the name's labels, a proper one for a wildcard |
| Rules.EqualScoreSameText | internal/rules/rules.go:258-265 | the score orders patterns without ties: two patterns matching one name with equal scores are the same text |
| Rules.BestIsWalk | internal/rules/rules.go:219-245 | whatever candidate is best by score and then by position is what a walk over the label suffixes, longest first and plain before wildcard, stops at |
| Rules.FindRuleIsBest | internal/rules/rules.go:219-245 | the walk's answer is a candidate that no other outscores, and none later in the list ties with |
| Rules.FoundIs | internal/rules/rules.go:219-245 | the rule found is enabled, has the asked type or is a CNAME when A or AAAA is asked, and carries a matching pattern; any other such match has fewer labels, or as many behind a wildcard, or is the same pattern no later in the list |
| Rules.NoneFoundIff | internal/rules/rules.go:219-245 | nothing is found if and only if no enabled rule of such a type carries a matching pattern |
| Rules.DisabledIsAbsent | internal/rules/rules.go:225-228 | disabling a rule gives the same answers as taking it out of the list, for every name and type |
| Rules.NormalizeIs | internal/rules/rules.go:247-249 | names are compared in small letters, without the blanks around them and without one dot at the end |
| Rules.Find | internal/rules/rules.go:219-245 | the single best-so-far scan returns exactly the walk's rule and pattern, which `FoundIs` and `NoneFoundIff` describe field by field |
| RuleStore.Store.Add | internal/rules/rules.go:88-99 | the rule goes last with both times set, a fresh ID only if it had none; a failed write is reported and leaves the file |
| RuleStore.Store.Update | internal/rules/rules.go:100-113 | the first rule with the ID is replaced in place, keeping ID and creation time; an unknown ID changes nothing |
| RuleStore.Store.Remove | internal/rules/rules.go:114-124 | exactly the first rule with the ID goes, and the others keep their order |
| RuleStore.Store.ReplaceAll | internal/rules/rules.go:125-130 | the list becomes the given one, creation times included |
| RuleStore.AddIs | internal/rules/rules.go:88-99 | what an added rule is, field by field, and that all before it stay |
| RuleStore.UpdateIs | internal/rules/rules.go:100-113 | what each rule is after an update: only the first with the ID changes, and of it the ID and the creation time stay |
| RuleStore.RemoveIs | internal/rules/rules.go:114-124 | the list after a removal is what was before and what was behind the first rule with the ID |
| RuleStore.RunIsOldestFirst | internal/rules/rules.go:88-124 | any edits made in clock order keep a list with its oldest rules first that way |
| RuleStore.OldestFirstNewestWins | internal/rules/rules.go:219-245 | in any list with its oldest rules first the newest of equally specific matches is found |
| RuleStore.NewestWinsTies | internal/rules/rules.go:219-245 | after any such edits, to the empty list or to any list with its oldest rules first, a rule as specific as the winner carries the same pattern and was created no later |
| RuleStore.ReplacedListMayLetOlderWin | internal/web/server.go:395-400 | against README.md:284, a list installed whole in which the older rule wins the tie |
| Ties.NewestWinsIff | internal/rules/rules.go:219-245 | for every rule list: whatever name and type are asked for, no match as specific as the one found is newer, if and only if each pattern that can win is carried last by the newest of its carriers |
| Ties.FoundCanWin | internal/rules/rules.go:251-265 | a pattern that is found has no capitals and is not a wildcard whose base is carried too |
| Ties.WinsBelow | internal/rules/rules.go:219-245 | every other carried pattern does win: its last carrier is found for a name just below its base, at a label longer than all patterns |
| Ties.WinsIff | internal/rules/rules.go:219-265 | so a carried pattern is found for some name if and only if it has no capitals and no carried base shadows it |
| Ties.Needed | internal/rules/rules.go:219-245 | where the newest always wins, none of a winning pattern's carriers is newer than its last |
| CacheSteps.GetKeeps | internal/cache/cache.go:43-64 | a lookup keeps the invariant: order lists every key once, size within the bound |
| CacheSteps.SetKeeps | internal/cache/cache.go:66-80 | storing keeps the same invariant whether the key is new, resident or the cache is full |
| CacheSteps.SweepKeeps | internal/cache/cache.go:82-91 | a sweep keeps the invariant and leaves exactly the unexpired keys |
| CacheSteps.ResizeKeeps | internal/cache/cache.go:115-125 | a resize keeps the invariant for any requested bound, zero and negative included |
| CacheSteps.SizeIsOrder | internal/cache/cache.go:20-27 | under the invariant the map has as many entries as the order list, so no eviction reads an empty list |
| CacheSteps.EvictOne | internal/cache/cache.go:75-77 | one turn of the eviction loop removes one entry, keeps the invariant and does not change where the loop ends |
| CacheSteps.RoomMade | internal/cache/cache.go:72-77 | a resident key evicts nobody; a new one in a full cache evicts exactly the key at the front of the recency list |
| CacheSteps.SetEvictsOldest | internal/cache/cache.go:66-80 | after a store the new entry is last in the recency list and every other entry but that front one is untouched |
| Recency.RunIsWellFormed | internal/cache/cache.go:36-125 | every run of lookups, stores, sweeps, flushes and resizes keeps the representation invariant |
| Recency.OrderIsByLastUse | internal/cache/cache.go:43-136 | in every such run, expiry included, the recency list is in the order of last set or hit |
| Recency.EvictedIsFront | internal/cache/cache.go:66-125 | a store evicts one key if its own is new and the cache full and none otherwise, a resize evicts the surplus, always from the front |
| Recency.EvictsLeastRecent | internal/cache/cache.go:66-125 | in every such run whatever a store or a resize evicts was less recently set or hit than every key that stays |
| CacheSteps.ServedTtls | internal/cache/cache.go:47-63 | a hit differs from what was stored only in answer TTLs; none is raised, age plus reported TTL is under the lifetime plus one second, and a TTL is lowered only if it exceeds the time left, rounded to the nearest second and at least one, and then to that |
| CacheSteps.LookupIs | internal/cache/cache.go:43-64 | a lookup hits exactly an entry before its expiry, counts and moves it to the end; a miss is counted and drops the key |
| CacheSteps.StoreIs | internal/cache/cache.go:66-80 | a store for no time changes nothing; any other makes an entry that expires after just that time |
| CacheSteps.SweepIs | internal/cache/cache.go:82-91 | a sweep keeps exactly what has not expired |
| CacheSteps.ResizeIs | internal/cache/cache.go:115-125 | a resize keeps the most recent entries that fit a bound of at least one, as they were |
| AnswerCache.CloneResult | internal/cache/cache.go:138-147 | a deep copy: equal contents in new record objects, no two places of the answers sharing one |
| AnswerCache.Cache.Get | internal/cache/cache.go:43-64 | the state and the answer are those of the value-level lookup (`LookupIs`, `ServedTtls`), and every record handed out is a new object, so lowering its TTL does not touch what is stored |
| AnswerCache.Cache.Set | internal/cache/cache.go:66-80 | the state is that of the value-level store, and every record the cache takes on is a new object |
| AnswerCache.Cache.MakeRoom | internal/cache/cache.go:72-77 | the resident entry goes, and then the least recent ones until there is room for one more |
| AnswerCache.Cache.Sweep | internal/cache/cache.go:82-91 | in whatever order the map is walked, the result is the value-level sweep |
| AnswerCache.Cache.Flush | internal/cache/cache.go:95-102 | the cache is empty, its counters stay, and the number of dropped entries is returned |
| AnswerCache.Cache.SetMaxEntries | internal/cache/cache.go:115-125 | the bound becomes at least one and only the most recent entries that fit stay |
| AnswerCache.Cache.EvictDownTo | internal/cache/cache.go:122-124 | the loop ends with exactly the newest entries up to the limit and never reads an empty list |
| AnswerCache.WriteToServed | internal/cache/cache.go:57-63 | writing through every record pointer got from the cache changes nothing in it |
| AnswerCache.WriteToStored | internal/cache/cache.go:78-78 | writing through every record pointer after handing it to the cache does not change what it holds |
| Lru.RecencyListsUsed | internal/cache/cache.go:127-127 | the reference list holds exactly the keys accessed |
| Lru.RecencyIsByLastUse | internal/cache/cache.go:127-127 | the reference list is in order of last access |
| Lru.OrderIsRecency | internal/cache/cache.go:43-80 | in any lookup-then-store run of fixed capacity without expiry the order list is exactly the last max keys by last access |
| Lru.SmallerIsTailOfLarger | internal/cache/cache.go:43-80 | LRU is a stack algorithm: a smaller cache's order is the tail of a larger one's in the same run |
| Lru.LargerHitsToo | internal/cache/cache.go:43-80 | every hit of the smaller cache is a hit of the larger |
| ResolverSteps.KeyInjective | internal/resolver/resolver.go:44-48 | equal cache keys mean equal name, type and upstream list, though names may contain the separator |
| ResolverSteps.CommaMergesKeys | internal/resolver/resolver.go:44-48 | an upstream text with a comma, which validation refuses, gives one upstream the key of two |
| Keys.MistakenIffMisleading | internal/resolver/resolver.go:44-48 | for any one non-empty rule upstream that was never validated, and any name and type: some other question the resolver can come to (its name normalized, its upstreams a cleaned list, one validated text or this text) has the same key if and only if the text joins two to eight upstreams with commas, or its last two bar-separated parts are a type and one to eight upstreams, with no capitals in the parts before; never for a text that parses |
| Keys.MisleadingTexts | internal/resolver/resolver.go:44-48 | both kinds of text exist: two upstreams joined with a comma, and a type, a vertical bar and an upstream |
| Rules.NameIff | internal/rules/rules.go:247-249 | the normalized names are exactly the texts without capitals that do not start with a space |
| ResolverSteps.LeastTtlIsLeast | internal/resolver/resolver.go:64-69 | the loop's value is a lower bound of all answer TTLs and is reached |
| ResolverSteps.LifetimeIsClampedMinimum | internal/resolver/resolver.go:63-71 | an entry lives the least answer TTL clamped into the configured range, which is positive |
| ResolverSteps.OneLookupOneForward | internal/resolver/resolver.go:36-105 | with rules and configuration read anew at each depth, one query looks in the cache at most once, asks upstream at most once and only after a miss, and leaves the cache alone if it did not look |
| ResolverSteps.ChaseShape | internal/resolver/resolver.go:76-105 | a query whose rule is fixed never fails, even if rules change between links: a chain of at most five CNAME records, the first owned by the name asked for and each other by the target of the one before, with the target and the TTL of the rule that was best when it was reached, all targets but the last distinct, and then what the last target resolves to |
| ResolverSteps.FixedRecordsAre | internal/resolver/resolver.go:92-103 | a fixed A or AAAA rule answers with exactly the addresses of its type that its values spell, under the owner, with type 1 or 28 and the TTL of the rule |
| ResolverSteps.FixedRecordsInOrder | internal/resolver/resolver.go:92-103 | when all its values spell one, the answers are theirs, in order |
| ResolverSteps.LabelIs | internal/resolver/resolver.go:154-166 | a label is the pattern, the number of further domains if any, and the remark if any |
| ResolverSteps.SentIsAsked | internal/resolver/resolver.go:36-62 | whatever a query sends upstream is one question, about the name at the end of its chain of fixed CNAMEs: its type, and exactly [u] where the best rule forwards to an upstream u of its own, else exactly the configured list |
| ResolverSteps.AsksOne | internal/resolver/resolver.go:44-48 | the rules and the configuration leave one such question, the one whose key is looked up |
| ResolverSteps.ForwardedIs | internal/resolver/resolver.go:44-74 | that question is served from under its key when there is an unexpired entry, and else asked once; the reply loses its OPT records, and a success with answers, and nothing else, is stored under the key |
| ResolverSteps.NotFixedIs | internal/resolver/resolver.go:36-43 | a query without a fixed rule goes that way, under the label of its rule |
| ResolverSteps.ChangedUpstreamIsAsked | internal/resolver/resolver.go:44-48 | after the upstream of a rule is changed, the next query asks the new one and is not served what was stored under the old |
| ResolverSteps.WithoutOptIs | internal/resolver/resolver.go:58-62 | the additional records that stay are exactly those that are not OPT |
| ResolverSteps.WithoutOptJoins | internal/resolver/resolver.go:58-62 | and they stay in order |
| Resolver.Resolver.Resolve | internal/resolver/resolver.go:32-34 | on live cache, rules and configuration, the imperative query gives the answer and the cache of the value-level one, which `ForwardedIs`, `SentIsAsked` and `ChaseShape` describe, and no record of the answer is the cache's |
| Resolver.Resolver.Step | internal/resolver/resolver.go:36-74 | the same at any depth and with the shared visited set, which it leaves as the value-level recursion does |
| Resolver.Resolver.LookOrAsk | internal/resolver/resolver.go:44-74 | lookup first, and one question upstream only on a miss: the question that `Asks` fixes, of the upstream of its own rule where there is one |
| Resolver.Resolver.Keep | internal/resolver/resolver.go:57-73 | OPT records go, and exactly the successes that carry answers are stored, for the clamped lifetime |
| Resolver.Resolver.Fixed | internal/resolver/resolver.go:76-105 | the mutual recursion through CNAME rules ends and gives the value-level answer, none of whose records is the cache's |
| Resolver.Resolver.Chase | internal/resolver/resolver.go:79-90 | the rule's own CNAME, owned by the name asked for, followed by what its target resolves to, if the chase may go on and succeeds |
| Resolver.Resolver.StoreReply | internal/resolver/resolver.go:63-72 | exactly the successes that carry answers are stored, and the reply's records stay as they are and out of the cache |
| Resolver.KeepFor | internal/resolver/resolver.go:63-71 | the TTL loop computes the clamped minimum |
| Resolver.DropOpt | internal/resolver/resolver.go:58-62 | the loop keeps all additional records but OPT, in order and as the same objects |
| Soundness.CleanIsPlain | internal/config/config.go:174-187 | clean configurations hold only upstreams that keys can tell apart |
| Soundness.ReachedInv | internal/resolver/resolver.go:36-73 | in every run mixing overlapping queries with rule edits, new configurations, sweeps, flushes and resizes, each entry is backed by the latest reply kept for its question since the last flush |
| Soundness.EveryHitIsSound | internal/resolver/resolver.go:36-73 | in every such run each cache hit is that reply, unexpired, for the question that the rules and the configuration the query read leave it to ask, with answer TTLs lowered at most to the time left rounded to the nearest second |
| Soundness.FlushForgets | internal/cache/cache.go:95-102 | in every such run whatever is served after a flush was kept after it too, for the same question |
| Soundness.KeptWasAsked | internal/resolver/resolver.go:44-73 | in every such run whatever is kept is a reply to a question that a query had asked under the configuration and the rules that held when it read them: with [u] where its best rule forwards to u, else with the configured list |
| Soundness.HitReadTheWorld | internal/resolver/resolver.go:37-39 | those rules and the configuration are the ones that held when the query read them, the configuration first |
| Soundness.ValidIsPlain | internal/rules/rules.go:175-179 | rules that pass validation have upstreams that keys can tell apart |
| Soundness.EditKeepsPlain | internal/rules/rules.go:88-124 | edits with validated rules keep it so |
| ResolveRuns.ForwardedIsRun | internal/resolver/resolver.go:37-74 | the pipeline's reads, lookup and store are steps of that machine; an answer from the cache is the hit it logs, and otherwise it logs none |
| ResolveRuns.ResolveIsRun | internal/resolver/resolver.go:36-105 | a whole query, CNAME chase included and with edits between links, does to the cache what some run does, counts a hit exactly when the run logs one, and its answer is its own links followed by exactly that hit's answers; each link of the chase is four steps of the run |
| ResolveRuns.ServedIsSound | internal/resolver/resolver.go:36-105 | so whatever a query serves from the cache, directly or at the end of a chase, is the latest reply kept for the question it came to, and the run that logs it makes the links it serves |
| ResolveRuns.LinkReadTheWorld | internal/resolver/resolver.go:37-90 | each link of a chase was made under the rules and the configuration that held when the query read them, at known steps of the run, in the order of the links |
| Race.SendersNeverBlock | internal/resolver/resolver.go:113-136 | in every interleaving a sender that has not sent finds room in the channel, even after the receiver has left |
| Race.NeverStuck | internal/resolver/resolver.go:113-152 | until the verdict some turn is possible, and no run is longer than two turns per upstream |
| Race.FailsOnlyIfAllFail | internal/resolver/resolver.go:137-152 | the race fails exactly when every upstream has sent and none succeeded |
| Race.WinnerIsFirstSuccess | internal/resolver/resolver.go:137-152 | otherwise the answer is the first success to arrive, under the upstream that sent it |
| Race.ResolveTakesVerdict | internal/resolver/resolver.go:53-62 | a query that misses fails exactly when the race over its upstreams does, and otherwise answers with the first success without its OPT records, under the upstream that sent it |
| Race.ReceiveAll | internal/resolver/resolver.go:137-152 | the receive loop returns the first success in arrival order, and fails only if there is none |
| Config.SanitizeCleans | internal/config/config.go:141-172 | from any input come fields in range, ttlMin at most ttlMax, and one to eight upstreams that parse |
| Config.CleanIsFixed | internal/config/config.go:141-172 | a configuration is left alone exactly when it is already clean |
| Config.SanitizeTwice | internal/config/config.go:141-172 | cleaning twice is cleaning once |
| Config.SanitizeFields | internal/config/config.go:141-172 | each number in its range stays and any other becomes the default, never the nearest bound; an address that does not parse becomes 0.0.0.0 |
| Config.ParseableIs | internal/config/config.go:151-157 | exactly the upstreams that parse once trimmed are kept |
| Config.ParseableJoins | internal/config/config.go:151-157 | and they are kept in order |
| Config.UpstreamsAre | internal/config/config.go:151-164 | the first eight of them stay, and the two default ones are put in when there are none |
| Config.FilterInPlace | internal/config/config.go:151-157 | filtering over the array being read keeps exactly the upstreams that parse, trimmed and in order, and does not disturb clean cells at the front |
| Config.SanitizeInPlace | internal/config/config.go:141-172 | the in-place clean-up computes the pure one, and a clean value or clean front cells of a shared array are not disturbed |
| Config.Store.Get | internal/config/config.go:45-51 | a copy whose upstream array nobody else holds |
| Config.Store.Save | internal/config/config.go:117-120 | writes the cleaned value; sharing the upstream array with the caller does no harm when that one is clean |
| Config.Store.Update | internal/config/config.go:52-66 | memory and file both become the cleaned edit, or on any failure both stay |
| Config.Store.Replace | internal/config/config.go:67-76 | memory and file both become the cleaned value, or on a failed write both stay, even when the store's own array was passed in |
| Reconfigure.RestartMoves | internal/dnsserver/server.go:92-115 | the DNS pair moves exactly if both sockets are to be had, otherwise stays exactly if it can be reopened, and no other socket is left bound |
| Reconfigure.ReopenedUntoldIff | internal/dnsserver/server.go:92-115 | a failed restart that opens the old pair again brings back the old status; so a server whose status was right before listens while its status says it does not if and only if it was down, the new place was not to be had and the one in its status was |
| Reconfigure.MoveMoves | internal/web/server.go:99-117 | the same for the Web listener, which keeps naming its old place, closed, when that could not be reopened |
| Reconfigure.ChangeIsAllOrNothing | internal/web/server.go:573-600 | a change is accepted exactly when it is stored and the listeners can be had; otherwise everything is as before exactly when the rollbacks it called for worked |
| Reconfigure.RequestIsAllOrNothing | internal/web/server.go:207-245 | with working rollbacks, a first-setup or settings request keeps listeners, capacity and limits in step with the stored configuration, and an error reply has changed nothing |
| Reconfigure.RunStaysInSync | internal/web/server.go:501-600 | so does every run of such requests |
| Reconfigure.SetupHappensOnce | internal/web/server.go:183-256 | in every run of requests whose settings edits do not clear the password at most one setup is accepted, and none from a state with a password |
| Reconfigure.SetupIsRefused | internal/web/server.go:184-202 | a server with a password refuses every setup and changes nothing, and so does any server given too short a password |
| Reconfigure.SetupStores | internal/web/server.go:203-219 | an accepted setup stores the hash, the port when it is in range and each address that parses in its own field, and nothing else; a port above the range becomes the default |
| Reconfigure.StartIsInSync | internal/dnsserver/server.go:39-50 | a start in which both servers got their listeners is in step |
| Reconfigure.AcceptedListensIff | internal/web/server.go:573-600 | after an accepted change, even from a state in which listeners were lost, each server listens where the configuration says exactly if its place changed or it listened there before, except a lost Web listener asked back to the place it still records |
| Reconfigure.LostWebStaysLost | internal/web/server.go:99-117 | once a Web move and the move back have failed, an accepted request leaves the Web server listening exactly if it asks for a third place |
| Reconfigure.RunStaysHonest | internal/web/server.go:501-600 | from a start in step, whatever attempts and writes fail in a run of requests, what the servers hold open is bound and held once, and a DNS status that listens is true |
| Reconfigure.DnsServer.Start | internal/dnsserver/server.go:39-50 | both sockets or none, and the status says which |
| Reconfigure.DnsServer.StartPair | internal/dnsserver/server.go:52-81 | a UDP socket is given back when TCP fails |
| Reconfigure.DnsServer.Shutdown | internal/dnsserver/server.go:83-90 | the pair's sockets are free and the status no longer listens |
| Reconfigure.DnsServer.Restart | internal/dnsserver/server.go:92-115 | bound sockets, fields and status are those of the step the laws are about |
| Reconfigure.WebServer.Move | internal/web/server.go:99-117 | the same for the Web server |
| Reconfigure.WebServer.CloseListener | internal/web/server.go:105-108 | an open listener's socket is freed, and closing it again frees nothing |
| Reconfigure.Handlers.Change | internal/web/server.go:573-600 | the steps over configuration, sockets and servers have the outcome the laws are about |
| Reconfigure.Handlers.PutConfig | internal/web/server.go:496-611 | the settings handler, with cache capacity and history limits set after success only |
| Reconfigure.Handlers.FirstSetup | internal/web/server.go:183-256 | the first-setup handler, refused once there is a password (`SetupIsRefused`), otherwise through the same change |
| History.TrimIsLeast | internal/history/history.go:134-147 | what is dropped is the least prefix that leaves the size within bounds and the front entry young enough |
| History.RestartViews | internal/history/history.go:65-104 | writing and loading again keeps the view of the log |
| History.TallyIs | internal/history/history.go:105-133 | the statistics are the numbers of entries by source and by response code, and the sums of latencies |
| History.RecordIs | internal/history/history.go:105-133 | a recorded entry takes the next number, and the time exactly if it has none |
| History.LimitsAre | internal/history/history.go:58-104 | the bounds and statistics a new, limited, reset or restarted history has |
| History.RunIsViewOfLog | internal/history/history.go:105-208 | in every run the kept entries are a suffix of all recorded since the last reset, numbered consecutively up to the counter, and the statistics are a fold over all of it, trimmed or not |
| History.SearchEnds | internal/history/history.go:149-189 | a backward scan stopped at the limit or the front has found the first matches of the reversed log |
| History.ReverseMeaning | internal/history/history.go:149-189 | the reversed log is the log read from its end |
| History.PassedOverIff | internal/history/history.go:149-189 | an entry is passed over if and only if some part of the filter that is given does not fit it; a domain fits anywhere in a name, in any case |
| History.FoundAre | internal/history/history.go:149-189 | only entries that fit are found, and all of them unless the limit was reached |
| History.Store.Record | internal/history/history.go:105-133 | stamps the next number, counts, appends and trims |
| History.Store.TrimLocked | internal/history/history.go:134-147 | the in-place trim drops exactly the least prefix |
| History.Store.Search | internal/history/history.go:149-189 | the newest matches up to the limit, newest first |
| History.Store.Reset | internal/history/history.go:191-198 | entries and statistics are cleared, the counter goes on, and the number of dropped entries is returned |
| History.Store.SetLimits | internal/history/history.go:199-208 | new bounds hold at once |
| LiveStream.TickSends | internal/web/server.go:685-701 | a tick sends exactly the last min(200, retained) of what was recorded since the tick before |
| LiveStream.SentInOrder | internal/web/server.go:665-701 | over all interleavings of recording, resets, trimming and ticks, sent numbers strictly increase from the snapshot's newest, so nothing is sent twice |
| LiveStream.CompleteIff | internal/web/server.go:665-701 | the stream is all that was recorded, in order, exactly if at every tick one page held what was waiting and none of it had been dropped |
| LiveStream.AnyStoreIsNumbered | internal/history/history.go:105-147 | every store a run can reach is one the stream laws apply to |
| LiveStream.Poll | internal/web/server.go:689-698 | the cursor loop sends the newest page's entries above the cursor, oldest first, and moves the cursor to the last |
| Analytics.BucketIndex | internal/history/history.go:278-281 | an entry of the hour is in the bucket its offset divides to and in no other |
| Analytics.BucketsPartition | internal/history/history.go:272-298 | bucket totals and failures add up to those of the interval they span |
| Analytics.ReportConserves | internal/history/history.go:256-337 | bucket totals, uncut per-domain counts and the number of sampled queries agree, and failures likewise |
| Analytics.ReportListsTop | internal/history/history.go:320-335 | a domain the report leaves out was asked for no more often than any it lists, and is only left out when 500 others are listed |
| Analytics.CutKeepsTop | internal/history/history.go:326-335 | after the cut to 500 everything kept counts at least as much as everything dropped |
| Analytics.BucketIs | internal/history/history.go:256-298 | bucket i counts the entries, failures and latencies of its five minutes of the last hour |
| Analytics.SampledIs | internal/history/history.go:256-298 | the sampled queries are those of the hour, the retained ones all |
| Analytics.DomainIs | internal/history/history.go:282-298 | a domain is ranked exactly if it was asked for in the hour, with its numbers of queries and failures |
| Analytics.ClientIs | internal/history/history.go:299-313 | a client is ranked exactly if it asked in the last five minutes and is not the console, with its numbers and the time of its last query |
| Analytics.RankingsAre | internal/history/history.go:320-337 | both rankings are cut to their first five hundred, and their lengths told |
| Analytics.Accumulate | internal/history/history.go:272-313 | the one loop fills every bucket and both tables with exact counts, latency sums and last-seen times |
| Analytics.Rank | internal/history/history.go:320-327 | in whatever order the map is read, a descending arrangement of exactly its rows |
| Analytics.Analyze | internal/history/history.go:256-337 | the report is one the conservation laws are about |
| LogStore.PollReturns | internal/logstore/logstore.go:83-98 | a call returns exactly the last capacity lines written since the call before |
| LogStore.ExactlyOnceIff | internal/logstore/logstore.go:52-98 | chained calls deliver every console and operation line once and in order if and only if at no call more had been written than is kept |
| LogStore.AnyStoreIsStarted | internal/logstore/logstore.go:52-72 | every store written to from empty is one these laws apply to |
| LogStore.FollowKeeps | internal/logstore/logstore.go:52-98 | in every run both logs are the last capacity lines written, numbered from one shared counter, and the cursor stays in step |
| LogStore.WrittenIs | internal/logstore/logstore.go:52-72 | each line takes the next shared number and keeps what it was written with, an operation without a level is a log line, and the other list stays |
| LogStore.Store.Console | internal/logstore/logstore.go:52-60 | the line takes the next shared number and the oldest goes when full |
| LogStore.Store.Record | internal/logstore/logstore.go:61-72 | the same for operations, with an empty level read as "log" |
| LogStore.Store.Since | internal/logstore/logstore.go:83-98 | the lines above the cursor of both logs, and the counter |
| Auth.BackoffInvariant | internal/auth/auth.go:60-91 | an address's record is determined by the times its passwords were verified, and those are spaced by the locks |
| Auth.BackoffBound | internal/auth/auth.go:60-91 | mixed with any other traffic, an address's (5k+1)-th verification comes no earlier than the first plus the first k locks |
| Auth.DelayValues | internal/auth/auth.go:70-77 | the locks double from ten seconds and stay at ten minutes from the seventh on |
| Auth.CountStaysSmall | internal/auth/auth.go:68-79 | the stored count is always below five |
| Auth.OthersUntouched | internal/auth/auth.go:60-172 | an address's record is changed only by a verification of its own password, by the cleaner ten minutes after its lock ended, and by a restart, and exactly as stated by each |
| Auth.CheckIffUsedInTime | internal/auth/auth.go:92-172 | across cleaning and restarts, a token is accepted exactly if it was issued, not logged out, no gap between accepted uses exceeded the ttl, and each restart fell strictly within the ttl of the use before it |
| Auth.RunTracks | internal/auth/auth.go:48-172 | the dirty flag and the file together always hold every unexpired session |
| Auth.LogoutForgottenIff | internal/auth/auth.go:48-172 | with any operations between a logout and the next restart, the session comes back if and only if the logout's write failed, none of them wrote the file, no write was due at the close or that failed too, and the file has it unexpired |
| Auth.FileUnlessWritten | internal/auth/auth.go:60-172 | a token that is not held stays so until it is issued again or a restart, and the file is unchanged until something writes it, after which it lacks the token too |
| Auth.LoginIs | internal/auth/auth.go:60-91 | a login is turned away exactly while its address is locked, and told for how long; a wrong password counts, a right one clears the count and signs in for the ttl |
| Auth.CleanIs | internal/auth/auth.go:144-172 | a pass of the cleaner keeps exactly the unexpired sessions and the failures not locked or unlocked for at most ten minutes |
| Auth.NothingDue | internal/auth/auth.go:60-172 | after a write that works the file holds exactly the sessions, and closing writes nothing |
| Auth.Manager.Login | internal/auth/auth.go:60-91 | locked, wrong and right passwords change state as the step the laws are about |
| Auth.Manager.Check | internal/auth/auth.go:92-107 | accepts an unexpired token and slides its expiry, drops an expired one |
| Auth.Manager.Logout | internal/auth/auth.go:108-113 | the session is gone from memory, and from the file if the write works |
| Auth.Manager.Cleanup | internal/auth/auth.go:144-172 | in whatever order the maps are walked, exactly the stale sessions and forgiven failures go |
| Auth.Manager.Close | internal/auth/auth.go:48-59 | writes what is due |
| Import.Validate | internal/rules/rules.go:140-204 | the loops find the distinct normalized domains in order of first place, and the problems in order |
| Import.ValidIff | internal/rules/rules.go:140-204 | the exact conditions under which a rule is valid |
| Import.ProblemsAre | internal/rules/rules.go:153-179 | each problem of domains, type, mode, TTL and upstream is reported exactly when it is there, a bad domain only if it is the first |
| Import.ValueProblemsAre | internal/rules/rules.go:180-198 | each problem of a fixed answer is reported exactly when it is there |
| Import.ProblemsInOrder | internal/rules/rules.go:153-198 | problems are reported once each and in the order of the checks |
| Import.ValidatedIs | internal/rules/rules.go:153-204 | validation changes nothing but the domains and the remark, which is trimmed and cut to 200 characters |
| Import.DomainsAre | internal/rules/rules.go:140-153 | the domains are the normalized non-empty fields of what the rule lists |
| Import.DomainsGrow | internal/rules/rules.go:140-153 | each at its first place: what is listed later only adds at the end |
| Import.LabelIff | internal/rules/rules.go:138-138 | a label has one to 63 small letters, digits and hyphens, with no hyphen at either end |
| Import.HostPatternIff | internal/rules/rules.go:138-138 | a host pattern is a list of labels joined by dots, or one behind an asterisk and a dot |
| Import.ValidateTwice | internal/rules/rules.go:140-204 | a valid rule validates again to itself but for its remark, which stays exactly if it fits in 200 characters or is not cut just after a space |
| Import.SecondValidationChanges | internal/rules/rules.go:199-202 | a valid rule, for any such remark, that a second validation changes |
| Import.DomainsAgain | internal/rules/rules.go:140-156 | valid distinct domains come back as they are, in order |
| Import.SortSorts | internal/web/server.go:402-406 | sorting gives the ascending list of the same domains |
| Import.LeqIs | internal/web/server.go:402-406 | the order sorted by: a text before what goes on from it, two others by the characters at which they part |
| Import.AscendingUnique | internal/web/server.go:402-406 | a set of domains has one ascending list |
| Import.SameSignatureIff | internal/web/server.go:402-406 | valid rules have equal signatures exactly when they have the same type and the same set of domains |
| Merge.PreparedCounts | internal/web/server.go:376-393 | every rule handed in is either prepared or passed over, and every prepared one has an ID |
| Merge.PreparedIs | internal/web/server.go:376-393 | each rule handed in is taken in its turn: a valid one as it validates, with the ID and the creation time it lacks, any other with its place counted from one and its first problem |
| Merge.GivenIdsDistinct | internal/web/server.go:385-387 | rules that come without IDs get distinct ones |
| Merge.MergeCounts | internal/web/server.go:394-426 | added plus updated is the number of valid rules, the list grows by exactly the added ones, and all others keep place, ID and creation time |
| Merge.LeavesOthers | internal/web/server.go:407-425 | a rule no item shares its signature with is untouched |
| Merge.LastItemWins | internal/web/server.go:407-425 | of several items with a stored signature the last one is what remains, under the stored ID and creation time |
| Merge.AppendsTheNew | internal/web/server.go:407-425 | what is appended is exactly the items whose signature the store did not know beforehand, in order |
| Merge.KeepsSignaturesIff | internal/web/server.go:407-425 | every import keeps each stored rule's domains and type if and only if no signature leads, through a shared ID, to a rule of another |
| Merge.DistinctIdsTargetOwn | internal/rules/rules.go:100-113 | distinct IDs are enough for that |
| Merge.SharedIdOverwrites | internal/web/server.go:407-425 | an item with a stored rule's ID but another signature is added, and imported again overwrites that rule |
| Merge.AgainAddsNothing | internal/web/server.go:407-425 | the same list merged a second time adds nothing |
| Merge.ExportComesBack | internal/web/server.go:376-426 | a store of valid rules with distinct IDs and signatures merged with its own export adds and skips nothing, and only update times and the ends of cut remarks change |
| Merge.Prepare | internal/web/server.go:376-393 | the loop separates the valid rules, filled in, from the passed-over ones with their places and first problems |
| Merge.MergeInto | internal/web/server.go:411-425 | stops at the first failing write with that item already in memory and the file one item behind |
| Merge.ImportRules | internal/web/server.go:364-429 | added, updated and skipped add up to the number handed in, and an error is reported exactly when a write failed |
| Text.JoinInjective | internal/resolver/resolver.go:44-48 | joining non-empty parts free of the separator loses nothing |
| Text.DecimalInjective | internal/resolver/resolver.go:48-48 | printed type numbers are distinct |
| Text.DecimalReads | internal/resolver/resolver.go:48-48 | a printed number reads back, without a needless zero in front |
| Text.FieldsPart | internal/rules/rules.go:145-145 | a comma, a semicolon, a space, a newline or a tab parts the fields of a text in two |
| Text.FieldsKeep | internal/rules/rules.go:145-145 | nothing else does |
| Text.TrimSpaceIs | internal/rules/rules.go:199-199 | trimming takes off exactly the blanks around a text |

## Left out

- Sockets, the DNS wire format, the client exchange and the retry over TCP: bind results and upstream replies are arbitrary inputs.
- HTTP routing, JSON, localisation, event-stream framing and the console: no state of their own. `putConfig`'s per-key JSON edit is an arbitrary function from configuration to configuration or refusal.
- Password hashing, constant-time comparison and random tokens: a verdict and a token are inputs of a login.
- `internal/persist/json.go`: a write is atomic and may fail; JSON gives back what was written.
- `net.ParseIP` and `ParseUpstream`: opaque predicates; the laws about keys and configurations assume only that an upstream that parses holds neither ',' nor '|' and is not empty, and that the default addresses parse.
- `systeminfo`, `buildinfo`, `update`, `resolveClientIP`, `summarize` and the scripts: platform calls or facts of one branch.
- The first log snapshot of `events` (internal/web/server.go:674-675): it is read in two calls, so nothing is claimed about it.
- Floating-point averages and hit rates: only the integer sums behind them. The hit's rounding of the remaining seconds is done in whole numbers.
- Text is ASCII: `ToLower` and `TrimSpace` beyond ASCII are not modelled, and `dns.Fqdn` is opaque.
- Counters, sequence numbers and times are unbounded integers.
- Time is read once per call; a merge reads it once per item and once for the request.
- Resolver.Resolver: the object runs a query with nobody else at work; the value-level laws and `Soundness` let rules and configuration change between links and other queries run in between.
- A slice of records is a sequence of record objects: writes through its pointers are modelled, writes to its own cells, which the program never makes, are not. A record's contents are one field; `dns.Copy` is a new object with the same contents.
- `sort.Slice` is an insertion into a descending list; the laws hold of any order among equals.
- The history's shift of its slice in `trimLocked` and the growth of backing arrays: sequences are reassigned.
- Locks: each locked method is one step. Queries overlap in `Soundness` between choosing a rule, looking in the cache and storing.
- `Shutdown` of a server whose serving goroutine has not begun: closing is immediate.
- `Load` of rules with the single `domain` field, and `applyEnvironment`.
- Lru.OrderIsRecency: says which keys are held, so it is about runs of fixed capacity in which every miss is stored and nothing expires or is flushed; the order itself in any run is `Recency.OrderIsByLastUse`.
- Auth.CheckIffUsedInTime: needs a ttl of whole milliseconds, in which the file keeps expiries, and that the writes before a restart worked; `Auth.LogoutForgottenIff` says what a failed one does.
- Auth.BackoffBound: about runs in which the address has no success and no forgiveness by the cleaner, either of which starts its count again.
- Reconfigure.RunStaysInSync: requests one at a time whose rollback binds and saves work; `Reconfigure.ChangeIsAllOrNothing` says exactly what happens when they do not.
- Reconfigure.SetupHappensOnce: about settings edits that leave a password in place, as `putConfig` does, which only ever replaces one by another (internal/web/server.go:547-568).
