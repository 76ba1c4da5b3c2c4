# captcha-protect, modelled in Dafny

captcha-protect is HTTP middleware. It counts requests per client subnet within a time window. A client that goes over the limit must solve a CAPTCHA (hCaptcha, reCAPTCHA or Turnstile) before it can continue. Several kinds of request are exempt:
- requests with an unprotected method, route or file extension;
- callers who have already solved a challenge;
- exempt IP ranges, good bots and exempt user agents.

The counters and the "good bot" and "verified" memos live in three expiring caches. These caches can be mirrored to a shared JSON state file. That file is guarded by an advisory lock file.

This project models the decision and state logic of `main.go` and the lock of `internal/filelock/filelock.go`, and proves properties about both.

Modules, one per file:

- `Base` (`base.dfy`): the `Option` and `Result` wrappers, and Go's `uint` as an unbounded integer with explicit wrap-around at 2^64.
- `GoStrings` (`gostrings.dfy`): the parts of Go's `strings` and `path/filepath` the middleware uses.
  - Strings are byte strings, one `char` per byte.
  - Case folding and white space are ASCII-only.
- `UrlQuery` (`urlquery.dfy`): `url.QueryEscape` and `url.QueryUnescape`, and their round trip.
- `TtlCache` (`ttlcache.dfy`): the go-cache store as a value.
  - It holds a default lifetime and a map from key to value and expiry time, in seconds on a logical clock `now`.
  - An expiry of 0 means "never".
  - An entry has expired when `now` is past its expiry.
- `RateEngine` (`rate.dfy`): `registerRequest` (add-or-increment) and `trippedRateLimit` (a strictly-greater-than check), and what a burst of requests does to them.
- `StateSync` (`reconcile.dfy`): `reconcileStates`. Rate counts merge by maximum. Bots and verified merge by union, with memory winning.
- `Classifier` (`classifier.dfy`): covers
  - the three route matchers (prefix, suffix, regex);
  - their shared extension gate, built on `filepath.Ext`;
  - the user-agent exemption.

  Each matcher is a loop method proved equal to a declarative predicate.
- `ClientIp` (`clientip.dfy`): client-IP selection from a forwarded header, counted from the right and skipping exempt addresses; `net.SplitHostPort` and the port stripping; and the subnet key with its fail-open for addresses that do not parse.
- `Captcha` (`captcha.dfy`): the middleware itself.
  - Construction-time validation and normalisation of the configuration.
  - The class `CaptchaProtect`, whose methods update the caches, the subnet masks and the pending-save flag: gate order in `shouldApply`, bot memoisation, request registration, challenge verification, and state load and reload.
- `FileLocking` (`filelock.dfy`): `FileLock` over an abstract `FileSystem` class.
  - The file system has a map from path to modification time, a millisecond clock and fault sets.
  - A `rivals` function says what other processes do while this one sleeps.
  - The retry loop of `Lock` is specified by the recursive function `LockFrom`.

Foreign code is passed in as functions held in the `Oracles` datatype. This covers the exempt-range test, the good-bot lookup, regex compile and match, CIDR parsing, IP parsing and masking, and the `os.Stat` and template parsing that load the challenge template. `net.SplitHostPort` is modelled as a function (`ClientIp.SplitHostPort`). The CAPTCHA provider's reply is passed in as a `ProviderOutcome`. The state file's contents are passed in as a `State`, which is empty when the file could not be read.

With persistence on, entries in the state file do not expire while saves keep reading the file.
- When a save reads the file successfully, it reconciles memory into the file's snapshot, so a key in the file stays there (main.go:737-741).
- When that read fails, `readStateFromFile` returns an empty state. That happens on a lock timeout, an open or read error, an empty file or undecodable JSON (main.go:785-810). The save then writes memory's live items alone, and keys held only by the file leave it.
- Every reload sets each key of the file again with a fresh lifetime. `Captcha.ReloadRevivesFileEntries`, and the last `ensures` of `Captcha.CaptchaProtect.ReloadStateFromFile`, prove this: after a reload, every rate count and verified mark in the file is live for a whole window, even if memory's copy had expired.

So once a counter or a verified mark reaches the file, it stays live as long as reloads continue and no save fails to read the file.

## Model

| member | source | states |
|---|---|---|
| Base.UintAdd | main.go:591 | adding to a `uint` counter is exact below 2^64 and wraps modulo 2^64 above it |
| GoStrings.TrimPrefix | main.go:481 | when the prefix is present the result is what follows it; otherwise the string is unchanged |
| GoStrings.TrimSuffix | main.go:500-504 | when the suffix is present the result is what precedes it; otherwise the string is unchanged |
| GoStrings.ToLower | main.go:534 | same length; every byte is mapped through ASCII lower-casing |
| GoStrings.ToLowerIdempotent | main.go:150-154 | lower-casing twice equals lower-casing once, so agents lowered at construction and again per request still match |
| GoStrings.TrimSpace | main.go:606 | only white space is cut, from the left and from the right, and the result has no white space at either end |
| GoStrings.Split | main.go:602 | at least one part, and no part contains the separator |
| GoStrings.JoinSplit | main.go:602 | joining the parts with the separator gives back the header value: splitting loses no byte |
| GoStrings.Ext | main.go:480 | the extension is empty or starts with the last dot, is a suffix of the path, and contains no `/`; it is empty only when every dot is followed by a `/` |
| GoStrings.ExtFromLastDot | main.go:480 | when the last dot is followed by no other dot and no `/`, the extension is everything from that dot |
| UrlQuery.QueryEscape | main.go:330 | the escaped URI is empty exactly when the URI is, and uses only unreserved bytes, `+` and `%` |
| UrlQuery.UnescapeEscape | main.go:392 | unescaping the escaped form of any byte string gives it back |
| UrlQuery.UnescapeRejectsBadPercent | main.go:392-396 | a `%` anywhere in the string that is not followed by two hex digits makes unescaping fail, which is the case where the redirect falls back to `/` |
| TtlCache.New | main.go:217-219 | in a new store no key is live at any time, and it carries the given default lifetime |
| TtlCache.ExpiryAt | main.go:121 | with a positive window an entry written now expires later than now; with no positive window it never expires |
| TtlCache.Get | main.go:576 | a value is found exactly when the key is present and not expired, and it is the stored value |
| TtlCache.Set | main.go:386 | after `Set` the key is live with the new value and a fresh lifetime; every other key reads as before at every time |
| TtlCache.Add | main.go:585 | `Add` fails exactly when the key is live; otherwise it behaves as `Set` |
| TtlCache.IncrementUint | main.go:591 | increment fails exactly when the key is not live; otherwise it adds with `uint` wrap, keeps the entry's expiry, and leaves other keys alone |
| TtlCache.Items | main.go:961 | the snapshot holds exactly the live keys with their values |
| TtlCache.Flush | main.go:967-969 | after a flush no key is live at any time |
| TtlCache.SetAll | main.go:972-982 | every key of the map is stored with its value and a fresh lifetime; other stored entries are kept; nothing else is added |
| TtlCache.SetEach | main.go:972-974 | the per-key `Set` loop gives the same store as `SetAll` |
| TtlCache.ReinstallRestoresItems | main.go:966-982 | flushing a store and then setting every entry of a map makes the store's live contents exactly that map |
| RateEngine.Register | main.go:584-597 | a client without a live counter gets 1, with a fresh expiry; a live counter is incremented with its expiry kept; no other key changes |
| RateEngine.CountsRequests | main.go:584-597 | n registrations within one window, starting from no live counter, leave the counter at n, expiring one window after the first |
| RateEngine.RateLimitBoundary | main.go:575-582 | after n registrations within one window the limit is tripped exactly when n > RateLimit, so RateLimit requests pass and the next one trips |
| RateEngine.ExpiredCounterRestarts | main.go:585-588 | once a counter has expired, the next registration starts again at 1 and does not trip a limit of 1 |
| StateSync.MaxMerge | main.go:835-843 | merged rate keys are the union; each count is one side's value and at least both sides' |
| StateSync.MemoryWins | main.go:846-857 | merged keys are the union; memory's value wins where present, else the file's |
| StateSync.ReconcileStates | main.go:815-860 | the in-place map-update loops compute `Reconciled`: max-merge for rates, memory-wins union for bots and verified |
| StateSync.FoldMissing | main.go:846-850 | the loop that copies absent file entries into memory's map yields the memory-wins union |
| StateSync.ReconcileNeverUndercounts | main.go:835-843 | no count from either side is lost or lowered by reconciliation |
| StateSync.RateMergeCommutes | main.go:835-843 | merging rates does not depend on which side is the file |
| StateSync.UnionKeysCommute | main.go:846-857 | the set of bot and verified keys after a merge does not depend on which side is the file |
| StateSync.ReconcileIdempotent | main.go:815-860 | reconciling the same file snapshot again changes nothing |
| StateSync.ReconcileWithEmptyFile | main.go:819-832 | reconciling with an empty file gives memory's state unchanged |
| Classifier.CleanPath | main.go:500-504 | the clean path followed by the extension is the original path |
| Classifier.AnyPrefixOf | main.go:473-477 | the early-return loop answers whether some entry is a prefix of the path |
| Classifier.AnyMatch | main.go:552-557 | the early-return loop answers whether some pattern matches the path |
| Classifier.CheckExtension | main.go:480-491 | a path with no extension passes; otherwise the extension without its dot must equal a configured one, ignoring case |
| Classifier.RouteIsProtectedPrefix | main.go:465-495 | protected exactly when some route is a prefix, no exclusion is a prefix, and the extension passes |
| Classifier.RouteIsProtectedSuffix | main.go:497-531 | on the path with its extension removed: protected exactly when some route is a suffix, no exclusion is a prefix, and the extension passes |
| Classifier.RouteIsProtectedRegex | main.go:544-573 | protected exactly when some route pattern matches, no exclusion pattern matches, and the extension passes |
| Classifier.IsGoodUserAgent | main.go:533-542 | exempt exactly when some configured entry is a prefix of the lower-cased user agent |
| Classifier.LowerAll | main.go:149-154 | the stored agent list is the configured one, element by element lower-cased |
| Classifier.UserAgentIgnoresCase | main.go:533-542 | two user agents that differ only in case get the same exemption, and it equals a case-insensitive prefix test |
| Classifier.NoDotPassesExtensionGate | main.go:480-484 | a path without a dot has no extension and so passes the extension gate for every extension list: only the route tests decide |
| Classifier.ShopScenario | main.go:465-495 | a protected `/shop` route with `/shop/api` excluded: pages and `.html` are protected; the API and `.png` are not |
| ClientIp.PickFromRightChoosesAtDepth | main.go:603-616 | with depth d below the number of non-exempt candidates, the pick is the candidate that has exactly d non-exempt ones to its right and is not exempt itself; otherwise there is no pick |
| ClientIp.SelectForwarded | main.go:601-616 | the decrementing right-to-left loop over the split, trimmed header returns the depth-from-right pick |
| ClientIp.SelectFromComponents | main.go:603-616 | the loop over the components, skipping exempt ones, agrees with the recursive depth-from-right pick |
| ClientIp.SplitHostPort | main.go:627-630 | a split address is the host, a colon and a colon-free port, or the host in brackets, then a colon and the port; an unbracketed host has no colon |
| ClientIp.JoinSplitHostPort | main.go:627-630 | `host:port` with no colon or bracket in either part splits back into exactly that host and port |
| ClientIp.JoinSplitBracketedHostPort | main.go:627-630 | `[host]:port` (a remote IPv6 address) splits back into exactly that host and port |
| ClientIp.BareIpv6DoesNotSplit | main.go:627-630 | an unbracketed address with two colons or more (a bare IPv6 address) is refused by the split |
| ClientIp.Host | main.go:627-630 | the address itself when it does not split; otherwise the address is the host followed by its port |
| ClientIp.HostAsWritten | main.go:627-630 | as written: an address without a colon is kept; one with a colon becomes the same host as `Host` exactly when `net.SplitHostPort` accepts it, and `""` when it refuses it |
| ClientIp.BareIpv6KeyCollapses | main.go:627-630 | as written every bare IPv6 address becomes the empty host, while `Host` keeps each one whole |
| ClientIp.ForwardedIpv6ClientsMerge | main.go:627-630 | as written the forwarded clients `2001:db8::1` and `2001:db8::2` both become the empty host; `Host` keeps them apart |
| ClientIp.ClientAddress | main.go:599-630 | the address is the host of the header candidate with exactly `ipDepth` non-exempt candidates to its right, when the header is set and such a candidate exists (an empty one falls back to the remote address), and otherwise the host of the remote address |
| ClientIp.ParseIp | main.go:634-655 | the raw IP is returned unchanged; an unparseable one is its own key; IPv4 and IPv6 are masked with their own widths |
| Captcha.ProviderConfig | main.go:249-269 | exactly the names hcaptcha, recaptcha and turnstile have a provider configuration |
| Captcha.FirstRefused | main.go:129-141 | nothing is reported exactly when every item is accepted; a report names a refused item |
| Captcha.ConfigCheck | main.go:118-269 | construction reports an error exactly when the configuration breaks one of its rules, the loading of the challenge template included |
| Captcha.PreparationCheck | main.go:124-211 | the checks run while normalising report an error exactly when the configuration breaks one of their rules; a missing protected route is reported first and exactly when there is one; a refused regex or CIDR range is named in its error, and a range error comes only after the URL and template checks passed |
| Captcha.TemplateCheck | main.go:174-189 | the template step fails exactly when the template does not load: a stat error other than absence, a file that does not parse, or, when the file is absent, a built-in template that does not parse |
| Captcha.AssemblyCheck | main.go:235-269 | the late checks fail exactly on an IPv4 mask outside 8..32, an IPv6 mask outside 8..128, or an unknown provider |
| Captcha.Normalized | main.go:149-233 | user agents lower-cased; a blank challenge URL becomes the on-page marker; GET and HEAD when no method is listed; `html` always protected; status defaults to 429 on-page and 200 otherwise; nothing else changes |
| Captcha.NormalizedIdempotent | main.go:149-233 | normalising an already normalised configuration changes nothing |
| Captcha.DefaultConfigNeedsRoutes | main.go:88-126 | the default configuration alone is refused for having no protected route |
| Captcha.BotVerdictRemembered | main.go:675-691 | a bot verdict that had to be looked up is reused, with no second lookup, by later unforced requests from the same IP within its lifetime |
| Captcha.RedirectTarget | main.go:388-396 | an empty destination goes to `/`; otherwise the destination's unescaped value, or `/` when it does not unescape |
| Captcha.DestinationRoundTrip | main.go:329-333 | a client sent to the on-page challenge with its escaped URI is redirected back to that exact URI once it succeeds |
| Captcha.Snapshot | main.go:961 | each map of the snapshot has exactly the live keys of its store, with their values; the `Memory` map is empty |
| Captcha.ReloadRevivesFileEntries | main.go:949-988 | after a reload every rate count and verified mark present in the file is live for a whole window, even one that had expired in memory |
| Captcha.ChallengeModeOfAcceptedConfig | main.go:990-992 | `ChallengeOnPage` holds on an accepted configuration exactly when no challenge URL or the marker was configured; otherwise the challenge page is a URL that is neither empty nor the site root; on the page the default status is 429 |
| Captcha.ReloadNeverUndercounts | main.go:949-988 | after a reload every count live in memory or present in the file is live, and at least as large as either side's |
| Captcha.FindRefused | main.go:129-141 | the validation loop reports the first refused entry, or none |
| Captcha.LowerAgents | main.go:149-154 | the loop builds the lower-cased agent list |
| Captcha.NewCaptchaProtect | main.go:118-284 | fails exactly when, and with the first error that, the checks report, the template load included; on success the middleware holds the normalised configuration, masks, provider and fresh stores, pre-loaded from the file when persistence is on |
| Captcha.PrepareConfig | main.go:118-233 | the early checks in order, the template load included; on success the normalised configuration |
| Captcha.Assemble | main.go:213-283 | fresh stores with the window's lifetime; fails on a bad mask or an unknown provider; loads the file's state only when persistence is on |
| Captcha.CaptchaProtect.constructor | main.go:213-224 | empty stores whose default lifetime is the window; no save pending |
| Captcha.CaptchaProtect.SetIpv4Mask | main.go:657-664 | a width outside 8..32 is an error and leaves the mask; otherwise the mask becomes the width |
| Captcha.CaptchaProtect.SetIpv6Mask | main.go:666-673 | a width outside 8..128 is an error and leaves the mask; otherwise the mask becomes the width |
| Captcha.CaptchaProtect.NotifyStateChange | main.go:862-870 | a save becomes pending when persistence is on; repeated notifications coalesce into one |
| Captcha.CaptchaProtect.TakeSaveSignal | main.go:718-722 | the saver sees whether a save was pending and clears it |
| Captcha.CaptchaProtect.IsGoodBot | main.go:675-691 | false when parameters force a challenge; else the stored verdict; else a looked-up verdict, which is stored and signals a save |
| Captcha.CaptchaProtect.ShouldApply | main.go:432-463 | the challenge applies exactly when the method is protected, the caller is not verified, not exempt, not a good bot, has no exempt agent, and the route is protected; the bot store is touched only after the first three gates pass |
| Captcha.CaptchaProtect.RegisterRequest | main.go:584-597 | the rate store after the call is the add-or-increment of the subnet's counter, and a save is signalled |
| Captcha.CaptchaProtect.TrippedRateLimit | main.go:575-582 | tripped exactly when the subnet has a live count above the limit |
| Captcha.CaptchaProtect.GetClientIP | main.go:599-632 | the client IP is `ClientAddress`: the forwarded-header pick when there is one, else the remote address, then the host part when it contains a colon. An address the split refuses is kept whole; this is the corrected form of the code (see "## Findings"). The range is its subnet key |
| Captcha.CaptchaProtect.VerifyChallengePage | main.go:360-404 | no token gives 400, a failed provider call 500, a refusal 403, all with no state change; success marks the IP verified, signals a save and redirects 302 to the destination |
| Captcha.CaptchaProtect.LoadState | main.go:907-917 | every entry of the file's state is set in its store with a fresh lifetime |
| Captcha.CaptchaProtect.ReloadStateFromFile | main.go:949-988 | an empty file state changes nothing; otherwise each store becomes exactly the reconciliation of the file and the live memory state; every rate count and verified mark of the file is then live for a whole window |
| Captcha.CaptchaProtect.Reinstall | main.go:966-982 | each store is flushed, then refilled from the reconciled state |
| FileLocking.LockFrom | internal/filelock/filelock.go:38-69 | the retry loop makes at most 300 attempts; it times out only after all of them; success leaves the lock file stamped with the current time; the only results are success, timeout or create failure |
| FileLocking.FileLock.New | internal/filelock/filelock.go:17-23 | the lock file is the path plus `.lock`, and the lock starts not acquired |
| FileLocking.FileLock.IsStale | internal/filelock/filelock.go:89-97 | stale exactly when the file cannot be stat'ed or is more than five minutes old |
| FileLocking.FileLock.Lock | internal/filelock/filelock.go:27-70 | an already acquired lock is an error that changes nothing; a directory failure is an error; otherwise the run is that of the retry loop, and the lock is acquired exactly when the run succeeds |
| FileLocking.FileLock.TryLock | internal/filelock/filelock.go:100-125 | one attempt: a lock file already present is "already held" and the lock stays unacquired; a created file acquires it |
| FileLocking.FileLock.Unlock | internal/filelock/filelock.go:73-85 | not acquired: nothing happens and there is no error; otherwise the file is removed (a missing file is fine) and the lock released, unless removal is refused |
| FileLocking.StaleLockReclaimed | internal/filelock/filelock_test.go:112-142 | a lock file older than five minutes is removed and the lock taken on the second attempt, with no sleep |
| FileLocking.FreshLockNotStolen | internal/filelock/filelock.go:38-69 | a lock file that stays younger than five minutes through all 300 attempts, and that rivals leave in place, is never removed: `Lock` times out after exactly 300 sleeps and the file keeps its time |
| FileLocking.HandOffAfterRelease | internal/filelock/filelock_test.go:68-110 | when the holder releases during the first sleep, the waiter gets the lock on its second attempt |
| FileLocking.LockThenUnlock | internal/filelock/filelock_test.go:10-43 | lock then unlock on a free path succeeds both times and leaves no lock file |
| FileLocking.CompetingTryLocks | internal/filelock/filelock_test.go:45-66 | of two `TryLock`s on one path the first succeeds and the second reports "already held" |

## Left out

- HTTP plumbing is not modelled: `ServeHTTP`'s response writing, `serveChallengePage` and the rendering of its template, and `serveStatsPage`. Of `ServeHTTP`, only the protect, count and trip path is modelled, by `ShouldApply`, `RegisterRequest` and `TrippedRateLimit`. The destination round trip (`DestinationRoundTrip`) holds in on-page mode only.
- `Captcha.DestinationRoundTrip` does not cover the redirect flow (a dedicated challenge URL). In that flow the destination is decoded once when the challenge page is requested (main.go:303) and again after the POST (main.go:392). So `/?q=a+b` comes back as `/?q=a b`, and a URI holding a bare `%` falls back to `/`. Whether the template escapes the destination again is not visible, so the model makes no claim about this flow.
- `ServeHTTP`'s dispatch of challenge and stats routes is not modelled (main.go:293-317). That dispatch sends an on-page POST with a `challenge` query parameter to verification. It answers GET, POST and other methods on a dedicated challenge URL, and serves the stats page when it is enabled. `VerifyChallengePage` models the verification itself, not the routing to it.
- The provider's `http.PostForm` call and JSON decoding are not modelled; their outcome is an input (`ProviderOutcome`).
- JSON encoding and state-file I/O are not modelled (`readStateFromFile`, `saveStateWithLock`, `writeStateToFile`). The file's snapshot is an input, and the `Memory` map of a snapshot taken from memory is empty.
- Goroutines, the context loop, `sync.RWMutex` and the wall-clock double check in `reloadStateIfNeeded` are not modelled. The model is sequential; time is the parameter `now`.
- go-cache's background sweep is not modelled: an expired entry stays in the map but is invisible to `Get` and `Items`.
- `time.Duration(Window) * time.Second` overflow of `int64` is not modelled; the window is an unbounded integer.
- Foreign helpers are not modelled; each is an uninterpreted function in `Oracles`. They are `helper.IsIpExcluded`, `helper.IsIpGoodBot`, `helper.ParseCIDR`, `net.ParseIP` with the mask, `regexp`, `os.Stat` on the template path, and the template parser (`template.ParseFiles` and the built-in template of `helper.GetDefaultTmpl`).
- Logging and the warnings of `ParseHttpMethods` are not modelled.
- Case folding and white space are ASCII-only: `strings.ToLower`, `strings.EqualFold` and `strings.TrimSpace` on non-ASCII UTF-8 are not modelled.
- Header names are looked up as given. Go's header canonicalisation is not modelled.
- `SetExemptIps` is not modelled separately. Construction stores the built-in ranges followed by the configured ones, and exemption goes through the oracle.
- The "unknown ip version" branch of `ParseIp` is not modelled: an address either parses as IPv4 or IPv6 or does not parse.
- `Captcha.CaptchaProtect.RegisterRequest`: the error branch where `IncrementUint` fails after `Add` has refused the key is unreachable with a single clock reading. The model marks it as dead rather than logging.
- `FileLocking.FileLock.Lock`: the following are not modelled:
  - `filepath.Dir` and `MkdirAll`: directory creation fails exactly for the lock paths listed in a fault set;
  - writing the process id into the lock file;
  - the order in which the OS reports a create failure on an existing file ("exists" is reported first);
  - cross-process atomicity: other processes act only while this one sleeps.
- The exclusion test of prefix mode ignores the route it sits under: any exclusion that is a prefix of the path makes the path unprotected, whichever protected route matched (main.go:473-476). The comment at main.go:472 suggests a narrower intent. The model follows the code (`Classifier.PrefixProtected`).
- All three caches use the window as their default lifetime. The one minute of the rate cache and the one hour of the bot and verified caches are only sweep intervals (main.go:217-219), and the sweep is not modelled (see above).
- The bot and verified caches are keyed by the raw client IP (main.go:386, 437); only the rate cache uses the subnet key (main.go:579-597). The model keys them the same way.
- With persistence on, entries in the state file never expire while reloads continue and saves read the file (see `ReloadRevivesFileEntries` above). The model keeps this behaviour of the code and claims no expiry within the window in that mode.

## Findings

The as-written step is `ClientIp.HostAsWritten`. `ClientIp.BareIpv6KeyCollapses` and the concrete `ClientIp.ForwardedIpv6ClientsMerge` exhibit the discrepancy. The corrected `ClientIp.Host` is what `ClientIp.ClientAddress` and `Captcha.CaptchaProtect.GetClientIP` use.

| source | as written | input that shows it | evidently intended | confidence | as-written member | corrected member |
|---|---|---|---|---|---|---|
| main.go:627-630 | every address containing a colon is replaced by the host `net.SplitHostPort` returns, which is `""` when the split fails | a forwarded header `2001:db8::1` (a bare IPv6 address, the usual form in forwarding headers): the split fails with "too many colons" and the client IP becomes `""`; `ParseIp` then keys it as `""`, so all such IPv6 clients share one rate counter, one bot verdict and one verified mark | strip the port only when there is one, keeping an address without a port whole | high, not executed | ClientIp.BareIpv6KeyCollapses | ClientIp.Host |
