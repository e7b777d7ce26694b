# AdvantCrest server core in Dafny

This project models the request-handling core of the AdvantCrest trading
platform's Express server and proves properties of it. It covers:

- **Bearer-token authentication and the authorisation policies**
  (`middleware/auth.js`): where the token comes from, the `authenticate`
  middleware, `requireAdmin` and `requireSelfOrAdmin`.
- **The user routes** (`routes/users.js`):
  - password login and the three kinds of OTP verification;
  - password change;
  - profile update, with its privilege and rank rules;
  - automatic rank calculation and the hardcoded ranking table;
  - bulk deletion;
  - turning on two-factor authentication.
- **The request context attached to activity-log entries**
  (`utils/requestContext.js`): address normalisation, choosing the
  address source, and when the geo lookup is skipped.
- **The transaction routes** (`routes/transactions.js`): visibility, the
  newest-first listings, and the admin-only amount update and deletion.
- **The CoinGecko price helpers** (`utils/cryptoPrices.js`): the
  symbol-to-id table, building the id list, merging the price answer into
  the requested symbols, and the fallback prices.
- **The utility routes** (`routes/utils.js`): mail and contact validation,
  maintenance mode and its status, coins with live prices, and crypto
  prices.
- **The admin activity-log listing** (`routes/activityLogs.js`): the page
  size and the action filter.

## How the model is built

- **Stores:** every collection a route changes is a field of a class: `Users.UserStore`,
  `Transactions.TransactionStore` and `UtilRoutes.UtilStore`. Its methods
  state the new contents against pure specification functions, such as
  `Accounts.Saved`, `Users.Without`, `Transactions.Replaced` and
  `UtilRoutes.MaintenanceUpdate`.
- **Lookups:** MongoDB's `findOne` is the first match in collection
  order (`Accounts.FirstMatch`). A field the request leaves out is
  `undefined`, and Mongoose drops `undefined` keys from a filter, so
  `{ email }` without an e-mail is the empty filter and finds the first
  user. An `$or` branch emptied this way is removed, and an `$or` left with
  no branch matches every user. So an admin's `update-profile`,
  `reset-rank-to-auto` or `verifyToken` without an e-mail acts on the first
  user, and a registration OTP with neither e-mail nor username is refused
  as "User already exists" once any user is stored.
- **The symbol table** `COIN_ID_MAPPING` is the constant
  `CryptoPrices.CoinIdMapping`. The price functions take it as a `table`
  parameter, and the routes pass the constant. The proofs about them
  hold for any table, or for any table with the shape
  `CryptoPrices.MappingWellFormed` establishes of the real one.
- **Sorting:** the two in-place sorts of the source (ranking levels and
  transaction dates) are one insertion sort on an array. It is proved to
  compute `Sorting.StableSortDesc`: keys never increase, the contents are
  a permutation, and elements of equal key keep their order, as
  `Array.prototype.sort` guarantees.
- **External services become parameters:**
  - bcrypt is a `Hasher` with a soundness condition;
  - JWT verification and signing are function-valued parameters;
  - the OTP store and TOTP check are function-valued parameters;
  - the ipapi.co lookup is a function-valued parameter;
  - the CoinGecko request is a function-valued parameter;
  - the clock is a string parameter.

The modules, in dependency order:
`Base`, `Text`, `Accounts`, `Sorting`, `Auth`, `Ranks`, `Users`,
`Transactions`, `RequestContext`, `CryptoPrices`, `UtilRoutes`,
`ActivityLogs`.

## Model

| member | source | states |
|---|---|---|
| Accounts.FirstMatch | routes/users.js:116-119 | Where `findOne` stops: every document before the returned position fails the filter and the one at it passes; the length of the collection when none passes. |
| Accounts.FindFirst | routes/users.js:116-119 | `findOne` finds a document exactly when some document matches the filter, and the one it returns is in the collection and matches. |
| Accounts.FindByEmailOrUsername | routes/users.js:116-119 | When either field is supplied, a user is found exactly when some user's e-mail or username equals a supplied one, and the one found does. An omitted field's branch drops out. With neither field the filter is empty and the first stored user is found. |
| Accounts.FindByEmail | routes/users.js:318 | With an e-mail, a user is found exactly when some user has it, and the one found has it. Without one the filter is empty and the first stored user is found. |
| Accounts.SavedKeepsFirst | routes/users.js:284-285 | Saving the document a lookup returned, unchanged in the fields the filter reads, makes the same lookup return the saved version: no earlier document starts to match. |
| Accounts.SavedKeepsIds | routes/users.js:284-285 | Saving a document keeps `_id` unique and keeps the set of ids. |
| Accounts.SavedKeepsFirstByEmail | routes/users.js:348-349 | After a profile save that keeps the e-mail, the same lookup finds the saved version. |
| Accounts.SavedKeepsFirstByEmailOrUsername | routes/users.js:233-235 | After saving a user found by e-mail or username, with both unchanged, the same lookup finds the saved version. |
| Sorting.SortDescending | routes/users.js:386 | The array ends as the stable descending sort of its contents: keys never increase, it is a permutation (same multiset) of the original, and elements of equal key keep their original order. |
| Sorting.StableSortSorted | routes/users.js:386 | The stable sort's keys never increase. |
| Sorting.StableSortPermutes | routes/users.js:386 | The stable sort is a permutation of its input. |
| Sorting.StableSortTies | routes/transactions.js:35 | Stability: for every key, the elements with that key appear in the sorted sequence in the order they had in the input. |
| Auth.AuthHeader | middleware/auth.js:5 | The lower-case `authorization` header wins when it is truthy; otherwise the capitalised one is used. |
| Auth.HeaderToken | middleware/auth.js:6-11 | A token exists exactly when the header is a string; it is trimmed and no longer than the header. |
| Auth.GetTokenFromRequest | middleware/auth.js:4-14 | The Authorization-derived token wins when it is a non-empty string; otherwise the result is `x-auth-token` unchanged. |
| Auth.BearerTokenExtracted | middleware/auth.js:6-8 | `<Bearer in any case> <token>` yields the trimmed token, ahead of `x-auth-token`. |
| Auth.BareTokenVerbatim | middleware/auth.js:9-10 | A value without the bearer prefix is the token, trimmed. |
| Auth.BlankBearerFallsBack | middleware/auth.js:13 | `Bearer` followed only by white space carries no token, so `x-auth-token` decides. |
| Auth.NoAuthorizationUsesXAuthToken | middleware/auth.js:13 | Without a string Authorization header, `x-auth-token` is the token. |
| Auth.ConfiguredSecret | middleware/auth.js:21 | `JWT_SECRET` is used when set; otherwise `JWT_PRIVATE_KEY`; there is no secret exactly when neither is set. |
| Auth.Request.Authenticate | middleware/auth.js:16-34 | 401 when no token; 500 when no secret; otherwise `next()` exactly when the token verifies and its `_id` names a stored user. That user, the one `findById` returns for the token's `_id`, is attached to the request. Every other refusal is 401 "Invalid token." and leaves `req.user` unset. |
| Auth.RequireAdmin | middleware/auth.js:36-41 | Passes exactly when the request has an admin user; everything else gets 403 "Access denied. Admins only.". |
| Auth.RequireSelfOrAdmin | middleware/auth.js:43-54 | 401 exactly when there is no user; an admin always passes; a non-admin passes exactly when the target id is their own non-empty id; otherwise 403 "Forbidden". |
| Ranks.HardcodedRankings | routes/users.js:482-492 | Seven named levels, 1 to 7, whose minimum deposits strictly increase. |
| Ranks.FirstQualifying | routes/users.js:388-391 | Where the scan stops: no ranking before the returned position is reached by the deposit and the one at it is; the length of the table when none is. |
| Ranks.RankFromTable | routes/users.js:385-395 | The name returned is the auto rank: the stable level sort scanned for the first ranking the deposit reaches. It is that of a highest-level ranking the deposit reaches. If it reaches none: the lowest level's name, `welcome` when that name is empty, and `welcome` for an empty table. |
| Ranks.AutoRankIsAutoRank | routes/users.js:385-395 | The auto rank is a highest-level ranking the deposit reaches, else a lowest-level one (or `welcome`). |
| Ranks.AutoRankFirstOfTopLevel | routes/users.js:386-391 | Among several reached rankings of the highest reached level, the first in table order gives the name. |
| Ranks.AutoRankLastOfLowest | routes/users.js:386-395 | When the deposit reaches nothing, among several rankings of the lowest level the last in table order gives the name (`welcome` when it is empty). |
| Ranks.SortedScanFinds | routes/users.js:388-391 | Stopping at the first qualifying entry of the level-descending copy finds a highest qualifying level of the original table. |
| Ranks.SortedScanFallsThrough | routes/users.js:394-395 | When nothing qualifies, the last entry of the sorted copy is a lowest level of the original table. |
| Ranks.CalculateAutoRank | routes/users.js:369-407 | When a lookup throws, the threshold chain decides. Otherwise the result is the auto rank, ties settled by table order, of the table in force: custom rankings, then the util document's defaults, then the hardcoded table. |
| Ranks.HardcodedAgreesWithFallback | routes/users.js:396-406 | On the hardcoded table the table scan and the error-path threshold chain give the same rank for every deposit. |
| Ranks.EmptyDefaultsGiveWelcome | routes/users.js:382 | With no custom rankings and an empty default table, every deposit is ranked `welcome`. |
| Ranks.IntendedRankingsFor | routes/users.js:379-382 | The table in force is never empty. An empty default table falls back to the hardcoded one. A non-empty table in force is unchanged. |
| Ranks.IntendedEmptyDefaultsFollowDeposit | routes/users.js:379-382 | With the intended table, an empty default table ranks by the threshold chain, so a deposit of 5000 or more is not ranked `welcome`. |
| Users.Login | routes/users.js:110-145 | A validation error gives 400; no matching user gives 400 "User not found"; a user without a password gives 400 with the Google message. Otherwise a failed bcrypt comparison gives 400 "Invalid password", and it succeeds exactly when the comparison passes, with a session for the found user. An admin-login audit entry is produced exactly when an admin logs in. |
| Users.LoginAcceptsNewPassword | routes/users.js:220-239 | After a password reset stores the hash of `p`, logging in with `p` under the same lookup succeeds for the saved user, given a sound hasher. |
| Users.UserStore.VerifyOtp | routes/users.js:172-248 | Missing OTP: 400. Unknown type: 400. Registration: refused for an existing user or an invalid OTP; a missing password, or a missing or empty e-mail or username, is a 500 that saves nothing; otherwise the new user is appended. OTP login: 400 "Invalid password" on a wrong password; succeeds exactly when the OTP and the password check both pass; changes nothing. Reset: succeeds exactly when the OTP is valid and a password is given, storing its hash. A 400 never changes the collection. |
| Users.ChangePasswordGate | routes/users.js:270-281 | Forbidden exactly when a non-admin targets another user. The current-password check is skipped exactly when an admin targets another user. A non-admin never skips it. |
| Users.UserStore.ChangePassword | routes/users.js:266-292 | 403 or 404 or 400 as the gate, lookup and current-password check decide. On success the target's password becomes the hash of the new one and nothing else changes. A failure changes nothing. |
| Users.ProfileChanges | routes/users.js:327-339 | A non-admin's `isAdmin` field is dropped. An uploaded file replaces `profileImage`. A rank is recorded, and `manualRank` set, exactly when it differs from the stored rank. No other field of the request changes. |
| Users.Apply | routes/users.js:348 | Applying the changes keeps the id and the e-mail. Every supplied field overrides the stored one, including the username, the referrer and the custom ranking table. Every other field is kept. |
| Users.NonAdminKeepsAdminFlag | routes/users.js:327-329 | A non-admin's profile update never changes the stored `isAdmin`. |
| Users.ProfileUpdateKeepsLookup | routes/users.js:348-349 | After a profile update the same e-mail lookup finds the updated user. |
| Users.UserStore.UpdateProfile | routes/users.js:315-366 | 404 when the e-mail finds no user; 403 for a non-admin acting on another e-mail. On success the saved user is the applied changes, and a deposit or interest update without a rank or manual rank gets the rank `calculateAutoRank` returns for the stored user. The log action is `admin_update_profile` (notifying admins) exactly when an admin edits another user. |
| Users.UserStore.ResetRankToAuto | routes/users.js:410-430 | 404 and 403 as for the profile update. On success only `rank` (the calculated rank for the stored deposit) and `manualRank := false` change. |
| Users.UserStore.VerifyTotp | routes/users.js:571-597 | 400 "Invalid email" when no user has the e-mail; 403 for another user's e-mail; 500 when the TOTP check fails. Otherwise only `mfa` becomes true. |
| Users.BuildDeleteFilter | routes/users.js:499-519 | An id clause exactly for a non-empty id array; a prefix clause exactly for each truthy prefix. The filter is empty exactly when none of the three is supplied. |
| Users.FilterKeys | routes/users.js:517 | The reported filter keys are empty exactly when the filter is empty. |
| Users.Without | routes/users.js:522 | `deleteMany` keeps exactly the documents the filter does not match, in their order, and keeps ids unique. |
| Users.WithoutExactlyMatching | routes/users.js:522 | A stored user survives the bulk delete exactly when the filter does not match them. |
| Users.UserStore.BulkDelete | routes/users.js:495-535 | Succeeds exactly when some criterion is supplied. Otherwise it answers 400 and changes nothing. The reported count is the number of documents removed, and the log entry lists the filter's keys. |
| Transactions.FindTransaction | routes/transactions.js:15 | Found exactly when a transaction has the id; the result is stored and carries that id. |
| Transactions.GetTransaction | routes/transactions.js:11-24 | An unknown id gives 400 before the ownership check. A non-admin sees only a transaction whose `user.email` is theirs; otherwise 403. |
| Transactions.OwnedBy | routes/transactions.js:54 | Exactly the stored transactions whose `user.email` is the given e-mail. |
| Transactions.NewestFirst | routes/transactions.js:35 | The listing is the stable sort by date: newest first, a permutation of what was found, and transactions of equal date in their found order. |
| Transactions.TransactionStore.ListAll | routes/transactions.js:29-40 | Admins only: 400 for an empty collection, otherwise every transaction, newest first, equal dates in stored order. |
| Transactions.TransactionStore.ListByUser | routes/transactions.js:46-63 | A non-admin asking for another e-mail gets 403 before any lookup. Otherwise the owner's transactions, newest first with equal dates in found order, or 400 when there are none. |
| Transactions.WithAmounts | routes/transactions.js:76-83 | The update sets `amount` and `walletData.convertedAmount` and leaves every other field unchanged. |
| Transactions.Replaced | routes/transactions.js:76-83 | `findByIdAndUpdate` replaces only the document with the id and keeps ids unique. |
| Transactions.TransactionStore.UpdateAmounts | routes/transactions.js:66-97 | 403 for non-admins. 400 unless both numbers are truthy, so zero is refused. 404 for an unknown id. On success only that transaction's two amounts change, and the update is logged. |
| Transactions.Removed | routes/transactions.js:106 | Removal keeps exactly the transactions with other ids, in their stored order; an absent id changes nothing. |
| Transactions.RemovedOne | routes/transactions.js:106 | Removing a stored id keeps ids unique and removes exactly one transaction. |
| Transactions.TransactionStore.Delete | routes/transactions.js:102-116 | 403 for non-admins. 400 for an unknown id, with nothing logged. On success the removed transaction is returned, the collection shrinks by one, and the deletion is logged. |
| RequestContext.NormalizeIp | utils/requestContext.js:1-5 | A falsy address becomes empty and `::1` becomes `127.0.0.1`; the result is always trimmed. |
| RequestContext.NormalizeMapped | utils/requestContext.js:4 | An IPv4-mapped address loses one `::ffff:` prefix and is trimmed. |
| RequestContext.NormalizeKeepsPlainAddress | utils/requestContext.js:4 | An already trimmed, unmapped address other than `::1` is unchanged. |
| RequestContext.LocalSourcesSkipLookup | utils/requestContext.js:7-15 | A missing source, `::1`, and every 127/8, 10/8 or 192.168/16 address, plain or IPv4-mapped, normalises to an address the geo lookup skips. |
| RequestContext.PublicAddressLooksUp | utils/requestContext.js:7-15 | A trimmed public address that needs no normalising is looked up. |
| RequestContext.ForwardedHead | utils/requestContext.js:19 | The first entry of an `x-forwarded-for` array, or the text before the first comma of a string; nothing for a missing header or an empty array. |
| RequestContext.SourceIp | utils/requestContext.js:20 | The forwarded head when truthy, then `req.ip`, then the socket address. |
| RequestContext.ForwardedClientWins | utils/requestContext.js:19-20 | The first client in a comma-separated `x-forwarded-for` wins over `req.ip` and the socket. |
| RequestContext.EmptyForwardedHeadIgnored | utils/requestContext.js:19-20 | A header whose first entry is empty is ignored. |
| RequestContext.LocationOf | utils/requestContext.js:35-41 | Each location name falls back to its alternative field and then to the empty string; coordinates are copied. |
| RequestContext.GetRequestContext | utils/requestContext.js:17-52 | The address is the normalised source. The user agent defaults to empty. There is no location for a skipped address, a failed lookup or an error answer; otherwise the location is built from the answer. |
| CryptoPrices.MappingWellFormed | utils/cryptoPrices.js:7-104 | Every key of the symbol table is non-empty and does not start with a space, and every id is non-empty. |
| CryptoPrices.CoinIdOf | utils/cryptoPrices.js:119-122 | The non-empty table id of the lower-cased, trimmed symbol, else that normalised symbol. An empty id comes only from a blank symbol, and always does for a table without an empty key. |
| CryptoPrices.NonEmpty | utils/cryptoPrices.js:123 | `.filter(Boolean)` leaves no empty id and keeps every non-empty one. |
| CryptoPrices.NoIdsIffBlankSymbols | utils/cryptoPrices.js:118-129 | For a table without an empty key (the symbol table is one), no request is made exactly when every symbol is blank after normalising. |
| CryptoPrices.WithDirect | utils/cryptoPrices.js:163-172 | The direct-match pass adds exactly the requested lower-cased names the answer holds, keeps every entry already present, and builds new entries from the answer. |
| CryptoPrices.FetchedKeysRequested | utils/cryptoPrices.js:152-172 | Every key of the result is some requested symbol, lower-cased. |
| CryptoPrices.MergedEntries | utils/cryptoPrices.js:152-172 | A requested name has a price exactly when the answer holds its table id or the name itself. The table-id quote wins over a direct match. |
| CryptoPrices.FetchedEntries | utils/cryptoPrices.js:111-181 | When the request succeeds, the prices are the merged entries of its answer. |
| CryptoPrices.PaddedSymbolMatchedOnlyVerbatim | utils/cryptoPrices.js:118-172 | For a well-formed table such as the symbol table, a symbol with leading white space is trimmed when building the request. The result looks it up untrimmed, so it gets a price only if the answer contains the padded name itself. |
| CryptoPrices.NoSymbolsNoPrices | utils/cryptoPrices.js:113-115 | No symbols give no prices. |
| CryptoPrices.AnyLowerEquals | utils/cryptoPrices.js:153 | True exactly when some symbol, lower-cased, equals the key. |
| CryptoPrices.PricesByTable | utils/cryptoPrices.js:152-160 | The loop over a table builds exactly the table-id entries its specification function describes. |
| CryptoPrices.AddDirectMatches | utils/cryptoPrices.js:163-172 | The `forEach` builds exactly the direct-match merge. |
| CryptoPrices.FetchCryptoPrices | utils/cryptoPrices.js:111-181 | Returns exactly the specified prices. Empty for no symbols, blank ids, a failed request or a thrown error. |
| CryptoPrices.GetCoinPrice | utils/cryptoPrices.js:189-220 | The source is `api` exactly when the lower-cased symbol has a fetched price, whose values are copied. Otherwise the fallback price (0 when the caller passes none) with change 0 and the current time. |
| CryptoPrices.FallbackPriceOf | utils/cryptoPrices.js:257 | A truthy `fallbackPrice`, else a truthy `price`, else 0. |
| CryptoPrices.ApiSymbols | utils/cryptoPrices.js:234-236 | Exactly the truthy `apiSymbol \|\| name` values of the coins. |
| CryptoPrices.PriceCoin | utils/cryptoPrices.js:241-262 | Name, address, network, `apiSymbol` and `fallbackPrice` are kept. The source is `api` exactly when the coin's lower-cased symbol has a price; the coin then carries that entry's price, 24-hour change and update time. Otherwise the coin gets its fallback price. |
| CryptoPrices.UpdateCoinPricesFromApi | utils/cryptoPrices.js:227-279 | One coin out per coin in. When a coin has no symbol (the `toLowerCase` throws), every coin gets its fallback price. Otherwise each coin is priced from the fetched prices of all symbols. |
| UtilRoutes.ValidateSendMail | routes/utils.js:60-66 | Accepted exactly for a non-empty e-mail array with truthy subject and message, with each refusal's message. |
| UtilRoutes.ValidateContactUs | routes/utils.js:87-89 | Accepted exactly when all four fields are truthy. |
| UtilRoutes.BlankContactFieldRefused | routes/utils.js:87-89 | An empty-string field is refused. |
| UtilRoutes.CryptoPricesRoute | routes/utils.js:179-197 | 400 unless `coinSymbols` is an array. An array of strings gets the fetched prices. An array holding a non-string gets an empty price object, because the fetch throws and is caught. |
| UtilRoutes.MergedMaintenance | routes/utils.js:119-123 | `enabled` is replaced only when supplied and `message` only when truthy; `updatedAt` is now. |
| UtilRoutes.MergeIdempotent | routes/utils.js:119-123 | Sending the same switch twice leaves the same mode. |
| UtilRoutes.ToggleReply | routes/utils.js:127 | The reply says enabled exactly when the request's `enabled` is true. |
| UtilRoutes.ReplyCanContradictState | routes/utils.js:119-127 | With maintenance on, a request without `enabled` keeps it on but the reply says it is disabled. |
| UtilRoutes.StateReply | routes/utils.js:127 | The reply says enabled exactly when the stored mode is enabled. |
| UtilRoutes.StateReplyAgrees | routes/utils.js:119-128 | The state-based reply always matches the stored mode, and agrees with the as-written reply whenever `enabled` is supplied. |
| UtilRoutes.MaintenanceStatus | routes/utils.js:137-155 | Without a util document, or on error, the status is "operational" and not enabled. It is enabled exactly when the stored flag is true. The message is never empty and is the stored message whenever it is not the default. |
| UtilRoutes.StatusAfterSwitch | routes/utils.js:111-155 | After a switch with a flag and a non-empty message, the status reports exactly those. |
| UtilRoutes.MessageOnlySwitchKeepsFlag | routes/utils.js:119-123 | A switch without `enabled` leaves the reported flag as it was. |
| UtilRoutes.MaintenanceUpdate | routes/utils.js:111-134 | Without a util document: 404 and no change. Otherwise the merged mode is stored, the rest of the document is kept, and the reply is sent. No caller is checked. |
| UtilRoutes.AnonymousSwitchTakesEffect | routes/utils.js:111-134 | A request with no user at all turns maintenance on. |
| UtilRoutes.AdminMaintenanceUpdate | routes/utils.js:111-134 | A non-admin gets 403 and the document is unchanged. An admin gets the as-written update, with the state-based reply. |
| UtilRoutes.NonAdminCannotSwitch | routes/utils.js:111-134 | A non-admin can change neither the stored mode nor the reported status. |
| UtilRoutes.UtilStore.SetMaintenanceMode | routes/utils.js:111-134 | The stored document and the reply are exactly the as-written update; coins and other fields are kept. |
| UtilRoutes.UtilStore.SetMaintenanceModeAsAdmin | routes/utils.js:111-134 | The stored document and the reply are exactly the admin-gated update; a non-admin changes nothing. |
| UtilRoutes.UtilStore.GetMaintenanceStatus | routes/utils.js:137-155 | The status the specification function describes for the stored document. |
| UtilRoutes.UtilStore.CoinsWithPrices | routes/utils.js:158-176 | An empty list without a util document or coins. Otherwise one coin per stored coin, name kept. When a stored coin has no symbol every coin gets its fallback price; otherwise each coin is priced from the prices fetched for all symbols, or given its fallback price when its symbol has none. |
| ActivityLogs.EffectiveLimit | routes/activityLogs.js:10-15 | The page size is never above 500 and never 0. It is 100 when `limit` is missing, zero or not a number, and a positive value capped at 500 otherwise. It is negative exactly when the value parses to a negative number. |
| ActivityLogs.LimitOfNumeral | routes/activityLogs.js:15 | A numeral `n` with white space around it gives `min(n, 500)`, and 100 for 0. |
| ActivityLogs.BlankLimitIsDefault | routes/activityLogs.js:15 | A blank `limit` gives 100. |
| ActivityLogs.ActionFilter | routes/activityLogs.js:11 | A filter on the action exactly when a non-empty action is named. |
| ActivityLogs.Selected | routes/activityLogs.js:13 | The find keeps exactly the entries that match the filter, taken from the stored entries. |
| ActivityLogs.NoActionSelectsAll | routes/activityLogs.js:11-13 | Without an action every entry is selected. |
| ActivityLogs.ListLogs | routes/activityLogs.js:8-15 | Non-admins get 403. Admins get the action filter and the page size. |
| ActivityLogs.ServedEntriesMatch | routes/activityLogs.js:8-17 | Every served entry is stored and carries the requested action, and the page is newest first. |
| ActivityLogs.PositiveLimitPageBounded | routes/activityLogs.js:15 | A positive page size serves at most 500 entries. |
| ActivityLogs.NegativeNumeralLimit | routes/activityLogs.js:15 | `?limit=-n` passes the clamp as `-n`. |
| ActivityLogs.NewestSelectedServed | routes/activityLogs.js:13-15 | For a negative limit `n`, the `k <= |n|` newest matching entries (ties in stored order) form a page the database may send back. |
| ActivityLogs.NegativeLimitExceedsCap | routes/activityLogs.js:13-15 | The clamp passes `?limit=-n` for `n > 500` through unchanged. With at least `n` matching entries, the `n` newest form a page the database may send back, so a page is bounded by `n`, not by 500. |
| ActivityLogs.CappedLimit | routes/activityLogs.js:15 | The corrected page size is between 1 and 500. It agrees with the as-written size when that is positive and is 100 when that is negative. |
| ActivityLogs.CappedPageAtMost500 | routes/activityLogs.js:15 | With the corrected page size no page holds more than 500 entries. |
| ActivityLogs.ListLogsCapped | routes/activityLogs.js:8-15 | The corrected listing: 403 for non-admins, and a page size between 1 and 500 for admins. |

## Left out

- Transport and side effects are not modelled: e-mail sending, Cloudinary/multer uploads, `console` output and the timers of the geo lookup. They appear only as parameters: the welcome-mail outcome, the uploaded file path, and whether the lookup answered.
- Concurrency between requests is not modelled. Each route is one atomic step on its collection.
- Database failures (a `save` or `find` that throws) are not modelled, and neither are the 500 answers built in `catch` blocks from `error.errors`. This includes the undeclared loop variable `i` in those blocks. The exception is the few generic 500 answers reached through the modelled parameters.
- Floating-point prices are copied as reals and never computed with; deposits, amounts and dates are integers.
- Text.ToLower folds ASCII letters only; the JavaScript `toLowerCase` covers all of Unicode.
- ActivityLogs.JsNumber: reads only optionally signed runs of decimal digits. Fractions, exponents, hexadecimal, `Infinity` and digits with separators are treated as not a number.
- Accounts.Matches: request fields are strings or absent. A field sent as `null`, a number or an object, which Mongoose would cast or match differently, is not modelled.
- Users.BulkDelete: the case-insensitive `$regex` prefix match, with the prefix taken as a pattern, is the parameter `prefixMatch`. Its semantics are not modelled.
- Users.UserStore.VerifyOtp: OTP expiry and single use belong to `verifyOtp` and are inside the `otpValid` parameter. The schema defaults of a new user are not modelled, except the ones `NewUser` states. The User schema (models/user.js) is not part of this model. The model assumes it marks `email` and `username` as required, so a registration without either, or with an empty one (Mongoose's required check rejects `""`), fails on save with 500. Only the missing-password case follows from the route alone: `bcrypt.hash(undefined, salt)` throws at routes/users.js:194.
- Users.UserStore.UpdateProfile: the `fieldsUpdated` metadata of the log entry is left empty. Fields of the request that are neither interpreted nor stored in `other` are not modelled. The request is assumed to carry typed values; Mongoose casting is not modelled.
- Users.UserStore.VerifyTotp: the TOTP secret is not stored; the route only sets `mfa`, and the model follows the route.
- Transactions.TransactionStore.UpdateAmounts: the amounts are integers. Numeric strings that Mongoose would cast are not modelled.
- UtilRoutes.MergedMaintenance: `enabled` is an optional boolean. Mongoose's casting of other values sent as `enabled` is not modelled.
- ActivityLogs.ServedPage: the database's sort and limit are a predicate on the served page, not computed. Entries with equal `createdAt` may come in any order. For a negative limit `n`, MongoDB returns a single batch and closes the cursor. The predicate only bounds that batch by `|n|`, because the batch size is the database's choice.
- The activity-log write (`utils/activityLogger.js`) is not part of this model. The routes return the entry they would log, and the request context is modelled separately.
- These routes are not modelled: signup, resend-otp, the reset-password requests, Google sign-in, the QR code, referrals, the user listings and the single-user read, the ranking reads and updates, the trader update, and the util document's CRUD routes. The core operations of the files above do not depend on them.
- Keys JavaScript objects inherit from their prototype (`constructor`, `toString`, ...) are not treated as entries of the symbol table.

## Findings

| source | as written | input that shows it | evidently intended | confidence | as-written member | corrected member |
|---|---|---|---|---|---|---|
| routes/utils.js:111-112 | The maintenance switch has no `authenticate` or `requireAdmin`, and `/api/utils` is mounted without authentication (server.js:116). | `PUT /api/utils/maintenance-mode` with body `{"enabled": true}` and no token turns maintenance mode on. | Only admins can switch maintenance mode, as the route's comment says. | medium, not executed | UtilRoutes.AnonymousSwitchTakesEffect | UtilRoutes.NonAdminCannotSwitch |
| routes/utils.js:127 | The reply is built from the request's `enabled`, not from the stored mode. | With maintenance on, body `{"message": "back at 5"}` keeps it on, but the reply says "Maintenance mode disabled". | The reply describes the stored mode. | low, not executed | UtilRoutes.ReplyCanContradictState | UtilRoutes.StateReplyAgrees |
| routes/activityLogs.js:15 | `Math.min(Number(limit) \|\| 100, 500)` caps only from above. A negative limit `-n` reaches the database unchanged, and MongoDB bounds the page by `n` (in one batch), not by 500. | `GET /api/activity-logs?limit=-1000` with 1000 or more entries: the 1000 newest form a page the database may send back. | At most 500 entries per page. | low, not executed | ActivityLogs.NegativeLimitExceedsCap | ActivityLogs.CappedPageAtMost500 |
| routes/users.js:382 | `utils?.defaultRankings \|\| getHardcodedRankings()` keeps an empty `defaultRankings` array, which is truthy and is the schema's default. | A util document without stored rankings, and a user with no custom rankings and a deposit of 1000000, is ranked `welcome`. | Fall back to the hardcoded table when there are no default rankings (the comment at line 379). | low, not executed | Ranks.EmptyDefaultsGiveWelcome | Ranks.IntendedEmptyDefaultsFollowDeposit |
