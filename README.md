# youtheme core, modelled in Dafny

youtheme lets a user sign in with Google, pulls the list of YouTube channels
they subscribe to and groups those channels into themes. This project models
two pieces of it and proves what they promise:

- **The client's subscription fetch** (`client/src/App.js`). `fetchAllSubscriptions(token)`
  requests one page of the YouTube Data API subscriptions list. It merges each
  page's items into the `subscriptions` state, re-sorting the whole list by
  lower-cased title. While a page has items and a `nextPageToken`, it calls
  itself with that token. The other handlers of the `App` component (logout,
  the `register` and `reloadSubs` completions) just overwrite state. In this
  component as written nothing calls `getSubscriptions` (line 133), the only
  entry to the chain. The subscriptions page receives `reloadSubs` as its
  reload handler. So the chain never runs when the app loads; the model
  describes what it does whenever it is called.
- **The server's user resolvers** (`server/resolvers/users.js`). `register`
  verifies a Google ID token. It then finds the user by `sub`, or creates the
  user stamped with the current time. `getUsers` lists the whole User
  collection.

Modules:

| file | module | contents |
|---|---|---|
| `wrappers.dfy` | `Wrappers` | `Option`, `Result` |
| `subscriptions.dfy` | `Subscriptions` | the Subscription record, ASCII `toLowerCase`, JavaScript string `<`, the comparator of line 151, and the sort as an insertion sort with its sortedness and permutation proofs |
| `paging.dfy` | `Paging` | request URLs, the upstream `Response`, the specification function `Fetch` of a whole chain of page requests over a sequence of responses, its request tokens (`Requests`) and ending (`Ending`) on their own, and its lemmas |
| `client.dfy` | `Client` | class `App` with the four state fields and its handlers; `FetchPages` is the recursive fetch, proved against `Fetch` |
| `users.dfy` | `UserResolvers` | the User store as a class over `map<string, User>` keyed by `sub`; `RegisterOutcome` specifies `register`, `UserStore.Register` implements it, `UserStore.GetUsers` lists the store |

The upstream is a parameter. `responses[k]` is what the `k`-th request
settles to: a rejection with its message, or a parsed body whose `items` and
`nextPageToken` may be absent. The clock reading (`new Date().toISOString()`)
and the database failures are parameters too. So is Google's token check:
`verify` maps the token handed to it to claims or a rejection.

The model keeps these behaviours of the code:

- There is no ceiling on the number of pages. Fetching ends only on a page
  without a token, a page without items, or a failure.
- The sort promises key order and a permutation, and nothing about stability.
  The comparator never returns 0, so elements with equal keys end in an order
  the JavaScript engine chooses.
- A failure keeps the pages merged before it. It is caught at line 164; it does
  not roll anything back.
- Tokens use JavaScript truthiness: `null`, `undefined` and `""` all mean
  "no token". A missing `items` behaves like an empty one.
- When `googleUser` is null, line 140 throws before any request is made.
  The model returns `NotSignedIn` with no requests and the list unchanged.

Two cross-file disagreements are recorded here. The model follows each file
as written, with one exception: `UserResolvers.UserStore.Register` implements
the corrected resolver of the first item, and `UserResolvers.RegisterAsWritten`
is the resolver as written.

- The resolver destructures `token` (server/resolvers/users.js line 21). The
  schema's argument is `idToken` (typeDefs.js line 63). See "## Findings".
- The resolver replies with `sub`, `email`, `name` and `createdAt`. The
  client reads `id`, `subscriptions` and `themes` from that reply
  (client/src/App.js lines 109-113), and the schema's `User` type has no
  `sub`. So those three fields arrive as null. `Client.AuthUser.id` is
  therefore an `Option`. The reply `UserResolvers.RegisterOutcome` models has
  no lists at all, so lines 112-113 install null as `subscriptions` and
  `themes`. `Client.App.OnRegisterCompleted` installs lists only; see
  "## Left out".

## Model

| member | source | states |
|---|---|---|
| Subscriptions.LowerChar | client/src/App.js:151 | `toLowerCase` on one character: an upper-case ASCII letter moves down by 32 and everything else is unchanged, so the result is never upper case |
| Subscriptions.Lower | client/src/App.js:151 | lower-casing keeps the length and leaves no upper-case letter |
| Subscriptions.LowerIdempotent | client/src/App.js:151 | lower-casing twice is lower-casing once |
| Subscriptions.CodeUnits | client/src/App.js:151 | a character is one UTF-16 code unit below U+10000 and two above, each unit below 0x10000 |
| Subscriptions.SurrogatePairDecodes | client/src/App.js:151 | a character above U+FFFF becomes a high then a low surrogate, and the pair decodes back to the character |
| Subscriptions.Utf16 | client/src/App.js:151 | a string has at least as many code units as characters and at most twice as many |
| Subscriptions.LowerUnitsIsUtf16OfLower | client/src/App.js:151 | the sort key, lower-cased and encoded one character at a time, is the UTF-16 code units of the lower-cased title |
| Subscriptions.SurrogatesSortLow | client/src/App.js:151 | JavaScript compares code units, not code points: a character above U+FFFF sorts before one in U+E000-U+FFFF |
| Subscriptions.PrecedesIrreflexive | client/src/App.js:151 | JavaScript string `<` is irreflexive |
| Subscriptions.PrecedesAsymmetric | client/src/App.js:151 | string `<` is asymmetric |
| Subscriptions.PrecedesTransitive | client/src/App.js:151 | string `<` is transitive |
| Subscriptions.PrecedesTotal | client/src/App.js:151 | of two different strings, one precedes the other |
| Subscriptions.NotAfterTransitive | client/src/App.js:151 | "not after" (`<=` on strings) is transitive |
| Subscriptions.Compare | client/src/App.js:150-152 | the comparator answers only 1 or -1, never 0, and answers -1 on titles whose keys are equal |
| Subscriptions.CompareCharacterised | client/src/App.js:150-152 | the comparator returns only 1 or -1; it returns 1 exactly when the second lower-cased title's code units sort before the first's; on distinct keys it is antisymmetric; on equal keys it returns -1 both ways |
| Subscriptions.CompareIgnoresCase | client/src/App.js:151 | titles of equal length whose characters agree after lower-casing, one by one, compare as equal keys (-1 both ways) |
| Subscriptions.Insert | client/src/App.js:150-152 | inserting into a sorted list gives a sorted list holding the old elements plus the new one |
| Subscriptions.SortByTitle | client/src/App.js:150-152 | the sorted list is ordered by lower-cased title and is a permutation of its input (same multiset, same length) |
| Paging.BaseUrl | client/src/App.js:138 | the base URL is the subscriptions endpoint with its fixed query, followed by the API key, which can be read back from the URL |
| Paging.PageItems | client/src/App.js:148-158 | a response contributes items exactly when it is a page whose `items` is present and non-empty (`data.items && data.items.length > 0`), and then all of them |
| Paging.FetchUrl | client/src/App.js:138-143 | without a truthy token the request URL is the base URL; with one it is the base URL, then `&pageToken=`, then the token |
| Paging.UrlCarriesToken | client/src/App.js:143 | every URL starts with the base URL, and the token can be read back from it: exactly the token it was built with, or none for a falsy token |
| Paging.RequestUrls | client/src/App.js:143-145 | the URL list has one URL per request, and the `k`-th is `FetchUrl` of the `k`-th token |
| Paging.Fetch | client/src/App.js:137-165 | `fetchAllSubscriptions(token)` and the calls it makes in turn: never more requests than responses, and at least one request exactly when there is a response |
| Paging.FetchRequests | client/src/App.js:143-158 | one request per consumed response, never more than there are responses and at least one if there is any; the first request carries the caller's token and each later one the previous page's `nextPageToken`; every page but the last consumed one continued; an early stop happens only on a page that does not continue |
| Paging.FetchTrace | client/src/App.js:143-164 | which requests the fetch makes and how it ends depend only on the responses, never on the list being merged |
| Paging.RequestsFollowPages | client/src/App.js:143-158 | the same request facts as `FetchRequests`, stated for the token sequence alone |
| Paging.EndingOnLast | client/src/App.js:148-164 | the ending is `StopOutcome` of the last consumed response when it does not continue, and `Pending` when it does |
| Paging.MergeAllMerges | client/src/App.js:148-158 | merging pages one by one keeps every item of every page and of the starting list (a multiset equality), sorts the list once any item came in, and leaves it untouched otherwise |
| Paging.FetchIsMergeAll | client/src/App.js:148-158 | the final list is the consumed pages merged in order into the starting list |
| Paging.FetchMerges | client/src/App.js:148-158 | the final list is a permutation of the starting list plus all items of the consumed pages, with nothing dropped or deduplicated, and sorted by lower-cased title once a page with items arrived |
| Paging.FetchLength | client/src/App.js:148-158 | the final list's length is the starting length plus the item counts of the consumed pages |
| Paging.FetchContinuing | client/src/App.js:148-158 | a page with items and a token merges its items and hands the next token to the recursive call |
| Paging.FetchStopping | client/src/App.js:148-164 | any other response is the last request: a page with items and no token is merged and ends `AllFetched`; an empty page ends `EmptyPage` with the list unchanged; a failure ends `Failed` with its message |
| Paging.FetchOutcomeOfLastPage | client/src/App.js:148-164 | how the fetch ends is fixed by the last consumed response (failure, empty page, last page); it is `Pending` only when every response was consumed and the last still asked for more |
| Paging.MergeAllSkipsPageWithoutItems | client/src/App.js:148-162 | a trailing page without items merges nothing |
| Paging.FailureKeepsEarlierPages | client/src/App.js:146-164 | on a failure, the failing response was the last one consumed; every page before it had items; the list keeps those pages merged (no rollback) |
| Paging.EmptyPageEndsFetch | client/src/App.js:148-162 | a page without items ends the fetch after its own request with the list unchanged, even if it carries a next page token |
| Paging.ThreePages | client/src/App.js:137-165 | three linked pages: three requests carrying no token, then the two tokens; `AllFetched`; all items kept and sorted |
| Client.App.constructor | client/src/App.js:99-102 | the initial state: no Google user, no signed-in user, empty subscriptions and themes |
| Client.App.HandleGoogleUser | client/src/App.js:99 | the login page's `handleGoogleUser` sets the Google user |
| Client.App.OnRegisterCompleted | client/src/App.js:105-113 | the register completion installs the reply's name, email, id and creation time as the signed-in user, and replaces subscriptions and themes with the reply's |
| Client.App.OnReloadCompleted | client/src/App.js:123 | the reload completion replaces the subscription list wholesale |
| Client.App.HandleLogout | client/src/App.js:126-131 | logout clears both users and empties subscriptions and themes |
| Client.App.MergePage | client/src/App.js:150-152 | one `setSubscriptions` updater: the new list is the old list plus the page, sorted, and a permutation of them |
| Client.App.FetchPage | client/src/App.js:143-163 | one request and its handler: the URL carries the token; a page with items is merged; the fetch continues exactly on a page with items and a token; otherwise the outcome is how it stopped |
| Client.App.FetchPages | client/src/App.js:137-165 | the recursive fetch makes exactly the requests `Fetch` describes, with their URLs, and leaves the list and outcome `Fetch` gives |
| Client.App.FetchAllSubscriptions | client/src/App.js:137-165 | with no Google user, nothing is requested and nothing changes; otherwise the same as `FetchPages` on the API's base URL |
| Client.App.GetSubscriptions | client/src/App.js:133-135 | `getSubscriptions` starts from a null token without clearing the list; its first request is the bare base URL |
| UserResolvers.RegisterOutcome | server/resolvers/users.js:21-46 | existing records are never changed or removed; at most the claims' `sub` is added; a rejected token adds nothing |
| UserResolvers.RegisterFindsExisting | server/resolvers/users.js:31-35 | a known `sub` returns the stored record unchanged, whatever name or email the new claims carry, and the store is not written |
| UserResolvers.RegisterCreates | server/resolvers/users.js:37-43 | a new `sub` adds exactly one record `{sub, email, name, createdAt = now}`; every other record stays; the reply equals the saved record |
| UserResolvers.RegisterFailures | server/resolvers/users.js:22-45 | a call fails exactly when the token is rejected, the lookup fails, or saving a new record fails; the error carries that step's message (rejection, lookup failure or save failure); the store is unchanged |
| UserResolvers.RegisterKeepsKeyed | server/resolvers/users.js:31-43 | the store stays keyed by `sub`; a successful reply carries the token's `sub` and is the record stored under it |
| UserResolvers.RegisterIdempotent | server/resolvers/users.js:31-43 | a second registration of the same `sub`, at a later time and with other name or email, returns the first call's record and leaves the store as the first call left it |
| UserResolvers.RegisterAsWritten | server/resolvers/users.js:21-46 | `register` as written hands `verifyIdToken` the `token` argument, or `undefined` when no `token` argument is given |
| UserResolvers.RegisterAsWrittenIgnoresToken | server/resolvers/users.js:21-28 | with the schema's arguments, the resolver as written passes `undefined` to the token check; since that is rejected, every registration fails and nothing is stored |
| UserResolvers.RegisterWithArguments | server/resolvers/users.js:21-28 | reading `idToken`, the token that gets verified is the client's |
| UserResolvers.RegisterWithArgumentsVerifiesToken | server/resolvers/users.js:21-43 | an `idToken` the check accepts registers that token's `sub` successfully |
| UserResolvers.UserStore.constructor | server/resolvers/users.js:4 | an empty User collection, keyed by `sub` |
| UserResolvers.UserStore.Register | server/resolvers/users.js:21-46 | the corrected `register`, reading `idToken`: it keeps the store keyed by `sub`, and its new store and reply are exactly those of `RegisterWithArguments` |
| UserResolvers.UserStore.GetUsers | server/resolvers/users.js:11-18 | a lookup failure gives its message; otherwise every stored record is listed exactly once: as many entries as records, each entry stored under its own `sub`, no `sub` twice, every record present |

## Left out

- Network, headers and the API key source: `fetch`, `res.json()` and the `Authorization` header are replaced by the given responses. The API key is a parameter, and the header's access token is only checked for presence through `googleUser`.
- Asynchrony: requests run one after another as the source chains them. Interleaving with other handlers (a logout or reload while pages arrive) is not modelled.
- Client.App.FetchAllSubscriptions: the source has no page ceiling, while the model is bounded by the given responses. When they run out while a token is pending, the outcome is `Pending`, which is a modelling boundary and not a state of the program.
- Subscriptions.Lower: only ASCII `A`-`Z` are lower-cased. JavaScript's `toLowerCase` also maps other Unicode letters, and it may change the length of a string. Titles are sequences of Unicode scalar values; the comparison converts them to UTF-16 code units first (`Subscriptions.Utf16`). So a character above U+FFFF is ordered by its surrogate pair, as in JavaScript. A lone surrogate, which a JavaScript string can hold, cannot occur in a title.
- Subscriptions.SortByTitle: the comparator of line 151 never returns 0, not even for an element compared with itself. So it is not a consistent comparator in the sense of ECMA-262, the ECMAScript standard, for `Array.prototype.sort`. For such a comparator the language leaves the whole order `Array.prototype.sort` produces implementation-defined, not only the order of equal keys. The model assumes the behaviour of engines such as V8. Their TimSort decides each step by whether the comparator's answer is below 0, and so produces a permutation ordered by key. The model states that order (sorted by key, a permutation), computed by insertion sort. Among equal keys, the engine's order may differ from the model's.
- Client.App.OnRegisterCompleted: the server's `register` reply carries no `subscriptions` or `themes`, so the client receives both as null and lines 112-113 store null. The model's `RegisterData` and `App` state hold lists only, so the model does not capture that null. After it, the next page merge (`[...subs, ...data.items]`, lines 150 and 155) would throw on the null list, and the model does not show that failure either.
- Thumbnails and `resourceId` of a subscription carry no behaviour here and are not modelled.
- `console.log` and `console.error` output (lines 153, 161, 164) is not modelled.
- Google ID-token verification (`OAuth2Client.verifyIdToken`) is an oracle parameter. `UserResolvers.RegisterAsWrittenIgnoresToken` relies on it rejecting an absent token.
- Mongoose `find`, `findOne` and `save` are a map keyed by `sub`. No unique index is visible, so concurrent registrations of one `sub` could store two records. Atomicity is not modelled.
- UserResolvers.UserStore.Register: implements the corrected resolver, which verifies the `idToken` argument. The code as written verifies the absent `token` argument, and every registration fails; that version is `UserResolvers.RegisterAsWritten`, and the store class does not run it.
- UserResolvers.UserStore.GetUsers: the order in which `User.find()` returns documents is not modelled.
- The `reloadSubs` mutation's variables (lines 119-122) and the server side of `reloadSubs` are not part of this model; only its completion is.
- The theme resolvers and the rest of the schema in typeDefs.js are not part of this model.

## Findings

| source | as written | input that shows it | evidently intended | confidence | as-written member | corrected member |
|---|---|---|---|---|---|---|
| server/resolvers/users.js:21-25 | the resolver reads its argument `token`, but the schema declares `register(idToken: String!, accessToken: String!)`, so `verifyIdToken` receives `undefined` and every registration fails | arguments `{ idToken: "t", accessToken: "a" }` with any token the check would accept | verify the `idToken` argument | not executed; high, given that the token check rejects a missing token | UserResolvers.RegisterAsWrittenIgnoresToken | UserResolvers.RegisterWithArgumentsVerifiesToken |
