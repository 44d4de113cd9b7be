# Bundle detection and route guard, modelled in Dafny

This project models the three decision procedures at the core of the
repository and proves what they promise:

- **Temporal bundle clusterer** (`temporal_clusterer.dfy`, module
  `TemporalClusterer`): `analyzeTransactions` walks a mint's signature list
  in the order the ledger client returned it. Adjacent signatures whose block
  times differ by at most 1000 accumulate into a run. A larger gap closes the
  run, and a closed run of two or more signatures becomes a bundle. Each
  bundle is then resolved against the transaction bodies: its distinct first
  signers (fee payers), a timestamp, and statistics the code leaves at zero.
  The loop is a method proved against a specification function `Scan` over
  indices. The emitted runs are also characterised independently, as the
  blocks of linked indices between consecutive splits (`Block`).
- **Holder-concentration detector** (`holder_bundles.dfy`, module
  `HolderBundles`): `identifyBundles` turns every top holder that owns more
  than 1% of the supply into a record, keeping the first concentrated
  holding per owner. It sorts the records by supply share, largest first,
  and sums them into a `MintBundleAnalysis`.
- **Route guard** (`route_guard.dfy`, module `RouteGuard`): the request
  middleware. Public pages, static assets and OAuth callbacks pass through.
  Other requests are decided by the `privy-token` and `privy-session`
  cookies: pass with four security headers, redirect to `/refresh`, or
  redirect to `/`, each redirect carrying `redirect_uri`. A cookie store that
  throws leads to the error page.

Two small support modules: `Optional` (`optional.dfy`, the `Option`
datatype) and `Text` (`text.dfy`, ASCII lower-casing, suffix and substring
tests).

External calls are inputs. The signature list is a sequence of
`SignatureInfo`. `getTransaction` is a lookup in a `map` from signature to
`Transaction`, where a missing key stands for `null`. `getMintAccountInfo` and
`getHoldersClassification` are `Option` values, where `None` stands for a call
that throws. `Date.now()` is the parameter `now`. The request's cookies are a
map, or `Unreadable` when the lookup throws.

Behaviour of the code that the model keeps as written:

- Holder balances are compared with the decimal-scaled supply without being
  scaled by the mint's decimals themselves.
- The clustering window is `> 1000` on `blockTime` values, which are Unix
  timestamps in seconds, so the window is 1000 seconds. The comment at
  src/features/bundle-checker/utils/analyzeTransactions.ts:13 calls it a
  1-second window; the model follows the comparison.
- A bundle's timestamp is the block time of the first fetched body, or 0.
- A fetched body with an empty key list makes the whole analysis fail.
- Records are ranked by supply share alone; records with equal shares keep
  their relative order.
- The temporal and holder detectors are independent of each other.

## Model

| member | source | states |
|---|---|---|
| TemporalClusterer.GroupSignatures | src/features/bundle-checker/utils/analyzeTransactions.ts:13-31 | the loop returns, in order, the signatures of exactly the runs of the specification `Runs`, each of two or more signatures |
| TemporalClusterer.ScanInvariant | src/features/bundle-checker/utils/analyzeTransactions.ts:17-31 | after n iterations the open run is the linked indices since the last split; every emitted run is a closed block; every closed block of two or more indices so far is emitted; runs are ordered and lie before the open run |
| TemporalClusterer.RunsAreClosedBlocks | src/features/bundle-checker/utils/analyzeTransactions.ts:25-28 | every emitted run is a block of linked indices ended by a split, with at least two signatures |
| TemporalClusterer.ClosedBlocksAreEmitted | src/features/bundle-checker/utils/analyzeTransactions.ts:25-29 | conversely, every block of two or more indices that a split closes is emitted |
| TemporalClusterer.TogetherOnlyIf | src/features/bundle-checker/utils/analyzeTransactions.ts:17-31 | two indices share a bundle only if both pairs are linked, no split lies between them and a split follows |
| TemporalClusterer.TogetherIf | src/features/bundle-checker/utils/analyzeTransactions.ts:17-31 | two linked indices with no split between them and a split after them share a bundle |
| TemporalClusterer.MissingTimeSkipsPair | src/features/bundle-checker/utils/analyzeTransactions.ts:21 | a pair whose block time is absent or 0 on either side leaves the loop state unchanged |
| TemporalClusterer.WindowIsInclusive | src/features/bundle-checker/utils/analyzeTransactions.ts:13-25 | a gap of exactly 1000 keeps a pair together, a gap of 1001 splits it |
| TemporalClusterer.FinalSignatureNeverBundled | src/features/bundle-checker/utils/analyzeTransactions.ts:17-23 | every bundled index has a successor: the last signature is never in a bundle |
| TemporalClusterer.OpenRunDropped | src/features/bundle-checker/utils/analyzeTransactions.ts:29-31 | the run still open when the loop ends shares no index with any emitted run |
| TemporalClusterer.ShortListHasNoBundles | src/features/bundle-checker/utils/analyzeTransactions.ts:17 | fewer than two signatures give no bundles |
| TemporalClusterer.RunsOrdered | src/features/bundle-checker/utils/analyzeTransactions.ts:14-30 | each run lies wholly before the next, so the runs are pairwise disjoint |
| TemporalClusterer.RunsFormSubsequence | src/features/bundle-checker/utils/analyzeTransactions.ts:14-30 | the runs concatenated are strictly increasing indices: a subsequence of the input in input order |
| TemporalClusterer.FetchAll | src/features/bundle-checker/utils/analyzeTransactions.ts:36-38 | the fetch results line up one to one with the bundle's signatures |
| TemporalClusterer.FirstSigners | src/features/bundle-checker/utils/analyzeTransactions.ts:43-45 | a wallet is listed iff it is the first account key of some fetched body; absent bodies are skipped |
| TemporalClusterer.Distinct | src/features/bundle-checker/utils/analyzeTransactions.ts:40-45 | the set's iteration order: no duplicates, and exactly the elements of the input |
| TemporalClusterer.CollectWallets | src/features/bundle-checker/utils/analyzeTransactions.ts:40-47 | fails iff some fetched body has no account key; otherwise the distinct first signers in first-seen order |
| TemporalClusterer.Timestamp | src/features/bundle-checker/utils/analyzeTransactions.ts:56 | the first fetched body's block time, and 0 when that body or its time is absent |
| TemporalClusterer.ResolveBundle | src/features/bundle-checker/utils/analyzeTransactions.ts:35-60 | fails iff a fetched body has no key; otherwise transactions are the run, wallets distinct, uniqueWallets their count, supply, SOL and holdings 0 |
| TemporalClusterer.AnalyzeTransactions | src/features/bundle-checker/utils/analyzeTransactions.ts:34-63 | one resolved bundle per emitted run, in order, or none when resolving any run fails |
| HolderBundles.TotalSupply | src/server/actions/bundle.ts:34 | a positive supply scaled down by 10 to the power of the decimals |
| HolderBundles.IsPumpfun | src/server/actions/bundle.ts:59 | true iff a classification is present and its lower-cased form contains "pumpfun" |
| HolderBundles.IsPumpfunIgnoresCase | src/server/actions/bundle.ts:59 | the flag does not depend on the label's letter case |
| HolderBundles.IsPumpfunExamples | src/server/actions/bundle.ts:59 | "PumpFun AMM" is flagged; "pump fun" and an absent label are not |
| HolderBundles.StatsFor | src/server/actions/bundle.ts:53-61 | share times supply equals balance times 100, the share exceeds 1 iff the holder is concentrated, and owner, holdings, SOL, wallet count, flag and time are as listed |
| HolderBundles.SelectOwnersDistinct | src/server/actions/bundle.ts:44-64 | no owner gets two records, and no processed owner gets one |
| HolderBundles.SelectOwnerIff | src/server/actions/bundle.ts:46-65 | an owner gets a record iff it was unprocessed and one of its holdings is concentrated; an earlier small holding does not block it |
| HolderBundles.SelectRecordsFromFirstConcentrated | src/server/actions/bundle.ts:46-65 | each record comes from its owner's first concentrated holding and has a share above 1% |
| HolderBundles.SelectHolders | src/server/actions/bundle.ts:43-66 | the holder loop yields the selected records, with distinct owners, shares above 1% and one wallet each |
| HolderBundles.Insert | src/server/actions/bundle.ts:71 | inserting adds exactly one element and keeps a list sorted by descending share |
| HolderBundles.SortByShare | src/server/actions/bundle.ts:71 | the result is sorted by descending share and is a permutation of the input |
| HolderBundles.SortKeepsSortedInput | src/server/actions/bundle.ts:71 | an already sorted list is returned unchanged |
| HolderBundles.SumsOfAppend | src/server/actions/bundle.ts:76-77 | the two folds distribute over concatenation |
| HolderBundles.SortKeepsTotals | src/server/actions/bundle.ts:71-77 | sorting does not change the SOL or wallet totals |
| HolderBundles.WalletTotalIsCount | src/server/actions/bundle.ts:77 | when every record has one wallet the wallet total is the record count |
| HolderBundles.IdentifyBundles | src/server/actions/bundle.ts:27-87 | none iff a fetch fails; otherwise the bundles are the selected records sorted by share, with count and sums as totals, wallet total equal to count, and the largest bundle first or absent when empty |
| Text.Lower | src/middleware.ts:58 | same length, each upper-case ASCII letter lowered, no upper-case letter left |
| Text.Contains | src/server/actions/bundle.ts:59 | true iff the text occurs at some position |
| RouteGuard.EndsWithAny | src/middleware.ts:58 | true iff some listed extension is a suffix |
| RouteGuard.IsPublicPath | src/middleware.ts:56-59 | true iff the path is one of the four pages, or its lower-cased form ends with one of the ten extensions |
| RouteGuard.NoAssetSuffix | src/middleware.ts:12-23 | a path whose last character ends no extension matches none of them |
| RouteGuard.PublicPageExamples | src/middleware.ts:6-11 | "/" and "/maintenance" are public |
| RouteGuard.DashboardIsPrivate | src/middleware.ts:56-59 | "/dashboard" is not public |
| RouteGuard.TrailingSlashIsPrivate | src/middleware.ts:56-59 | pages match exactly: "/refresh/" is not public |
| RouteGuard.UpperCaseAssetIsPublic | src/middleware.ts:58 | "/Logo.PNG" is public: extensions match in any letter case |
| RouteGuard.IsPrivyOAuth | src/middleware.ts:66-72 | true iff one of the three OAuth parameters is present and non-empty |
| RouteGuard.HandleAuthentication | src/middleware.ts:99-124 | success iff the auth token is non-empty; otherwise redirect to the refresh page when the session is non-empty, else to the login page |
| RouteGuard.AuthTokenWins | src/middleware.ts:104-123 | a non-empty auth token succeeds whatever the session cookie holds |
| RouteGuard.ResponseHeaders.constructor | src/middleware.ts:151 | a fresh response has no headers |
| RouteGuard.ResponseHeaders.Set | src/middleware.ts:152-155 | setting a header changes that entry and no other |
| RouteGuard.SecurityHeadersExact | src/middleware.ts:152-155 | exactly four security headers, with the listed values |
| RouteGuard.Middleware | src/middleware.ts:80-162 | public paths and OAuth callbacks pass with no headers; an unreadable cookie store leads to the error page; otherwise the cookies decide between the security headers, the refresh page and the login page; every redirect carries the original path as `redirect_uri` and the no-cache headers |

## Left out

- Network calls (`getSignaturesForAddress`, `getTransaction`, `getMintAccountInfo`, `getHoldersClassification`, `new PublicKey`) are inputs. `Promise.all` is an order-preserving map with no concurrency.
- A `getTransaction` call that rejects is not modelled: a missing ledger entry resolves to `null`, as an unindexed transaction does.
- The React `cache` wrapper around `identifyBundles` is framework memoization with no time-to-live in the code.
- `Date.now()` is one `now` value shared by all records of one analysis.
- HolderBundles.IdentifyBundles: requires a positive supply. IEEE-754 behaviour is not modelled: with a zero supply the code divides by zero, producing Infinity or NaN. Amounts are exact reals, with no rounding.
- HolderBundles.SortByShare: models the in-place `Array.prototype.sort` as a pure function on values. It reproduces the stable order that ECMAScript 2019 requires, but does not capture the update of the array in place.
- Text.Lower: lowers ASCII letters only; `toLowerCase` on other Unicode letters is not modelled.
- RouteGuard.Middleware: an exception from URL construction against `NEXT_PUBLIC_APP_URL` is not modelled. Only a throwing cookie lookup reaches the error branch.
- The route-matcher regex, `NextResponse` internals and all console logging are framework details.
- The `error` text of a failed authentication is only logged. The model keeps it, but no contract reads it.
- UI components, hooks, Prisma and Privy glue, the Telegram and price wrappers, and the build configuration hold no decision logic.
