# phage — a Dafny model of the credits ledger and its rules

phage sells simulation credits. It runs a serverless backend in `convex/` and
a React client in `src/`. This project models the parts of it that decide
money, access and what the user is shown:

- **Credits ledger** (`convex/payments.ts`, `convex/http.ts`,
  `convex/schema.ts`). The database is a `Schema.Database` class whose three
  tables are fields. The checkout action (`Payments.CreateCheckoutSession`)
  checks the environment, the credit amount and the user, in that order,
  before it builds a request. It then posts the request with a bounded
  retry loop (`Payments.PostWithRetry`). The three internal mutations and
  the three webhook handlers are methods that change the database. Each
  method is specified by a function on table snapshots, so the lemmas about
  balances talk about those functions.
- **Simulations table** (`convex/simulations.ts`). Creating a simulation needs
  an identity and a name of 1 to 255 characters. Listing and lookup filter
  by owner.
- **Server validators** (`convex/security.ts`): origin and timestamp checks,
  the three-pass `sanitizeInput`, the e-mail regular expression and the
  client-IP choice.
- **Browser hardening** (`src/lib/security.ts`): the CSRF token lookup, the
  default headers, the guarded fetch wrapper, the HTTPS redirect and the
  encoded storage wrapper, which is a class over a `map`.
- **Currencies** (`src/components/CurrencySelector.tsx`): the default list,
  the one-hour rate cache (a class), price conversion and formatting, and
  locale detection.
- **Page rules** (`src/routes/*.tsx`, `src/lib/auth.tsx`, `convex/auth.ts`):
  - pricing and checkout redirects;
  - the simulation form's upload and credit checks;
  - the password policy;
  - the jobs table's counters, filter and pagination line;
  - the viewer toggles;
  - the payment-result page;
  - the authentication context.

JavaScript semantics are written out where they decide a result:
- Numbers are `JsNumber.Num` (finite, NaN or an infinity), with truthiness,
  `||`, `Math.round` and `parseInt`.
- A regular expression with the `g` flag makes a single left-to-right pass.
- A string pattern in `replace` replaces the first occurrence only.
- `trim` uses the ECMAScript whitespace set.

The clock, the network, random values, the browser's encoders and the auth
library's answers are parameters of the members that use them.

The model follows the code, including these behaviours a reader may not
expect:
- `sanitizeInput` is a single pass of each regular expression, so it does
  not remove every handler pattern (see Findings).
- The allowed-origin entry `"*"` is compared with `startsWith`, so it admits
  only origins that begin with `*`.
- The users table declares no `emailVerified` field, so the client always
  shows a stored user as unverified.
- `updateCredits` on the client only logs.
- A webhook delivered twice credits the user twice.

## Model

| member | source | states |
|---|---|---|
| Schema.Database.constructor | convex/schema.ts:4-25 | a fresh database holds the given users and empty transaction and simulation tables |
| Payments.Or | convex/payments.ts:22-29 | an environment value is used when it is set and non-empty, otherwise the fallback |
| Payments.ValidCreditsMeansPositive | convex/payments.ts:30-32 | the credit check passes exactly for finite amounts above zero; NaN and 0 are refused |
| Payments.TenCentsPerCredit | convex/payments.ts:40 | an integer number of credits costs exactly 10 cents each after `Math.round(credits * 10)` |
| Payments.BillingChoices | convex/payments.ts:48-77 | an explicit currency wins; a listed country bills in its currency; an undetected country, or an unlisted one that is not an `Object.prototype` member name, bills in USD; an inherited method name such as "constructor" leaves `billing_currency` out of the body, and "__proto__" sends `{}`; explicit payment methods win; otherwise India gets the UPI list and everyone else cards |
| Payments.PostWithRetry | convex/payments.ts:87-148 | the same request is sent 1 to 3 times; every attempt but the last failed with a retryable error (a 5xx answer or a thrown error); the last is not retryable unless the retries ran out; the result is the last attempt's |
| Payments.SessionOf | convex/payments.ts:149-160 | an OK answer with a body yields its checkout URL and session id; a non-OK answer yields the API error text |
| Payments.CreateCheckoutSession | convex/payments.ts:22-160 | a missing environment, credits that are not positive, and an unknown user are reported in that order, with nothing sent; otherwise every request sent is the one built from the arguments, and the result is the session or the error of the last attempt |
| Payments.AppendOnlyChains | convex/schema.ts:19-25 | appending rows is transitive: two append-only steps make one |
| Payments.LoggedEvent | convex/payments.ts:163-184 | with a user id, a logged event appends one row with amount 0, the credits or 0, and the event type as status; without one nothing changes; no balance changes |
| Payments.StoredTransaction | convex/payments.ts:206-227 | storing appends exactly one row with the dollar amount (cents / 100), the credits, the status and the time |
| Payments.CreditedUser | convex/payments.ts:185-205 | only a positive amount for an existing user changes state; that user's balance becomes the old one (missing as 0) plus the credits; no other user or table changes |
| Payments.LogPaymentEvent | convex/payments.ts:163-184 | the database afterwards is `LoggedEvent` of the database before |
| Payments.ApplyCreditsToUser | convex/payments.ts:185-205 | the database afterwards is `CreditedUser` of the database before |
| Payments.StorePaymentTransaction | convex/payments.ts:206-227 | the database afterwards is `StoredTransaction` of the database before |
| Webhooks.Coalesce | convex/http.ts:16-18 | `??` takes the first value that is present |
| Webhooks.PickUserIdOrder | convex/http.ts:16-18 | the user id is taken from `user_id`, then `userId`, then `customer_id` |
| Webhooks.SucceededRows | convex/http.ts:30-55 | the log and store steps of a succeeded event only append rows |
| Webhooks.OnPaymentSucceeded | convex/http.ts:16-73 | the database afterwards is `SucceededEffect` of the database before, with each failing step skipped as its try/catch does |
| Webhooks.OnPaymentFailed | convex/http.ts:75-112 | the database afterwards is `FailedEffect` of the database before |
| Webhooks.OnRefundSucceeded | convex/http.ts:113-135 | the database afterwards is `RefundEffect` of the database before |
| Webhooks.SucceededWithoutUserChangesNothing | convex/http.ts:25-28 | a succeeded event without any user id leaves every table unchanged |
| Webhooks.SucceededBalances | convex/http.ts:16-73 | a succeeded event only appends rows and changes at most one balance: the picked user's, by exactly the metadata credits, and only when they are finite and positive and the credit step did not fail |
| Webhooks.SucceededStoredRow | convex/http.ts:42-55 | the stored "succeeded" row records the user, the amount in dollars and `credits \|\| 0`, so NaN credits are stored as 0 |
| Webhooks.FailedNeverCredits | convex/http.ts:75-112 | a failed payment changes no balance, adds at most two rows, each recording 0 credits, and does nothing without a user id |
| Webhooks.RefundOnlyLogs | convex/http.ts:113-135 | a refund adds at most one "refund.succeeded" row and changes no balance |
| Webhooks.DoubleDeliveryCreditsTwice | convex/http.ts:16-73 | nothing deduplicates by payment id: the same succeeded event delivered twice adds the credits twice and six rows |
| Simulations.Created | convex/simulations.ts:4-25 | no identity gives "Unauthorized"; an empty name or one longer than 255 characters gives the name error; otherwise exactly one pending row owned by the caller is appended |
| Simulations.CreateSimulation | convex/simulations.ts:4-25 | on error the database is unchanged and the error is returned; on success the new row's id is the old table length and the database is `Created` |
| Simulations.OwnedNewestFirst | convex/simulations.ts:26-40 | the list holds exactly the owner's rows, each under its id, in descending id order |
| Simulations.UserSimulations | convex/simulations.ts:26-40 | an unauthenticated caller gets an empty list |
| Simulations.GetSimulation | convex/simulations.ts:41-55 | a row is returned exactly when the caller is signed in, the id exists and the caller owns it |
| Simulations.CreatedIsVisibleToOwnerOnly | convex/simulations.ts:4-55 | a created simulation is found by its id and heads its owner's list; another user neither finds it nor sees their own list change |
| Simulations.CreateLeavesCredits | convex/simulations.ts:17-23 | creating a simulation changes neither a balance nor the ledger |
| ServerSecurity.OriginOutsideDevelopment | convex/security.ts:3-17 | outside development, an origin passes exactly when it starts with `*` |
| ServerSecurity.OrdinaryOriginRefused | convex/security.ts:3-17 | a normal browser origin is refused outside development |
| ServerSecurity.WildcardAdmitsEveryOrigin | convex/security.ts:3-17 | with `*` read as a wildcard, outside development every non-empty origin passes; development behaviour is unchanged; everything the original admits is still admitted |
| ServerSecurity.NoOriginIsInvalid | convex/security.ts:10 | a missing or empty origin is always refused |
| ServerSecurity.OriginInDevelopment | convex/security.ts:11-13 | in development an origin passes exactly when it contains "localhost" or "127.0.0.1" |
| ServerSecurity.TimestampWindow | convex/security.ts:23-27 | a timestamp passes exactly when it lies strictly within five minutes of now, on either side symmetrically |
| ServerSecurity.StripAnglesChars | convex/security.ts:61 | the first pass keeps only characters of the input and removes every `<` and `>` |
| ServerSecurity.StripAnglesKeepsClean | convex/security.ts:61 | input without angle brackets passes the first pass unchanged |
| ServerSecurity.StripJavascriptChars | convex/security.ts:62 | the second pass only deletes characters |
| ServerSecurity.StripJavascriptUnchanged | convex/security.ts:62 | when the second pass deletes nothing, no case-insensitive "javascript:" occurs anywhere |
| ServerSecurity.WordRun | convex/security.ts:63 | the `\w+` run ends at the first non-word character or at the end |
| ServerSecurity.HandlerMatch | convex/security.ts:63 | an `on\w+=` match is either absent or at least four characters long |
| ServerSecurity.StripHandlersChars | convex/security.ts:63 | the third pass only deletes characters |
| ServerSecurity.StripHandlersUnchanged | convex/security.ts:63 | when the third pass deletes nothing, no handler pattern occurs anywhere |
| ServerSecurity.SanitizeInput | convex/security.ts:59-65 | the result has no angle brackets, is no longer than the input, and starts and ends with non-whitespace |
| ServerSecurity.SinglePassLeavesHandler | convex/security.ts:59-65 | "oonx=nx=" sanitises to "onx=", which is itself a handler match |
| ServerSecurity.StripActiveContent | convex/security.ts:62-63 | repeating both passes until nothing changes leaves no "javascript:" and no handler pattern at any position |
| ServerSecurity.SanitizeInputCorrected | convex/security.ts:59-65 | as `SanitizeInput`, and the result also holds no "javascript:" and no handler pattern |
| ServerSecurity.CorrectedKeepsCleanInput | convex/security.ts:59-65 | on input with nothing to remove, the corrected and the original sanitiser agree and both only trim |
| ServerSecurity.EmailRegexIsShape | convex/security.ts:69-75 | `^[^\s@]+@[^\s@]+\.[^\s@]+$` holds exactly for a non-empty local part, one `@`, and a domain with a dot that has non-empty text on both sides, with no whitespace anywhere |
| ServerSecurity.GetClientIP | convex/security.ts:79-81 | the first forwarded address if non-empty, else the real IP if non-empty, else "unknown" |
| ClientSecurity.CookieName | src/lib/security.ts:39-41 | a cookie's name is the trimmed text before its first `=` |
| ClientSecurity.CookieValue | src/lib/security.ts:39-41 | a cookie without `=` has no value; otherwise the value stops at the next `=` |
| ClientSecurity.FirstIndex | src/lib/security.ts:39-44 | finds the first cookie with the name, or reports that none has it |
| ClientSecurity.CsrfToken | src/lib/security.ts:33-47 | no document gives no token; a meta tag wins (even one without content); otherwise the first XSRF-TOKEN cookie decides |
| ClientSecurity.CookieTokenIsFirstMatch | src/lib/security.ts:39-46 | the cookie token is the decoded value of the first cookie named XSRF-TOKEN, and absent when there is none |
| ClientSecurity.GetCsrfToken | src/lib/security.ts:33-47 | the loop's result is `CsrfToken` |
| ClientSecurity.FindFirst | src/lib/security.ts:39-44 | the loop's result is `FirstIndex` |
| ClientSecurity.FirstIndexAt | src/lib/security.ts:39-44 | a cookie whose name first occurs at k is found at k |
| ClientSecurity.ValueCutAtEquals | src/lib/security.ts:40 | `split("=")` cuts a value at its next `=`, so a base64 value with padding loses the padding |
| ClientSecurity.SecureHeaders | src/lib/security.ts:21-32 | the default headers are exactly the content type, the requested-with header, the request id and the CSRF header, the last only for a non-empty token |
| ClientSecurity.GetSecureHeaders | src/lib/security.ts:21-32 | the headers built are `SecureHeaders` with the page's token |
| ClientSecurity.SecureFetch | src/lib/security.ts:116-151 | a non-HTTPS URL is refused when HTTPS is enforced, with nothing sent; otherwise exactly one request with the defaults overridden by the caller's headers is sent and settled |
| ClientSecurity.Settle | src/lib/security.ts:140-150 | a 403 becomes the CSRF error, an abort the timeout error, any other failure passes its error on, any other answer resolves |
| ClientSecurity.CallerHeadersWin | src/lib/security.ts:123-126 | in the merged headers a caller header overrides a default and the keys are the union |
| ClientSecurity.SecureRedirect | src/lib/security.ts:6-15 | a redirect happens exactly in a window with HTTPS enforced on a non-HTTPS page, to the URL with its first "http:" turned into "https:" |
| ClientSecurity.Stored | src/lib/security.ts:64-72 | setting stores the encoded value under the key, and does nothing without a window or when encoding throws |
| ClientSecurity.Retrieved | src/lib/security.ts:73-83 | a missing or empty entry reads as null; otherwise the entry is decoded |
| ClientSecurity.StorageRoundTrip | src/lib/security.ts:64-83 | reading back a stored non-empty value gives it back; an empty value reads as null |
| ClientSecurity.StorageKeysIndependent | src/lib/security.ts:64-83 | storing under one key leaves every other key's reading unchanged |
| ClientSecurity.SecureStorage.constructor | src/lib/security.ts:63 | the wrapper starts over the given store |
| ClientSecurity.SecureStorage.SetItem | src/lib/security.ts:64-72 | the store afterwards is `Stored` of the store before |
| ClientSecurity.SecureStorage.GetItem | src/lib/security.ts:73-83 | the result is `Retrieved` from the store |
| ClientSecurity.SecureStorage.RemoveItem | src/lib/security.ts:84-87 | in a window the key is removed and nothing else changes |
| ClientSecurity.SecureStorage.Clear | src/lib/security.ts:88-91 | in a window the store is emptied |
| Currency.Find | src/components/CurrencySelector.tsx:224-242 | `find` returns the first currency with the code, or reports that none has it |
| Currency.PickedRates | src/components/CurrencySelector.tsx:89-90 | `conversion_rates` is preferred to `rates`, and an answer with neither gives no rates |
| Currency.WithRate | src/components/CurrencySelector.tsx:91-97 | a merged currency keeps its code, symbol, name and minimum, and takes the live rate only when it is present and non-zero |
| Currency.Merged | src/components/CurrencySelector.tsx:89-97 | the merged list is the default list, entry by entry, with live rates applied |
| Currency.RateCache.constructor | src/components/CurrencySelector.tsx:56-59 | the cache holds the fallback list at time 0, so nothing is served from it before a fetch; the default list is the supported list |
| Currency.RateCache.FetchLiveRates | src/components/CurrencySelector.tsx:67-111 | within the hour of a fetched list nothing is requested and the cached list is returned; otherwise a successful answer is merged and cached with the time, and a failed one gives the defaults and leaves the cache |
| Currency.RateCache.UpdateRates | src/components/CurrencySelector.tsx:121-137 | without a window nothing changes; otherwise the supported list becomes the fetched, cached or default list; a cache hit and a failed request leave the cache and its time alone, and a successful request caches the fetched list at the current time |
| Currency.FetchedListIsReused | src/components/CurrencySelector.tsx:57-76 | a fetched list is served for exactly one hour; the defaults are never served from the cache |
| Currency.MergedKeepsMetadata | src/components/CurrencySelector.tsx:89-97 | merging any answer keeps each default's code, symbol, name and minimum |
| Currency.ConversionRatesPreferred | src/components/CurrencySelector.tsx:89-97 | with `conversion_rates` present, `rates` is ignored; an empty rate map leaves the defaults |
| Currency.ConvertPrice | src/components/CurrencySelector.tsx:224-231 | an unknown code leaves the amount in dollars; a known one multiplies by its rate |
| Currency.ConvertToUsdIsIdentity | src/components/CurrencySelector.tsx:224-231 | converting to USD changes nothing, with the defaults and after merging a USD rate of 1 |
| Currency.ConvertUnknownCode | src/components/CurrencySelector.tsx:224-231 | a code outside the list converts to the dollar amount |
| Currency.FormatPrice | src/components/CurrencySelector.tsx:233-242 | an unknown code is shown in dollars with two decimals; yen is rounded to whole units; every other code uses its symbol and two decimals |
| Currency.FormatWithDefaults | src/components/CurrencySelector.tsx:233-242 | with the default list, yen shows whole yen, rupees two decimals, and an unknown code dollars |
| Currency.FindAt | src/components/CurrencySelector.tsx:225 | a code first listed at position k is found there |
| Currency.CountryCode | src/components/CurrencySelector.tsx:244-250 | a locale without `-` has no country; otherwise the second subtag, upper-cased, is used |
| Currency.DetectUserCurrency | src/components/CurrencySelector.tsx:244-270 | no locale gives USD; a mapped country gives its currency; any other gives USD; the result is always USD or a mapped currency |
| Currency.RegionDecides | src/components/CurrencySelector.tsx:244-250 | in a language-region locale the region decides the currency |
| Currency.ScriptSubtagFallsBack | src/components/CurrencySelector.tsx:244-270 | "zh-Hant-TW" reads the script subtag as the country and falls back to USD |
| Pricing.ShownPriceIsCharged | src/routes/pricing.tsx:92-95 | the dollar cost shown for n credits is the amount the checkout action charges, 10 cents a credit |
| Pricing.CountryFromCurrency | src/routes/pricing.tsx:98-111 | a listed currency maps to its country and any other to "US" |
| Pricing.CountryMapsBack | src/routes/pricing.tsx:98-111 | for every listed currency, the backend's country table (with its USD default) maps the country sent back to the same currency |
| Pricing.ButtonGuardsAmountCheck | src/routes/pricing.tsx:427 | the buy button is disabled while loading and, otherwise, exactly for zero or fewer credits, so an enabled button always passes the handler's amount check |
| Pricing.CustomAmountReads | src/routes/pricing.tsx:408-413 | a typed decimal number is read as itself; text with no leading digits is read as 0 |
| Pricing.ReturnToast | src/routes/pricing.tsx:59-68 | "succeeded" or "success" shows the success toast; "failed" or "cancel" shows the failure toast; anything else shows nothing |
| Pricing.PricingPage.constructor | src/routes/pricing.tsx:43-46 | the page starts at 1000 credits in the detected currency, not loading |
| Pricing.PricingPage.SelectOption | src/routes/pricing.tsx:71-90 | clicking an option selects its credits and nothing else |
| Pricing.PricingPage.OnCustomAmount | src/routes/pricing.tsx:408-413 | a non-negative typed amount replaces the selection; a negative one is ignored |
| Pricing.PricingPage.OnCurrencyChange | src/routes/pricing.tsx:262 | changing currency changes only the currency |
| Pricing.PricingPage.HandleBuyCredits | src/routes/pricing.tsx:113-153 | signed out gives a sign-in toast and no call; zero or fewer credits gives a toast and no call; otherwise one call with the selection and the settled redirect or toast, and loading ends false; a signed-in click on an enabled button always makes the call |
| Pricing.Settled | src/routes/pricing.tsx:136-150 | a non-empty checkout URL redirects and adds no toast; an answer without one shows the "Checkout link missing" error; a thrown error shows its message, or "Could not start checkout. Please try again." for a value that is not an Error |
| Pricing.RedirectOnlyToCheckoutLink | src/routes/pricing.tsx:136-150 | the page only navigates to a checkout URL the action returned |
| Simulate.Extension | src/routes/simulate.tsx:49-69 | the extension is the lower-cased name from its last dot, or the whole lower-cased name without a dot |
| Simulate.CheckFile | src/routes/simulate.tsx:49-69 | too large exactly above 10 MB; accepted exactly when small enough and the extension is ".pdb" for a protein or ".sdf" for a ligand |
| Simulate.ExtensionIgnoresCase | src/routes/simulate.tsx:57 | the extension of "base.EXT" is "." followed by the lower-cased three letters |
| Simulate.UploadByExtension | src/routes/simulate.tsx:49-69 | a file of allowed size is accepted exactly by its lower-cased extension; one byte over the limit is too large |
| Simulate.UpperCaseProtein | src/routes/simulate.tsx:49-69 | "x.PDB" is accepted as a protein file |
| Simulate.NoDotRejected | src/routes/simulate.tsx:57-62 | a name without a dot is the wrong type |
| Simulate.SimulationTimeReads | src/routes/simulate.tsx:253-257 | an empty or zero field reads as 1; a positive decimal reads as itself |
| Simulate.CheckSubmit | src/routes/simulate.tsx:85-102 | signed out, then no protein file, then `(credits \|\| 0) < creditsNeeded`, are refused in that order; otherwise the job proceeds |
| Simulate.CreditCheckExamples | src/routes/simulate.tsx:96-102 | NaN credits proceed only for jobs costing nothing; exactly enough credits proceed; one short is refused |
| Simulate.SimulateForm.constructor | src/routes/simulate.tsx:27-44 | the form starts with the documented defaults and no files |
| Simulate.SimulateForm.EquilibrationPayload | src/routes/simulate.tsx:112-123 | the equilibration settings are sent only when enabled |
| Simulate.SimulateForm.HandleFileUpload | src/routes/simulate.tsx:49-69 | an accepted file is stored in its slot with the "Protein/Ligand file uploaded successfully" toast; a refused one leaves both slots and shows the size or type toast; no other form field changes |
| Simulate.SimulateForm.OnSimulationTime | src/routes/simulate.tsx:253-257 | the field sets the simulation time, and the credits needed equal it; the files, the other settings, the submitting flag and the toasts are unchanged |
| Simulate.SimulateForm.SubmitPayload | src/routes/simulate.tsx:105-127 | the create call carries the title, the simulation time as duration and as credits used, the protein file's name, the ligand file's name exactly when there is one, the temperature, the timestep, the "NVT" ensemble and the equilibration payload |
| Simulate.SimulateForm.HandleSubmit | src/routes/simulate.tsx:85-137 | each refusal shows its toast and makes no call; a job that proceeds is created once with the payload of the form as it was before the click, is followed by a success or an error toast, and submitting ends false; no form field changes |
| AuthForm.SpecialCharsAreTheClass | src/routes/auth.tsx:58-60 | the special-character class is exactly the listed symbols |
| AuthForm.Requirements | src/routes/auth.tsx:52-61 | five requirements, in order: 12 characters, an upper-case letter, a lower-case letter, a digit, a special character |
| AuthForm.AllRequirementsMetIff | src/routes/auth.tsx:63 | the password is accepted exactly when all five hold |
| AuthForm.OtherSymbolsAreNotSpecial | src/routes/auth.tsx:58-63 | tilde, back-quote and space do not count as special |
| AuthForm.AppendKeepsRequirements | src/routes/auth.tsx:52-63 | typing more characters never unmeets a requirement |
| AuthForm.SubmitRule | src/routes/auth.tsx:215 | loading disables submit; sign-in ignores the policy; sign-up is enabled exactly for a conforming password |
| AuthForm.ExamplePasswords | src/routes/auth.tsx:52-63 | "Abcdefghij1!" passes and "Abcdefghij1~" fails |
| AuthForm.HandleSubmit | src/routes/auth.tsx:38-50 | the form calls sign-up or sign-in, and navigates to "/" exactly when the action did not throw |
| Jobs.CountStatus | src/routes/jobs.tsx:307-323 | a status count never exceeds the number of jobs |
| Jobs.StatusCounts | src/routes/jobs.tsx:307-323 | before the query answers all counters are 0; afterwards `all` is the number of jobs and each status counter counts its jobs |
| Jobs.CountersPartition | src/routes/jobs.tsx:307-323 | each job lands in at most one status counter, so their sum is the number of tracked jobs and at most `all` |
| Jobs.UntrackedOnlyInAll | src/routes/jobs.tsx:313-321 | a job in any other status raises `all` only |
| Jobs.Filtered | src/routes/jobs.tsx:172-174 | the table keeps exactly the rows whose status is selected (all rows without a status filter) and that match the search box (all rows for an empty box) |
| Jobs.SearchOnlyNarrows | src/routes/jobs.tsx:436-442 | text in the search box only hides rows: the table never shows more than the status filter alone keeps |
| Jobs.SinglePillShowsItsCount | src/routes/jobs.tsx:172-323 | with an empty search box, filtering to one status shows as many rows as its counter |
| Jobs.ClickPill | src/routes/jobs.tsx:375-380 | "all" clears the filter; any other pill selects only itself |
| Jobs.ClickedPillIsTheActiveOne | src/routes/jobs.tsx:360-380 | after a click, the clicked pill is the only highlighted one; the table shows the number on it when the search box is empty, and never more than that number otherwise |
| Jobs.ProgressShown | src/routes/jobs.tsx:177-217 | a running job shows its progress or 0; a completed job 100; anything else 0 |
| Jobs.RunningWithoutProgress | src/routes/jobs.tsx:177-217 | a running job without progress, or with 0 or NaN, shows 0 |
| Jobs.PageRows | src/routes/jobs.tsx:300-304 | a page holds the rows from index × size up to the next page or the end |
| Jobs.RangeMatchesPage | src/routes/jobs.tsx:529-539 | on a page that holds rows, "Showing a to b" names exactly the positions of the rows shown |
| Jobs.DefaultFirstPage | src/routes/jobs.tsx:300-304 | the default of ten rows is one of the page-size choices, every choice is positive, and the first page of a long table shows rows 1 to 10 |
| Jobs.EmptyListRange | src/routes/jobs.tsx:529-539 | an empty table reads "Showing 1 to 0 of 0" |
| Viewer.NextRepr | src/routes/index.tsx:341-350 | the representation button always changes the representation |
| Viewer.NextColor | src/routes/index.tsx:364-373 | the colour button always changes the scheme |
| Viewer.ReprCycleFromStart | src/routes/index.tsx:341-350 | from "cartoon", the n-th press shows cartoon, ball-and-stick or surface by n modulo 3 |
| Viewer.ColorCycleFromStart | src/routes/index.tsx:364-373 | from "chain", the n-th press shows chain, element or rainbow by n modulo 3 |
| Viewer.PeriodThree | src/routes/index.tsx:341-373 | both toggles return after exactly three presses, and never after one or two |
| Viewer.BallAndStickLabel | src/routes/index.tsx:355 | the label replaces only the first hyphen: "ball and-stick" |
| Viewer.PlainLabels | src/routes/index.tsx:355 | the other representations are shown as named |
| Viewer.LabelOf | src/routes/index.tsx:355 | the three representation labels are "cartoon", "ball and-stick" and "surface" |
| Viewer.LabelsTellStatesApart | src/routes/index.tsx:353-377 | each button's label identifies its state: different representations or schemes never share a label |
| Viewer.ViewerControls.constructor | src/routes/index.tsx:49-54 | the viewer starts at cartoon and chain |
| Viewer.ViewerControls.ToggleRepresentation | src/routes/index.tsx:341-350 | the representation steps once, and the viewer, when mounted, receives the new value; colour is untouched |
| Viewer.ViewerControls.ToggleColor | src/routes/index.tsx:364-373 | the scheme steps once, and the viewer, when mounted, receives the new value; the representation is untouched |
| Success.OnlyFailedFails | src/routes/success.tsx:46-48 | only "failed" shows the failure view; an array is judged by its first element; absent, empty and "cancel" show success |
| Success.ActionLinks | src/routes/success.tsx:206-228 | failure links to pricing and contact; success to simulate and jobs |
| Success.LinksSeparateViews | src/routes/success.tsx:206-228 | the two views never share a button target |
| Success.SessionIdShown | src/routes/success.tsx:256-258 | the first array element, a non-empty string, or "N/A"; an empty array shows nothing |
| Success.RepeatedSessionId | src/routes/success.tsx:256-258 | a repeated session id shows its first value, like a single one |
| AuthContext.GetCurrentUser | convex/auth.ts:11-19 | a user is returned exactly for a session whose row exists, and it is that row |
| AuthContext.Project | src/lib/auth.tsx:35-46 | the client user copies the id, takes empty strings for missing names and e-mails, drops an empty image, and reads missing credits as 0 |
| AuthContext.Provide | src/lib/auth.tsx:34-46 | loading exactly while the query is pending; a user exactly when one was loaded |
| AuthContext.StoredUserProjection | src/lib/auth.tsx:35-46 | a signed-in user from the users table is shown unverified, with the stored balance or 0 |
| AuthContext.SignedOutProjection | src/lib/auth.tsx:34-46 | without a session the page is neither loading nor signed in |
| AuthContext.DebitIsInvisible | src/lib/auth.tsx:96-98 | after a client-side debit the balance shown is still the server's |
| AuthContext.SignInReport | src/lib/auth.tsx:48-64 | success shows "Welcome back!" with the e-mail; failure shows the error message or the fallback, and rethrows |
| AuthContext.SignUpReport | src/lib/auth.tsx:66-80 | success shows "Account created!" with the name; failure shows the message or the fallback, and rethrows |
| AuthContext.SignOutReport | src/lib/auth.tsx:82-94 | success shows "Signed out"; failure shows a fixed text, and rethrows |
| AuthContext.ReportsMatchOutcome | src/lib/auth.tsx:48-94 | each action shows an error toast exactly when it rethrows |
| Strings.ReplaceFirst | src/routes/index.tsx:355 | a string pattern is replaced at its first occurrence only |
| Strings.Split | src/lib/security.ts:39-41 | the first piece of `split` is the text before the separator, and there is more than one piece exactly when the separator occurs |
| Strings.Trim | convex/security.ts:64 | `trim` leaves a piece of the input, no longer than it, that neither starts nor ends with whitespace; an input with no whitespace at either end comes back unchanged |
| Strings.TrimCutsOnlyWhitespace | convex/security.ts:64 | everything `trim` cuts off, at the start and at the end, is ECMAScript whitespace |
| JsNumber.ParseIntDecimal | src/routes/pricing.tsx:409 | `parseInt` reads a decimal numeral back as its value |
| JsNumber.RoundInteger | convex/payments.ts:40 | `Math.round` leaves an integer unchanged |

## Left out

- The clock, random request ids, nonces, idempotency keys and the network are parameters. Retry sleeps, back-off jitter and the abort timers are not modelled; only their outcomes are.
- Floating-point rounding is not modelled. Amounts are reals, and `toFixed` and `toLocaleString` formatting is kept as digit-string placeholders.
- `Number(...)` conversion of webhook metadata is given by the payload; only its outcome (finite or NaN) is modelled.
- Case mapping is ASCII only, and string length counts code points, not UTF-16 units.
- `decodeURIComponent`, `btoa`/`atob` and `JSON.stringify` are parameters. Decoding is treated as total.
- `Headers` objects are maps with exact-case keys.
- Webhook atomicity and concurrent deliveries are not modelled: each handler runs alone.
- Rendering, routing, animations and the rest of the UI are not modelled.
- Console logging is not modelled.
- Several server functions do no work in the source and are not modelled: `checkRateLimit` and `logSecurityEvent` in convex/security.ts, and the security-log query.
- convex/results.ts, convex/todos.ts, convex/contact.ts, convex/emails.ts, convex/actions.ts and the vendor wrappers (convex/dodo.ts, src/lib/convex.tsx, src/lib/auth-server.ts) are not part of this model.
- `getSecurityHeaders` and `generateNonce` in convex/security.ts are not modelled. They return constants or random text.
- The unused `_sanitizeInput` and `_isValidRedirectUrl` helpers and `initSecurityMonitoring` in src/lib/security.ts are not modelled.
- The table library's sorting (the default is newest first by `createdAt`), page-index reset and `setPageSize` internals are not modelled. Only the defaults, the filter, the page slice and the range line are.
- Schema validation failures (zod and Convex argument validators) are not modelled. Inputs are assumed well-typed.
- Simulate.SimulateForm.HandleSubmit: the create call's success is a parameter, because the client sends fields the server's argument validator does not declare. For the insufficient-credits refusal only the toast-then-navigate-to-pricing effects are stated; the toast's text interpolates the balance and the cost, and JavaScript's number-to-text conversion is not modelled.
- Jobs.Filtered: the table library's global-filter test of a row against the search text is a parameter; only an empty search text is known to keep every row.
- Pricing.PricingPage.HandleBuyCredits: the action's answer is a parameter and is not tied to Payments.CreateCheckoutSession, which runs on the server.
- Currency.FormatPrice: the digits are a value recording the amount and the rounding applied, not a string, because `toFixed` and locale number formatting are not modelled.

## Findings

| source | as written | input that shows it | evidently intended | confidence | as-written member | corrected member |
|---|---|---|---|---|---|---|
| convex/security.ts:59-65 | each of the three `replace` calls makes one pass, so removing a match can join its neighbours into a new match | "oonx=nx=" becomes "onx=", which still matches `on\w+=` | no "javascript:" and no `on\w+=` remains in the sanitised text | not executed | ServerSecurity.SinglePassLeavesHandler | ServerSecurity.SanitizeInputCorrected |
| convex/security.ts:3-17 | `"*"` in `allowedOrigins` is compared with `===` and `startsWith`, so outside development only origins beginning with `*` pass | "https://example.com" is refused outside development | `"*"` admits every origin | not executed | ServerSecurity.OrdinaryOriginRefused | ServerSecurity.WildcardAdmitsEveryOrigin |
