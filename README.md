# Trading-signal app: a verified model of its screens and cards

This is a model of a React Native trading-signal app backed by Supabase. Community
owners post BUY/SELL signals (asset, market, entry, optional take-profit and
stop-loss, FREE or VIP) to their community and later mark each pending signal as a win
or a loss. Users follow or subscribe to communities. Their home feed shows the signals
of those communities a page at a time. A VIP signal of a community the user does not
subscribe to is shown locked. A discover screen lists approved communities with their
stats and filters the list by market and by a search text.

The model covers:

- the launch router;
- the owner's dashboard and community screens;
- the signal history;
- the subscriber roster and its statistics;
- the community settings and onboarding forms;
- the new-signal form;
- the user home feed and the discover screen;
- the five cards: owner signal card, unlocked card, locked card, community card and
  subscriber card.

How the model is built:

- Pure display logic (colours, badges, relative times, tiers, filters, validation)
  is `function`s with named results and contracts. Lemmas prove what those
  functions promise across inputs.
- A screen whose state React updates step by step is a `class` whose fields are the
  state variables. Each handler is a `method` with a `modifies` clause, and its
  `ensures` states the whole new state.
- An async fetch is split into its synchronous start (the loading flags) and its
  continuation after the store answered.
- The Supabase tables are the class `Store.Database`. Each query or write the screens
  issue is a method there, and a network or server failure is a `fails` parameter.
  The store's answers to reads (rows, counts, errors) are parameters of the screen
  method that receives them.
- The clock (`now`, `today`) and the local calendar are parameters.

Modules:

- `Types`: the records of `types/*.ts`.
- `Seqs`: filtering and de-duplication of lists.
- `Arith`: `Math.round` and `Math.ceil` as exact integer division.
- `Text`: trim (over the white space and line terminators of ECMAScript), ASCII case mapping, substring search.
- `Numbers`: JavaScript `Number(text)` on decimal text.
- `Paging`: `.range(from, to)` pages.
- `Store`, `SignalDisplay` and `SignalLists`: shared by the screens (the store tables,
  what the three signal cards share, and the `prev.map(...)` status update).
- One module per screen or component: `Launch`, `Dashboard`, `MyCommunity`,
  `SignalHistory`, `Subscribers`, `CommunitySettings`, `OnboardingCommunity`,
  `NewSignalForm`, `UserHome`, `Discover`, `SignalCard`, `UserSignalCard`,
  `LockedSignalCard`, `CommunityCard`, `SubscriberCard`, `MarketPicker`.

Behaviour of the code that the model keeps as written:

- A signal card that loses the conditional-update race, because another session
  resolved the signal first, gets no error back and does not refetch: it keeps
  showing its own result and tells its parent. `SignalCard.LosingCardShowsItsOwnResult`
  and `SignalLists.LostRaceBreaksSnapshot` prove what that costs.
- A subscription's status is the stored column. The subscriber card computes the
  days left from the end date separately, so the two can disagree
  (`SubscriberCard.StoredStatusAndDatesCanDisagree`).
- The discover query filters on the stored status `"active"`, which is the approved
  state. A new community is inserted as `"pending"`. Both are modelled as
  `CommunityStatus`.
- The new-signal screen reads `MARKET_ASSETS` from `types/market.ts`, but the file
  shown there does not define it. It is a parameter of the form (`AssetCatalog`).
  An empty list leaves the asset undefined (`None`).

Quirks of the code that are proved as lemmas rather than corrected:

- The search text is lowered but not trimmed, so a trailing space stops a community's
  exact name from matching it (`Discover.TrailingSpaceDefeatsExactName`).
- The settings form sends the price on every save when the stored price is null. An
  untouched form then writes 0 (`CommunitySettings.NullPriceIsAlwaysSent`).
- The settings save deletes the market rows before inserting the new ones. A failed
  insert leaves the community with no markets
  (`CommunitySettings.FailedInsertLeavesNoMarkets`).
- Onboarding validation does not trim, so a name of one space passes
  (`OnboardingCommunity.BlankNamePasses`).
- A blank entry price posts 0 (`NewSignalForm.BlankEntryPostsZero`).

## Model

| member | source | states |
|---|---|---|
| Seqs.Keep | app/user/home.tsx:153-160 | `filter`: a sub-list of the input holding exactly the elements that satisfy the predicate |
| Seqs.KeepCommutes | app/user/discover.tsx:141-155 | two successive filters may be applied in either order with the same list as result |
| Seqs.Distinct | app/user/home.tsx:71-73 | `[...new Set(ids)]`: the same members as the input, no duplicates, never longer |
| Seqs.DistinctOfDistinct | app/user/home.tsx:71-73 | de-duplicating a duplicate-free list leaves it unchanged |
| Arith.RoundDiv | app/community/dashboard.tsx:118-122 | `Math.round(n / d)` for d > 0: the result is within one half of n/d, ties rounding up |
| Arith.Percent | app/community/subscribers.tsx:94-97 | a percentage of the exact quotient, rounded: between 0 and 100 for a part of the whole, 100 for the whole, 0 for nothing |
| Arith.CeilDiv | components/SubscriberCard.tsx:26 | `Math.ceil(n / d)`: the least r with n <= r * d |
| Text.TrimShape | components/SubscriberCard.tsx:54 | `trim()` yields a slice of the input with only white space cut from either end, and it neither starts nor ends with white space |
| Text.TrimEmptyIffBlank | app/user/discover.tsx:147 | `!s.trim()` holds exactly when s is all white space |
| Text.Lower | app/user/discover.tsx:149 | `toLowerCase()` maps each character and keeps the length |
| Text.Upper | components/UserSignalCard.tsx:117 | `toUpperCase()` maps each character and keeps the length |
| Text.LowerIdempotent | app/user/discover.tsx:149-153 | lowering twice is lowering once |
| Text.Contains | app/user/discover.tsx:152-153 | `includes(n)` holds exactly when n occurs at some position of the text |
| Numbers.ParseNumber | app/community/profile/community-settings.tsx:89 | `Number(text)` on decimal text: blank text is 0, and the result is NaN (`None`) exactly when the trimmed text is non-blank and not a signed decimal (digits with at most one point and at least one digit, after at most one sign) |
| Numbers.UnsignedValueDefined | app/community/profile/community-settings.tsx:89 | the unsigned reading succeeds exactly on the unsigned decimals of the grammar, "1." and ".5" included |
| Numbers.ParseWhole | app/community/my-community/new-signals.tsx:117 | `Number` of a run of digits is the number they spell |
| Numbers.ParsePointed | app/community/my-community/new-signals.tsx:117-119 | `Number(w + "." + f)` is w plus f tenths, hundredths, ... (either part may be empty, not both) |
| Numbers.ParseNegativePointed | app/community/my-community/new-signals.tsx:117-119 | a leading `-` negates that value |
| Numbers.ParsePlusPointed | app/community/my-community/new-signals.tsx:117-119 | a leading `+` keeps that value |
| Numbers.ParseIgnoresSurroundingSpace | app/community/profile/community-settings.tsx:89 | `Number` reads the trimmed text: the white space around a numeral changes nothing |
| Numbers.DecimalText | app/community/profile/community-settings.tsx:67 | `String(n)` of an integer is non-empty text |
| Numbers.ParseDecimalText | app/community/profile/community-settings.tsx:67-89 | `Number(String(n)) === n` for every integer: printing a stored price and reading it back gives the same price |
| Numbers.ParseBlankAndWord | app/community/my-community/new-signals.tsx:117 | `Number("")` is 0 and `Number("abc")` is NaN |
| Numbers.ParseTwelve | app/community/my-community/new-signals.tsx:117 | `Number("12")` is 12 |
| Numbers.ParseOneAndAHalf | app/community/my-community/new-signals.tsx:117 | `Number("1.5")` is 1.5 |
| Numbers.ParseMinusAQuarter | app/community/my-community/new-signals.tsx:117 | `Number("-0.25")` is -0.25 |
| Paging.PageOf | app/user/home.tsx:84-99 | `.range(size*p, size*p+size-1)`: at most `size` rows, in table order from offset size*p, full exactly when the table reaches past the page, empty past the end |
| Paging.LoadedIsPrefix | app/user/home.tsx:117-121 | the first n pages appended together are the table's first min(size*n, length) rows |
| Paging.AppendNextPage | app/user/home.tsx:117-121 | appending page p to the first p pages gives the first p+1 pages |
| Paging.ShortPageMeansEnd | app/user/home.tsx:123-125 | once a page comes back short, everything has been loaded |
| Paging.FullLastPageCostsOneEmptyFetch | app/user/discover.tsx:114-116 | when the table fills its last page exactly, that page is full, so one more fetch returns nothing |
| Store.ResolveFrame | components/SignalCard.tsx:33-37 | the conditional update touches the status field of the one row with that id and nothing else |
| Store.ResolvedRowIsFinal | components/SignalCard.tsx:36-37 | `.eq("status", "pending")`: a row already resolved is not changed |
| Store.FirstResolutionWins | components/SignalCard.tsx:33-37 | of two resolutions of one pending signal the first sticks, and a second leaves the table unchanged |
| Store.ColumnPrice | app/onboarding/community.tsx:63 | a whole-number price is stored as that integer, and a missing price as null |
| Store.ApplyUpdate | app/community/profile/community-settings.tsx:98-103 | `.update(updates)` changes exactly the fields present in the update, and an empty update changes nothing |
| Store.MarketsOf | app/community/profile/community-settings.tsx:54-60 | the markets of one community's rows, never more than the rows |
| Store.RowsFor | app/onboarding/community.tsx:75-78 | one `community_markets` row per selected market, in order |
| Store.MarketsOfConcat | app/onboarding/community.tsx:75-88 | the markets of two row lists appended together are the markets of each, appended |
| Store.MarketsOfRowsFor | app/onboarding/community.tsx:75-78 | the rows built for a community hold that community's selection and nothing for any other |
| Store.MarketsOfAfterDelete | app/community/profile/community-settings.tsx:113-118 | deleting a community's market rows leaves it none and leaves the others' as they were |
| Store.ReplaceMarkets | app/community/profile/community-settings.tsx:113-142 | after delete-then-insert the community's markets are exactly the selection, and other communities keep theirs |
| Store.Database.constructor | lib/supabase.ts:1-15 | a store holding the given tables and no inserted signals |
| Store.Database.UpdateSignalIfPending | components/SignalCard.tsx:33-37 | the signal row becomes the result only when it is still pending, and the affected count says whether it was |
| Store.Database.InsertSignal | app/community/my-community/new-signals.tsx:109-121 | the row is appended to the signals table unless the insert fails |
| Store.Database.InsertCommunity | app/onboarding/community.tsx:54-73 | `.insert(...).select().single()`: the new row with the given owner, name, description, status and price, or nothing when the insert fails or the price is not a whole number |
| Store.Database.UpdateCommunity | app/community/profile/community-settings.tsx:98-111 | the community row becomes `ApplyUpdate` of itself unless the update fails or carries a fractional price |
| Store.Database.DeleteMarkets | app/community/profile/community-settings.tsx:113-118 | removes exactly that community's market rows unless the delete fails |
| Store.Database.InsertMarkets | app/community/profile/community-settings.tsx:126-135 | appends the rows unless the insert fails |
| SignalDisplay.StatusTone | components/SignalCard.tsx:54-58 | the border is green exactly for a win, red exactly for a loss, and neutral exactly for a pending signal |
| SignalDisplay.ToneDeterminesStatus | components/UserSignalCard.tsx:31-35 | the border colour identifies the status |
| SignalDisplay.StatusBadgeConfig | components/UserSignalCard.tsx:37-56 | the status badge: its colour is the status tone, the alpha is "30" for pending and "15" otherwise, and it shows a checkmark, cross or clock icon exactly for win, loss and pending |
| SignalDisplay.BadgeConfigInjective | components/LockedSignalCard.tsx:38-56 | distinct statuses get distinct badges |
| SignalDisplay.RelativeTime | components/SignalCard.tsx:86-98 | "Xm ago" under an hour, "Xh ago" under a day, "Xd ago" under a week, else the date; each count is the elapsed time floored to its unit, and hours stay in 1..23 and days in 1..6 |
| SignalDisplay.RelativeTimeFacts | components/UserSignalCard.tsx:17-29 | the nested floors of the card code equal the direct floor of milliseconds per unit, and each threshold on minutes, hours or days is the same threshold on milliseconds |
| SignalDisplay.RelativeTimeMonotone | components/LockedSignalCard.tsx:17-29 | within one bucket an older signal never shows a smaller count |
| SignalDisplay.StatusCaption | components/UserSignalCard.tsx:78 | `status.toUpperCase()`: PENDING, WIN or LOSS |
| SignalDisplay.DirectionCaption | components/UserSignalCard.tsx:125-135 | BUY for a buy and SELL for a sell |
| SignalDisplay.ResultBadgeOf | components/SignalCard.tsx:60-84 | no badge exactly while pending; otherwise a WIN or LOSS badge in the status tone |
| SignalLists.WithStatus | app/community/dashboard.tsx:107-109 | `prev.map(...)`: the same signals in the same order, with exactly those carrying the id given the new status and every other field kept |
| SignalLists.WithStatusKeepsIds | app/community/my-community/index.tsx:81-85 | the status update keeps every position's id |
| SignalLists.WithStatusAbsent | app/community/my-community/signals.tsx:69-71 | an id not in the list changes nothing |
| SignalLists.WithStatusLastWins | app/community/my-community/signals.tsx:69-71 | of two updates of one id the second decides |
| SignalLists.WithStatusCommutes | app/community/dashboard.tsx:107-109 | updates of two different ids commute |
| SignalLists.ResolutionKeepsSnapshot | components/SignalCard.tsx:43-45 | a list that agrees with the store still agrees after a pending signal is resolved in both |
| SignalLists.LostRaceBreaksSnapshot | components/SignalCard.tsx:33-45 | when another session resolved the signal first with the other result, the list no longer agrees with the store |
| SignalCard.ActionsFor | components/SignalCard.tsx:322-372 | the Mark as Win/Loss buttons exist exactly while the card's status is pending, and are enabled exactly while no write is in flight |
| SignalCard.Render | components/SignalCard.tsx:100-373 | the border is the tone of the card's own status, there is a result badge and there are actions exactly when it is not pending and when it is; the badge is the status's result badge, the actions follow the status and `updating`; the entry and the non-zero levels, the upper-cased asset and market, the direction caption, the relative time and the type badge are the signal's |
| SignalCard.BadgeAndActionsExclusive | components/SignalCard.tsx:60-84 | a card shows a result badge exactly when it offers no actions |
| SignalCard.Card.constructor | components/SignalCard.tsx:16-18 | the card starts with the signal's status and not updating |
| SignalCard.Card.BeginResolve | components/SignalCard.tsx:29-31 | the optimistic step: busy, showing the chosen result, the old status kept |
| SignalCard.Card.FinishResolve | components/SignalCard.tsx:39-47 | an error restores the old status and notifies nobody; otherwise the parent is told the result; no longer busy |
| SignalCard.Card.ResolveSignal | components/SignalCard.tsx:20-52 | a cancelled alert changes nothing; a confirmed one writes the conditional update, shows the result or, on error, pending again, and notifies the parent exactly when the write did not fail |
| SignalCard.LosingCardShowsItsOwnResult | components/SignalCard.tsx:33-45 | when the signal was resolved elsewhere first, the store keeps the other result while this card's colour shows its own |
| UserSignalCard.ShownLevel | components/UserSignalCard.tsx:256-296 | `{value && ...}`: a take-profit or stop-loss row exactly for a value that is set and not 0 |
| UserSignalCard.Render | components/UserSignalCard.tsx:84-300 | VIP badge exactly for a VIP signal; the price block is the entry with each level shown exactly when it is set and not 0, carrying its value; border and badge follow the status; the upper-cased asset, the direction caption and tone, the status caption, the community name and the relative time are the signal's |
| UserSignalCard.ShowsPriceLevels | components/UserSignalCard.tsx:248-296 | the full card reveals the type, status, entry and non-zero levels: equal cards have equal values |
| LockedSignalCard.Render | components/LockedSignalCard.tsx:84-228 | always a VIP badge and "Subscribe to unlock"; border and badge follow the status; the asset is the upper-cased asset, of the same length; the direction and status captions, the community name and the relative time are those of the signal |
| LockedSignalCard.HidesPriceLevels | components/LockedSignalCard.tsx:206-214 | two signals that differ only in their prices, type or market show the same locked card |
| LockedSignalCard.ShowsStatus | components/LockedSignalCard.tsx:131-149 | the locked card still reveals the status and direction |
| Dashboard.StatsOrDefault | app/community/dashboard.tsx:63-76 | the stored stats row, or the zero record for the community when there is none |
| Dashboard.WinRateTone | app/community/dashboard.tsx:324 | green exactly from 50 up |
| Dashboard.RoundedRateAsWritten | app/community/dashboard.tsx:118-122 | `Math.round(wins / total * 100)` with the quotient taken exactly: the rounded percentage when total > 0, and not a finite number when total is 0 |
| Dashboard.ApplyResolutionAsWritten | app/community/dashboard.tsx:111-124 | the stats update as written: none without a previous record |
| Dashboard.DefaultStatsBreakWinRate | app/community/dashboard.tsx:68-122 | on the default zero record a win shows an infinite win rate and a loss shows NaN |
| Dashboard.WinRate | app/community/dashboard.tsx:118-122 | the corrected win rate: the rounded percentage, 0..100 for valid counts, 100 when all are wins, and 0 when there are no signals |
| Dashboard.ApplyResolution | app/community/dashboard.tsx:111-124 | the corrected update: one more win or loss, totals unchanged, win rate recomputed from the new counts |
| Dashboard.AsWrittenAgreesWhenTotalPositive | app/community/dashboard.tsx:111-124 | when the community has signals, the written and the corrected update agree |
| Dashboard.RecomputeBounds | app/community/dashboard.tsx:111-124 | wins plus losses of the recomputed record never exceed the signals, and its rate stays in 0..100 |
| Dashboard.IncrementalMatchesRecompute | app/community/dashboard.tsx:106-125 | resolving a pending signal and updating the record incrementally gives the record recomputed from the new statuses |
| Dashboard.ResolvingTwiceOvercounts | app/community/dashboard.tsx:115 | updating for an already-won signal counts a second win |
| Dashboard.Screen.constructor | app/community/dashboard.tsx:24-29 | nothing loaded and loading |
| Dashboard.Screen.FetchDashboardData | app/community/dashboard.tsx:32-87 | signed out changes nothing; no community row only ends loading; otherwise the community, the counts (0 when missing), the stats or the zero record, and the signals or [] |
| Dashboard.Screen.HandleSignalUpdate | app/community/dashboard.tsx:106-125 | the recent signals get the status update and the stats the corrected resolution |
| Dashboard.Screen.Badges | app/community/dashboard.tsx:180-203 | no badge without a community, else the approval badges of its status: "pending approval" exactly for a community awaiting approval, "active" exactly for an approved one |
| MyCommunity.ApprovalBadgesFor | app/community/my-community/index.tsx:140-163 | "Pending approval" exactly for pending, "Active" exactly for active, never both, neither for another status |
| MyCommunity.PriceText | app/community/my-community/index.tsx:270 | `subscription_price || 0`: 0 exactly for a missing or zero price, else the price |
| MyCommunity.DescriptionText | app/community/my-community/index.tsx:246 | the description, or "No description yet" for a missing or empty one |
| MyCommunity.Fetch | app/community/my-community/index.tsx:32-66 | signed out changes nothing; otherwise loading ends, and a found community brings its markets and recent signals |
| MyCommunity.HandleSignalUpdate | app/community/my-community/index.tsx:81-85 | only the signals with the id change, and only their status |
| SignalHistory.Fetch | app/community/my-community/signals.tsx:27-53 | signed out changes nothing; the signals become the answer or [] once the community is known |
| SignalHistory.HandleSignalUpdate | app/community/my-community/signals.tsx:69-71 | `{ ...s, status }`: ids kept, each matching signal is the same signal with the new status, the others are unchanged |
| SignalHistory.HandleSignalUpdateIdempotent | app/community/my-community/signals.tsx:69-71 | applying the same update twice is applying it once |
| Subscribers.Stats | app/community/subscribers.tsx:85-128 | total is the list length; active plus expired is the total; the active list holds exactly the active subscribers; the percent is rounded, in 0..100 and 0 for an empty list; revenue is active times the price or 0; the month counts are bounded |
| Subscribers.ActiveListIsOrderedSubsequence | app/community/subscribers.tsx:90 | an active subscriber keeps its order among the active subscribers |
| Subscribers.PercentExtremes | app/community/subscribers.tsx:94-97 | no expired subscriber gives 100 %, no active one gives 0 % |
| Subscribers.Fetch | app/community/subscribers.tsx:27-69 | signed out changes nothing; the roster becomes the answer once the community is known |
| Subscribers.PriceOf | app/community/subscribers.tsx:100 | the roster community's stored `subscription_price`, and no price without a community |
| Subscribers.RosterRevenue | app/community/subscribers.tsx:99-100 | `activeSubscribers.length * (community?.subscription_price ?? 0)` on the roster held by the screen |
| CommunityCard.TotalSignals | components/CommunityCard.tsx:24 | the stats' total, or 0 without stats |
| CommunityCard.ShownWinRate | components/CommunityCard.tsx:25 | the stats' win rate, or 0 without stats |
| CommunityCard.TierOf | components/CommunityCard.tsx:28-48 | Excellent from 65, Good from 50 below 65, Poor below 50 |
| CommunityCard.TierMonotone | components/CommunityCard.tsx:28-48 | a higher win rate never gets a lower tier |
| CommunityCard.TierAgreesWithDashboard | components/CommunityCard.tsx:35-41 | the card's tier is not Poor exactly when the dashboard colours the rate green |
| CommunityCard.WinRateCellOf | components/CommunityCard.tsx:50 | "N/A" exactly when there are no signals, else the win rate and its tier |
| CommunityCard.MissingStatsShowNotApplicable | components/CommunityCard.tsx:173-182 | a community without stats shows "N/A" |
| CommunityCard.PriceLabelOf | components/CommunityCard.tsx:153-158 | "Free" exactly for price 0, else the per-month label of the stored value, null included |
| CommunityCard.ShownDescription | components/CommunityCard.tsx:75-85 | the description block exactly for a non-empty description |
| CommunityCard.Render | components/CommunityCard.tsx:52-231 | name, the description when neither null nor empty, market chips, price label, win-rate cell and signal total of the listing |
| SubscriberCard.DaysRemaining | components/SubscriberCard.tsx:22-28 | the days to the end date rounded up |
| SubscriberCard.DaysLeftIffNotEnded | components/SubscriberCard.tsx:22-31 | positive days exactly when the end date is still ahead |
| SubscriberCard.ExpiringSoonWindow | components/SubscriberCard.tsx:30-31 | the "expiring soon" warning exactly when the end date is within the next seven days |
| SubscriberCard.EndCaptionOf | components/SubscriberCard.tsx:138 | "Renews" exactly while days remain, else "Ended" |
| SubscriberCard.RemainingRowOf | components/SubscriberCard.tsx:153-177 | the remaining row exactly while days remain, with "day" only for one day and the warning exactly when expiring soon |
| SubscriberCard.DisplayName | components/SubscriberCard.tsx:54 | "Unknown User" when both name parts are blank, otherwise the trimmed, non-empty `first + " " + last` |
| SubscriberCard.JoinedNameBlankIffPartsBlank | components/SubscriberCard.tsx:54 | the joined name trims to nothing exactly when both parts are all white space |
| SubscriberCard.DisplayNameExamples | components/SubscriberCard.tsx:54 | a first name alone is shown as it is; an ideographic space alone shows "Unknown User" |
| SubscriberCard.UnknownUserIffBlankNames | components/SubscriberCard.tsx:54 | the joined name is blank exactly when both parts are missing or blank; then the card shows "Unknown User", otherwise the non-empty trimmed joined name |
| SubscriberCard.BorderOf | components/SubscriberCard.tsx:41 | the green border exactly for the stored status "active" |
| SubscriberCard.StoredStatusAndDatesCanDisagree | components/SubscriberCard.tsx:41-138 | a stored "active" subscription past its end shows a green border and "Ended" |
| MarketPicker.Toggle | app/onboarding/community.tsx:20-26 | the tapped market flips in or out of the selection, every other one stays; a present market is filtered out in order (`prev.filter`), an absent one is appended at the end (`[...prev, m]`) |
| MarketPicker.ToggleNoDuplicates | app/onboarding/community.tsx:20-26 | toggling keeps a selection free of duplicates |
| MarketPicker.ToggleTwiceRestores | app/community/profile/community-settings.tsx:307-312 | tapping an unselected chip twice restores the selection exactly |
| MarketPicker.ToggleTwiceSameSet | app/community/profile/community-settings.tsx:307-312 | tapping any chip twice restores the set of selected markets |
| MarketPicker.SetChangeIsNoticed | app/community/profile/community-settings.tsx:72-74 | a change of the selected set is always reported as a change |
| MarketPicker.MarketsChangedIffSetsDiffer | app/community/profile/community-settings.tsx:72-74 | for duplicate-free lists, a change is reported exactly when the sets differ |
| MarketPicker.DuplicateRowsLookChanged | app/community/profile/community-settings.tsx:72-74 | with a repeated stored row, an unchanged set is reported as changed |
| UserHome.VisibleCommunities | app/user/home.tsx:68-73 | the followed and subscribed ids together, each once, empty exactly when both are |
| UserHome.Enrich | app/user/home.tsx:111-115 | each row marked subscribed exactly when its community is among the subscribed ids |
| UserHome.EnrichConcat | app/user/home.tsx:111-121 | enriching page by page is enriching all the rows at once |
| UserHome.CardFor | app/user/home.tsx:358-378 | the locked card exactly for a locked signal |
| UserHome.UnlockedIffFreeOrSubscribed | app/user/home.tsx:358-378 | a feed card is unlocked exactly for a free signal or a subscribed community |
| UserHome.FilterAllIsIdentity | app/user/home.tsx:153-154 | the "all" filter shows the whole feed |
| UserHome.FreeAndVipSplitFeed | app/user/home.tsx:155-156 | the free and the VIP filters split the feed |
| UserHome.MarketsSplitFeed | app/user/home.tsx:157-159 | the three market filters split the feed |
| UserHome.Feed.constructor | app/user/home.tsx:42-49 | empty, loading, more to load, page 0, "all" filter |
| UserHome.Feed.StartFetch | app/user/home.tsx:51-56 | signed in, it raises the loading flag of a first page or the loading-more flag of a further one |
| UserHome.Feed.FinishFetch | app/user/home.tsx:57-127 | no ids or an error leaves the list as the code does; otherwise the list is the old one (appending) or none, followed by the enriched page, and "has more" is a full page; the loaded list stays the first pages of the visible signals |
| UserHome.Feed.LoadMore | app/user/home.tsx:144-150 | starts exactly when not already loading more and there is more, advancing the page by one |
| UserHome.Feed.Focus | app/user/home.tsx:130-135 | back to page 0 and a fresh first-page fetch |
| UserHome.Feed.BeginRefresh | app/user/home.tsx:137-141 | refreshing, back to page 0, and a fresh first-page fetch |
| UserHome.Feed.EndRefresh | app/user/home.tsx:137-142 | no longer refreshing |
| UserHome.Feed.SetFilter | app/user/home.tsx:174 | the chosen filter is the active one |
| UserHome.Feed.Visible | app/user/home.tsx:153-160 | exactly the loaded signals that match the active filter |
| Discover.IdsOf | app/user/discover.tsx:89 | the ids of the page's communities, in order |
| Discover.StatsLookup | app/user/discover.tsx:98-100 | the stats map lookup: none exactly when no row has the id, else a row with that id (the last one wins) |
| Discover.StatsLookupFiltered | app/user/discover.tsx:92-100 | restricting the stats query to the page's ids does not change the lookup of an id on the page |
| Discover.Enrich | app/user/discover.tsx:103-106 | each listed community with its markets and the stats of its id |
| Discover.EnrichWithPageStats | app/user/discover.tsx:89-106 | fetching stats for the page ids gives the same listings as looking them up in the whole stats table |
| Discover.EnrichConcat | app/user/discover.tsx:108-112 | enriching page by page is enriching all at once |
| Discover.Filtered | app/user/discover.tsx:141-155 | exactly the communities that match both the market chip and the search text |
| Discover.FiltersCommute | app/user/discover.tsx:141-155 | the combined filter is the search filter followed by the market filter |
| Discover.NoFilterShowsAll | app/user/discover.tsx:143-147 | no market chosen and a blank search show every community |
| Discover.LowerKeepsBlank | app/user/discover.tsx:147-149 | lowering text keeps it blank or non-blank |
| Discover.SearchIgnoresQueryCase | app/user/discover.tsx:149-153 | the search gives the same answer for the text and its lower-case form |
| Discover.TrailingSpaceDefeatsExactName | app/user/discover.tsx:147-153 | a community matches its own name, but not its name followed by a space |
| Discover.Screen.constructor | app/user/discover.tsx:38-45 | empty, loading, no market, page 0, more to load, empty search |
| Discover.Screen.StartFetch | app/user/discover.tsx:51-52 | raises the loading flag of a first page or the loading-more flag of a further one |
| Discover.Screen.FinishFetch | app/user/discover.tsx:49-119 | an error keeps the list; otherwise the list is the old one (appending) or none, followed by the enriched page of approved communities, and "has more" is a full page; a short page means every approved community is loaded |
| Discover.Screen.Reload | app/user/discover.tsx:121-131 | back to page 0 with a first-page fetch, refreshing when pulled |
| Discover.Screen.EndRefresh | app/user/discover.tsx:126-131 | no longer refreshing |
| Discover.Screen.LoadMore | app/user/discover.tsx:133-139 | starts exactly when not already loading more and there is more, advancing the page by one |
| Discover.Screen.SelectMarket | app/user/discover.tsx:161 | the chosen market chip is the selected one |
| Discover.Screen.SetSearch | app/user/discover.tsx:314 | the search text is the one given |
| Discover.Screen.Visible | app/user/discover.tsx:141-155 | exactly the loaded communities that match the market chip and the search |
| CommunitySettings.DescriptionField | app/community/profile/community-settings.tsx:66 | the stored description, or "" |
| CommunitySettings.PriceField | app/community/profile/community-settings.tsx:67 | `String(price ?? "")`: "" for null, the decimal text of the price otherwise |
| CommunitySettings.UpdatesFor | app/community/profile/community-settings.tsx:84-90 | name and description are sent exactly when they differ from the stored ones; the price is left out exactly when the parsed text is a number equal to a stored non-null price |
| CommunitySettings.UntouchedFormHasNoUpdates | app/community/profile/community-settings.tsx:64-96 | with a stored price, saving the form as loaded has nothing to update |
| CommunitySettings.NullPriceIsAlwaysSent | app/community/profile/community-settings.tsx:67-90 | with a null stored price the price is always sent, and the untouched form sends 0 |
| CommunitySettings.SavedRowMatchesForm | app/community/profile/community-settings.tsx:84-111 | the saved row holds the form's name and description, and the parsed price |
| CommunitySettings.FailedInsertLeavesNoMarkets | app/community/profile/community-settings.tsx:113-141 | after the delete, a failed insert leaves the community with no markets and the others unchanged |
| CommunitySettings.Form.constructor | app/community/profile/community-settings.tsx:27-34 | empty fields, loading, not saving, no markets |
| CommunitySettings.Form.Fetch | app/community/profile/community-settings.tsx:36-69 | signed out changes nothing; a found community fills the fields from the row and both market lists from its market rows |
| CommunitySettings.Form.SetName | app/community/profile/community-settings.tsx:238 | the name field holds the typed text |
| CommunitySettings.Form.SetDescription | app/community/profile/community-settings.tsx:265 | the description field holds the typed text |
| CommunitySettings.Form.SetPrice | app/community/profile/community-settings.tsx:364-369 | the price field holds the typed text |
| CommunitySettings.Form.ToggleMarket | app/community/profile/community-settings.tsx:307-312 | the selection toggled at that market |
| CommunitySettings.Form.HandleSave | app/community/profile/community-settings.tsx:82-147 | nothing to do, an update error, a market error and success as the code orders them; the stored markets are replaced by the selection, or removed when the insert fails; saving ends false |
| OnboardingCommunity.Validate | app/onboarding/community.tsx:29-52 | the first failing check in order (signed in, name, description, price, a market), none exactly when all pass |
| OnboardingCommunity.BlankNamePasses | app/onboarding/community.tsx:34-47 | untrimmed checks let a name and description of one space through |
| OnboardingCommunity.NewRow | app/onboarding/community.tsx:57-65 | the insert payload: owner, name, description, status pending, and the price parsed |
| OnboardingCommunity.NewCommunityAwaitsApproval | app/onboarding/community.tsx:64 | a new community shows the pending badge and is not listed on discover |
| OnboardingCommunity.Form.constructor | app/onboarding/community.tsx:14-18 | empty fields, no markets, not loading |
| OnboardingCommunity.Form.SetName | app/onboarding/community.tsx:137 | the name field holds the typed text |
| OnboardingCommunity.Form.SetDescription | app/onboarding/community.tsx:153 | the description field holds the typed text |
| OnboardingCommunity.Form.SetPrice | app/onboarding/community.tsx:187 | the price field holds the typed text |
| OnboardingCommunity.Form.ToggleMarket | app/onboarding/community.tsx:20-26 | the selection toggled at that market |
| OnboardingCommunity.Form.CreateCommunity | app/onboarding/community.tsx:28-97 | rejected input writes nothing; otherwise the community row, then one market row per selection; with no prior rows the new community's markets are the selection; loading ends false |
| NewSignalForm.FirstAsset | app/community/my-community/new-signals.tsx:81-85 | the market's first asset, none exactly for an empty list |
| NewSignalForm.OptionalLevel | app/community/my-community/new-signals.tsx:118-119 | null for empty text, else the parsed number |
| NewSignalForm.Payload | app/community/my-community/new-signals.tsx:109-121 | the insert payload: pending, the form's community, asset, market, type and direction, and the parsed levels |
| NewSignalForm.BlankEntryPostsZero | app/community/my-community/new-signals.tsx:104-117 | an entry of one space passes the check and posts 0 |
| NewSignalForm.Form.constructor | app/community/my-community/new-signals.tsx:30-37 | forex with its first asset, free, buy, empty levels |
| NewSignalForm.Form.LoadCommunity | app/community/my-community/new-signals.tsx:43-74 | a found community brings its markets and selects the first one with its first asset |
| NewSignalForm.Form.HandleMarketChange | app/community/my-community/new-signals.tsx:81-85 | the market is the chosen one and the asset its first |
| NewSignalForm.Form.HandleAssetChange | app/community/my-community/new-signals.tsx:87-90 | the asset is the chosen one |
| NewSignalForm.Form.SetType | app/community/my-community/new-signals.tsx:431 | the type is the chosen one |
| NewSignalForm.Form.SetDirection | app/community/my-community/new-signals.tsx:453 | the direction is the chosen one |
| NewSignalForm.Form.SetLevels | app/community/my-community/new-signals.tsx:475-519 | the three price fields hold the typed text |
| NewSignalForm.Form.HandleCreateSignal | app/community/my-community/new-signals.tsx:92-131 | no community, an untraded market and an empty entry are rejected in that order, writing nothing; otherwise the payload is inserted, and a posted signal is pending, in a traded market and has a catalogue asset |
| Launch.Decide | app/index.tsx:37-65 | the spinner exactly while loading or while an owner's community is unknown; sign-up exactly when signed out after that |
| Launch.RoutesByRole | app/index.tsx:48-65 | once loaded and signed in: user home exactly for the user role, the dashboard or onboarding for an owner with or without a community, the role choice otherwise |
| Launch.LaunchState.constructor | app/index.tsx:10-11 | loading, community unknown |
| Launch.LaunchState.AuthLoaded | app/index.tsx:13-15 | loading ends once auth and user are both loaded |
| Launch.LaunchState.UserChanged | app/index.tsx:17-35 | the community lookup starts exactly for an owner; for anyone else the answer is cleared |
| Launch.LaunchState.CommunityChecked | app/index.tsx:23-32 | `!!data`: has a community exactly when a row came back |
| Launch.LaunchState.CurrentRoute | app/index.tsx:37-65 | the route the current state decides |
| Launch.OwnerLaunch | app/index.tsx:17-65 | an owner sees the spinner until the lookup answers, then the dashboard or onboarding |

## Left out

- The server's query semantics beyond filtering and paging: row order (`.order(...)` is
  taken to be the table order given), `.single()` errors for several rows, and exact
  `count` queries, which are parameters.
- Clerk sign-in and sign-up flows (`app/auth/*`), the role screen, and the community
  profile screen (`app/community-profile/[id].tsx`): these are not part of this model.
- Locale date formatting (`toLocaleDateString`): the relative time's last bucket is a
  date value, not text.
- Unicode case mapping: `toLowerCase`/`toUpperCase` are modelled on ASCII letters only.
- `useDebounce`: the discover search text is taken as already debounced.
- Numbers.ParseNumber: does not model exponents, hexadecimal or `Infinity` forms of
  `Number`; those give NaN here.
- Arith.Percent, Subscribers.Stats, Dashboard.RoundedRateAsWritten: round the exact
  quotient, not JavaScript's double `(a / b) * 100`; 23 of 40 gives 58 here and 57 in
  the app, 29 of 200 gives 15 here and 14 there.
- Dashboard.Screen.HandleSignalUpdate: applies the corrected update
  (`Dashboard.ApplyResolution`), the corrected half of the win-rate finding, so on the
  default zero record it shows 0 where the code stores Infinity or NaN
  (`Dashboard.ApplyResolutionAsWritten` and `Dashboard.DefaultStatsBreakWinRate` model
  and prove the code's behaviour).
- Modal and alert visibility flags, navigation stacks and `router.back()`, beyond the
  route values the handlers return.
- React scheduling: stale closures, a second fetch racing the first, and re-renders
  between `setState` calls. Each handler runs to its end in one step.
- The `{value && ...}` text node that React Native renders as "0" for a take-profit or
  stop-loss of 0.
- The `try/catch` path of thrown exceptions: a failure is the store's error answer.
- The settings chips' highlight state between taps.
- Buttons' `disabled` props other than the signal card's, which are not preconditions
  of the handlers.
- What the database does with a negative price: the column is taken to accept any
  whole number.
- Subscribers.Stats: the month counts are bounded, not computed from a calendar model,
  because the local calendar is a parameter.
- MyCommunity.ShowMarketChips and SignalCard.Card.IsResolved are predicates without
  contracts of their own. The members that use them carry the contracts.

## Findings

| source | as written | input that shows it | evidently intended | confidence | as-written member | corrected member |
|---|---|---|---|---|---|---|
| app/community/dashboard.tsx:118-122 | the win rate after a resolution is `Math.round(wins / total_signals * 100)`; the default record of a community with no stats row has `total_signals: 0` (lines 68-76) | a community with no `community_stats` row, whose owner marks a signal as a win (Infinity) or a loss (NaN) | the win rate is 0 while there are no signals, as the card's "N/A" and the default record suggest | not executed | Dashboard.DefaultStatsBreakWinRate | Dashboard.WinRate |
