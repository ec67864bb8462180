# Archived Shopify app reviews: a Dafny model of the report logic

The repository scrapes the "archived reviews" of a fixed list of Shopify apps.
It saves each scrape as a snapshot file and builds weekly reports from the
snapshots:

- **The scraper** (`shopify-archived-reviews.js`) reads an app's reviews pages.
  - Three extraction strategies produce review records: the archived-reviews container, the review cards and the merchant-review containers.
  - Their results are merged on a text key.
  - The last page comes from the pager's page numbers.
  - A closing summary gives each app's latest archived date.
- **The weekly report** (`weekly-report.js`) counts the new reviews of a Monday-to-Sunday week.
  - It pages through each app's reviews, newest first.
  - It picks one date per review card out of the card's date elements and text dates.
  - It stops once a page shows only dates before the week.
- **The dashboard server** (`server.js`) summarises a snapshot over a date range.
  - For each app it gives the count, the reviews in range with their stars, the latest ISO date and a star histogram.
  - It can also add the same summary for the week before.
- **The Slack post** (`generate-slack-post.js`) combines a snapshot, this week's report and last week's report.
  - The tier sections show new reviews and ratings per app.
  - The archived section shows each app's archived count with a rating breakdown.
- **The diff report** (`report-archived-diff.js`) compares the review ids of two snapshots, per app URL, in sorted URL order.
- **The archived count** (`count-archived-by-date.js`) counts, per app, the archived reviews dated in a week.
- **The app configuration** (`app-config.js`) gives display names, tiers and the order of the tiers.

The model is split into one module per source file plus shared modules:

- `Wrappers`: the Option type.
- `Strs`: JavaScript string order, truthiness, decimal text, `Set` insertion order.
- `Calendar`: ECMAScript day numbers and `YYYY-MM-DD` strings.
- `Weeks`: the four identical copies of the week-window function, the day shift and the "last Sunday" default.
- `Records`: the snapshot records, the range test and the merge key.
- `Slugs`: the URL-to-slug and URL-to-name readers.

How the model represents the program:

- **Dates.** They are compared as strings, as in the scripts. Lemmas show that, for printed dates, string order is day order.
- **`new Date(text)` on free-form text** is a parameter `parse`.
- **`new Date(iso + 'T12:00:00Z')` on date strings** is computed exactly, as `ParseIsoDay`.
- **Loops** that update variables are methods with loop invariants. Each is proved equal to a specification function, and the properties are proved about those functions.

The code and the written description of the server disagree in one place. The
description says apps whose scrape failed are left out of a snapshot summary.
`snapshotSummary` in `server.js` counts every app entry. The model follows the
code.

## Model

| member | source | states |
|---|---|---|
| Strs.LexLessIrreflexive | count-archived-by-date.js:37 | no string is below itself under JavaScript `<` |
| Strs.LexLessAsymmetric | count-archived-by-date.js:37 | two strings are never each below the other |
| Strs.LexLessTotal | count-archived-by-date.js:37 | two different strings are always ordered one way or the other |
| Strs.LexLessTransitive | count-archived-by-date.js:37 | `<` on strings is transitive |
| Strs.LexLeAntisymmetric | count-archived-by-date.js:37 | `<=` on strings is antisymmetric, so the range tests use a total order |
| Strs.LexLeTransitive | count-archived-by-date.js:37 | `<=` on strings is transitive |
| Strs.LexLessLe | count-archived-by-date.js:37 | `a < b` implies `a <= b` and `a != b` |
| Strs.LexNotLessIsLe | count-archived-by-date.js:37 | `!(a < b)` implies `b <= a` |
| Strs.LexLessConcat | server.js:34-35 | strings with equal-length heads compare by the heads first, then by the rest |
| Strs.OrEmpty | report-archived-diff.js:21 | `s \|\| ''` is non-empty exactly when `s` is truthy |
| Strs.Normalize | shopify-archived-reviews.js:522-523 | `s \|\| null` keeps a truthy value and drops the empty string |
| Strs.Pad | server.js:34-35 | a zero-padded field has exactly its width and only digits |
| Strs.ParsePad | server.js:34-35 | reading a padded number gives back the number |
| Strs.PadParse | server.js:34-35 | a digit field is the padded form of its value |
| Strs.PadOrder | server.js:34-35 | fixed-width digit fields compare as strings exactly as their values compare |
| Strs.PadInjective | server.js:34-35 | different values give different padded fields |
| Strs.Decimal | report-archived-diff.js:83 | `String(n)` is a non-empty digit string without leading zeros |
| Strs.ParseDecimal | report-archived-diff.js:83 | reading `String(n)` gives back n |
| Strs.DecimalInjective | report-archived-diff.js:83 | different counts print differently |
| Strs.Join | report-archived-diff.js:84 | joining no parts gives '' and joining one part gives that part |
| Strs.JoinSnoc | report-archived-diff.js:84 | joining one more part appends the separator and that part, so `sep` stands only between neighbours |
| Strs.DedupSpec | report-archived-diff.js:56 | a `Set` built from a list holds every element of the list, and each only once |
| Strs.DedupSnoc | report-archived-diff.js:56 | adding an element to a `Set` appends it unless it is already there |
| Calendar.DaysInYear | server.js:26 | a year has 365 or 366 days |
| Calendar.DayFromYearIsEcma | server.js:26 | the year-by-year day count equals DayFromYear of section 21.4.1.3 of ECMA-262 for every year |
| Calendar.DayFromYearMonotonic | server.js:26 | a later year starts at least a whole year later |
| Calendar.MonthLength | server.js:26 | a month has 28 to 31 days |
| Calendar.CivilFromDays | server.js:34-35 | the calendar date of a day number is a real date that maps back to that day number |
| Calendar.DaysFromCivilMonotonic | server.js:26 | later calendar dates have larger day numbers |
| Calendar.DaysFromCivilInjective | server.js:26 | different calendar dates have different day numbers |
| Calendar.CivilRoundTrip | server.js:26-35 | a real date survives conversion to a day number and back |
| Calendar.WeekDay | server.js:27 | `getUTCDay()` lies in 0..6 |
| Calendar.EpochIsThursday | server.js:27 | 1970-01-01 has week day 4 (Thursday) |
| Calendar.WeekDayShift | server.js:27 | the week day repeats every seven days |
| Calendar.IsoOf | server.js:34-35 | a printed date is ten characters long |
| Calendar.IsoOfOrder | server.js:34-35 | printed dates compare as strings exactly as the dates compare |
| Calendar.ToIso | server.js:34-35 | the model renders `toISOString().slice(0, 10)` only for years 0000..9999, as ten characters; other years give None (see Left out) |
| Calendar.ToIsoOrder | server.js:34-35 | for printable days, string order of the printed dates is day order |
| Calendar.DateFields | server.js:26 | the fields read from `YYYY`, `YYYY-MM` or `YYYY-MM-DD` are a year 0..9999, a month 1..12 and a day 1..31 |
| Calendar.ParseIsoDay | server.js:26 | `new Date(s + 'T12:00:00Z')` is valid exactly when s has the date-only form |
| Calendar.ParseToIso | server.js:26-35 | printing a day and reading the text back gives the same day |
| Calendar.IsoFields | server.js:26-35 | the fields of a printed date read back as the date |
| Calendar.ToIsoParse | server.js:41-43 | a canonical date string is read and printed back unchanged |
| Calendar.ToIsoCanonical | server.js:34-35 | every printed date is canonical |
| Weeks.WeekEndDay | server.js:27-30 | the week end is a Sunday on or before the day, at most six days earlier, and the day six days before it is a Monday |
| Weeks.SundayUnique | server.js:27-30 | there is only one such Sunday |
| Weeks.SundayWeekBefore | server.js:225-226 | the day a week before a Sunday is a Sunday |
| Weeks.WeekEndOfSunday | server.js:28 | a Sunday is its own week end (offset 0) |
| Weeks.WeekMondayToSunday | server.js:25-37 | a window exists only for a date the script can read |
| Weeks.WeekWindowSpec | server.js:25-37 | the window ends on the date's week-end Sunday, starts six days earlier, and its start is below its end |
| Weeks.WeekWindowEndsOnOrBefore | server.js:23-24 | the window ends on or before the date, and ends on the date exactly when the date is a Sunday |
| Weeks.WeekWindowSameWeek | server.js:23-24 | a Sunday and the six days after it all get the same window |
| Weeks.ShiftDate | server.js:40-44 | a shifted date exists only for a date the script can read |
| Weeks.ShiftDateSpec | server.js:40-44 | the shifted string names the day n days later |
| Weeks.ShiftIso | server.js:40-44 | shifting a printed day gives the printed shifted day |
| Weeks.ShiftRoundTrip | server.js:40-44 | shifting a canonical date by n and back by -n gives the date itself |
| Weeks.PreviousWeek | server.js:225-226 | the previous window exists only when both bounds can be shifted back seven days |
| Weeks.PreviousWeekIsWeekBefore | server.js:224-227 | the previous week of a date's window is the window of the date seven days earlier |
| Weeks.WindowOfDay | server.js:25-37 | the window of a string depends only on the day it names |
| Weeks.PreviousWindow | server.js:224-227 | shifting a window back a week gives the window that ends seven days earlier |
| Weeks.ShiftBothBack | server.js:225-226 | shifting two printed bounds back gives the printed bounds seven days earlier |
| Weeks.LastSundayDay | server.js:47-53 | the last Sunday is a Sunday strictly before today and at most seven days earlier |
| Weeks.LastSundayIsPreviousWeekEnd | server.js:47-53 | the last Sunday is the week end of yesterday: seven days back on a Sunday, else the Sunday of this week |
| Weeks.LastSundaySpec | server.js:47-53 | the printed last Sunday names that day and ends its own window |
| Records.KeyEmpty | shopify-archived-reviews.js:405 | the merge key is empty exactly when the record has no date text, no text and no id |
| Records.KeyCollision | shopify-archived-reviews.js:408 | two different records can share a key, because the parts are concatenated without a separator |
| Records.Star | server.js:80 | a star exists exactly when the rating is in [1, 5]; it is 1..5 and within half a star of the rating |
| Records.CountInWindow | count-archived-by-date.js:35-47 | no more reviews count than there are |
| Records.CountInWindowBounds | count-archived-by-date.js:35-47 | the count is 0 exactly when no review is in range, and equals the number of reviews exactly when every one is |
| Records.LastIso | server.js:89-91 | the latest ISO date, when present, is non-empty |
| Records.LastIsoIsMax | server.js:89-91 | the latest ISO date is missing exactly when no review has one, else it is one of them and the greatest |
| Slugs.FirstHost | app-config.js:18 | the regex search finds the leftmost match at or after the start, and there is none before it |
| Slugs.SegmentEnd | app-config.js:18 | `[^/]+` stops at the first '/' or at the end |
| Slugs.SlugMatch | app-config.js:18 | a slug is found exactly when the host pattern occurs; it is non-empty and has no '/' |
| Slugs.SlugOfUrl | app-config.js:16-20 | the slug of `https://apps.shopify.com/<slug><path>` is `<slug>` |
| Slugs.SlugOfReviewsUrl | weekly-report.js:32-35 | all three slug readers give back the slug of an app's reviews URL |
| Slugs.SlugReadersAgree | server.js:17-21 | `getAppSlug` and `getSlugFromUrl` agree on every input; `appSlug` differs only where they give '' |
| Slugs.FirstReviews | report-archived-diff.js:21 | the `/reviews.*$/` search finds the leftmost match, and there is none before it |
| Slugs.StripUrl | report-archived-diff.js:21 | stripping never lengthens the URL |
| Slugs.AppName | report-archived-diff.js:19-22 | the name is empty exactly when the URL is missing or empty |
| Slugs.SummaryNameIsAppName | shopify-archived-reviews.js:518 | the scraper summary's name equals the diff report's name for a present URL, and is absent for an absent one |
| Slugs.AppNameOfReviewsUrl | report-archived-diff.js:19-22 | the name of an app's reviews URL is its slug |
| AppConfig.ConfigDistinct | app-config.js:3-14 | no slug is configured twice |
| AppConfig.FindEntry | app-config.js:23 | the lookup of a configured slug finds its entry |
| AppConfig.ConfiguredNameAndTier | app-config.js:22-28 | a configured app gets its configured name and its tier, which is 1..3 |
| AppConfig.FindMissing | app-config.js:23 | the lookup finds nothing exactly when no entry has the slug |
| AppConfig.UnconfiguredNameAndTier | app-config.js:22-28 | an unconfigured slug is shown as itself and ranked in tier 99 |
| AppConfig.TierSlugsSnoc | app-config.js:33-37 | a further entry extends its own tier's list at the end |
| AppConfig.TierSlugsMembers | app-config.js:33-37 | a slug is listed under a tier exactly when some entry has that slug and tier |
| AppConfig.IndexStep | app-config.js:34-36 | pushing the next slug onto its tier's list keeps `byTier` equal to the tier lists so far |
| AppConfig.IndexByTier | app-config.js:32-37 | `byTier` has a key exactly for each tier with slugs, holding that tier's slugs in order |
| AppConfig.GroupByTier | app-config.js:31-39 | the result is the slug lists of tiers 1, 2, 3 in that order, leaving out empty tiers |
| AppConfig.SlugsByTier | app-config.js:31-39 | `getSlugsByTier()` is the tier groups of the configuration |
| AppConfig.ConfiguredTiers | app-config.js:3-14 | the groups are the first three apps, the next four and the last three |
| AppConfig.TierOneSlugs | app-config.js:4-6 | tier 1 is the first three configured slugs |
| AppConfig.TierTwoSlugs | app-config.js:7-10 | tier 2 is the next four |
| AppConfig.TierThreeSlugs | app-config.js:11-13 | tier 3 is the last three |
| AppConfig.ExactlyOneGroup | app-config.js:38 | a slug of tier 1..3 is in exactly one group, its own tier's, and that group is listed |
| AppConfig.GroupsOfTier | app-config.js:38 | among the first k groups, the only one holding the slug is its tier's |
| Archived.TimeRecord | shopify-archived-reviews.js:344-356 | the record keeps the card's id, rating and text, and takes the element's own datetime and text when they are present |
| Archived.TimePhase | shopify-archived-reviews.js:337-361 | every record kept has a signal, and at most one is kept per `<time>` element |
| Archived.IdPhase | shopify-archived-reviews.js:364-381 | every record kept has a signal, and at most one is kept per id block |
| Archived.Fallback | shopify-archived-reviews.js:383-391 | every record kept has a signal, and at most one is kept per child |
| Archived.ContainerReviews | shopify-archived-reviews.js:337-393 | the container scan gives the spec's three passes, records with a signal only, at most one per element scanned |
| Archived.TimePhaseSeesIds | shopify-archived-reviews.js:357 | every card id read in the first pass is recorded as seen |
| Archived.IdPhaseUnique | shopify-archived-reviews.js:374-377 | the id pass never emits an id seen before it, and its records have pairwise distinct ids |
| Archived.ContainerIdsUnique | shopify-archived-reviews.js:357-374 | no id-block record repeats the id of a card read through a `<time>` element |
| Archived.DivRecord | shopify-archived-reviews.js:146-160 | a date div's record has its date text, the parsed ISO date, and the block's rating, else the card's |
| Archived.DivRecords | shopify-archived-reviews.js:141-143 | divs without date text are skipped; every record has a date text |
| Archived.CardRecords | shopify-archived-reviews.js:140-180 | every record has a signal; a card gives one per date div, or at most one when it has no date divs |
| Archived.AllCardRecords | shopify-archived-reviews.js:131-184 | every card record has a signal |
| Archived.CardReviews | shopify-archived-reviews.js:131-184 | the card strategy returns the records of every card in order, all with a signal |
| Archived.PushCard | shopify-archived-reviews.js:135-181 | one card appends exactly its own records |
| Archived.MerchantSpec | shopify-archived-reviews.js:191-226 | at most one record per merchant container |
| Archived.MerchantReviews | shopify-archived-reviews.js:188-229 | the merchant strategy gives the spec's records, all with a signal |
| Archived.Appended | shopify-archived-reviews.js:407-413 | the merge loop appends at most one record per candidate |
| Archived.Merge | shopify-archived-reviews.js:405-417 | the merge equals the spec and is no longer than the three lists together |
| Archived.AppendUnseen | shopify-archived-reviews.js:407-413 | the loop appends exactly the spec's unseen records |
| Archived.AppendedNext | shopify-archived-reviews.js:408-412 | a candidate is appended, and its key seen, exactly when its key is non-empty and unseen |
| Archived.AppendStep | shopify-archived-reviews.js:409-412 | appending a record with a new non-empty key keeps the merge invariant |
| Archived.AppendDistinct | shopify-archived-reviews.js:409-412 | the appended keys are non-empty, new to the container and pairwise distinct |
| Archived.AppendedKeys | shopify-archived-reviews.js:407-413 | after the loop, the seen keys are the container's plus the appended records' keys |
| Archived.AppendedComplete | shopify-archived-reviews.js:407-413 | every non-empty key of a candidate ends up seen |
| Archived.AppendedFirst | shopify-archived-reviews.js:407-413 | the record kept for a key is the first candidate with that key |
| Archived.MergeKeepsContainer | shopify-archived-reviews.js:405-416 | unless the whole-list fallback applies, the merged list starts with the container records (possibly none) unchanged, then records with distinct non-empty keys new to the container |
| Archived.AfterContainer | shopify-archived-reviews.js:406-413 | the container records stay in front, and the appended keys are distinct and new to them |
| Archived.MerchantFirst | shopify-archived-reviews.js:407 | on a key shared by a merchant record and a card record, the merchant record wins |
| Archived.NoLaterThanKeyMate | shopify-archived-reviews.js:407-413 | the kept record comes no later than any record sharing its key |
| Archived.MergeFallback | shopify-archived-reviews.js:414-416 | the whole-list fallback happens only when no record had a key; it returns the card list when non-empty, else the merchant list |
| Archived.LastPageNumber | shopify-archived-reviews.js:59-65 | 1 without page numbers, else the largest page number shown |
| Archived.LastDateLoop | shopify-archived-reviews.js:501-517 | the summary loop's date is the fold's result and its ISO part is the greatest ISO date |
| Archived.LastDateIso | shopify-archived-reviews.js:501-517 | the summary's ISO date is the greatest ISO date of the app's reviews |
| Archived.LastDateText | shopify-archived-reviews.js:501-517 | the date text is the first text when no ISO date exists, else the text of the first review with the greatest ISO date |
| Archived.LastIsoNotBefore | shopify-archived-reviews.js:511 | a value above the greatest ISO date is no review's ISO date |
| Archived.Summarize | shopify-archived-reviews.js:493-526 | one line per app in order: the error with the raw URL, or the name, latest date and review count |
| CountArchived.RefDate | count-archived-by-date.js:7 | the reference date is the argument, else the snapshot date, else today |
| CountArchived.Results | count-archived-by-date.js:31-51 | one result per app |
| CountArchived.CountReviews | count-archived-by-date.js:34-48 | the inner loop counts exactly the reviews in the week, by ISO date, else by parsed date text |
| CountArchived.CountByApp | count-archived-by-date.js:28-51 | one line per app in snapshot order, and the grand total is their sum |
| CountArchived.CountArchivedByDate | count-archived-by-date.js:7-51 | None exactly when the reference date's week cannot be computed (an invalid date, or a bound outside years 0000..9999); otherwise the week, the lines and their total |
| CountArchived.ResultLines | count-archived-by-date.js:32-49 | line i is app i's slug with its in-week count, which is at most its number of reviews |
| CountArchived.GrandTotalIsAllInWeek | count-archived-by-date.js:50 | the grand total is the number of the snapshot's reviews dated in the week |
| CountArchived.CountedWeek | count-archived-by-date.js:3 | the week counted ends on the Sunday on or before the reference date and starts six days earlier |
| Diff.LoadSnapshot | report-archived-diff.js:13-17 | a snapshot without an app list becomes one with no apps and no date; otherwise it is unchanged |
| Diff.ReviewIdsSpec | report-archived-diff.js:28-30 | an id is collected exactly when it is non-empty and some review has it |
| Diff.IdsOfSpec | report-archived-diff.js:24-32 | a missing or failed app has no ids; otherwise an id is listed exactly when a review has it, and no id twice |
| Diff.IdsFromApp | report-archived-diff.js:24-32 | the `Set` loop gives exactly those ids |
| Diff.WithoutSpec | report-archived-diff.js:74-75 | the filter keeps the elements of xs that are not in ys, and no repeats |
| Diff.NewAndRemoved | report-archived-diff.js:74-75 | new ids are those only after, removed ids those only before, and no id is both or in both when kept |
| Diff.ByUrlSpec | report-archived-diff.js:47-54 | a URL is a key exactly when it is an app's non-empty URL, and it maps to the last app with it |
| Diff.IndexStep | report-archived-diff.js:48-50 | one more app adds its non-empty URL as a key if new and maps it to the app |
| Diff.IndexByUrl | report-archived-diff.js:47-54 | the `Map` loop gives the keys in first-set order and the URL map |
| Diff.InsertSpec | report-archived-diff.js:68 | inserting into a sorted list keeps it sorted and adds just the one element |
| Diff.InsertPerm | report-archived-diff.js:68 | insertion adds exactly one element |
| Diff.InsertSorted | report-archived-diff.js:68 | insertion keeps a list sorted |
| Diff.ConsSorted | report-archived-diff.js:68 | a sorted list stays sorted under a first element no greater than its own |
| Diff.SortSpec | report-archived-diff.js:68 | `.sort()` puts the same URLs in ascending string order |
| Diff.SortedStrict | report-archived-diff.js:68 | a sorted list without repeats is strictly ascending |
| Diff.NoDupCounts | report-archived-diff.js:56 | no repeats means no element occurs more than once |
| Diff.AllUrlsSpec | report-archived-diff.js:56-68 | the report covers every URL of either snapshot once, in strictly ascending order, and no other |
| Diff.Outcomes | report-archived-diff.js:68-90 | one outcome per URL |
| Diff.OutcomeNew | report-archived-diff.js:77-83 | a URL is reported with new ids exactly when its later app did not fail and it has some |
| Diff.AnyNewSpec | report-archived-diff.js:81-96 | the flag is set exactly when some URL whose later app did not fail has new ids |
| Diff.FailedHasNoNewIds | report-archived-diff.js:77-80 | a URL whose later app failed has no new ids, so skipping it never hides one |
| Diff.CompareSnapshots | report-archived-diff.js:42-96 | the report gives the outcome of every URL in sorted order, and the flag |
| Diff.ReportAll | report-archived-diff.js:67-90 | the loop gives the outcomes of the URLs in order, and the flag |
| Diff.ReportStep | report-archived-diff.js:68-90 | one more URL appends its outcome and ors its new ids into the flag |
| Diff.ReportUrl | report-archived-diff.js:69-89 | one URL's body gives its outcome and updates the flag |
| Server.ResolveRange | server.js:58-66 | given bounds are kept; every resolved bound is non-empty |
| Server.DefaultRangeIsSnapshotWeek | server.js:55-66 | without a range, the summary covers the week ending on or before the snapshot date |
| Server.MissingStartFromEndWeek | server.js:61-65 | a given end is kept, and a missing start comes from the week of that end |
| Server.CommentWeekIn2026 | server.js:23-24 | for Tuesday 2026-02-03 the week is Monday 2026-01-26 to Sunday 2026-02-01, as the comment says |
| Server.CommentWeekIn2025 | server.js:23-24 | in 2025, February 3 is a Monday, and its week is 2025-01-27 to 2025-02-02 |
| Server.Days2026 | server.js:23-24 | the day numbers of the 2026 example dates |
| Server.Days2025 | server.js:23-24 | the day numbers of the 2025 example dates |
| Server.Stars.Add | server.js:82-86 | `stars[bucket]++` adds one to that bucket and changes no other |
| Server.BucketOf | server.js:80-87 | a review counts under its rounded rating when that is 1..5, else under `unknown` |
| Server.BucketsOf | server.js:78-87 | one bucket per review |
| Server.TallyTotal | server.js:77-87 | the six buckets together count every review once |
| Server.TallyCounts | server.js:77-87 | each bucket holds the number of reviews whose bucket it is |
| Server.TallyConcat | server.js:70-87 | the histogram of two lists is the bucket-wise sum of theirs |
| Server.PlusNone | server.js:70 | adding the empty histogram changes nothing |
| Server.PlusAdd | server.js:82-86 | a review added to the app's histogram is added to the total |
| Server.CountConcat | server.js:109 | in-range counts over two lists add up |
| Server.InRangeRatings | server.js:92-105 | one star entry per review in range |
| Server.InRangeRatingsAre | server.js:92-105 | every listed star is that of a review in range, and every review in range has its star listed |
| Server.AllStats | server.js:71-118 | one line per app |
| Server.ArchivedIsSum | server.js:68-112 | `totalArchived` is the sum of the apps' review counts |
| Server.InRangeIsSum | server.js:109 | `totalInRange` is the sum of the apps' in-range counts |
| Server.StarsIsSum | server.js:83-86 | the total histogram is the bucket-wise sum of the apps' histograms |
| Server.ScanAllIsStats | server.js:74-108 | one app's pass gathers its in-range count and stars, latest ISO date and histogram |
| Server.ScanReview | server.js:79-107 | one review's pass is the spec's step |
| Server.SummarizeApp | server.js:72-117 | one app's pass gives its line, adds its reviews to the total and its histogram to the total histogram |
| Server.SnapshotStep | server.js:71-118 | one more app extends the lines and keeps the totals equal to those over the reviews so far |
| Server.SnapshotSummary | server.js:57-128 | None exactly when the range cannot be resolved (an invalid date, or a default bound outside years 0000..9999); else the per-app lines and the totals over all the snapshot's reviews |
| Server.InRangeByApp | server.js:232 | the previous week's part lists each app's slug and in-range count, in order |
| Server.SummaryWithPreviousWeek | server.js:222-235 | the summary is the snapshot summary of the resolved range: the snapshot date, per-app lines, totals and histogram over all the snapshot's reviews; with `weekOverWeek` the previous part is the count per app and in total over that range shifted back seven days; it fails exactly when the range cannot be resolved or shifted back (an invalid date, or a bound outside years 0000..9999) |
| Server.PreviousBoundsPresent | server.js:224-227 | shifted bounds are non-empty, so the previous summary uses them as given |
| Server.WeekOverWeekIsWeekBefore | server.js:224-227 | over a default week, the previous part is the default week of the date seven days earlier |
| Slack.PostWeekOfArgument | generate-slack-post.js:121-122 | a given week end that is a real date ends its post week on its Sunday, on or before it |
| Slack.PreviousWeekEndIsWeekBefore | generate-slack-post.js:144-148 | last week's report ends seven days before this week's end, and shifting forward again gives this week's end |
| Slack.FormatCanonicalDate | generate-slack-post.js:32-39 | a real date prints as its own month name, day and year |
| Slack.KnownCount | generate-slack-post.js:84-87 | no more known stars than stars |
| Slack.InRangeStarsValid | generate-slack-post.js:82 | the stars of the range are absent or 1..5 |
| Slack.KnownBounds | generate-slack-post.js:84-87 | no star is known exactly when the count is 0; the sum lies between once and five times the count |
| Slack.AverageInStarRange | generate-slack-post.js:91 | the average is missing exactly when no star is known; otherwise it is 1.0..5.0 stars |
| Slack.AverageRoundsHalfUp | generate-slack-post.js:91 | the average in tenths `a` satisfies `a <= 10 * mean + 1/2 < a + 1`: the mean rounded half up to one decimal |
| Slack.AllWeekStats | generate-slack-post.js:60-93 | one line per app |
| Slack.GatherAllIsStats | generate-slack-post.js:67-89 | the pass counts the reviews in range, keeps their stars, and sums and counts the known ones |
| Slack.GatherReview | generate-slack-post.js:68-88 | one review's pass is the spec's step |
| Slack.WeekStatsForApp | generate-slack-post.js:61-92 | one app's line is its slug, its in-range count, its average in tenths and its stars |
| Slack.CountsForRange | generate-slack-post.js:68-79 | a review is in range by its ISO date, else by its parsed date text |
| Slack.WeekSummary | generate-slack-post.js:57-95 | one line per app in snapshot order, and the total of reviews in range |
| Slack.WeekTotalIsSum | generate-slack-post.js:90 | the total in range is the sum of the apps' counts |
| Slack.WeekStatsFacts | generate-slack-post.js:80-92 | each line has one star per review counted; its average is missing exactly when no star is known, else 1.0..5.0 |
| Slack.SlugsOf | generate-slack-post.js:132 | the slugs of the lines, in order |
| Slack.PerAppIsLast | generate-slack-post.js:132 | a slug has an entry exactly when some line has it, and the entry is the last such line |
| Slack.IndexWeekStats | generate-slack-post.js:132 | the loop gives `archivedPerApp` and its keys in first-set order |
| Slack.IndexStatsStep | generate-slack-post.js:132 | one more line adds its slug as a key if new and maps it to the line |
| Slack.PerAppKeys | generate-slack-post.js:132 | the keys of `archivedPerApp` are the lines' slugs |
| Slack.IndexReportIsLast | generate-slack-post.js:155 | the merged report has this week's slugs, each with its last entry |
| Slack.ApplyPreviousSpec | generate-slack-post.js:156-158 | last week's entries only set the previous rating, only of slugs present and only from a known rating |
| Slack.MergedReport | generate-slack-post.js:154-158 | each slug of this week has its last entry, with last week's last known rating as its previous rating |
| Slack.MergeReports | generate-slack-post.js:154-158 | the loops build exactly that merged report |
| Slack.NewReviewsOf | generate-slack-post.js:179-180 | a slug missing from the report adds 0 new reviews |
| Slack.SumNewReviewsConcat | generate-slack-post.js:181 | new reviews over two lists of slugs add up |
| Slack.KnownRatingsConcat | generate-slack-post.js:183 | the known ratings of two lists of slugs concatenate |
| Slack.TotalIsSumOfTiers | generate-slack-post.js:169-192 | the printed total is the sum of the tiers' totals |
| Slack.UnreportedAddNothing | generate-slack-post.js:179-183 | slugs not in the report add no reviews and no ratings |
| Slack.TierTotals | generate-slack-post.js:169-190 | the tier loop's total and ratings are the new reviews and known ratings of all tiered slugs in order |
| Slack.AddTier | generate-slack-post.js:175-188 | one tier adds its slugs' new reviews and known ratings |
| Slack.Labels | generate-slack-post.js:213 | one label per rating: `<n>:star:` or a dash |
| Slack.LabelsTellUnknown | generate-slack-post.js:213-218 | a label is the dash exactly when the rating is unknown |
| Slack.CountsOfIsMultiset | generate-slack-post.js:216-220 | `dist` has a label exactly when it occurs, with its number of occurrences |
| Slack.DistributionSums | generate-slack-post.js:216-221 | the distribution's counts add up to the number of ratings |
| Slack.OneMoreOccurrence | generate-slack-post.js:217-219 | counting one more label adds one to its key's count |
| Slack.CountsKeys | generate-slack-post.js:221 | every listed key has a count |
| Slack.FewRatingsListed | generate-slack-post.js:212-215 | up to six ratings are listed each in order, an unknown one as a dash |
| Slack.ManyRatingsGrouped | generate-slack-post.js:216-222 | more than six ratings are grouped by label, once each in first-occurrence order, with counts adding up to the number of ratings |
| Slack.Distribution | generate-slack-post.js:216-220 | the `dist` loop gives each label's count and the keys in first-occurrence order |
| Slack.FormatArchivedRatings | generate-slack-post.js:202-223 | the method gives `formatArchivedRatings(entry)` |
| Slack.NonEmpty | generate-slack-post.js:226 | `.filter(Boolean)` keeps exactly the non-empty slugs |
| Slack.ListedSpec | generate-slack-post.js:227-237 | an app is listed exactly when it is a section slug with an archived count above 0, and only once |
| Slack.SectionListsArchivedApps | generate-slack-post.js:225-238 | the section lists, once each, exactly the apps of `archivedPerApp` or of the tiers whose count is above 0 |
| Slack.AppLine | generate-slack-post.js:228-236 | an app's line is its label, its count and its rating breakdown |
| Slack.ArchivedSection | generate-slack-post.js:225-243 | the section is the listed lines and the total, or the no-data note |
| Slack.ListedLines | generate-slack-post.js:227-238 | the loop gives a line for each slug whose archived count is above 0, in order |
| Weekly.SeqMax | weekly-report.js:155-157 | `sort().pop()` is an element of the list and no element is above it |
| Weekly.TruthyMax | weekly-report.js:280 | the fold gives a non-empty element no other non-empty element exceeds, and nothing only when every element is empty |
| Weekly.ElementDate | weekly-report.js:106-114 | an element's date is its `datetime` prefix when that has the ISO shape, else its text's date |
| Weekly.ElementIso | weekly-report.js:100-116 | reply-block elements and "replied" texts give no date |
| Weekly.RowIso | weekly-report.js:80-99 | the star-row element gives a date only when it has text, and then the element's date |
| Weekly.DatetimeContributesPrefix | weekly-report.js:106-107 | an admitted element with an ISO-shaped `datetime` gives its ten-character prefix |
| Weekly.ElementIsos | weekly-report.js:100-116 | at most one date per element |
| Weekly.ElementIsosAdmitted | weekly-report.js:100-116 | every element date comes from an element outside the reply block that does not mention a reply |
| Weekly.CollectDates | weekly-report.js:76-146 | the collected dates are the row date, the element dates, then the text dates |
| Weekly.InWeek | weekly-report.js:153 | the filter keeps exactly the dates in the week |
| Weekly.UpTo | weekly-report.js:154 | the filter keeps exactly the dates on or before the week's end |
| Weekly.ChooseDateSpec | weekly-report.js:152-158 | the chosen date is a candidate on or before the end; it is in the week exactly when some candidate is, and is then the greatest such |
| Weekly.Jan26 | weekly-report.js:219 | the fallback date is January 26 of the week end's year, or 2026-01-26 without a week end |
| Weekly.PickDateIff | weekly-report.js:152-224 | the picked date counts exactly when a candidate or a full-text date is in the week, or the January 26 fallback applies and is in the week |
| Weekly.CardInWeekIff | weekly-report.js:149-228 | a card counts exactly when one of its candidates or full-text dates is in the week, or it is a page's first card that opens with January 26, 2026 and that day of the end's year is in the week |
| Weekly.FallbackInWeek | weekly-report.js:161-224 | when the chosen date does not count, the fallback counts exactly when a full-text date or the January 26 date is in the week |
| Weekly.CountCards | weekly-report.js:149-228 | no more cards count than there are |
| Weekly.BestDate | weekly-report.js:150-225 | the loop body gives the card's date |
| Weekly.CountNewReviewsInRange | weekly-report.js:67-230 | the count is the number of cards dated in the week, and at most the number of cards |
| Weekly.CardLatest | weekly-report.js:249-279 | a card's latest date, when present, is non-empty |
| Weekly.OldestSpec | weekly-report.js:238-282 | the oldest date, when present, is non-empty |
| Weekly.OldestIsMin | weekly-report.js:238-282 | the oldest date is missing exactly when no card has a date, else it is one card's latest date and the least of them |
| Weekly.LatestOnCard | weekly-report.js:249-279 | the inner loop gives the card's latest date |
| Weekly.OldestDateOnPage | weekly-report.js:238-282 | the page loop gives the oldest of the cards' latest dates |
| Weekly.PaginateFrom | weekly-report.js:294-336 | the last page visited lies between the first and the 20th |
| Weekly.PaginateSums | weekly-report.js:330 | the total is the sum of the counts of the pages visited |
| Weekly.PaginateStops | weekly-report.js:332-334 | the last page visited stops the loop, and no earlier page does |
| Weekly.Visited | weekly-report.js:294-336 | one result per page visited |
| Weekly.VisitedAt | weekly-report.js:327-331 | each visited result is what its page shows |
| Weekly.PaginateVisits | weekly-report.js:294-336 | when no page before `last` stops the loop and `last` does, the loop ends there with the sum of their counts |
| Weekly.PaginateReadsVisited | weekly-report.js:294-336 | pages after the last one visited do not affect the outcome |
| Weekly.VisitedSuffices | weekly-report.js:294-336 | the outcome over the pages visited is the outcome over all 20 pages |
| Weekly.LastPageVisited | weekly-report.js:332-334 | a page that stops the loop gives the total so far plus its count, with itself as the last page |
| Weekly.MorePages | weekly-report.js:335 | a page that does not stop the loop adds its count and the loop goes on |
| Weekly.CountForApp | weekly-report.js:287-339 | the total and the last page are the pagination of the results of the pages visited, 1 to at most 20 |
| Weekly.ReadPage | weekly-report.js:326-333 | one page's visit gives its count, its oldest date and whether it links further |
| Weekly.DefaultWeekIsLastWeek | weekly-report.js:52-58 | without an argument, the report covers the week whose Sunday is the last Sunday before today |

## Left out

- The browser and the DOM. Page loads, waits, scrolling, clicking "Show archived reviews" and the CSS selectors are not modelled. What the selectors find is given as input: cards, date elements, date divs, merchant containers, `<time>` hits, id blocks and pager page numbers.
- `extractFromCard` and `getRating` read attributes and text from elements. Their results are inputs: a record or none, and a rating with its label.
- Regular-expression text scans are given as their resulting date lists. These are the month-first and day-first date scans, the scans without a year and their year hint, the `YYYY-MM-DD` and `D/M/YYYY` scans of the full text, and the lead-text test for "January 26, 2026". The `replied` test, the `datetime` ISO prefix and the slug and `/reviews` patterns are modelled.
- Calendar.ToIso: renders only years 0000..9999 and gives None elsewhere. A valid JavaScript date outside those years prints in the expanded-year form (`-000001-12` after `slice(0, 10)`), and the script goes on with that string. String order of such strings is not day order, which the model relies on. So where a computed bound falls outside years 0000..9999, the following give None or Failed where the script would continue: Weeks.WeekMondayToSunday, Weeks.ShiftDate, Weeks.PreviousWeek, Server.ResolveRange, Server.SnapshotSummary, Server.SummaryWithPreviousWeek and CountArchived.CountArchivedByDate. An example is a reference date of `0000-01-01`, whose week starts in year -1.
- `new Date(text)` on free-form text is an uninterpreted parameter. `new Date(iso + 'T12:00:00Z')` is modelled for `YYYY`, `YYYY-MM` and `YYYY-MM-DD` with years 0000..9999. Expanded years and other formats give no date.
- `getCurrentRating` and `getCurrentRatingFromCurrentPage` (weekly-report.js:341-380) read the page text with regular expressions. The ratings they produce are inputs (`ReportEntry.currentRating`).
- The weekly report's `main` (weekly-report.js:382-434) and the scraper's `main` and `scrapeApp` are left out: browser launch, the try/catch per app, writing the JSON file. The per-app error they record appears as the `error` field of an app entry.
- File I/O is left out: reading and writing snapshots, `findLatestSnapshot`, report path resolution, JSON parsing and command-line argument parsing. The loaded data are inputs. The clock (`new Date()` for today) is a parameter.
- The Express routes of server.js are left out, apart from the summary route's logic (`SummaryWithPreviousWeek`), along with the run-state files and the spawned child processes.
- The debug output (`--debug`, `perCard`, card snippets) and all console output are left out. The exception is the diff report's lines (`Diff.OutcomeLines`, `Diff.SummaryLine`), which are written out without a contract.
- Diff.OutcomeLines: no contract; it only formats an outcome.
- Diff.SummaryLine: no contract; it only formats the flag.
- The Slack post's header lines, its tier lines (padding to 20 characters, `toFixed(1)` of the ratings) and `OVERALL AVERAGE` (`toFixed(2)` of a floating-point mean) are left out. The model gives the total and the list of ratings they are computed from (`Slack.TierTotals`).
- Slack.AverageTenths: computes the exact rational mean rounded half up to tenths, not IEEE floating point. The two agree except where a binary floating-point rounding lands on the other side of a half.
- Records.Star: `Math.round` is modelled on exact reals.
- Ratings are exact reals, not IEEE doubles. Review ids are strings, as `String(r.id)` makes them.
- Strings are sequences of characters, compared character by character, rather than UTF-16 code units. For the ASCII dates, URLs and ids used here the two orders coincide.
- Slack.IndexWeekStats: the keys of `archivedPerApp` are kept in first-set order. `Object.keys` (generate-slack-post.js:226) lists integer-like keys first, in ascending order. No configured slug is integer-like, so the order differs only for such slugs.
- Slack.SectionSlugs: shares that key order, for the same reason.
- Weekly.PaginateFrom: the loop is bounded by `maxPages` (20) as in the script. No other fuel is used.
- `snapshotSummary` in server.js does not skip apps whose scrape failed, and neither does the model.
- Null entries in an app list (`filter(Boolean)` in the diff report) are not modelled: app entries are always present.
- `archivedWord` in generate-slack-post.js:231 is "Archived" on both branches, and the model writes it once.
- Diff.Sort: `Array.prototype.sort` is modelled by an insertion sort function specified by sortedness and permutation. The engine's algorithm is not modelled.
