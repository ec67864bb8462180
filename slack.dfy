/**
 * The weekly Slack post: the week it covers, the archived reviews of that
 * week per app (count, average star rating in tenths, the stars themselves),
 * the merge of this week's and last week's report, the tier totals, and the
 * archived section with its rating breakdown.
 */
module Slack {
  import opened Wrappers
  import opened Strs
  import opened Calendar
  import opened Weeks
  import opened Records
  import opened Slugs
  import opened Server
  import AppConfig

  // ---------------------------------------------------------------------------
  // The week and its label.
  // ---------------------------------------------------------------------------

  /** The week of the post: the Monday-to-Sunday week of the `--week-end` argument, else of today. */
  function PostWeek(weekEndArg: Option<string>, today: string): Option<Window> {
    WeekMondayToSunday(if Truthy(weekEndArg) then weekEndArg.value else today)
  }

  /** A given week end that is a real date is in the week of the post, on its Sunday or after it. */
  lemma PostWeekOfArgument(weekEnd: string, today: string)
    requires CanonicalIso(weekEnd) && PostWeek(Some(weekEnd), today).Some?
    ensures ParseIsoDay(PostWeek(Some(weekEnd), today).value.end) == Some(WeekEndDay(ParseIsoDay(weekEnd).value))
    ensures LexLe(PostWeek(Some(weekEnd), today).value.end, weekEnd)
  {
    WeekWindowSpec(weekEnd);
    WeekWindowEndsOnOrBefore(weekEnd);
  }

  /** The end of last week's report: seven days before this week's end. */
  function PreviousWeekEnd(weekEnd: string): Option<string> {
    ShiftDate(weekEnd, -7)
  }

  /** Last week's report ends on the day seven days before this week's end, and shifting forward again gives this week's end. */
  lemma PreviousWeekEndIsWeekBefore(weekEnd: string)
    requires CanonicalIso(weekEnd) && PreviousWeekEnd(weekEnd).Some?
    ensures ParseIsoDay(PreviousWeekEnd(weekEnd).value) == Some(ParseIsoDay(weekEnd).value - 7)
    ensures ShiftDate(PreviousWeekEnd(weekEnd).value, 7) == Some(weekEnd)
  {
    ShiftDateSpec(weekEnd, -7);
    ShiftRoundTrip(weekEnd, -7);
  }

  const MonthNames: seq<string> := ["January", "February", "March", "April", "May", "June", "July",
                                    "August", "September", "October", "November", "December"]

  /** `fmt(iso)`: "<Month> D, YYYY" of `new Date(iso + 'T12:00:00Z')`, "undefined NaN, NaN" for an invalid date. */
  function FormatDate(iso: string): string {
    match ParseIsoDay(iso)
    case None => "undefined NaN, NaN"
    case Some(day) =>
      var c := CivilFromDays(day);
      MonthNames[c.month - 1] + " " + Decimal(c.day) + ", " + YearText(c.year)
  }

  /** `String(year)`. */
  function YearText(year: int): string {
    if year < 0 then "-" + Decimal(-year) else Decimal(year)
  }

  /** `formatDateRange(start, end)`. */
  function FormatDateRange(start: string, end: string): string {
    FormatDate(start) + " - " + FormatDate(end)
  }

  /** A real date prints with its own month name, day and year. */
  lemma FormatCanonicalDate(iso: string)
    requires CanonicalIso(iso)
    ensures var c := DateFields(iso).value;
      FormatDate(iso) == MonthNames[c.month - 1] + " " + Decimal(c.day) + ", " + Decimal(c.year)
  {
    var c := DateFields(iso).value;
    assert ParseIsoDay(iso) == Some(DaysFromCivil(c));
    CivilRoundTrip(c);
  }

  // ---------------------------------------------------------------------------
  // The snapshot summary of the post.
  // ---------------------------------------------------------------------------

  /** One app's archived reviews of the week: its slug, the count, the average star rating in tenths and the stars. */
  datatype WeekStats = WeekStats(slug: string, inRange: nat, averageRating: Option<int>, inRangeRatings: seq<Option<int>>)

  /** The sum and the number of the known stars. */
  function KnownSum(ratings: seq<Option<int>>): int {
    if ratings == [] then 0
    else KnownSum(ratings[..|ratings| - 1]) + (if ratings[|ratings| - 1].Some? then ratings[|ratings| - 1].value else 0)
  }

  function KnownCount(ratings: seq<Option<int>>): (n: nat)
    ensures n <= |ratings|
  {
    if ratings == [] then 0
    else KnownCount(ratings[..|ratings| - 1]) + (if ratings[|ratings| - 1].Some? then 1 else 0)
  }

  /**
   * `Math.round((ratingSum / ratingCount) * 10) / 10` in tenths of a star:
   * the mean rounded half up to one decimal, None without a known star. The
   * model computes the exact rational mean.
   */
  function AverageTenths(ratings: seq<Option<int>>): Option<int> {
    var n := KnownCount(ratings);
    if n == 0 then None else Some((20 * KnownSum(ratings) + n) / (2 * n))
  }

  /**
   * The average, in tenths, is the mean rounded half up: with `a` tenths,
   * `a / 10 <= sum / n + 1 / 20 < (a + 1) / 10`, written without division.
   */
  lemma AverageRoundsHalfUp(ratings: seq<Option<int>>)
    requires KnownCount(ratings) > 0
    ensures var n := KnownCount(ratings);
      var a := AverageTenths(ratings).value;
      2 * n * a <= 20 * KnownSum(ratings) + n < 2 * n * (a + 1)
  {
    var n := KnownCount(ratings);
    var x := 20 * KnownSum(ratings) + n;
    var d := 2 * n;
    var a := x / d;
    assert x == d * a + x % d && 0 <= x % d < d;
    assert d * (a + 1) == d * a + d;
  }

  /** Stars are absent or 1 to 5. */
  predicate ValidStars(ratings: seq<Option<int>>) {
    forall i :: 0 <= i < |ratings| && ratings[i].Some? ==> 1 <= ratings[i].value <= 5
  }

  /** The stars of a range are 1 to 5. */
  lemma {:induction false} InRangeStarsValid(rs: seq<Review>, w: Window, parse: string -> Option<string>)
    ensures ValidStars(InRangeRatings(rs, w, parse))
  {
    if rs != [] {
      InRangeStarsValid(rs[..|rs| - 1], w, parse);
    }
  }

  /** No star is known exactly when the count of known stars is 0; their sum is between once and five times their count. */
  lemma {:induction false} KnownBounds(ratings: seq<Option<int>>)
    requires ValidStars(ratings)
    ensures KnownCount(ratings) == 0 <==> forall i :: 0 <= i < |ratings| ==> ratings[i].None?
    ensures KnownCount(ratings) <= KnownSum(ratings) <= 5 * KnownCount(ratings)
  {
    if ratings != [] {
      var init := ratings[..|ratings| - 1];
      assert ValidStars(init) by {
        forall i | 0 <= i < |init| && init[i].Some? ensures 1 <= init[i].value <= 5 {
          assert init[i] == ratings[i];
        }
      }
      KnownBounds(init);
      assert forall i :: 0 <= i < |init| ==> init[i] == ratings[i];
    }
  }

  /**
   * The average is absent exactly when no star is known, and otherwise lies
   * between 1.0 and 5.0 stars.
   */
  lemma AverageInStarRange(ratings: seq<Option<int>>)
    requires ValidStars(ratings)
    ensures AverageTenths(ratings).None? <==> forall i :: 0 <= i < |ratings| ==> ratings[i].None?
    ensures AverageTenths(ratings).Some? ==> 10 <= AverageTenths(ratings).value <= 50
  {
    KnownBounds(ratings);
    var n := KnownCount(ratings);
    if n > 0 {
      var x := 20 * KnownSum(ratings) + n;
      assert 10 * (2 * n) <= x < 51 * (2 * n);
      QuotientBetween(x, 2 * n, 10, 51);
    }
  }

  /** A quotient of x by d is at least lo and below hi when x lies in [lo * d, hi * d). */
  lemma QuotientBetween(x: nat, d: nat, lo: nat, hi: nat)
    requires d > 0 && lo * d <= x < hi * d
    ensures lo <= x / d < hi
  {
    var q := x / d;
    assert x == q * d + x % d && 0 <= x % d < d;
    MulNonNegative(lo - q - 1, d);
    MulNonNegative(q - hi, d);
  }

  /** A product of a non-negative number and a natural number is non-negative. */
  lemma {:induction false} MulNonNegative(m: int, d: nat)
    ensures m >= 0 ==> m * d >= 0
  {
    if d > 0 {
      MulNonNegative(m, d - 1);
      assert m * d == m * (d - 1) + m;
    }
  }

  /** The week's line of one app. */
  function WeekStatsOf(a: App, w: Window, parse: string -> Option<string>): WeekStats {
    var rs := ReviewsOf(a);
    var stars := InRangeRatings(rs, w, parse);
    WeekStats(SlugOrEmpty(a.appReviewsUrl), CountInWindow(rs, w.start, w.end, parse), AverageTenths(stars), stars)
  }

  function AllWeekStats(apps: seq<App>, w: Window, parse: string -> Option<string>): (s: seq<WeekStats>)
    ensures |s| == |apps|
  {
    if apps == [] then [] else AllWeekStats(apps[..|apps| - 1], w, parse) + [WeekStatsOf(apps[|apps| - 1], w, parse)]
  }

  /** What the pass over an app's reviews has gathered: the count, the stars, and their sum and number where known. */
  datatype Gathered = Gathered(inRange: nat, inRangeRatings: seq<Option<int>>, ratingSum: int, ratingCount: nat)

  /** One review of the pass: a review in the range is counted and its star kept, and a known star added up. */
  function GatherStep(g: Gathered, r: Review, w: Window, parse: string -> Option<string>): Gathered {
    if !ReviewInWindow(r, w.start, w.end, parse) then g
    else
      var star := Star(r.rating);
      Gathered(g.inRange + 1, g.inRangeRatings + [star],
               if star.Some? then g.ratingSum + star.value else g.ratingSum,
               if star.Some? then g.ratingCount + 1 else g.ratingCount)
  }

  function GatherAll(rs: seq<Review>, w: Window, parse: string -> Option<string>): Gathered {
    if rs == [] then Gathered(0, [], 0, 0) else GatherStep(GatherAll(rs[..|rs| - 1], w, parse), rs[|rs| - 1], w, parse)
  }

  /** The pass counts the reviews in the range and sums and counts the known stars among them. */
  lemma {:induction false} GatherAllIsStats(rs: seq<Review>, w: Window, parse: string -> Option<string>)
    ensures var ratings := InRangeRatings(rs, w, parse);
      GatherAll(rs, w, parse) == Gathered(CountInWindow(rs, w.start, w.end, parse), ratings, KnownSum(ratings), KnownCount(ratings))
  {
    if rs != [] {
      var init := rs[..|rs| - 1];
      GatherAllIsStats(init, w, parse);
      var ratings := InRangeRatings(init, w, parse);
      var star := Star(rs[|rs| - 1].rating);
      assert (ratings + [star])[..|ratings|] == ratings;
    }
  }

  /** The body of the pass for one review. */
  method GatherReview(g: Gathered, r: Review, w: Window, parse: string -> Option<string>) returns (next: Gathered)
    ensures next == GatherStep(g, r, w, parse)
  {
    var isInRange := CountsForRange(r, w, parse);
    next := g;
    if isInRange {
      var star := Star(r.rating);
      next := next.(inRange := next.inRange + 1, inRangeRatings := next.inRangeRatings + [star]);
      if star.Some? {
        next := next.(ratingSum := next.ratingSum + star.value, ratingCount := next.ratingCount + 1);
      }
    }
  }

  /**
   * One app's pass of the post's `snapshotSummary`: counts the reviews in the
   * range (ISO date, else parsed date text), keeps their stars, and averages
   * the known ones.
   */
  method WeekStatsForApp(a: App, w: Window, parse: string -> Option<string>) returns (s: WeekStats)
    ensures s == WeekStatsOf(a, w, parse)
  {
    var reviews := ReviewsOf(a);
    var g := Gathered(0, [], 0, 0);
    var j := 0;
    while j < |reviews|
      invariant 0 <= j <= |reviews|
      invariant g == GatherAll(reviews[..j], w, parse)
    {
      assert reviews[..j + 1][..j] == reviews[..j];
      g := GatherReview(g, reviews[j], w, parse);
      j := j + 1;
    }
    assert reviews[..|reviews|] == reviews;
    GatherAllIsStats(reviews, w, parse);
    var averageRating := if g.ratingCount > 0 then Some((20 * g.ratingSum + g.ratingCount) / (2 * g.ratingCount)) else None;
    s := WeekStats(SlugOrEmpty(a.appReviewsUrl), g.inRange, averageRating, g.inRangeRatings);
  }

  /** A review counts for the range by its ISO date, else by its parsed date text. */
  method CountsForRange(r: Review, w: Window, parse: string -> Option<string>) returns (isInRange: bool)
    ensures isInRange == ReviewInWindow(r, w.start, w.end, parse)
  {
    isInRange := false;
    var d := r.dateISO;
    if Truthy(d) && InRange(d.value, w.start, w.end) {
      isInRange := true;
    } else if Truthy(r.dateText) {
      var parsed := parse(r.dateText.value);
      if parsed.Some? && InRange(parsed.value, w.start, w.end) {
        isInRange := true;
      }
    }
  }

  /** The post's `snapshotSummary(data, rangeStart, rangeEnd)`: one line per app in snapshot order, and the total in the range. */
  method WeekSummary(data: Snapshot, w: Window, parse: string -> Option<string>) returns (apps: seq<WeekStats>, totalInRange: nat)
    ensures apps == AllWeekStats(AppsOf(data), w, parse)
    ensures totalInRange == CountInWindow(AllReviews(AppsOf(data)), w.start, w.end, parse)
  {
    var dataApps := AppsOf(data);
    apps, totalInRange := [], 0;
    var i := 0;
    while i < |dataApps|
      invariant 0 <= i <= |dataApps|
      invariant apps == AllWeekStats(dataApps[..i], w, parse)
      invariant totalInRange == CountInWindow(AllReviews(dataApps[..i]), w.start, w.end, parse)
    {
      assert dataApps[..i + 1][..i] == dataApps[..i];
      assert AllReviews(dataApps[..i + 1]) == AllReviews(dataApps[..i]) + ReviewsOf(dataApps[i]);
      CountConcat(AllReviews(dataApps[..i]), ReviewsOf(dataApps[i]), w, parse);
      var s := WeekStatsForApp(dataApps[i], w, parse);
      totalInRange := totalInRange + s.inRange;
      apps := apps + [s];
      i := i + 1;
    }
    assert dataApps[..|dataApps|] == dataApps;
  }

  /** The total in the range is the sum of the apps' counts. */
  function SumWeekInRange(s: seq<WeekStats>): nat {
    if s == [] then 0 else SumWeekInRange(s[..|s| - 1]) + s[|s| - 1].inRange
  }

  lemma {:induction false} WeekTotalIsSum(apps: seq<App>, w: Window, parse: string -> Option<string>)
    ensures CountInWindow(AllReviews(apps), w.start, w.end, parse) == SumWeekInRange(AllWeekStats(apps, w, parse))
  {
    if apps != [] {
      var init := apps[..|apps| - 1];
      var s := AllWeekStats(apps, w, parse);
      WeekTotalIsSum(init, w, parse);
      CountConcat(AllReviews(init), ReviewsOf(apps[|apps| - 1]), w, parse);
      assert s[..|s| - 1] == AllWeekStats(init, w, parse);
    }
  }

  /**
   * Each app's line has one star entry per review counted, and its average
   * is absent exactly when none of those has a known star, else 1.0 to 5.0.
   */
  lemma WeekStatsFacts(a: App, w: Window, parse: string -> Option<string>)
    ensures |WeekStatsOf(a, w, parse).inRangeRatings| == WeekStatsOf(a, w, parse).inRange
    ensures var s := WeekStatsOf(a, w, parse);
      && (s.averageRating.None? <==> forall i :: 0 <= i < |s.inRangeRatings| ==> s.inRangeRatings[i].None?)
      && (s.averageRating.Some? ==> 10 <= s.averageRating.value <= 50)
  {
    InRangeStarsValid(ReviewsOf(a), w, parse);
    AverageInStarRange(InRangeRatings(ReviewsOf(a), w, parse));
  }

  // ---------------------------------------------------------------------------
  // Entries keyed by slug, in the order the keys were first set.
  // ---------------------------------------------------------------------------

  function SlugsOf(s: seq<WeekStats>): (r: seq<string>)
    ensures |r| == |s| && forall i :: 0 <= i < |s| ==> r[i] == s[i].slug
  {
    if s == [] then [] else SlugsOf(s[..|s| - 1]) + [s[|s| - 1].slug]
  }

  /** `archivedPerApp`: each slug's entry, a later app with the same slug replacing an earlier one. */
  function PerApp(s: seq<WeekStats>): map<string, WeekStats> {
    if s == [] then map[] else PerApp(s[..|s| - 1])[s[|s| - 1].slug := s[|s| - 1]]
  }

  /** A slug has an entry exactly when an app has that slug, and the entry is the last such app's. */
  lemma {:induction false} PerAppIsLast(s: seq<WeekStats>, slug: string)
    ensures slug in PerApp(s) <==> exists i :: 0 <= i < |s| && s[i].slug == slug
    ensures slug in PerApp(s) ==>
      exists i :: (0 <= i < |s| && s[i] == PerApp(s)[slug] && forall j :: i < j < |s| ==> s[j].slug != slug)
  {
    if s != [] {
      var init := s[..|s| - 1];
      PerAppIsLast(init, slug);
      assert forall i :: 0 <= i < |init| ==> init[i] == s[i];
      if slug != s[|s| - 1].slug && slug in PerApp(s) {
        var i :| 0 <= i < |init| && init[i] == PerApp(init)[slug] && forall j :: i < j < |init| ==> init[j].slug != slug;
        assert s[i] == PerApp(s)[slug];
      }
    }
  }

  /** Fills `archivedPerApp` from the summary's apps; the keys are listed in the order they were first set. */
  method IndexWeekStats(apps: seq<WeekStats>) returns (keys: seq<string>, perApp: map<string, WeekStats>)
    ensures keys == Dedup(SlugsOf(apps)) && perApp == PerApp(apps)
    ensures forall k :: k in keys <==> k in perApp
  {
    keys, perApp := [], map[];
    var i := 0;
    while i < |apps|
      invariant 0 <= i <= |apps|
      invariant keys == Dedup(SlugsOf(apps[..i])) && perApp == PerApp(apps[..i])
    {
      IndexStatsStep(apps, i);
      var a := apps[i];
      if a.slug !in perApp {
        keys := keys + [a.slug];
      }
      perApp := perApp[a.slug := a];
      i := i + 1;
    }
    assert apps[..|apps|] == apps;
    DedupSpec(SlugsOf(apps));
    PerAppKeys(apps);
  }

  /** One more app: its slug becomes a key if it is new, and maps to the app. */
  lemma IndexStatsStep(apps: seq<WeekStats>, i: nat)
    requires i < |apps|
    ensures var keys := Dedup(SlugsOf(apps[..i]));
      var m := PerApp(apps[..i]);
      && Dedup(SlugsOf(apps[..i + 1])) == (if apps[i].slug !in m then keys + [apps[i].slug] else keys)
      && PerApp(apps[..i + 1]) == m[apps[i].slug := apps[i]]
  {
    assert apps[..i + 1][..i] == apps[..i];
    var seen := SlugsOf(apps[..i]);
    assert SlugsOf(apps[..i + 1]) == seen + [apps[i].slug];
    PerAppKeys(apps[..i]);
    DedupSnoc(seen, apps[i].slug);
    DedupSpec(seen);
  }

  /** The keys of `archivedPerApp` are the apps' slugs. */
  lemma {:induction false} PerAppKeys(s: seq<WeekStats>)
    ensures forall k :: k in PerApp(s) <==> k in SlugsOf(s)
  {
    if s != [] {
      PerAppKeys(s[..|s| - 1]);
      assert SlugsOf(s) == SlugsOf(s[..|s| - 1]) + [s[|s| - 1].slug];
    }
  }

  // ---------------------------------------------------------------------------
  // This week's and last week's report.
  // ---------------------------------------------------------------------------

  /** One app of a weekly report: its slug, its new reviews and its rating, and a previous rating if the entry has one. */
  datatype ReportEntry = ReportEntry(slug: string, newReviews: Option<int>, currentRating: Option<real>, previousRating: Option<real>)

  /** `reportBySlug` after the copies of this week's entries: a later entry replaces an earlier one. */
  function IndexReport(report: seq<ReportEntry>): map<string, ReportEntry> {
    if report == [] then map[] else IndexReport(report[..|report| - 1])[report[|report| - 1].slug := report[|report| - 1]]
  }

  /** Last week's rating of each slug already indexed, where last week's entry has one. */
  function ApplyPrevious(m: map<string, ReportEntry>, previous: seq<ReportEntry>): map<string, ReportEntry> {
    if previous == [] then m
    else
      var m1 := ApplyPrevious(m, previous[..|previous| - 1]);
      var p := previous[|previous| - 1];
      if p.slug in m1 && p.currentRating.Some? then m1[p.slug := m1[p.slug].(previousRating := p.currentRating)] else m1
  }

  /** The last entry of a slug, if any. */
  function LastEntry(report: seq<ReportEntry>, slug: string): Option<ReportEntry> {
    if report == [] then None
    else if report[|report| - 1].slug == slug then Some(report[|report| - 1])
    else LastEntry(report[..|report| - 1], slug)
  }

  /** The last known rating of a slug in last week's report, if any. */
  function LastRating(previous: seq<ReportEntry>, slug: string): Option<real> {
    if previous == [] then None
    else
      var p := previous[|previous| - 1];
      if p.slug == slug && p.currentRating.Some? then p.currentRating else LastRating(previous[..|previous| - 1], slug)
  }

  /** The merged report's keys are this week's slugs, each with its last entry. */
  lemma {:induction false} IndexReportIsLast(report: seq<ReportEntry>, slug: string)
    ensures slug in IndexReport(report) <==> LastEntry(report, slug).Some?
    ensures slug in IndexReport(report) ==> IndexReport(report)[slug] == LastEntry(report, slug).value
  {
    if report != [] {
      IndexReportIsLast(report[..|report| - 1], slug);
    }
  }

  /** Last week's ratings change only the previous rating, and only of slugs already present. */
  lemma {:induction false} ApplyPreviousSpec(m: map<string, ReportEntry>, previous: seq<ReportEntry>, slug: string)
    ensures slug in ApplyPrevious(m, previous) <==> slug in m
    ensures slug in m ==>
      (ApplyPrevious(m, previous)[slug]
       == m[slug].(previousRating := if LastRating(previous, slug).Some? then LastRating(previous, slug) else m[slug].previousRating))
  {
    if previous != [] {
      ApplyPreviousSpec(m, previous[..|previous| - 1], slug);
    }
  }

  /**
   * The merged report: the slugs of this week's report, each with its last
   * entry there, whose previous rating becomes last week's last known rating
   * of that slug when there is one.
   */
  lemma MergedReport(report: seq<ReportEntry>, previous: seq<ReportEntry>, slug: string)
    ensures slug in ApplyPrevious(IndexReport(report), previous) <==> LastEntry(report, slug).Some?
    ensures LastEntry(report, slug).Some? ==>
      var e := LastEntry(report, slug).value;
      ApplyPrevious(IndexReport(report), previous)[slug]
      == e.(previousRating := if LastRating(previous, slug).Some? then LastRating(previous, slug) else e.previousRating)
  {
    IndexReportIsLast(report, slug);
    ApplyPreviousSpec(IndexReport(report), previous, slug);
  }

  /** Builds `reportBySlug`: copies of this week's entries, then last week's known ratings as previous ratings. */
  method MergeReports(report: seq<ReportEntry>, previous: seq<ReportEntry>) returns (bySlug: map<string, ReportEntry>)
    ensures bySlug == ApplyPrevious(IndexReport(report), previous)
  {
    bySlug := map[];
    var i := 0;
    while i < |report|
      invariant 0 <= i <= |report|
      invariant bySlug == IndexReport(report[..i])
    {
      assert report[..i + 1][..i] == report[..i];
      bySlug := bySlug[report[i].slug := report[i]];
      i := i + 1;
    }
    assert report[..|report|] == report;
    ghost var indexed := bySlug;
    var k := 0;
    while k < |previous|
      invariant 0 <= k <= |previous|
      invariant bySlug == ApplyPrevious(indexed, previous[..k])
    {
      assert previous[..k + 1][..k] == previous[..k];
      var a := previous[k];
      if a.slug in bySlug && a.currentRating.Some? {
        bySlug := bySlug[a.slug := bySlug[a.slug].(previousRating := a.currentRating)];
      }
      k := k + 1;
    }
    assert previous[..|previous|] == previous;
  }

  // ---------------------------------------------------------------------------
  // The tiers.
  // ---------------------------------------------------------------------------

  /** A slug's new reviews in the merged report; a missing slug or count is 0. */
  function NewReviewsOf(bySlug: map<string, ReportEntry>, slug: string): (n: int)
    ensures slug !in bySlug ==> n == 0
  {
    if slug in bySlug && bySlug[slug].newReviews.Some? then bySlug[slug].newReviews.value else 0
  }

  /** A slug's current rating in the merged report, if any. */
  function RatingOf(bySlug: map<string, ReportEntry>, slug: string): Option<real> {
    if slug in bySlug then bySlug[slug].currentRating else None
  }

  function SumNewReviews(slugs: seq<string>, bySlug: map<string, ReportEntry>): int {
    if slugs == [] then 0 else SumNewReviews(slugs[..|slugs| - 1], bySlug) + NewReviewsOf(bySlug, slugs[|slugs| - 1])
  }

  /** The known current ratings of the slugs, in order. */
  function KnownRatings(slugs: seq<string>, bySlug: map<string, ReportEntry>): seq<real> {
    if slugs == [] then []
    else
      var r := RatingOf(bySlug, slugs[|slugs| - 1]);
      KnownRatings(slugs[..|slugs| - 1], bySlug) + (if r.Some? then [r.value] else [])
  }

  /** The slugs of all tiers, in report order. */
  function Flatten(tiers: seq<seq<string>>): seq<string> {
    if tiers == [] then [] else Flatten(tiers[..|tiers| - 1]) + tiers[|tiers| - 1]
  }

  /** The new reviews of two lists of slugs add up. */
  lemma {:induction false} SumNewReviewsConcat(a: seq<string>, b: seq<string>, bySlug: map<string, ReportEntry>)
    ensures SumNewReviews(a + b, bySlug) == SumNewReviews(a, bySlug) + SumNewReviews(b, bySlug)
  {
    if b != [] {
      SumNewReviewsConcat(a, b[..|b| - 1], bySlug);
      assert (a + b)[..|a + b| - 1] == a + b[..|b| - 1];
    } else {
      assert a + b == a;
    }
  }

  lemma {:induction false} KnownRatingsConcat(a: seq<string>, b: seq<string>, bySlug: map<string, ReportEntry>)
    ensures KnownRatings(a + b, bySlug) == KnownRatings(a, bySlug) + KnownRatings(b, bySlug)
  {
    if b != [] {
      KnownRatingsConcat(a, b[..|b| - 1], bySlug);
      assert (a + b)[..|a + b| - 1] == a + b[..|b| - 1];
    } else {
      assert a + b == a;
    }
  }

  /** The sum of the new reviews of each tier. */
  function SumByTier(tiers: seq<seq<string>>, bySlug: map<string, ReportEntry>): int {
    if tiers == [] then 0 else SumByTier(tiers[..|tiers| - 1], bySlug) + SumNewReviews(tiers[|tiers| - 1], bySlug)
  }

  /** The printed total is the sum of the tiers' totals. */
  lemma {:induction false} TotalIsSumOfTiers(tiers: seq<seq<string>>, bySlug: map<string, ReportEntry>)
    ensures SumNewReviews(Flatten(tiers), bySlug) == SumByTier(tiers, bySlug)
  {
    if tiers != [] {
      TotalIsSumOfTiers(tiers[..|tiers| - 1], bySlug);
      SumNewReviewsConcat(Flatten(tiers[..|tiers| - 1]), tiers[|tiers| - 1], bySlug);
    }
  }

  /** A slug that is not in the merged report adds nothing to the total. */
  lemma {:induction false} UnreportedAddNothing(slugs: seq<string>, bySlug: map<string, ReportEntry>)
    requires forall i :: 0 <= i < |slugs| ==> slugs[i] !in bySlug
    ensures SumNewReviews(slugs, bySlug) == 0 && KnownRatings(slugs, bySlug) == []
  {
    if slugs != [] {
      UnreportedAddNothing(slugs[..|slugs| - 1], bySlug);
    }
  }

  /**
   * The tier loop of the post: every tiered slug adds its new reviews (0 when
   * missing) to the total and its known current rating to the ratings.
   */
  method TierTotals(tiers: seq<seq<string>>, bySlug: map<string, ReportEntry>) returns (totalNewReviews: int, ratings: seq<real>)
    ensures totalNewReviews == SumNewReviews(Flatten(tiers), bySlug)
    ensures ratings == KnownRatings(Flatten(tiers), bySlug)
  {
    totalNewReviews, ratings := 0, [];
    var t := 0;
    while t < |tiers|
      invariant 0 <= t <= |tiers|
      invariant totalNewReviews == SumNewReviews(Flatten(tiers[..t]), bySlug)
      invariant ratings == KnownRatings(Flatten(tiers[..t]), bySlug)
    {
      assert tiers[..t + 1][..t] == tiers[..t];
      SumNewReviewsConcat(Flatten(tiers[..t]), tiers[t], bySlug);
      KnownRatingsConcat(Flatten(tiers[..t]), tiers[t], bySlug);
      totalNewReviews, ratings := AddTier(totalNewReviews, ratings, tiers[t], bySlug);
      t := t + 1;
    }
    assert tiers[..|tiers|] == tiers;
  }

  /** The inner loop over one tier's slugs. */
  method AddTier(total0: int, ratings0: seq<real>, tier: seq<string>, bySlug: map<string, ReportEntry>)
    returns (totalNewReviews: int, ratings: seq<real>)
    ensures totalNewReviews == total0 + SumNewReviews(tier, bySlug)
    ensures ratings == ratings0 + KnownRatings(tier, bySlug)
  {
    totalNewReviews, ratings := total0, ratings0;
    var k := 0;
    while k < |tier|
      invariant 0 <= k <= |tier|
      invariant totalNewReviews == total0 + SumNewReviews(tier[..k], bySlug)
      invariant ratings == ratings0 + KnownRatings(tier[..k], bySlug)
    {
      assert tier[..k + 1][..k] == tier[..k];
      var slug := tier[k];
      var newReviews := if slug in bySlug && bySlug[slug].newReviews.Some? then bySlug[slug].newReviews.value else 0;
      totalNewReviews := totalNewReviews + newReviews;
      var rating := if slug in bySlug then bySlug[slug].currentRating else None;
      if rating.Some? {
        assert ratings + [rating.value] == ratings0 + (KnownRatings(tier[..k], bySlug) + [rating.value]);
        ratings := ratings + [rating.value];
      } else {
        assert KnownRatings(tier[..k], bySlug) + [] == KnownRatings(tier[..k], bySlug);
      }
      k := k + 1;
    }
    assert tier[..|tier|] == tier;
  }

  // ---------------------------------------------------------------------------
  // The archived section.
  // ---------------------------------------------------------------------------

  /** `String(n)` for an integer. */
  function IntText(n: int): string {
    if n < 0 then "-" + Decimal(-n) else Decimal(n)
  }

  /** `String(v / 10)` for a number of tenths: no fraction for a whole number, else one decimal. */
  function TenthsText(v: int): string {
    var a := if v < 0 then -v else v;
    (if v < 0 then "-" else "") + Decimal(a / 10) + (if a % 10 == 0 then "" else "." + [DigitChar(a % 10)])
  }

  /** ` (<avg> star(s) avg)`. */
  function AverageText(v: int): string {
    " (" + TenthsText(v) + " " + (if v == 10 then "star" else "stars") + " avg)"
  }

  /** A rating's label: `<n>:star:`, or an em dash for an unknown one. */
  function StarLabel(s: Option<int>): string {
    if s.Some? then IntText(s.value) + ":star:" else "\U{2014}"
  }

  function Labels(ratings: seq<Option<int>>): (r: seq<string>)
    ensures |r| == |ratings| && forall i :: 0 <= i < |ratings| ==> r[i] == StarLabel(ratings[i])
  {
    if ratings == [] then [] else Labels(ratings[..|ratings| - 1]) + [StarLabel(ratings[|ratings| - 1])]
  }

  /** An unknown rating's dash is never a star label. */
  lemma LabelsTellUnknown(ratings: seq<Option<int>>)
    ensures forall i :: 0 <= i < |ratings| ==> (Labels(ratings)[i] == "\U{2014}" <==> ratings[i].None?)
  {
    forall i | 0 <= i < |ratings| && ratings[i].Some?
      ensures Labels(ratings)[i] != "\U{2014}"
    {
      assert |StarLabel(ratings[i])| > 1;
    }
  }

  /** `dist` after counting the labels: each label's number of occurrences. */
  function CountsOf(labels: seq<string>): map<string, nat> {
    if labels == [] then map[]
    else
      var m := CountsOf(labels[..|labels| - 1]);
      var k := labels[|labels| - 1];
      m[k := (if k in m then m[k] else 0) + 1]
  }

  /** A label has a count exactly when it occurs, and the count is its number of occurrences. */
  lemma {:induction false} CountsOfIsMultiset(labels: seq<string>, k: string)
    ensures k in CountsOf(labels) <==> k in labels
    ensures k in CountsOf(labels) ==> CountsOf(labels)[k] == multiset(labels)[k]
  {
    if labels != [] {
      var init := labels[..|labels| - 1];
      CountsOfIsMultiset(init, k);
      assert labels == init + [labels[|labels| - 1]];
    }
  }

  /** The occurrences of the keys, summed. */
  function SumOccurrences(keys: seq<string>, labels: seq<string>): nat {
    if keys == [] then 0 else SumOccurrences(keys[..|keys| - 1], labels) + multiset(labels)[keys[|keys| - 1]]
  }

  /** The distribution's counts add up to the number of ratings. */
  lemma {:induction false} DistributionSums(labels: seq<string>)
    ensures SumOccurrences(Dedup(labels), labels) == |labels|
  {
    if labels != [] {
      var init := labels[..|labels| - 1];
      var x := labels[|labels| - 1];
      assert labels == init + [x];
      DistributionSums(init);
      DedupSpec(init);
      OneMoreOccurrence(Dedup(init), init, x);
      if x in init {
        assert Dedup(labels) == Dedup(init) && x in Dedup(init);
      } else {
        assert Dedup(labels) == Dedup(init) + [x];
        assert multiset(init)[x] == 0 && multiset(labels)[x] == 1;
        assert (Dedup(init) + [x])[..|Dedup(init)|] == Dedup(init);
      }
    }
  }

  /** Counting one more label in a list of distinct keys adds one when the label is among them. */
  lemma {:induction false} OneMoreOccurrence(keys: seq<string>, init: seq<string>, x: string)
    requires forall i, j :: 0 <= i < j < |keys| ==> keys[i] != keys[j]
    ensures SumOccurrences(keys, init + [x]) == SumOccurrences(keys, init) + (if x in keys then 1 else 0)
  {
    if keys != [] {
      var front := keys[..|keys| - 1];
      OneMoreOccurrence(front, init, x);
      assert x in keys <==> x in front || x == keys[|keys| - 1];
      if x == keys[|keys| - 1] {
        assert x !in front;
      }
    }
  }

  /** A part of the distribution: `<v>×<k>` for a repeated label, the label alone otherwise. */
  function DistPart(k: string, v: nat): string {
    if v > 1 then Decimal(v) + "\U{00D7}" + k else k
  }

  function DistParts(keys: seq<string>, counts: map<string, nat>): seq<string>
    requires forall k :: k in keys ==> k in counts
  {
    if keys == [] then [] else DistParts(keys[..|keys| - 1], counts) + [DistPart(keys[|keys| - 1], counts[keys[|keys| - 1]])]
  }

  /** `formatArchivedRatings(entry)`. */
  function ArchivedRatingsText(entry: Option<WeekStats>): string {
    if entry.None? then ""
    else
      var ratings := entry.value.inRangeRatings;
      var avg := entry.value.averageRating;
      if ratings == [] then (if avg.Some? then AverageText(avg.value) else "")
      else if KnownCount(ratings) == 0 then (if avg.Some? then AverageText(avg.value) else "")
      else if |ratings| <= 6 then " (" + Join(Labels(ratings), ", ") + ")"
      else
        var labels := Labels(ratings);
        CountsKeys(labels);
        " (" + Join(DistParts(Dedup(labels), CountsOf(labels)), ", ") + ")"
  }

  /** Every first occurrence has a count. */
  lemma CountsKeys(labels: seq<string>)
    ensures forall k :: k in Dedup(labels) ==> k in CountsOf(labels)
  {
    DedupSpec(labels);
    forall k | k in Dedup(labels) ensures k in CountsOf(labels) {
      CountsOfIsMultiset(labels, k);
    }
  }

  /** The breakdown of up to six ratings shows each rating in order, an unknown one as a dash. */
  lemma FewRatingsListed(entry: WeekStats)
    requires entry.inRangeRatings != [] && KnownCount(entry.inRangeRatings) > 0 && |entry.inRangeRatings| <= 6
    ensures ArchivedRatingsText(Some(entry)) == " (" + Join(Labels(entry.inRangeRatings), ", ") + ")"
    ensures |Labels(entry.inRangeRatings)| == |entry.inRangeRatings|
    ensures forall i :: 0 <= i < |entry.inRangeRatings| ==>
      (Labels(entry.inRangeRatings)[i] == "\U{2014}" <==> entry.inRangeRatings[i].None?)
  {
    LabelsTellUnknown(entry.inRangeRatings);
  }

  /**
   * The breakdown of more than six ratings groups them by label, each label
   * once in order of first occurrence, with counts adding up to the number of ratings.
   */
  lemma ManyRatingsGrouped(entry: WeekStats)
    requires KnownCount(entry.inRangeRatings) > 0 && |entry.inRangeRatings| > 6
    ensures var labels := Labels(entry.inRangeRatings);
      && (forall k :: k in Dedup(labels) ==> k in CountsOf(labels) && CountsOf(labels)[k] == multiset(labels)[k])
      && (forall i, j :: 0 <= i < j < |Dedup(labels)| ==> Dedup(labels)[i] != Dedup(labels)[j])
      && SumOccurrences(Dedup(labels), labels) == |entry.inRangeRatings|
  {
    var labels := Labels(entry.inRangeRatings);
    DedupSpec(labels);
    forall k | k in Dedup(labels) ensures k in CountsOf(labels) && CountsOf(labels)[k] == multiset(labels)[k] {
      CountsOfIsMultiset(labels, k);
    }
    DistributionSums(labels);
  }

  /** The `dist` loop: each label counted under its key, keys in order of first occurrence. */
  method Distribution(labels: seq<string>) returns (keys: seq<string>, dist: map<string, nat>)
    ensures keys == Dedup(labels) && dist == CountsOf(labels)
  {
    keys, dist := [], map[];
    var i := 0;
    while i < |labels|
      invariant 0 <= i <= |labels|
      invariant keys == Dedup(labels[..i]) && dist == CountsOf(labels[..i])
      invariant forall k :: k in dist <==> k in labels[..i]
    {
      assert labels[..i + 1][..i] == labels[..i];
      var k := labels[i];
      if k !in dist {
        keys := keys + [k];
      }
      dist := dist[k := (if k in dist then dist[k] else 0) + 1];
      i := i + 1;
    }
    assert labels[..|labels|] == labels;
  }

  /** `formatArchivedRatings(entry)`, building the distribution of more than six ratings in place. */
  method FormatArchivedRatings(entry: Option<WeekStats>) returns (text: string)
    ensures text == ArchivedRatingsText(entry)
  {
    if entry.None? {
      return "";
    }
    var ratings := entry.value.inRangeRatings;
    var avg := entry.value.averageRating;
    if |ratings| == 0 {
      return if avg.Some? then AverageText(avg.value) else "";
    }
    if KnownCount(ratings) == 0 {
      return if avg.Some? then AverageText(avg.value) else "";
    }
    var labels := Labels(ratings);
    if |ratings| <= 6 {
      return " (" + Join(labels, ", ") + ")";
    }
    var keys, dist := Distribution(labels);
    CountsKeys(labels);
    text := " (" + Join(DistParts(keys, dist), ", ") + ")";
  }

  /** `EMOJI_BY_SLUG[slug] || ''`. */
  function Emoji(slug: string): string {
    if slug in EmojiBySlug then EmojiBySlug[slug] else ""
  }

  /** `EMOJI_BY_SLUG`. */
  const EmojiBySlug: map<string, string> := map[
      "kiwi-sizing" := ":kiwiapp:", "event-tickets" := ":evey-logo:", "preorder-now" := ":preordernow:",
      "automatic-discount-rules" := ":adg:", "boxup-product-builder" := ":boxbuilder:",
      "quantity-breaks-now" := ":bdnlogo:", "wholesale-pricing-now" := ":wpnlogo:",
      "kiwi-return-saver" := ":return-saver:", "ultimate-upsell" := ":upplogo:", "zendrop" := ":zendroplogo:"]

  /** An app's label: its emoji and display name, or the name alone. */
  function Label(slug: string): string {
    var emoji := Emoji(slug);
    if emoji != "" then emoji + " " + AppConfig.DisplayName(slug) else AppConfig.DisplayName(slug)
  }

  /** An app's archived count this week: its entry's count, 0 without an entry. */
  function ArchivedCount(perApp: map<string, WeekStats>, slug: string): nat {
    if slug in perApp then perApp[slug].inRange else 0
  }

  function EntryOf(perApp: map<string, WeekStats>, slug: string): Option<WeekStats> {
    if slug in perApp then Some(perApp[slug]) else None
  }

  /** The line of an app with archived reviews. */
  function ArchivedLine(perApp: map<string, WeekStats>, slug: string): string {
    " " + Label(slug) + ": " + Decimal(ArchivedCount(perApp, slug)) + " Archived" + ArchivedRatingsText(EntryOf(perApp, slug))
  }

  /** The slugs of the section: the keys of `archivedPerApp`, then every non-empty tiered slug, each once. */
  function SectionSlugs(keys: seq<string>, tiers: seq<seq<string>>): seq<string> {
    Dedup(keys + NonEmpty(Flatten(tiers)))
  }

  function NonEmpty(slugs: seq<string>): (r: seq<string>)
    ensures forall s :: s in r <==> s in slugs && s != ""
  {
    if slugs == [] then []
    else
      var init := slugs[..|slugs| - 1];
      assert forall s :: s in slugs <==> s in init || s == slugs[|slugs| - 1];
      NonEmpty(init) + (if slugs[|slugs| - 1] != "" then [slugs[|slugs| - 1]] else [])
  }

  /** The slugs with archived reviews, in order. */
  function Listed(slugs: seq<string>, perApp: map<string, WeekStats>): seq<string> {
    if slugs == [] then []
    else
      var s := slugs[|slugs| - 1];
      Listed(slugs[..|slugs| - 1], perApp) + (if ArchivedCount(perApp, s) > 0 then [s] else [])
  }

  function LinesOf(slugs: seq<string>, perApp: map<string, WeekStats>): seq<string> {
    if slugs == [] then [] else LinesOf(slugs[..|slugs| - 1], perApp) + [ArchivedLine(perApp, slugs[|slugs| - 1])]
  }

  lemma LinesOfSnoc(slugs: seq<string>, slug: string, perApp: map<string, WeekStats>)
    ensures LinesOf(slugs + [slug], perApp) == LinesOf(slugs, perApp) + [ArchivedLine(perApp, slug)]
  {
    assert (slugs + [slug])[..|slugs|] == slugs;
  }

  const NoArchivedData: string := " No archived count data for this week. Run the weekly snapshot and use --snapshot to point to it."

  /** The archived section: a line per listed app and the total, or the note that there is no data. */
  function ArchivedSectionLines(keys: seq<string>, perApp: map<string, WeekStats>, tiers: seq<seq<string>>, archivedTotal: nat): seq<string> {
    if archivedTotal > 0 || |keys| > 0 then
      LinesOf(Listed(SectionSlugs(keys, tiers), perApp), perApp) + ["", "Total archived (this week): " + Decimal(archivedTotal)]
    else [NoArchivedData]
  }

  /** An app is listed exactly when it is among the section's slugs and has archived reviews, and then once. */
  lemma {:induction false} ListedSpec(slugs: seq<string>, perApp: map<string, WeekStats>)
    requires forall i, j :: 0 <= i < j < |slugs| ==> slugs[i] != slugs[j]
    ensures forall s :: s in Listed(slugs, perApp) <==> s in slugs && ArchivedCount(perApp, s) > 0
    ensures forall i, j :: 0 <= i < j < |Listed(slugs, perApp)| ==> Listed(slugs, perApp)[i] != Listed(slugs, perApp)[j]
  {
    if slugs != [] {
      var init := slugs[..|slugs| - 1];
      ListedSpec(init, perApp);
      assert forall s :: s in slugs <==> s in init || s == slugs[|slugs| - 1];
      assert slugs[|slugs| - 1] !in init;
    }
  }

  /**
   * The section lists, once each, exactly the apps of `archivedPerApp` and of
   * the tiers whose archived count is above 0.
   */
  lemma SectionListsArchivedApps(keys: seq<string>, tiers: seq<seq<string>>, perApp: map<string, WeekStats>)
    ensures var listed := Listed(SectionSlugs(keys, tiers), perApp);
      && (forall s :: s in listed <==> (s in keys || (s in Flatten(tiers) && s != "")) && ArchivedCount(perApp, s) > 0)
      && (forall i, j :: 0 <= i < j < |listed| ==> listed[i] != listed[j])
  {
    var all := keys + NonEmpty(Flatten(tiers));
    DedupSpec(all);
    ListedSpec(Dedup(all), perApp);
  }

  /** The line of one app: its label, its archived count and the breakdown of its ratings. */
  method AppLine(perApp: map<string, WeekStats>, slug: string) returns (line: string)
    ensures line == ArchivedLine(perApp, slug)
  {
    var entry := if slug in perApp then Some(perApp[slug]) else None;
    var count := if entry.Some? then entry.value.inRange else 0;
    var ratingStr := FormatArchivedRatings(entry);
    line := " " + Label(slug) + ": " + Decimal(count) + " Archived" + ratingStr;
  }

  /** The archived section of the post, formatting each listed app's ratings. */
  method ArchivedSection(keys: seq<string>, perApp: map<string, WeekStats>, tiers: seq<seq<string>>, archivedTotal: nat)
    returns (lines: seq<string>)
    ensures lines == ArchivedSectionLines(keys, perApp, tiers, archivedTotal)
  {
    if archivedTotal > 0 || |keys| > 0 {
      lines := ListedLines(SectionSlugs(keys, tiers), perApp);
      lines := lines + ["", "Total archived (this week): " + Decimal(archivedTotal)];
    } else {
      lines := [NoArchivedData];
    }
  }

  /** The loop over the section's slugs: a line for each app whose archived count is above 0. */
  method ListedLines(slugs: seq<string>, perApp: map<string, WeekStats>) returns (lines: seq<string>)
    ensures lines == LinesOf(Listed(slugs, perApp), perApp)
  {
    lines := [];
    ghost var listed: seq<string> := [];
    var i := 0;
    while i < |slugs|
      invariant 0 <= i <= |slugs|
      invariant listed == Listed(slugs[..i], perApp) && lines == LinesOf(listed, perApp)
    {
      assert slugs[..i + 1][..i] == slugs[..i];
      var slug := slugs[i];
      var count := if slug in perApp then perApp[slug].inRange else 0;
      if count > 0 {
        var line := AppLine(perApp, slug);
        LinesOfSnoc(listed, slug, perApp);
        lines := lines + [line];
        listed := listed + [slug];
      } else {
        assert listed + [] == listed;
      }
      i := i + 1;
    }
    assert slugs[..|slugs|] == slugs;
  }
}
