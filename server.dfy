/**
 * The dashboard server's snapshot summary: the date range a summary covers
 * (given, or the Monday-to-Sunday week of a reference date), and per app the
 * number of archived reviews, the latest ISO date, the reviews in the range
 * with their star ratings, and a star histogram with an `unknown` bucket,
 * together with the totals over all apps and the week-over-week comparison.
 */
module Server {
  import opened Wrappers
  import opened Strs
  import opened Calendar
  import opened Weeks
  import opened Records
  import opened Slugs

  // ---------------------------------------------------------------------------
  // The range of a summary.
  // ---------------------------------------------------------------------------

  /** The date the default week is taken from: the range end, else the snapshot date, else today. */
  function RefDate(rangeEnd: Option<string>, snapshotDate: Option<string>, today: string): string {
    if Truthy(rangeEnd) then rangeEnd.value else if Truthy(snapshotDate) then snapshotDate.value else today
  }

  /**
   * The resolved range: both bounds as given when both are present, else each
   * missing one from the week of the reference date. None where that week
   * cannot be computed: the script throws on an invalid date, and a bound
   * outside years 0000..9999 is not rendered by this model.
   */
  function ResolveRange(rangeStart: Option<string>, rangeEnd: Option<string>, snapshotDate: Option<string>, today: string): (r: Option<Window>)
    ensures Truthy(rangeStart) && Truthy(rangeEnd) ==> r == Some(Window(rangeStart.value, rangeEnd.value))
    ensures r.Some? ==> r.value.start != "" && r.value.end != ""
  {
    if Truthy(rangeStart) && Truthy(rangeEnd) then Some(Window(rangeStart.value, rangeEnd.value))
    else
      match WeekMondayToSunday(RefDate(rangeEnd, snapshotDate, today))
      case None => None
      case Some(week) =>
        Some(Window(if Truthy(rangeStart) then rangeStart.value else week.start,
                    if Truthy(rangeEnd) then rangeEnd.value else week.end))
  }

  /**
   * Without a range, a summary covers the Monday-to-Sunday week that ends on
   * or before the snapshot date: its end is that week's Sunday, its start the
   * Monday six days earlier, and its end is not after the snapshot date.
   */
  lemma DefaultRangeIsSnapshotWeek(snapshotDate: string, today: string)
    requires CanonicalIso(snapshotDate)
    requires ResolveRange(None, None, Some(snapshotDate), today).Some?
    ensures var w := ResolveRange(None, None, Some(snapshotDate), today).value;
      && ParseIsoDay(w.end) == Some(WeekEndDay(ParseIsoDay(snapshotDate).value))
      && ParseIsoDay(w.start) == Some(WeekEndDay(ParseIsoDay(snapshotDate).value) - 6)
      && LexLe(w.end, snapshotDate)
  {
    assert RefDate(None, Some(snapshotDate), today) == snapshotDate;
    WeekWindowSpec(snapshotDate);
    WeekWindowEndsOnOrBefore(snapshotDate);
  }

  /** A given range end is kept and also names the week a missing start is taken from. */
  lemma MissingStartFromEndWeek(rangeEnd: string, snapshotDate: Option<string>, today: string)
    requires rangeEnd != "" && ResolveRange(None, Some(rangeEnd), snapshotDate, today).Some?
    ensures ResolveRange(None, Some(rangeEnd), snapshotDate, today).value.end == rangeEnd
    ensures ParseIsoDay(ResolveRange(None, Some(rangeEnd), snapshotDate, today).value.start)
         == Some(WeekEndDay(ParseIsoDay(rangeEnd).value) - 6)
  {
    WeekWindowSpec(rangeEnd);
  }

  /** The week of Tuesday 2026-02-03 runs from Monday 2026-01-26 to Sunday 2026-02-01, as the comment on the function says. */
  lemma CommentWeekIn2026()
    ensures WeekDay(DaysFromCivil(Civil(2026, 2, 3))) == 2
    ensures WeekEndDay(DaysFromCivil(Civil(2026, 2, 3))) == DaysFromCivil(Civil(2026, 2, 1))
    ensures WeekEndDay(DaysFromCivil(Civil(2026, 2, 3))) - 6 == DaysFromCivil(Civil(2026, 1, 26))
  {
    Days2026();
    assert WeekDay(20487) == 2;
  }

  /** In 2025 February 3 is a Monday, and its week runs from 2025-01-27 to 2025-02-02. */
  lemma CommentWeekIn2025()
    ensures WeekDay(DaysFromCivil(Civil(2025, 2, 3))) == 1
    ensures WeekEndDay(DaysFromCivil(Civil(2025, 2, 3))) == DaysFromCivil(Civil(2025, 2, 2))
    ensures WeekEndDay(DaysFromCivil(Civil(2025, 2, 3))) - 6 == DaysFromCivil(Civil(2025, 1, 27))
  {
    Days2025();
    assert WeekDay(20122) == 1;
  }

  /** The day numbers of the dates in the 2026 example. */
  lemma Days2026()
    ensures DaysFromCivil(Civil(2026, 2, 3)) == 20487
    ensures DaysFromCivil(Civil(2026, 2, 1)) == 20485
    ensures DaysFromCivil(Civil(2026, 1, 26)) == 20479
  {
    DayFromYearIsEcma(2026);
    assert !IsLeapYear(2026);
  }

  /** The day numbers of the dates in the 2025 example. */
  lemma Days2025()
    ensures DaysFromCivil(Civil(2025, 2, 3)) == 20122
    ensures DaysFromCivil(Civil(2025, 2, 2)) == 20121
    ensures DaysFromCivil(Civil(2025, 1, 27)) == 20115
  {
    DayFromYearIsEcma(2025);
    assert !IsLeapYear(2025);
  }

  // ---------------------------------------------------------------------------
  // Star buckets.
  // ---------------------------------------------------------------------------

  /** A bucket of the star histogram: a rounded rating 1..5, or `unknown`. */
  datatype Bucket = Rated(stars: int) | Unrated

  const AllBuckets: set<Bucket> := {Rated(1), Rated(2), Rated(3), Rated(4), Rated(5), Unrated}

  /** A star histogram, `{ 1, 2, 3, 4, 5, unknown }`: one counter per bucket. */
  datatype Stars = Stars(one: nat, two: nat, three: nat, four: nat, five: nat, unknown: nat) {
    /** The counter of a bucket (no bucket outside the six has one). */
    function Count(b: Bucket): nat {
      match b
      case Unrated => unknown
      case Rated(k) => if k == 1 then one else if k == 2 then two else if k == 3 then three else if k == 4 then four else if k == 5 then five else 0
    }

    /** `stars[bucket]++`. */
    function Add(b: Bucket): (h: Stars)
      requires b in AllBuckets
      ensures h.Count(b) == Count(b) + 1
      ensures forall c :: c != b ==> h.Count(c) == Count(c)
    {
      match b
      case Unrated => this.(unknown := unknown + 1)
      case Rated(k) =>
        if k == 1 then this.(one := one + 1) else if k == 2 then this.(two := two + 1)
        else if k == 3 then this.(three := three + 1) else if k == 4 then this.(four := four + 1)
        else this.(five := five + 1)
    }

    /** The bucket-wise sum of two histograms. */
    function Plus(o: Stars): Stars {
      Stars(one + o.one, two + o.two, three + o.three, four + o.four, five + o.five, unknown + o.unknown)
    }

    /** The sum of the six counters. */
    function Total(): nat {
      one + two + three + four + five + unknown
    }
  }

  /** `{ 1: 0, 2: 0, 3: 0, 4: 0, 5: 0, unknown: 0 }`. */
  const NoStars: Stars := Stars(0, 0, 0, 0, 0, 0)

  /** The bucket a review counts in: its rounded rating when that is 1..5, else `unknown`. */
  function BucketOf(r: Review): (b: Bucket)
    ensures b in AllBuckets
    ensures b == Unrated <==> Star(r.rating).None?
    ensures b.Rated? ==> b.stars == Star(r.rating).value
  {
    if Star(r.rating).Some? then Rated(Star(r.rating).value) else Unrated
  }

  /** The histogram of the reviews: each review adds one to its bucket. */
  function Tally(rs: seq<Review>): Stars {
    if rs == [] then NoStars else Tally(rs[..|rs| - 1]).Add(BucketOf(rs[|rs| - 1]))
  }

  /** The buckets of the reviews, in order. */
  function BucketsOf(rs: seq<Review>): (bs: seq<Bucket>)
    ensures |bs| == |rs|
  {
    if rs == [] then [] else BucketsOf(rs[..|rs| - 1]) + [BucketOf(rs[|rs| - 1])]
  }

  /** The six buckets together count every review once. */
  lemma {:induction false} TallyTotal(rs: seq<Review>)
    ensures Tally(rs).Total() == |rs|
  {
    if rs != [] {
      TallyTotal(rs[..|rs| - 1]);
      var b := BucketOf(rs[|rs| - 1]);
      assert b == Unrated || b == Rated(1) || b == Rated(2) || b == Rated(3) || b == Rated(4) || b == Rated(5);
    }
  }

  /** Each bucket holds the number of reviews whose rating rounds into it. */
  lemma {:induction false} TallyCounts(rs: seq<Review>, b: Bucket)
    ensures Tally(rs).Count(b) == multiset(BucketsOf(rs))[b]
  {
    if rs != [] {
      TallyCounts(rs[..|rs| - 1], b);
    } else {
      assert NoStars.Count(b) == 0;
    }
  }

  /** The histogram of two lists of reviews is the bucket-wise sum of their histograms. */
  lemma {:induction false} TallyConcat(a: seq<Review>, b: seq<Review>)
    ensures Tally(a + b) == Tally(a).Plus(Tally(b))
  {
    if b != [] {
      var init := b[..|b| - 1];
      TallyConcat(a, init);
      assert (a + b)[..|a + b| - 1] == a + init;
      assert (a + b)[|a + b| - 1] == b[|b| - 1];
      PlusAdd(Tally(a), Tally(init), BucketOf(b[|b| - 1]));
    } else {
      assert a + b == a;
      PlusNone(Tally(a));
    }
  }

  /** The empty histogram adds nothing. */
  lemma PlusNone(x: Stars)
    ensures x.Plus(NoStars) == x
  {
  }

  /** Adding to the right-hand side of a sum adds to the sum. */
  lemma PlusAdd(x: Stars, y: Stars, b: Bucket)
    requires b in AllBuckets
    ensures x.Plus(y.Add(b)) == x.Plus(y).Add(b)
  {
  }

  /** Counting in the range over two lists adds up. */
  lemma {:induction false} CountConcat(a: seq<Review>, b: seq<Review>, w: Window, parse: string -> Option<string>)
    ensures CountInWindow(a + b, w.start, w.end, parse) == CountInWindow(a, w.start, w.end, parse) + CountInWindow(b, w.start, w.end, parse)
  {
    if b != [] {
      var init := b[..|b| - 1];
      CountConcat(a, init, w, parse);
      assert (a + b)[..|a + b| - 1] == a + init;
      assert (a + b)[|a + b| - 1] == b[|b| - 1];
    } else {
      assert a + b == a;
    }
  }

  // ---------------------------------------------------------------------------
  // Per-app and total summary.
  // ---------------------------------------------------------------------------

  /** The star of each review in the range, in order (none for an unknown rating). */
  function InRangeRatings(rs: seq<Review>, w: Window, parse: string -> Option<string>): (stars: seq<Option<int>>)
    ensures |stars| == CountInWindow(rs, w.start, w.end, parse)
  {
    if rs == [] then []
    else
      var last := rs[|rs| - 1];
      InRangeRatings(rs[..|rs| - 1], w, parse) + (if ReviewInWindow(last, w.start, w.end, parse) then [Star(last.rating)] else [])
  }

  /** Every listed star is the star of a review in the range, and every review in the range has its star listed. */
  lemma {:induction false} InRangeRatingsAre(rs: seq<Review>, w: Window, parse: string -> Option<string>)
    ensures forall s :: s in InRangeRatings(rs, w, parse) ==>
      exists i :: 0 <= i < |rs| && ReviewInWindow(rs[i], w.start, w.end, parse) && s == Star(rs[i].rating)
    ensures forall i :: 0 <= i < |rs| && ReviewInWindow(rs[i], w.start, w.end, parse) ==> Star(rs[i].rating) in InRangeRatings(rs, w, parse)
  {
    if rs != [] {
      var init := rs[..|rs| - 1];
      InRangeRatingsAre(init, w, parse);
      assert forall i :: 0 <= i < |init| ==> init[i] == rs[i];
    }
  }

  /** One app's line of the summary. */
  datatype AppStats = AppStats(
    app: string,
    totalArchived: nat,
    lastDateISO: Option<string>,
    inRange: nat,
    inRangeRatings: seq<Option<int>>,
    stars: Stars)

  function AppStatsOf(a: App, w: Window, parse: string -> Option<string>): AppStats {
    var rs := ReviewsOf(a);
    AppStats(AppSlug(a.appReviewsUrl), |rs|, LastIso(rs), CountInWindow(rs, w.start, w.end, parse), InRangeRatings(rs, w, parse), Tally(rs))
  }

  function AllStats(apps: seq<App>, w: Window, parse: string -> Option<string>): (s: seq<AppStats>)
    ensures |s| == |apps|
  {
    if apps == [] then [] else AllStats(apps[..|apps| - 1], w, parse) + [AppStatsOf(apps[|apps| - 1], w, parse)]
  }

  /** Every archived review of every app, in snapshot order. */
  function AllReviews(apps: seq<App>): seq<Review> {
    if apps == [] then [] else AllReviews(apps[..|apps| - 1]) + ReviewsOf(apps[|apps| - 1])
  }

  /** The summary of a snapshot: its date, the range and the per-app lines with their totals. */
  datatype Summary = Summary(
    snapshotDate: Option<string>,
    range: Window,
    apps: seq<AppStats>,
    totalArchived: nat,
    totalInRange: nat,
    stars: Stars)

  /** The sums of the per-app review counts, range counts and bucket counts. */
  function SumArchived(s: seq<AppStats>): nat {
    if s == [] then 0 else SumArchived(s[..|s| - 1]) + s[|s| - 1].totalArchived
  }

  function SumInRange(s: seq<AppStats>): nat {
    if s == [] then 0 else SumInRange(s[..|s| - 1]) + s[|s| - 1].inRange
  }

  function SumStars(s: seq<AppStats>): Stars {
    if s == [] then NoStars else SumStars(s[..|s| - 1]).Plus(s[|s| - 1].stars)
  }

  /** The total number of archived reviews is the sum over the app lines. */
  lemma {:induction false} ArchivedIsSum(apps: seq<App>, w: Window, parse: string -> Option<string>)
    ensures |AllReviews(apps)| == SumArchived(AllStats(apps, w, parse))
  {
    if apps != [] {
      var s := AllStats(apps, w, parse);
      ArchivedIsSum(apps[..|apps| - 1], w, parse);
      assert s[..|s| - 1] == AllStats(apps[..|apps| - 1], w, parse);
    }
  }

  /** The total in the range is the sum of the apps' counts in the range. */
  lemma {:induction false} InRangeIsSum(apps: seq<App>, w: Window, parse: string -> Option<string>)
    ensures CountInWindow(AllReviews(apps), w.start, w.end, parse) == SumInRange(AllStats(apps, w, parse))
  {
    if apps != [] {
      var init := apps[..|apps| - 1];
      var s := AllStats(apps, w, parse);
      InRangeIsSum(init, w, parse);
      CountConcat(AllReviews(init), ReviewsOf(apps[|apps| - 1]), w, parse);
      assert s[..|s| - 1] == AllStats(init, w, parse);
    }
  }

  /** The total histogram is the bucket-wise sum of the apps' histograms. */
  lemma {:induction false} StarsIsSum(apps: seq<App>, w: Window, parse: string -> Option<string>)
    ensures Tally(AllReviews(apps)) == SumStars(AllStats(apps, w, parse))
  {
    if apps != [] {
      var init := apps[..|apps| - 1];
      var s := AllStats(apps, w, parse);
      StarsIsSum(init, w, parse);
      TallyConcat(AllReviews(init), ReviewsOf(apps[|apps| - 1]));
      assert s[..|s| - 1] == AllStats(init, w, parse);
    }
  }

  /** What one app's pass has gathered so far. */
  datatype Scan = Scan(inRange: nat, inRangeRatings: seq<Option<int>>, lastDateISO: Option<string>, stars: Stars)

  /** The pass over one more review. */
  function ScanStep(st: Scan, r: Review, w: Window, parse: string -> Option<string>): Scan {
    var b := BucketOf(r);
    var counted := ReviewInWindow(r, w.start, w.end, parse);
    var d := r.dateISO;
    Scan(if counted then st.inRange + 1 else st.inRange,
         if counted then st.inRangeRatings + [Star(r.rating)] else st.inRangeRatings,
         if Truthy(d) && (st.lastDateISO.None? || LexLess(st.lastDateISO.value, d.value)) then d else st.lastDateISO,
         st.stars.Add(b))
  }

  /** The pass over the reviews, from the empty histogram. */
  function ScanAll(rs: seq<Review>, w: Window, parse: string -> Option<string>): Scan {
    if rs == [] then Scan(0, [], None, NoStars) else ScanStep(ScanAll(rs[..|rs| - 1], w, parse), rs[|rs| - 1], w, parse)
  }

  /** The pass gathers the count and the stars in the range, the latest ISO date and the histogram. */
  lemma {:induction false} ScanAllIsStats(rs: seq<Review>, w: Window, parse: string -> Option<string>)
    ensures ScanAll(rs, w, parse) == Scan(CountInWindow(rs, w.start, w.end, parse), InRangeRatings(rs, w, parse), LastIso(rs), Tally(rs))
  {
    if rs != [] {
      ScanAllIsStats(rs[..|rs| - 1], w, parse);
    }
  }

  /**
   * One review's pass of `snapshotSummary`: its bucket in the app's
   * histogram, its ISO date against the latest one, and whether it counts in
   * the range by its ISO date or, failing that, by its parsed date text.
   */
  method ScanReview(st: Scan, r: Review, w: Window, parse: string -> Option<string>) returns (next: Scan)
    ensures next == ScanStep(st, r, w, parse)
  {
    var star := Star(r.rating);
    var b := if star.Some? then Rated(star.value) else Unrated;
    var stars := st.stars.Add(b);
    var inRange, inRangeRatings, lastDateISO := st.inRange, st.inRangeRatings, st.lastDateISO;
    var isInRange := false;
    var d := r.dateISO;
    if Truthy(d) {
      if lastDateISO.None? || LexLess(lastDateISO.value, d.value) {
        lastDateISO := d;
      }
      if InRange(d.value, w.start, w.end) {
        inRange := inRange + 1;
        inRangeRatings := inRangeRatings + [star];
        isInRange := true;
      }
    }
    if !isInRange && Truthy(r.dateText) {
      var parsed := parse(r.dateText.value);
      if parsed.Some? && InRange(parsed.value, w.start, w.end) {
        inRange := inRange + 1;
        inRangeRatings := inRangeRatings + [star];
      }
    }
    next := Scan(inRange, inRangeRatings, lastDateISO, stars);
  }

  /**
   * One app's pass of `snapshotSummary`: every review goes into the app's and
   * the total histogram and is counted for the range as `ScanReview` does.
   */
  method SummarizeApp(a: App, w: Window, parse: string -> Option<string>, archived0: nat, stars0: Stars)
    returns (s: AppStats, totalArchived: nat, totalStars: Stars)
    ensures s == AppStatsOf(a, w, parse)
    ensures totalArchived == archived0 + |ReviewsOf(a)|
    ensures totalStars == stars0.Plus(s.stars)
  {
    var reviews := ReviewsOf(a);
    var st := Scan(0, [], None, NoStars);
    totalArchived, totalStars := archived0, stars0;
    var j := 0;
    while j < |reviews|
      invariant 0 <= j <= |reviews|
      invariant st == ScanAll(reviews[..j], w, parse)
      invariant totalArchived == archived0 + j
      invariant totalStars == stars0.Plus(st.stars)
    {
      assert reviews[..j + 1][..j] == reviews[..j];
      var r := reviews[j];
      var b := BucketOf(r);
      PlusAdd(stars0, st.stars, b);
      totalArchived := totalArchived + 1;
      totalStars := totalStars.Add(b);
      st := ScanReview(st, r, w, parse);
      j := j + 1;
    }
    assert reviews[..|reviews|] == reviews;
    ScanAllIsStats(reviews, w, parse);
    s := AppStats(AppSlug(a.appReviewsUrl), |reviews|, st.lastDateISO, st.inRange, st.inRangeRatings, st.stars);
  }

  /** How the summary's lines and totals grow by one app. */
  lemma SnapshotStep(apps: seq<App>, i: nat, w: Window, parse: string -> Option<string>,
                     s: AppStats, archived: nat, stars: Stars)
    requires i < |apps| && s == AppStatsOf(apps[i], w, parse)
    requires archived == |AllReviews(apps[..i])| + |ReviewsOf(apps[i])|
    requires stars == Tally(AllReviews(apps[..i])).Plus(s.stars)
    ensures AllStats(apps[..i + 1], w, parse) == AllStats(apps[..i], w, parse) + [s]
    ensures archived == |AllReviews(apps[..i + 1])|
    ensures CountInWindow(AllReviews(apps[..i + 1]), w.start, w.end, parse) == CountInWindow(AllReviews(apps[..i]), w.start, w.end, parse) + s.inRange
    ensures stars == Tally(AllReviews(apps[..i + 1]))
  {
    var prefix := apps[..i];
    assert apps[..i + 1][..i] == prefix;
    assert AllReviews(apps[..i + 1]) == AllReviews(prefix) + ReviewsOf(apps[i]);
    TallyConcat(AllReviews(prefix), ReviewsOf(apps[i]));
    CountConcat(AllReviews(prefix), ReviewsOf(apps[i]), w, parse);
  }

  /**
   * `snapshotSummary(data, rangeStart, rangeEnd)`: None where the range cannot
   * be resolved, else the per-app lines in snapshot order with the totals
   * over all reviews of the snapshot.
   */
  method SnapshotSummary(data: Snapshot, rangeStart: Option<string>, rangeEnd: Option<string>, today: string, parse: string -> Option<string>)
    returns (r: Option<Summary>)
    ensures r.Some? <==> ResolveRange(rangeStart, rangeEnd, Normalize(data.snapshotDate), today).Some?
    ensures r.Some? ==> var w := ResolveRange(rangeStart, rangeEnd, Normalize(data.snapshotDate), today).value;
      && r.value.snapshotDate == Normalize(data.snapshotDate)
      && r.value.range == w
      && r.value.apps == AllStats(AppsOf(data), w, parse)
      && r.value.totalArchived == |AllReviews(AppsOf(data))|
      && r.value.totalInRange == CountInWindow(AllReviews(AppsOf(data)), w.start, w.end, parse)
      && r.value.stars == Tally(AllReviews(AppsOf(data)))
  {
    var snapshotDate := Normalize(data.snapshotDate);
    var range := ResolveRange(rangeStart, rangeEnd, snapshotDate, today);
    if range.None? {
      return None;
    }
    var w := range.value;
    var dataApps := AppsOf(data);
    var apps: seq<AppStats> := [];
    var totalArchived: nat := 0;
    var totalInRange: nat := 0;
    var totalStars := NoStars;
    var i := 0;
    while i < |dataApps|
      invariant 0 <= i <= |dataApps|
      invariant apps == AllStats(dataApps[..i], w, parse)
      invariant totalArchived == |AllReviews(dataApps[..i])|
      invariant totalInRange == CountInWindow(AllReviews(dataApps[..i]), w.start, w.end, parse)
      invariant totalStars == Tally(AllReviews(dataApps[..i]))
    {
      var s, archived, stars := SummarizeApp(dataApps[i], w, parse, totalArchived, totalStars);
      SnapshotStep(dataApps, i, w, parse, s, archived, stars);
      totalArchived, totalStars := archived, stars;
      totalInRange := totalInRange + s.inRange;
      apps := apps + [s];
      i := i + 1;
    }
    assert dataApps[..|dataApps|] == dataApps;
    r := Some(Summary(snapshotDate, w, apps, totalArchived, totalInRange, totalStars));
  }

  // ---------------------------------------------------------------------------
  // Week over week.
  // ---------------------------------------------------------------------------

  /** The previous week's part of a summary: its range, its total in range and each app's count. */
  datatype PreviousWeekStats = PreviousWeekStats(range: Window, totalInRange: nat, apps: seq<(string, nat)>)

  function InRangeByApp(s: seq<AppStats>): (r: seq<(string, nat)>)
    ensures |r| == |s|
    ensures forall i :: 0 <= i < |s| ==> r[i] == (s[i].app, s[i].inRange)
  {
    if s == [] then [] else InRangeByApp(s[..|s| - 1]) + [(s[|s| - 1].app, s[|s| - 1].inRange)]
  }

  /**
   * What the summary route returns: an error, or the summary with, on request,
   * the previous week. The error stands for the script throwing on an invalid
   * date, and also for a bound outside years 0000..9999, which the script
   * would print in the expanded-year form and go on with.
   */
  datatype SummaryResponse = Failed | Response(summary: Summary, previousWeek: Option<PreviousWeekStats>)

  /**
   * The summary route: the summary for the requested range and, with
   * `weekOverWeek`, the summary of the range shifted back seven days.
   */
  method SummaryWithPreviousWeek(data: Snapshot, rangeStart: Option<string>, rangeEnd: Option<string>, weekOverWeek: bool,
                                 today: string, parse: string -> Option<string>)
    returns (r: SummaryResponse)
    ensures r.Response? ==> ResolveRange(rangeStart, rangeEnd, Normalize(data.snapshotDate), today) == Some(r.summary.range)
    ensures r.Response? ==>
      && r.summary.snapshotDate == Normalize(data.snapshotDate)
      && r.summary.apps == AllStats(AppsOf(data), r.summary.range, parse)
      && r.summary.totalArchived == |AllReviews(AppsOf(data))|
      && r.summary.totalInRange == CountInWindow(AllReviews(AppsOf(data)), r.summary.range.start, r.summary.range.end, parse)
      && r.summary.stars == Tally(AllReviews(AppsOf(data)))
    ensures r.Response? && r.previousWeek.Some? ==>
      weekOverWeek
      && PreviousWeek(r.summary.range) == Some(r.previousWeek.value.range)
      && r.previousWeek.value.totalInRange
         == CountInWindow(AllReviews(AppsOf(data)), r.previousWeek.value.range.start, r.previousWeek.value.range.end, parse)
      && r.previousWeek.value.apps == InRangeByApp(AllStats(AppsOf(data), r.previousWeek.value.range, parse))
    ensures r.Response? && r.previousWeek.None? ==> !weekOverWeek
    ensures r.Failed? <==>
      (ResolveRange(rangeStart, rangeEnd, Normalize(data.snapshotDate), today).None?
       || (weekOverWeek && PreviousWeek(ResolveRange(rangeStart, rangeEnd, Normalize(data.snapshotDate), today).value).None?))
  {
    var summary := SnapshotSummary(data, rangeStart, rangeEnd, today, parse);
    if summary.None? {
      return Failed;
    }
    var s := summary.value;
    if !weekOverWeek {
      return Response(s, None);
    }
    var prev := PreviousWeek(s.range);
    if prev.None? {
      return Failed;
    }
    var p := prev.value;
    PreviousBoundsPresent(s.range);
    var previous := SnapshotSummary(data, Some(p.start), Some(p.end), today, parse);
    var ps := previous.value;
    r := Response(s, Some(PreviousWeekStats(p, ps.totalInRange, InRangeByApp(ps.apps))));
  }

  /** Shifted bounds are printed dates, so both are present. */
  lemma PreviousBoundsPresent(w: Window)
    requires PreviousWeek(w).Some?
    ensures PreviousWeek(w).value.start != "" && PreviousWeek(w).value.end != ""
  {
  }

  /**
   * For a summary over the default week of a date, the previous week is the
   * default week of the date seven days earlier.
   */
  lemma WeekOverWeekIsWeekBefore(refDate: string)
    requires WeekMondayToSunday(refDate).Some? && ShiftDate(refDate, -7).Some?
    ensures WeekMondayToSunday(ShiftDate(refDate, -7).value) == PreviousWeek(WeekMondayToSunday(refDate).value)
  {
    PreviousWeekIsWeekBefore(refDate);
  }
}
