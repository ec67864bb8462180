/**
 * The command-line count of archived reviews per app whose date falls in a
 * Monday-to-Sunday week: the reference date, the week, one count per app in
 * snapshot order and the grand total.
 */
module CountArchived {
  import opened Wrappers
  import opened Strs
  import opened Calendar
  import opened Weeks
  import opened Records
  import opened Slugs
  import Server

  /** The reference date: the argument, else the snapshot's date, else today. */
  function RefDate(arg: Option<string>, data: Snapshot, today: string): (r: string)
    ensures Truthy(arg) ==> r == arg.value
    ensures !Truthy(arg) && Truthy(data.snapshotDate) ==> r == data.snapshotDate.value
    ensures !Truthy(arg) && !Truthy(data.snapshotDate) ==> r == today
  {
    if Truthy(arg) then arg.value else if Truthy(data.snapshotDate) then data.snapshotDate.value else today
  }

  /** One line of the result: the app's slug and its count. */
  datatype AppCount = AppCount(app: string, count: nat)

  function CountOf(a: App, w: Window, parse: string -> Option<string>): AppCount {
    AppCount(AppSlug(a.appReviewsUrl), CountInWindow(ReviewsOf(a), w.start, w.end, parse))
  }

  /** `results`: one line per app, in snapshot order. */
  function Results(apps: seq<App>, w: Window, parse: string -> Option<string>): (r: seq<AppCount>)
    ensures |r| == |apps|
  {
    if apps == [] then [] else Results(apps[..|apps| - 1], w, parse) + [CountOf(apps[|apps| - 1], w, parse)]
  }

  function SumCounts(r: seq<AppCount>): nat {
    if r == [] then 0 else SumCounts(r[..|r| - 1]) + r[|r| - 1].count
  }

  /**
   * The inner loop: a review with an ISO date in the week counts once and is
   * done with; otherwise its date text counts if it parses to a date in the week.
   */
  method CountReviews(reviews: seq<Review>, w: Window, parse: string -> Option<string>) returns (inRange: nat)
    ensures inRange == CountInWindow(reviews, w.start, w.end, parse)
  {
    inRange := 0;
    var i := 0;
    while i < |reviews|
      invariant 0 <= i <= |reviews|
      invariant inRange == CountInWindow(reviews[..i], w.start, w.end, parse)
    {
      assert reviews[..i + 1][..i] == reviews[..i];
      var r := reviews[i];
      var d := r.dateISO;
      if Truthy(d) && LexLe(w.start, d.value) && LexLe(d.value, w.end) {
        inRange := inRange + 1;
      } else if Truthy(r.dateText) {
        var parsed := parse(r.dateText.value);
        if parsed.Some? {
          var iso := parsed.value;
          if LexLe(w.start, iso) && LexLe(iso, w.end) {
            inRange := inRange + 1;
          }
        }
      }
      i := i + 1;
    }
    assert reviews[..|reviews|] == reviews;
  }

  /** The outer loop: a line per app and the grand total. */
  method CountByApp(data: Snapshot, w: Window, parse: string -> Option<string>) returns (results: seq<AppCount>, grandTotal: nat)
    ensures results == Results(AppsOf(data), w, parse)
    ensures grandTotal == SumCounts(results)
  {
    var apps := AppsOf(data);
    results, grandTotal := [], 0;
    var i := 0;
    while i < |apps|
      invariant 0 <= i <= |apps|
      invariant results == Results(apps[..i], w, parse) && grandTotal == SumCounts(results)
    {
      assert apps[..i + 1][..i] == apps[..i];
      var app := apps[i];
      var slug := AppSlug(app.appReviewsUrl);
      var inRange := CountReviews(ReviewsOf(app), w, parse);
      assert (results + [AppCount(slug, inRange)])[..|results|] == results;
      results := results + [AppCount(slug, inRange)];
      grandTotal := grandTotal + inRange;
      i := i + 1;
    }
    assert apps[..|apps|] == apps;
  }

  /**
   * The whole run: the week of the reference date, then the counts. None where
   * the date is invalid and the script stops, and also where a bound of the week
   * falls outside years 0000..9999, which this model does not render.
   */
  method CountArchivedByDate(arg: Option<string>, data: Snapshot, today: string, parse: string -> Option<string>)
    returns (r: Option<(Window, seq<AppCount>, nat)>)
    ensures r.None? <==> WeekMondayToSunday(RefDate(arg, data, today)).None?
    ensures r.Some? ==>
      (r.value.0 == WeekMondayToSunday(RefDate(arg, data, today)).value
       && r.value.1 == Results(AppsOf(data), r.value.0, parse) && r.value.2 == SumCounts(r.value.1))
  {
    var refDate := if Truthy(arg) then arg.value else if Truthy(data.snapshotDate) then data.snapshotDate.value else today;
    var week := WeekMondayToSunday(refDate);
    if week.None? {
      return None;
    }
    var results, grandTotal := CountByApp(data, week.value, parse);
    r := Some((week.value, results, grandTotal));
  }

  /**
   * Each line is the app's slug and its count of reviews in the week, which is
   * at most its number of reviews.
   */
  lemma {:induction false} ResultLines(apps: seq<App>, w: Window, parse: string -> Option<string>, i: nat)
    requires i < |apps|
    ensures Results(apps, w, parse)[i].app == AppSlug(apps[i].appReviewsUrl)
    ensures Results(apps, w, parse)[i].count == CountInWindow(ReviewsOf(apps[i]), w.start, w.end, parse)
    ensures Results(apps, w, parse)[i].count <= |ReviewsOf(apps[i])|
  {
    if i < |apps| - 1 {
      ResultLines(apps[..|apps| - 1], w, parse, i);
    }
  }

  /** The grand total is the number of all reviews of the snapshot that fall in the week. */
  lemma {:induction false} GrandTotalIsAllInWeek(apps: seq<App>, w: Window, parse: string -> Option<string>)
    ensures SumCounts(Results(apps, w, parse)) == CountInWindow(Server.AllReviews(apps), w.start, w.end, parse)
  {
    if apps != [] {
      var init := apps[..|apps| - 1];
      GrandTotalIsAllInWeek(init, w, parse);
      var r := Results(apps, w, parse);
      assert r[..|r| - 1] == Results(init, w, parse);
      Server.CountConcat(Server.AllReviews(init), ReviewsOf(apps[|apps| - 1]), w, parse);
    }
  }

  /**
   * The week counted is the Monday-to-Sunday week whose Sunday is the
   * reference date or the last Sunday before it.
   */
  lemma CountedWeek(arg: Option<string>, data: Snapshot, today: string)
    requires CanonicalIso(RefDate(arg, data, today)) && WeekMondayToSunday(RefDate(arg, data, today)).Some?
    ensures var ref := RefDate(arg, data, today);
      && ParseIsoDay(WeekMondayToSunday(ref).value.end) == Some(WeekEndDay(ParseIsoDay(ref).value))
      && ParseIsoDay(WeekMondayToSunday(ref).value.start) == Some(WeekEndDay(ParseIsoDay(ref).value) - 6)
      && LexLe(WeekMondayToSunday(ref).value.end, ref)
  {
    var ref := RefDate(arg, data, today);
    WeekWindowSpec(ref);
    WeekWindowEndsOnOrBefore(ref);
  }
}
