/**
 * The snapshot records the scraper writes and the reporting scripts read back:
 * a review as the scraper extracts it, an app entry, the snapshot file, and the
 * questions every reader asks of a review (does it carry anything, what is its
 * merge key, what star does its rating round to, does it fall in a date range).
 */
module Records {
  import opened Wrappers
  import opened Strs

  /** One archived review; every field may be missing (`null` in the snapshot). */
  datatype Review = Review(
    id: Option<string>,
    rating: Option<real>,
    ratingLabel: Option<string>,
    text: Option<string>,
    dateText: Option<string>,
    dateISO: Option<string>)

  /** One app entry of a snapshot: its reviews-page URL, its reviews or the error that stopped the scrape. */
  datatype App = App(appReviewsUrl: Option<string>, archivedReviews: Option<seq<Review>>, error: Option<string>)

  /** A snapshot file: the date it was taken and the app entries. */
  datatype Snapshot = Snapshot(snapshotDate: Option<string>, apps: Option<seq<App>>)

  /** `app.archivedReviews || []`. */
  function ReviewsOf(app: App): seq<Review> {
    app.archivedReviews.GetOr([])
  }

  /** `data.apps || []`. */
  function AppsOf(data: Snapshot): seq<App> {
    data.apps.GetOr([])
  }

  /** A record worth keeping: an id, a rating, some text, a date text or an ISO date. */
  predicate HasSignal(r: Review) {
    Truthy(r.id) || r.rating.Some? || Truthy(r.text) || Truthy(r.dateText) || Truthy(r.dateISO)
  }

  /** The merge key: date text, text and id concatenated, each missing one as ''. */
  function Key(r: Review): string {
    OrEmpty(r.dateText) + OrEmpty(r.text) + OrEmpty(r.id)
  }

  /** The key is empty exactly when the record has neither date text, text nor id. */
  lemma KeyEmpty(r: Review)
    ensures Key(r) == "" <==> !Truthy(r.dateText) && !Truthy(r.text) && !Truthy(r.id)
  {
    if Key(r) == "" {
      assert |Key(r)| == |OrEmpty(r.dateText)| + |OrEmpty(r.text)| + |OrEmpty(r.id)|;
    }
  }

  /** Keys are plain concatenations, so two different records can share one. */
  lemma KeyCollision()
    ensures Key(Review(None, None, None, Some("b"), Some("a"), None))
         == Key(Review(None, None, None, None, Some("ab"), None))
  {
  }

  /**
   * The star a rating counts under: `Math.round(rating)` when the rating is
   * between 1 and 5, else none (the "unknown" bucket).
   */
  function Star(rating: Option<real>): (s: Option<int>)
    ensures s.Some? <==> rating.Some? && 1.0 <= rating.value <= 5.0
    ensures s.Some? ==> 1 <= s.value <= 5
    ensures s.Some? ==> rating.value - 0.5 < s.value as real <= rating.value + 0.5
  {
    if rating.Some? && 1.0 <= rating.value <= 5.0 then Some((rating.value + 0.5).Floor) else None
  }

  /** `start <= iso && iso <= end` on strings. */
  predicate InRange(iso: string, start: string, end: string) {
    LexLe(start, iso) && LexLe(iso, end)
  }

  /**
   * Whether a review counts for the range: its ISO date when that is present
   * and in range, else the date `new Date(dateText)` reads its date text as
   * (`parse`, None where the date is invalid) when that is in range.
   */
  predicate ReviewInWindow(r: Review, start: string, end: string, parse: string -> Option<string>) {
    (Truthy(r.dateISO) && InRange(r.dateISO.value, start, end))
    || (Truthy(r.dateText) && parse(r.dateText.value).Some? && InRange(parse(r.dateText.value).value, start, end))
  }

  /** How many of the reviews count for the range. */
  function CountInWindow(rs: seq<Review>, start: string, end: string, parse: string -> Option<string>): (n: nat)
    ensures n <= |rs|
  {
    if rs == [] then 0
    else CountInWindow(rs[..|rs| - 1], start, end, parse) + (if ReviewInWindow(rs[|rs| - 1], start, end, parse) then 1 else 0)
  }

  /** None of the reviews counts exactly when the count is 0, and all of them exactly when it is their number. */
  lemma {:induction false} CountInWindowBounds(rs: seq<Review>, start: string, end: string, parse: string -> Option<string>)
    ensures CountInWindow(rs, start, end, parse) == 0 <==> forall i :: 0 <= i < |rs| ==> !ReviewInWindow(rs[i], start, end, parse)
    ensures CountInWindow(rs, start, end, parse) == |rs| <==> forall i :: 0 <= i < |rs| ==> ReviewInWindow(rs[i], start, end, parse)
  {
    if rs != [] {
      var init := rs[..|rs| - 1];
      CountInWindowBounds(init, start, end, parse);
      assert forall i :: 0 <= i < |init| ==> init[i] == rs[i];
    }
  }

  /** The latest ISO date among the reviews: each present one replaces the current if there is none or it is greater. */
  function LastIso(rs: seq<Review>): (r: Option<string>)
    ensures r.Some? ==> r.value != ""
  {
    if rs == [] then None
    else
      var prev := LastIso(rs[..|rs| - 1]);
      var d := rs[|rs| - 1].dateISO;
      if Truthy(d) && (prev.None? || LexLess(prev.value, d.value)) then d else prev
  }

  /** The latest ISO date is absent exactly when no review has one, and is otherwise the greatest of them. */
  lemma {:induction false} LastIsoIsMax(rs: seq<Review>)
    ensures LastIso(rs).None? <==> forall i :: 0 <= i < |rs| ==> !Truthy(rs[i].dateISO)
    ensures LastIso(rs).Some? ==> exists i :: 0 <= i < |rs| && rs[i].dateISO == LastIso(rs)
    ensures forall i :: 0 <= i < |rs| && Truthy(rs[i].dateISO) ==> LexLe(rs[i].dateISO.value, LastIso(rs).value)
  {
    if rs != [] {
      var init := rs[..|rs| - 1];
      LastIsoIsMax(init);
      assert forall i :: 0 <= i < |init| ==> init[i] == rs[i];
      var prev := LastIso(init);
      var d := rs[|rs| - 1].dateISO;
      if Truthy(d) && (prev.None? || LexLess(prev.value, d.value)) {
        if prev.Some? {
          LexLessLe(prev.value, d.value);
          forall i | 0 <= i < |init| && Truthy(init[i].dateISO)
            ensures LexLe(init[i].dateISO.value, d.value)
          {
            LexLeTransitive(init[i].dateISO.value, prev.value, d.value);
          }
        }
        LexLessIrreflexive(d.value);
      } else if Truthy(d) {
        LexNotLessIsLe(prev.value, d.value);
      }
    }
  }
}
