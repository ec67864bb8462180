/**
 * The report comparing two weekly snapshots: for every app URL of either
 * snapshot, in sorted order, the archived review ids that are new in the
 * later snapshot or gone from it, and whether any app had new ones.
 */
module Diff {
  import opened Wrappers
  import opened Strs
  import opened Records
  import opened Slugs

  /** `loadSnapshot(path)` after parsing: a snapshot without an app list is replaced by one with no apps and no date. */
  function LoadSnapshot(data: Snapshot): (r: Snapshot)
    ensures r.apps.Some?
    ensures data.apps.Some? ==> r == data
    ensures data.apps.None? ==> r.apps == Some([]) && r.snapshotDate.None?
  {
    if data.apps.Some? then data else Snapshot(None, Some([]))
  }

  /** No element occurs twice. */
  predicate NoDup(xs: seq<string>) {
    forall i, j :: 0 <= i < j < |xs| ==> xs[i] != xs[j]
  }

  // ---------------------------------------------------------------------------
  // Review ids.
  // ---------------------------------------------------------------------------

  /** The ids of the reviews that have a non-empty one, in order. */
  function ReviewIds(rs: seq<Review>): seq<string> {
    if rs == [] then []
    else
      var r := rs[|rs| - 1];
      ReviewIds(rs[..|rs| - 1]) + (if Truthy(r.id) then [r.id.value] else [])
  }

  /** `idsFromApp(app)`: no ids for a missing app or one whose scrape failed, else its review ids, each once, in order. */
  function IdsOf(app: Option<App>): seq<string> {
    if app.None? || Truthy(app.value.error) then [] else Dedup(ReviewIds(ReviewsOf(app.value)))
  }

  lemma {:induction false} ReviewIdsSpec(rs: seq<Review>, id: string)
    ensures id in ReviewIds(rs) <==> id != "" && exists i :: 0 <= i < |rs| && rs[i].id == Some(id)
  {
    if rs != [] {
      var init := rs[..|rs| - 1];
      ReviewIdsSpec(init, id);
      assert forall i :: 0 <= i < |init| ==> init[i] == rs[i];
      if rs[|rs| - 1].id == Some(id) && id != "" {
        assert id in ReviewIds(rs);
      }
    }
  }

  /**
   * An app's ids are exactly the non-empty ids of its reviews, each once, and
   * there are none for a missing app or one whose scrape failed.
   */
  lemma IdsOfSpec(app: Option<App>, id: string)
    ensures id in IdsOf(app) <==>
      app.Some? && !Truthy(app.value.error) && id != ""
      && exists i :: 0 <= i < |ReviewsOf(app.value)| && ReviewsOf(app.value)[i].id == Some(id)
    ensures NoDup(IdsOf(app))
  {
    if app.Some? && !Truthy(app.value.error) {
      DedupSpec(ReviewIds(ReviewsOf(app.value)));
      ReviewIdsSpec(ReviewsOf(app.value), id);
    }
  }

  /** `idsFromApp(app)`: a `Set` filled review by review. */
  method IdsFromApp(app: Option<App>) returns (ids: seq<string>)
    ensures ids == IdsOf(app)
  {
    if app.None? || Truthy(app.value.error) {
      return [];
    }
    var reviews := ReviewsOf(app.value);
    ids := [];
    var i := 0;
    while i < |reviews|
      invariant 0 <= i <= |reviews|
      invariant ids == Dedup(ReviewIds(reviews[..i]))
    {
      assert reviews[..i + 1][..i] == reviews[..i];
      ghost var seen := ReviewIds(reviews[..i]);
      var r := reviews[i];
      if !Truthy(r.id) {
        assert ReviewIds(reviews[..i + 1]) == seen;
      } else {
        assert ReviewIds(reviews[..i + 1]) == seen + [r.id.value];
        DedupSnoc(seen, r.id.value);
        if r.id.value !in ids {
          ids := ids + [r.id.value];
        }
      }
      i := i + 1;
    }
    assert reviews[..|reviews|] == reviews;
  }

  /** The elements of xs that are not in ys, in order (`[...xs].filter((id) => !ys.has(id))`). */
  function Without(xs: seq<string>, ys: seq<string>): seq<string> {
    if xs == [] then []
    else Without(xs[..|xs| - 1], ys) + (if xs[|xs| - 1] in ys then [] else [xs[|xs| - 1]])
  }

  lemma {:induction false} WithoutSpec(xs: seq<string>, ys: seq<string>)
    ensures forall x :: x in Without(xs, ys) <==> x in xs && x !in ys
    ensures NoDup(xs) ==> NoDup(Without(xs, ys))
  {
    if xs != [] {
      var init := xs[..|xs| - 1];
      WithoutSpec(init, ys);
      assert forall x :: x in xs <==> x in init || x == xs[|xs| - 1];
      assert NoDup(xs) ==> NoDup(init) && xs[|xs| - 1] !in init;
    }
  }

  /** The ids of the later snapshot that the earlier one lacks. */
  function NewIds(before: seq<string>, after: seq<string>): seq<string> {
    Without(after, before)
  }

  /** The ids of the earlier snapshot that the later one lacks. */
  function RemovedIds(before: seq<string>, after: seq<string>): seq<string> {
    Without(before, after)
  }

  /**
   * An id is new exactly when only the later snapshot has it, and gone exactly
   * when only the earlier one has it; so no id is both, and an id of both
   * snapshots is neither.
   */
  lemma NewAndRemoved(before: seq<string>, after: seq<string>, id: string)
    ensures id in NewIds(before, after) <==> id in after && id !in before
    ensures id in RemovedIds(before, after) <==> id in before && id !in after
    ensures !(id in NewIds(before, after) && id in RemovedIds(before, after))
    ensures id in before && id in after ==> id !in NewIds(before, after) && id !in RemovedIds(before, after)
  {
    WithoutSpec(after, before);
    WithoutSpec(before, after);
  }

  // ---------------------------------------------------------------------------
  // Apps by URL.
  // ---------------------------------------------------------------------------

  /** The apps' non-empty URLs, in order. */
  function Urls(apps: seq<App>): seq<string> {
    if apps == [] then []
    else
      var u := apps[|apps| - 1].appReviewsUrl;
      Urls(apps[..|apps| - 1]) + (if Truthy(u) then [u.value] else [])
  }

  /** `beforeByUrl`/`afterByUrl`: each non-empty URL to its app, a later app replacing an earlier one. */
  function ByUrl(apps: seq<App>): map<string, App> {
    if apps == [] then map[]
    else
      var a := apps[|apps| - 1];
      var m := ByUrl(apps[..|apps| - 1]);
      if Truthy(a.appReviewsUrl) then m[a.appReviewsUrl.value := a] else m
  }

  /** The last app with the URL, if any. */
  function LastWithUrl(apps: seq<App>, url: string): Option<App> {
    if apps == [] then None
    else if apps[|apps| - 1].appReviewsUrl == Some(url) then Some(apps[|apps| - 1])
    else LastWithUrl(apps[..|apps| - 1], url)
  }

  /** A URL is a key exactly when it is an app's non-empty URL, and it maps to the last app with it. */
  lemma {:induction false} ByUrlSpec(apps: seq<App>, url: string)
    ensures url in ByUrl(apps) <==> url in Urls(apps)
    ensures url in ByUrl(apps) <==> url != "" && LastWithUrl(apps, url).Some?
    ensures url in ByUrl(apps) ==> ByUrl(apps)[url] == LastWithUrl(apps, url).value
  {
    if apps != [] {
      ByUrlSpec(apps[..|apps| - 1], url);
    }
  }

  /** One more app: its non-empty URL becomes a key if it is new, and maps to the app. */
  lemma IndexStep(apps: seq<App>, i: nat)
    requires i < |apps|
    ensures var u := apps[i].appReviewsUrl;
      var keys := Dedup(Urls(apps[..i]));
      var m := ByUrl(apps[..i]);
      && Dedup(Urls(apps[..i + 1])) == (if Truthy(u) && u.value !in m then keys + [u.value] else keys)
      && ByUrl(apps[..i + 1]) == (if Truthy(u) then m[u.value := apps[i]] else m)
  {
    assert apps[..i + 1][..i] == apps[..i];
    var u := apps[i].appReviewsUrl;
    var seen := Urls(apps[..i]);
    if !Truthy(u) {
      assert Urls(apps[..i + 1]) == seen + [];
      assert seen + [] == seen;
    } else {
      ByUrlSpec(apps[..i], u.value);
      DedupSnoc(seen, u.value);
      DedupSpec(seen);
    }
  }

  /** The `Map` filled in a loop: its keys in the order they were first set, and the map itself. */
  method IndexByUrl(apps: seq<App>) returns (keys: seq<string>, byUrl: map<string, App>)
    ensures keys == Dedup(Urls(apps)) && byUrl == ByUrl(apps)
  {
    keys, byUrl := [], map[];
    var i := 0;
    while i < |apps|
      invariant 0 <= i <= |apps|
      invariant keys == Dedup(Urls(apps[..i])) && byUrl == ByUrl(apps[..i])
    {
      IndexStep(apps, i);
      var app := apps[i];
      if Truthy(app.appReviewsUrl) {
        if app.appReviewsUrl.value !in byUrl {
          keys := keys + [app.appReviewsUrl.value];
        }
        byUrl := byUrl[app.appReviewsUrl.value := app];
      }
      i := i + 1;
    }
    assert apps[..|apps|] == apps;
  }

  // ---------------------------------------------------------------------------
  // Sorting the URLs.
  // ---------------------------------------------------------------------------

  /** Ascending in the order of `<` on strings. */
  predicate Sorted(xs: seq<string>) {
    forall i, j :: 0 <= i < j < |xs| ==> LexLe(xs[i], xs[j])
  }

  function Insert(x: string, xs: seq<string>): seq<string> {
    if xs == [] then [x]
    else if LexLe(x, xs[0]) then [x] + xs
    else [xs[0]] + Insert(x, xs[1..])
  }

  /** `xs.sort()`: the default sort, which compares strings with `<`. */
  function Sort(xs: seq<string>): seq<string> {
    if xs == [] then [] else Insert(xs[0], Sort(xs[1..]))
  }

  /** Inserting into a sorted list keeps it sorted and adds exactly the one element. */
  lemma InsertSpec(x: string, xs: seq<string>)
    requires Sorted(xs)
    ensures Sorted(Insert(x, xs))
    ensures multiset(Insert(x, xs)) == multiset(xs) + multiset{x}
  {
    InsertPerm(x, xs);
    InsertSorted(x, xs);
  }

  lemma {:induction false} InsertPerm(x: string, xs: seq<string>)
    ensures multiset(Insert(x, xs)) == multiset(xs) + multiset{x}
  {
    if xs != [] && !LexLe(x, xs[0]) {
      assert xs == [xs[0]] + xs[1..];
      InsertPerm(x, xs[1..]);
    }
  }

  lemma {:induction false} InsertSorted(x: string, xs: seq<string>)
    requires Sorted(xs)
    ensures Sorted(Insert(x, xs))
  {
    if xs != [] && !LexLe(x, xs[0]) {
      var rest := xs[1..];
      InsertSorted(x, rest);
      InsertPerm(x, rest);
      LexLessLe(xs[0], x);
      var ins := Insert(x, rest);
      forall j | 0 <= j < |ins| ensures LexLe(xs[0], ins[j]) {
        assert ins[j] in multiset(ins);
        if ins[j] != x {
          assert ins[j] in rest;
        }
      }
      ConsSorted(xs[0], ins);
    } else if xs != [] {
      forall j | 0 <= j < |xs| ensures LexLe(x, xs[j]) {
        if j > 0 {
          LexLeTransitive(x, xs[0], xs[j]);
        }
      }
      ConsSorted(x, xs);
    } else {
      ConsSorted(x, []);
    }
  }

  /** A sorted list stays sorted under a first element no greater than any of its own. */
  lemma ConsSorted(h: string, t: seq<string>)
    requires Sorted(t) && forall j :: 0 <= j < |t| ==> LexLe(h, t[j])
    ensures Sorted([h] + t)
  {
    var s := [h] + t;
    forall i, j | 0 <= i < j < |s| ensures LexLe(s[i], s[j]) {
      assert s[j] == t[j - 1];
      if i > 0 {
        assert s[i] == t[i - 1];
      }
    }
  }

  /** The sort puts the same elements in ascending order. */
  lemma {:induction false} SortSpec(xs: seq<string>)
    ensures Sorted(Sort(xs)) && multiset(Sort(xs)) == multiset(xs)
  {
    if xs != [] {
      SortSpec(xs[1..]);
      InsertSpec(xs[0], Sort(xs[1..]));
      assert xs == [xs[0]] + xs[1..];
    }
  }

  /** A sorted list without repeats is strictly ascending. */
  lemma SortedStrict(xs: seq<string>)
    requires Sorted(xs) && NoDup(xs)
    ensures forall i, j :: 0 <= i < j < |xs| ==> LexLess(xs[i], xs[j])
  {
    forall i, j | 0 <= i < j < |xs| ensures LexLess(xs[i], xs[j]) {
      LexLessTotal(xs[i], xs[j]);
    }
  }

  /** A list has no repeats exactly when no element occurs more than once. */
  lemma {:induction false} NoDupCounts(xs: seq<string>)
    ensures NoDup(xs) <==> forall x :: multiset(xs)[x] <= 1
  {
    if xs != [] {
      var init := xs[..|xs| - 1];
      var x := xs[|xs| - 1];
      NoDupCounts(init);
      assert xs == init + [x];
      if NoDup(xs) {
        assert NoDup(init) && x !in init;
        assert multiset(init)[x] == 0;
      } else {
        var i, j :| 0 <= i < j < |xs| && xs[i] == xs[j];
        if j < |xs| - 1 {
          assert init[i] == init[j];
          assert !NoDup(init);
          var y :| multiset(init)[y] > 1;
          assert multiset(xs)[y] >= multiset(init)[y];
        } else {
          assert init[i] == x;
          assert multiset(xs)[x] >= 2;
        }
      }
    }
  }

  /** The URLs the report goes through: those of both snapshots, each once, sorted. */
  function AllUrls(beforeApps: seq<App>, afterApps: seq<App>): seq<string> {
    Sort(Dedup(Dedup(Urls(beforeApps)) + Dedup(Urls(afterApps))))
  }

  /**
   * The report goes through every non-empty URL of either snapshot once, in
   * strictly ascending order, and through no other.
   */
  lemma AllUrlsSpec(beforeApps: seq<App>, afterApps: seq<App>)
    ensures var urls := AllUrls(beforeApps, afterApps);
      && (forall u :: u in urls <==> u in ByUrl(beforeApps) || u in ByUrl(afterApps))
      && NoDup(urls)
      && forall i, j :: 0 <= i < j < |urls| ==> LexLess(urls[i], urls[j])
  {
    var b, a := Dedup(Urls(beforeApps)), Dedup(Urls(afterApps));
    DedupSpec(Urls(beforeApps));
    DedupSpec(Urls(afterApps));
    DedupSpec(b + a);
    var u := Dedup(b + a);
    var urls := AllUrls(beforeApps, afterApps);
    SortSpec(u);
    forall x ensures x in urls <==> x in ByUrl(beforeApps) || x in ByUrl(afterApps) {
      assert x in urls <==> x in multiset(urls);
      assert x in u <==> x in multiset(u);
      ByUrlSpec(beforeApps, x);
      ByUrlSpec(afterApps, x);
    }
    NoDupCounts(u);
    NoDupCounts(urls);
    SortedStrict(urls);
  }

  // ---------------------------------------------------------------------------
  // The report.
  // ---------------------------------------------------------------------------

  /** What the report says about one URL. */
  datatype Outcome =
    | AfterError(name: string, error: string)
    | NewArchived(name: string, newIds: seq<string>)
    | SomeRemoved(name: string, total: nat, removed: nat)
    | Unchanged(name: string, total: nat)

  function Get(m: map<string, App>, url: string): Option<App> {
    if url in m then Some(m[url]) else None
  }

  /** The later snapshot's app of the URL failed to scrape. */
  predicate AfterFailed(afterByUrl: map<string, App>, url: string) {
    url in afterByUrl && Truthy(afterByUrl[url].error)
  }

  /** The new ids of a URL. */
  function NewIdsAt(beforeByUrl: map<string, App>, afterByUrl: map<string, App>, url: string): seq<string> {
    NewIds(IdsOf(Get(beforeByUrl, url)), IdsOf(Get(afterByUrl, url)))
  }

  function OutcomeOf(beforeByUrl: map<string, App>, afterByUrl: map<string, App>, url: string): Outcome {
    var name := AppName(Some(url));
    var beforeIds := IdsOf(Get(beforeByUrl, url));
    var afterIds := IdsOf(Get(afterByUrl, url));
    var newIds := NewIds(beforeIds, afterIds);
    var removedIds := RemovedIds(beforeIds, afterIds);
    if AfterFailed(afterByUrl, url) then AfterError(name, afterByUrl[url].error.value)
    else if |newIds| > 0 then NewArchived(name, newIds)
    else if |removedIds| > 0 then SomeRemoved(name, |afterIds|, |removedIds|)
    else Unchanged(name, |afterIds|)
  }

  function Outcomes(urls: seq<string>, beforeByUrl: map<string, App>, afterByUrl: map<string, App>): (r: seq<Outcome>)
    ensures |r| == |urls|
  {
    if urls == [] then []
    else Outcomes(urls[..|urls| - 1], beforeByUrl, afterByUrl) + [OutcomeOf(beforeByUrl, afterByUrl, urls[|urls| - 1])]
  }

  /** The later app of the URL did not fail and the URL has new ids. */
  predicate HasNew(beforeByUrl: map<string, App>, afterByUrl: map<string, App>, url: string) {
    !AfterFailed(afterByUrl, url) && |NewIdsAt(beforeByUrl, afterByUrl, url)| > 0
  }

  /** A URL is reported with new ids exactly when its later app did not fail and it has some. */
  lemma OutcomeNew(beforeByUrl: map<string, App>, afterByUrl: map<string, App>, url: string)
    ensures OutcomeOf(beforeByUrl, afterByUrl, url).NewArchived? <==> HasNew(beforeByUrl, afterByUrl, url)
  {
  }

  /** `anyNew` after the URLs so far. */
  function AnyNew(urls: seq<string>, beforeByUrl: map<string, App>, afterByUrl: map<string, App>): bool {
    if urls == [] then false
    else AnyNew(urls[..|urls| - 1], beforeByUrl, afterByUrl) || HasNew(beforeByUrl, afterByUrl, urls[|urls| - 1])
  }

  /** The flag is set exactly when some URL whose later app did not fail has new ids. */
  lemma {:induction false} AnyNewSpec(urls: seq<string>, beforeByUrl: map<string, App>, afterByUrl: map<string, App>)
    ensures AnyNew(urls, beforeByUrl, afterByUrl) <==> exists i :: 0 <= i < |urls| && HasNew(beforeByUrl, afterByUrl, urls[i])
  {
    if urls != [] {
      var init := urls[..|urls| - 1];
      AnyNewSpec(init, beforeByUrl, afterByUrl);
      if HasNew(beforeByUrl, afterByUrl, urls[|urls| - 1]) {
      } else if AnyNew(init, beforeByUrl, afterByUrl) {
        var i :| 0 <= i < |init| && HasNew(beforeByUrl, afterByUrl, init[i]);
        assert init[i] == urls[i];
      } else {
        forall i | 0 <= i < |urls|
          ensures !HasNew(beforeByUrl, afterByUrl, urls[i])
        {
          if i < |init| {
            assert init[i] == urls[i];
          }
        }
      }
    }
  }

  /** A URL whose later app failed has no new ids either, so the flag is just "some URL has new ids". */
  lemma FailedHasNoNewIds(beforeByUrl: map<string, App>, afterByUrl: map<string, App>, url: string)
    requires AfterFailed(afterByUrl, url)
    ensures NewIdsAt(beforeByUrl, afterByUrl, url) == []
  {
  }

  /** The report loop: the outcome of each URL in sorted order, and whether any had new ids. */
  method CompareSnapshots(beforeRaw: Snapshot, afterRaw: Snapshot) returns (outcomes: seq<Outcome>, anyNew: bool)
    ensures var beforeApps, afterApps := AppsOf(LoadSnapshot(beforeRaw)), AppsOf(LoadSnapshot(afterRaw));
      outcomes == Outcomes(AllUrls(beforeApps, afterApps), ByUrl(beforeApps), ByUrl(afterApps))
    ensures var beforeApps, afterApps := AppsOf(LoadSnapshot(beforeRaw)), AppsOf(LoadSnapshot(afterRaw));
      anyNew == AnyNew(AllUrls(beforeApps, afterApps), ByUrl(beforeApps), ByUrl(afterApps))
  {
    var beforeData := LoadSnapshot(beforeRaw);
    var afterData := LoadSnapshot(afterRaw);
    var beforeKeys, beforeByUrl := IndexByUrl(AppsOf(beforeData));
    var afterKeys, afterByUrl := IndexByUrl(AppsOf(afterData));
    var urls := Sort(Dedup(beforeKeys + afterKeys));
    outcomes, anyNew := ReportAll(urls, beforeByUrl, afterByUrl);
  }

  /** The report loop over the sorted URLs. */
  method ReportAll(urls: seq<string>, beforeByUrl: map<string, App>, afterByUrl: map<string, App>) returns (outcomes: seq<Outcome>, anyNew: bool)
    ensures outcomes == Outcomes(urls, beforeByUrl, afterByUrl) && anyNew == AnyNew(urls, beforeByUrl, afterByUrl)
  {
    outcomes, anyNew := [], false;
    var i := 0;
    while i < |urls|
      invariant 0 <= i <= |urls|
      invariant outcomes == Outcomes(urls[..i], beforeByUrl, afterByUrl) && anyNew == AnyNew(urls[..i], beforeByUrl, afterByUrl)
    {
      ReportStep(urls, i, beforeByUrl, afterByUrl);
      var outcome;
      outcome, anyNew := ReportUrl(beforeByUrl, afterByUrl, urls[i], anyNew);
      outcomes := outcomes + [outcome];
      i := i + 1;
    }
    assert urls[..|urls|] == urls;
  }

  /** One more URL adds its outcome and its new ids to the flag. */
  lemma ReportStep(urls: seq<string>, i: nat, beforeByUrl: map<string, App>, afterByUrl: map<string, App>)
    requires i < |urls|
    ensures Outcomes(urls[..i + 1], beforeByUrl, afterByUrl)
      == Outcomes(urls[..i], beforeByUrl, afterByUrl) + [OutcomeOf(beforeByUrl, afterByUrl, urls[i])]
    ensures AnyNew(urls[..i + 1], beforeByUrl, afterByUrl)
      == (AnyNew(urls[..i], beforeByUrl, afterByUrl) || HasNew(beforeByUrl, afterByUrl, urls[i]))
  {
    assert urls[..i + 1][..i] == urls[..i];
  }

  /** The body of the report loop for one URL. */
  method ReportUrl(beforeByUrl: map<string, App>, afterByUrl: map<string, App>, url: string, anyNew: bool)
    returns (outcome: Outcome, anyNew': bool)
    ensures outcome == OutcomeOf(beforeByUrl, afterByUrl, url)
    ensures anyNew' == (anyNew || HasNew(beforeByUrl, afterByUrl, url))
  {
    anyNew' := anyNew;
    var name := AppName(Some(url));
    var beforeApp := if url in beforeByUrl then Some(beforeByUrl[url]) else None;
    var afterApp := if url in afterByUrl then Some(afterByUrl[url]) else None;
    var beforeIds := IdsFromApp(beforeApp);
    var afterIds := IdsFromApp(afterApp);
    var newIds := Without(afterIds, beforeIds);
    var removedIds := Without(beforeIds, afterIds);
    if afterApp.Some? && Truthy(afterApp.value.error) {
      return AfterError(name, afterApp.value.error.value), anyNew';
    }
    if |newIds| > 0 {
      anyNew' := true;
    }
    if |newIds| > 0 {
      outcome := NewArchived(name, newIds);
    } else if |removedIds| > 0 {
      outcome := SomeRemoved(name, |afterIds|, |removedIds|);
    } else {
      outcome := Unchanged(name, |afterIds|);
    }
  }

  /** The lines printed for one outcome; at most 20 new ids are listed. */
  function OutcomeLines(o: Outcome): seq<string> {
    match o
    case AfterError(name, error) => [name + ": Error in after snapshot \U{2013} " + error]
    case NewArchived(name, ids) =>
      var shown := if |ids| > 20 then ids[..20] else ids;
      [name + ": " + Decimal(|ids|) + " new review(s) archived this period",
       "  New archived IDs: " + Join(shown, ", ") + (if |ids| > 20 then " ... (+" + Decimal(|ids| - 20) + " more)" else "")]
    case SomeRemoved(name, total, removed) =>
      [name + ": No new archived this period (archived total: " + Decimal(total) + "; " + Decimal(removed) + " no longer in snapshot)"]
    case Unchanged(name, total) => [name + ": No new archived reviews this period (total archived: " + Decimal(total) + ")"]
  }

  /** The closing line. */
  function SummaryLine(anyNew: bool): string {
    if anyNew then "Summary: At least one app had new archived reviews in this period."
    else "Summary: No new archived reviews detected for any app in this period."
  }
}
