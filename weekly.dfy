/**
 * The weekly report's counting logic: which date elements of a review card are
 * candidates, which date is chosen for the card, how many cards of a page fall
 * in the week, the oldest date on a page, and the pagination loop that adds the
 * pages up. The page itself is abstracted: each card is given as the date
 * elements it has and the dates the text scans of its text produce.
 */
module Weekly {
  import opened Wrappers
  import opened Strs
  import opened Calendar
  import opened Weeks
  import opened Slugs

  // ---------------------------------------------------------------------------
  // Greatest and least strings, as `sort().pop()` and the comparison folds find them.
  // ---------------------------------------------------------------------------

  /** The greatest element of a non-empty list (`xs.sort().pop()`). */
  function SeqMax(xs: seq<string>): (m: string)
    requires xs != []
    ensures m in xs
    ensures forall i :: 0 <= i < |xs| ==> LexLe(xs[i], m)
    ensures forall x :: x in xs ==> LexLe(x, m)
  {
    if |xs| == 1 then LexLessIrreflexive(xs[0]); xs[0]
    else
      var prev := SeqMax(xs[..|xs| - 1]);
      var last := xs[|xs| - 1];
      assert forall i :: 0 <= i < |xs| - 1 ==> xs[..|xs| - 1][i] == xs[i];
      if LexLess(prev, last) then
        assert forall i :: 0 <= i < |xs| - 1 ==> LexLe(xs[i], last) by {
          forall i | 0 <= i < |xs| - 1 ensures LexLe(xs[i], last) {
            LexLessLe(prev, last);
            LexLeTransitive(xs[i], prev, last);
          }
        }
        LexLessIrreflexive(last);
        last
      else
        prev
  }

  /** The fold `if (iso && (!best || iso > best)) best = iso` over a list, from no value. */
  function TruthyMax(xs: seq<string>): (m: Option<string>)
    ensures m.Some? ==> m.value != "" && m.value in xs
    ensures m.None? <==> forall i :: 0 <= i < |xs| ==> xs[i] == ""
    ensures m.Some? ==> forall i :: 0 <= i < |xs| ==> LexLe(xs[i], m.value) || xs[i] == ""
  {
    if xs == [] then None
    else
      var prev := TruthyMax(xs[..|xs| - 1]);
      var x := xs[|xs| - 1];
      assert forall i :: 0 <= i < |xs| - 1 ==> xs[..|xs| - 1][i] == xs[i];
      if x != "" && (prev.None? || LexLess(prev.value, x)) then
        assert forall i :: 0 <= i < |xs| - 1 ==> LexLe(xs[i], x) || xs[i] == "" by {
          forall i | 0 <= i < |xs| - 1 && xs[i] != "" ensures LexLe(xs[i], x) {
            LexLessLe(prev.value, x);
            LexLeTransitive(xs[i], prev.value, x);
          }
        }
        LexLessIrreflexive(x);
        Some(x)
      else
        prev
  }

  // ---------------------------------------------------------------------------
  // Candidate dates of a card.
  // ---------------------------------------------------------------------------

  /** A JavaScript `\s` character. */
  predicate IsJsSpace(c: char) {
    c == ' ' || c == '\t' || c == '\n' || c == '\r' || c == '\U{000B}' || c == '\U{000C}'
    || c == '\U{00A0}' || c == '\U{1680}' || ('\U{2000}' <= c <= '\U{200A}') || c == '\U{2028}' || c == '\U{2029}'
    || c == '\U{202F}' || c == '\U{205F}' || c == '\U{3000}' || c == '\U{FEFF}'
  }

  /** ASCII case folding, the only folding a non-Unicode `/i` pattern does on these letters. */
  function Lower(c: char): char {
    if 'A' <= c <= 'Z' then (c as int + 32) as char else c
  }

  /** `/replied\s+/i` matches at position i. */
  predicate RepliedAt(t: string, i: nat) {
    i + 8 <= |t|
    && Lower(t[i]) == 'r' && Lower(t[i + 1]) == 'e' && Lower(t[i + 2]) == 'p' && Lower(t[i + 3]) == 'l'
    && Lower(t[i + 4]) == 'i' && Lower(t[i + 5]) == 'e' && Lower(t[i + 6]) == 'd' && IsJsSpace(t[i + 7])
  }

  /** The text of a date element mentions a reply ("Replied Feb 3"). */
  predicate MentionsReplied(t: string) {
    exists i: nat :: i < |t| && RepliedAt(t, i)
  }

  /** `/^\d{4}-\d{2}-\d{2}/` matches the attribute. */
  predicate IsoPrefix(dt: string) {
    |dt| >= 10 && DigitsAt(dt, 0, 4) && dt[4] == '-' && DigitsAt(dt, 5, 2) && dt[7] == '-' && DigitsAt(dt, 8, 2)
  }

  /**
   * A date element of a card: whether it lies in the reply block, its trimmed
   * text, its `datetime` attribute, and the ISO date `new Date` gives for the
   * month-name date in its text, if there is one.
   */
  datatype DateEl = DateEl(inReply: bool, text: string, datetime: Option<string>, textDate: Option<string>)

  /** The date an element gives once admitted: its `datetime` prefix, else its text's date. */
  function ElementDate(el: DateEl): (r: Option<string>)
    ensures r.Some? && Truthy(el.datetime) && IsoPrefix(el.datetime.value) ==> r.value == el.datetime.value[..10]
    ensures r.Some? ==> (Truthy(el.datetime) && IsoPrefix(el.datetime.value)) || (el.text != "" && r == el.textDate)
  {
    if Truthy(el.datetime) && IsoPrefix(el.datetime.value) then Some(el.datetime.value[..10])
    else if el.text != "" then el.textDate
    else None
  }

  /** An element of the card-wide scan: reply elements and "replied" texts give nothing. */
  function ElementIso(el: DateEl): (r: Option<string>)
    ensures el.inReply || (el.text != "" && MentionsReplied(el.text)) ==> r.None?
    ensures r.Some? ==> r == ElementDate(el)
  {
    if el.inReply then None
    else if el.text != "" && MentionsReplied(el.text) then None
    else ElementDate(el)
  }

  /** The element next to the star row: as above, and an element without text gives nothing. */
  function RowIso(el: DateEl): (r: Option<string>)
    ensures r.Some? ==> el.text != "" && r == ElementIso(el)
  {
    if el.inReply || el.text == "" || MentionsReplied(el.text) then None else ElementDate(el)
  }

  /** A datetime attribute shaped `YYYY-MM-DD...` contributes a ten-character date. */
  lemma DatetimeContributesPrefix(el: DateEl)
    requires !el.inReply && !(el.text != "" && MentionsReplied(el.text))
    requires Truthy(el.datetime) && IsoPrefix(el.datetime.value)
    ensures ElementIso(el) == Some(el.datetime.value[..10]) && |ElementIso(el).value| == 10
  {
  }

  /**
   * A review card as the week count sees it: the date element of its star row
   * (if any), all its date elements, the dates the scans of its text (reply
   * removed) produce, the dates the scans of its full text produce, and
   * whether its text, spaces collapsed, opens with "January 26, 2026" or
   * "26 January 2026" followed by a word.
   */
  datatype WeeklyCard = WeeklyCard(rowEl: Option<DateEl>, dateEls: seq<DateEl>, textDates: seq<string>,
                                   fullTextDates: seq<string>, leadsWithJan26: bool)

  function ElementIsos(els: seq<DateEl>): (rs: seq<string>)
    ensures |rs| <= |els|
  {
    if els == [] then []
    else
      var r := ElementIso(els[|els| - 1]);
      ElementIsos(els[..|els| - 1]) + (if r.Some? then [r.value] else [])
  }

  /** `collectDatesFromCard(card, true)`: the row date, the element dates, then the text dates. */
  function Candidates(card: WeeklyCard): seq<string> {
    var row := if card.rowEl.Some? then RowIso(card.rowEl.value) else None;
    (if row.Some? then [row.value] else []) + ElementIsos(card.dateEls) + card.textDates
  }

  /** Every element date among the candidates comes from an element outside the reply block that does not mention a reply. */
  lemma {:induction false} ElementIsosAdmitted(els: seq<DateEl>)
    ensures forall x :: x in ElementIsos(els) ==>
      exists i :: 0 <= i < |els| && !els[i].inReply && !(els[i].text != "" && MentionsReplied(els[i].text)) && ElementDate(els[i]) == Some(x)
  {
    if els != [] {
      var init := els[..|els| - 1];
      ElementIsosAdmitted(init);
      assert forall i :: 0 <= i < |init| ==> init[i] == els[i];
    }
  }

  /** The candidate collection loop. */
  method CollectDates(card: WeeklyCard) returns (dates: seq<string>)
    ensures dates == Candidates(card)
  {
    dates := [];
    if card.rowEl.Some? {
      var iso := RowIso(card.rowEl.value);
      if iso.Some? {
        dates := dates + [iso.value];
      }
    }
    var head := dates;
    var i := 0;
    while i < |card.dateEls|
      invariant 0 <= i <= |card.dateEls|
      invariant dates == head + ElementIsos(card.dateEls[..i])
    {
      assert card.dateEls[..i + 1][..i] == card.dateEls[..i];
      var iso := ElementIso(card.dateEls[i]);
      if iso.Some? {
        dates := dates + [iso.value];
      }
      i := i + 1;
    }
    assert card.dateEls[..|card.dateEls|] == card.dateEls;
    dates := dates + card.textDates;
  }

  // ---------------------------------------------------------------------------
  // The date chosen for a card, and the count of a page.
  // ---------------------------------------------------------------------------

  function InWeek(xs: seq<string>, start: string, end: string): (rs: seq<string>)
    ensures forall i :: 0 <= i < |rs| ==> LexLe(start, rs[i]) && LexLe(rs[i], end)
    ensures forall x :: x in rs <==> x in xs && LexLe(start, x) && LexLe(x, end)
  {
    if xs == [] then []
    else
      var x := xs[|xs| - 1];
      InWeek(xs[..|xs| - 1], start, end) + (if LexLe(start, x) && LexLe(x, end) then [x] else [])
  }

  function UpTo(xs: seq<string>, end: string): (rs: seq<string>)
    ensures forall x :: x in rs <==> x in xs && LexLe(x, end)
  {
    if xs == [] then []
    else
      var x := xs[|xs| - 1];
      UpTo(xs[..|xs| - 1], end) + (if LexLe(x, end) then [x] else [])
  }

  /** The greatest in-week candidate, else the greatest candidate up to the week's end, else none. */
  function ChooseDate(dates: seq<string>, start: string, end: string): Option<string> {
    var inRange := InWeek(dates, start, end);
    var upToEnd := UpTo(dates, end);
    if inRange != [] then Some(SeqMax(inRange))
    else if upToEnd != [] then Some(SeqMax(upToEnd))
    else None
  }

  /**
   * The chosen date is a candidate and never after the week's end; it is in
   * the week exactly when some candidate is, and is then the greatest such.
   */
  lemma ChooseDateSpec(dates: seq<string>, start: string, end: string)
    ensures ChooseDate(dates, start, end).Some? ==>
      ChooseDate(dates, start, end).value in dates && LexLe(ChooseDate(dates, start, end).value, end)
    ensures ChooseDate(dates, start, end).None? <==> forall x :: x in dates ==> !LexLe(x, end)
    ensures (exists x :: x in dates && LexLe(start, x) && LexLe(x, end)) <==>
      ChooseDate(dates, start, end).Some? && LexLe(start, ChooseDate(dates, start, end).value)
    ensures ChooseDate(dates, start, end).Some? ==> forall x :: x in dates && LexLe(start, x) && LexLe(x, end) ==>
      LexLe(x, ChooseDate(dates, start, end).value)
    ensures ChooseDate(dates, start, end).Some? && !LexLe(start, ChooseDate(dates, start, end).value) ==>
      forall x :: x in dates && LexLe(x, end) ==> LexLe(x, ChooseDate(dates, start, end).value)
  {
    var inRange := InWeek(dates, start, end);
    var upToEnd := UpTo(dates, end);
    if inRange == [] && upToEnd != [] {
      var m := SeqMax(upToEnd);
      assert m !in inRange;
    }
  }

  /** January 26 of the week end's year: the first four characters of `end`, or 2026 when it is empty. */
  function Jan26(end: string): (r: string)
    ensures |end| >= 4 ==> r == end[..4] + "-01-26"
    ensures end == "" ==> r == "2026-01-26"
  {
    (if end != "" then end[..if |end| < 4 then |end| else 4] else "2026") + "-01-26"
  }

  /**
   * A date chosen among `dates`, unless it is missing, empty or outside the
   * week, in which case the greatest in-week date of `full`, if any, and
   * otherwise, when `lead` holds, January 26 if that is in the week.
   */
  function PickDate(dates: seq<string>, full: seq<string>, lead: bool, start: string, end: string): Option<string> {
    var best := ChooseDate(dates, start, end);
    if Counts(best, start, end) then best
    else
      var w := InWeek(full, start, end);
      if w != [] then Some(SeqMax(w))
      else if lead && InRange3(Jan26(end), start, end) then Some(Jan26(end))
      else best
  }

  /**
   * The card's date: its candidates' choice, else its full-text dates'
   * greatest in-week one, else, for the first card of a page whose text opens
   * with January 26, 2026, that day of the week end's year.
   */
  function CardDate(card: WeeklyCard, first: bool, start: string, end: string): Option<string> {
    PickDate(Candidates(card), card.fullTextDates, first && card.leadsWithJan26, start, end)
  }

  predicate InRange3(iso: string, start: string, end: string) {
    LexLe(start, iso) && LexLe(iso, end)
  }

  /** `!!(dateISO && dateISO >= rangeStart && dateISO <= rangeEnd)`. */
  predicate Counts(d: Option<string>, start: string, end: string) {
    d.Some? && d.value != "" && InRange3(d.value, start, end)
  }

  predicate CardInWeek(card: WeeklyCard, first: bool, start: string, end: string) {
    Counts(CardDate(card, first, start, end), start, end)
  }

  /**
   * The picked date counts exactly when one of `dates` or of `full` is a date
   * in the week, or `lead` holds and January 26 of the week end's year is.
   */
  lemma PickDateIff(dates: seq<string>, full: seq<string>, lead: bool, start: string, end: string)
    requires start != ""
    ensures Counts(PickDate(dates, full, lead, start, end), start, end) <==>
      (exists x :: x in dates && InRange3(x, start, end)) || (exists x :: x in full && InRange3(x, start, end))
      || (lead && InRange3(Jan26(end), start, end))
  {
    ChooseDateSpec(dates, start, end);
    var best := ChooseDate(dates, start, end);
    LexEmptyLeast(start);
    if exists x :: x in dates && InRange3(x, start, end) {
      assert Counts(best, start, end);
    } else {
      assert !Counts(best, start, end);
      FallbackInWeek(full, lead, best, start, end);
    }
  }

  /**
   * A card counts exactly when one of its candidates or of its full-text
   * dates is a date in the week, or it is the first card of its page, opens
   * with January 26, 2026 and January 26 of the week end's year is in the week.
   */
  lemma CardInWeekIff(card: WeeklyCard, first: bool, start: string, end: string)
    requires start != ""
    ensures CardInWeek(card, first, start, end) <==>
      (exists x :: x in Candidates(card) && InRange3(x, start, end))
      || (exists x :: x in card.fullTextDates && InRange3(x, start, end))
      || (first && card.leadsWithJan26 && InRange3(Jan26(end), start, end))
  {
    PickDateIff(Candidates(card), card.fullTextDates, first && card.leadsWithJan26, start, end);
  }

  /**
   * Where the chosen date does not count, the fallback counts exactly when a
   * full-text date is in the week, or `lead` holds and January 26 is.
   */
  lemma FallbackInWeek(full: seq<string>, lead: bool, best: Option<string>, start: string, end: string)
    requires start != "" && !Counts(best, start, end)
    ensures var w := InWeek(full, start, end);
      Counts(if w != [] then Some(SeqMax(w)) else if lead && InRange3(Jan26(end), start, end) then Some(Jan26(end)) else best,
             start, end)
      <==> (exists x :: x in full && InRange3(x, start, end)) || (lead && InRange3(Jan26(end), start, end))
  {
    var w := InWeek(full, start, end);
    LexEmptyLeast(start);
    if w != [] {
      var m := SeqMax(w);
      assert m in w && m in full;
    }
  }

  /** The empty string is below every non-empty one, so a non-empty week start excludes it. */
  lemma LexEmptyLeast(s: string)
    requires s != ""
    ensures LexLess("", s) && !LexLe(s, "")
  {
  }

  /** The number of cards whose date lies in the week; the first card of the list is the page's first. */
  function CountCards(cards: seq<WeeklyCard>, start: string, end: string): (n: nat)
    ensures n <= |cards|
  {
    if cards == [] then 0
    else CountCards(cards[..|cards| - 1], start, end) + (if CardInWeek(cards[|cards| - 1], |cards| == 1, start, end) then 1 else 0)
  }

  /** Counting one more card adds one exactly when that card's date lies in the week. */
  lemma CountCardsStep(cards: seq<WeeklyCard>, i: nat, start: string, end: string)
    requires i < |cards|
    ensures CountCards(cards[..i + 1], start, end)
      == CountCards(cards[..i], start, end) + (if CardInWeek(cards[i], i == 0, start, end) then 1 else 0)
  {
    assert cards[..i + 1][..i] == cards[..i];
  }

  /** The body of the card loop: the card's collected dates, the choice among them, then the fallbacks. */
  method BestDate(card: WeeklyCard, first: bool, start: string, end: string) returns (bestISO: Option<string>)
    ensures bestISO == CardDate(card, first, start, end)
    ensures Counts(bestISO, start, end) <==> CardInWeek(card, first, start, end)
  {
    var allDates := CollectDates(card);
    bestISO := ChooseDate(allDates, start, end);
    if !Counts(bestISO, start, end) {
      var full := InWeek(card.fullTextDates, start, end);
      if |full| > 0 {
        bestISO := Some(SeqMax(full));
      } else if first && card.leadsWithJan26 {
        var iso := Jan26(end);
        if LexLe(start, iso) && LexLe(iso, end) {
          bestISO := Some(iso);
        }
      }
    }
  }

  /** `countNewReviewsInRange`: the number of cards whose date lies in the week. */
  method CountNewReviewsInRange(cards: seq<WeeklyCard>, start: string, end: string) returns (count: nat)
    ensures count == CountCards(cards, start, end)
    ensures count <= |cards|
  {
    count := 0;
    var i := 0;
    while i < |cards|
      invariant 0 <= i <= |cards|
      invariant count == CountCards(cards[..i], start, end)
    {
      CountCardsStep(cards, i, start, end);
      var bestISO := BestDate(cards[i], i == 0, start, end);
      if Counts(bestISO, start, end) {
        count := count + 1;
      }
      i := i + 1;
    }
    assert cards[..|cards|] == cards;
  }

  // ---------------------------------------------------------------------------
  // Oldest date on a page.
  // ---------------------------------------------------------------------------

  /**
   * A card as the oldest-date scan sees it: its date elements, the dates of the
   * two month-name scans of its text, and the first ISO date written in the text.
   */
  datatype OldestCard = OldestCard(dateEls: seq<DateEl>, scanDates: seq<string>, firstIso: Option<string>)

  /** The card's latest date: the greatest element or scan date, else the first ISO date in the text. */
  function CardLatest(card: OldestCard): (r: Option<string>)
    ensures r.Some? ==> r.value != ""
  {
    var m := TruthyMax(ElementIsos(card.dateEls) + card.scanDates);
    if m.None? && card.firstIso.Some? && card.firstIso.value != "" then card.firstIso else m
  }

  function OldestSpec(cards: seq<OldestCard>): (r: Option<string>)
    ensures r.Some? ==> r.value != ""
  {
    if cards == [] then None
    else
      var prev := OldestSpec(cards[..|cards| - 1]);
      var best := CardLatest(cards[|cards| - 1]);
      if best.Some? && (prev.None? || LexLess(best.value, prev.value)) then best else prev
  }

  /** The oldest date is absent exactly when no card has a date, and is otherwise the least of the cards' latest dates. */
  lemma {:induction false} OldestIsMin(cards: seq<OldestCard>)
    ensures OldestSpec(cards).None? <==> forall i :: 0 <= i < |cards| ==> CardLatest(cards[i]).None?
    ensures OldestSpec(cards).Some? ==> exists i :: 0 <= i < |cards| && CardLatest(cards[i]) == OldestSpec(cards)
    ensures forall i :: 0 <= i < |cards| && CardLatest(cards[i]).Some? ==> LexLe(OldestSpec(cards).value, CardLatest(cards[i]).value)
  {
    if cards != [] {
      var init := cards[..|cards| - 1];
      OldestIsMin(init);
      assert forall i :: 0 <= i < |init| ==> init[i] == cards[i];
      var prev := OldestSpec(init);
      var best := CardLatest(cards[|cards| - 1]);
      if best.Some? && (prev.None? || LexLess(best.value, prev.value)) {
        if prev.Some? {
          LexLessLe(best.value, prev.value);
          forall i | 0 <= i < |init| && CardLatest(init[i]).Some?
            ensures LexLe(best.value, CardLatest(init[i]).value)
          {
            LexLeTransitive(best.value, prev.value, CardLatest(init[i]).value);
          }
        }
        LexLessIrreflexive(best.value);
      } else if best.Some? {
        LexNotLessIsLe(best.value, prev.value);
      }
    }
  }

  /** One more candidate replaces the running maximum exactly when it is non-empty and above it. */
  lemma TruthyMaxStep(xs: seq<string>, k: nat)
    requires k < |xs|
    ensures var prev := TruthyMax(xs[..k]);
      TruthyMax(xs[..k + 1]) == if xs[k] != "" && (prev.None? || LexLess(prev.value, xs[k])) then Some(xs[k]) else prev
  {
    assert xs[..k + 1][..k] == xs[..k];
  }

  /** The latest non-empty date a card shows, else its first ISO date. */
  method LatestOnCard(card: OldestCard) returns (bestISO: Option<string>)
    ensures bestISO == CardLatest(card)
  {
    var candidates := ElementIsos(card.dateEls) + card.scanDates;
    bestISO := None;
    var k := 0;
    while k < |candidates|
      invariant 0 <= k <= |candidates|
      invariant bestISO == TruthyMax(candidates[..k])
    {
      TruthyMaxStep(candidates, k);
      var iso := candidates[k];
      if iso != "" && (bestISO.None? || LexLess(bestISO.value, iso)) {
        bestISO := Some(iso);
      }
      k := k + 1;
    }
    assert candidates[..|candidates|] == candidates;
    if bestISO.None? && card.firstIso.Some? && card.firstIso.value != "" {
      bestISO := card.firstIso;
    }
  }

  /** `getOldestDateOnPage`. */
  method OldestDateOnPage(cards: seq<OldestCard>) returns (oldest: Option<string>)
    ensures oldest == OldestSpec(cards)
  {
    oldest := None;
    var i := 0;
    while i < |cards|
      invariant 0 <= i <= |cards|
      invariant oldest == OldestSpec(cards[..i])
    {
      assert cards[..i + 1][..i] == cards[..i];
      var bestISO := LatestOnCard(cards[i]);
      if bestISO.Some? && (oldest.None? || LexLess(bestISO.value, oldest.value)) {
        oldest := bestISO;
      }
      i := i + 1;
    }
    assert cards[..|cards|] == cards;
  }

  // ---------------------------------------------------------------------------
  // Pagination.
  // ---------------------------------------------------------------------------

  const MaxPages: nat := 20

  /** A reviews page: its cards for the count and for the oldest date, and whether it links a further page. */
  datatype Page = Page(cards: seq<WeeklyCard>, oldestCards: seq<OldestCard>, hasNext: bool)

  /** What the loop learns from one page: its in-week count, its oldest date and whether it links a further page. */
  datatype PageResult = PageResult(count: nat, oldest: Option<string>, hasNext: bool)

  function PageSummary(p: Page, start: string, end: string): PageResult {
    PageResult(CountCards(p.cards, start, end), OldestSpec(p.oldestCards), p.hasNext)
  }

  /** Page n (from 1); a page past the given ones is empty and links nowhere. */
  function PageAt(pages: seq<Page>, n: nat): Page {
    if 1 <= n <= |pages| then pages[n - 1] else Page([], [], false)
  }

  function ResultAt(rs: seq<PageResult>, n: nat): PageResult {
    if 1 <= n <= |rs| then rs[n - 1] else PageResult(0, None, false)
  }

  /** Nothing counted on the page and its oldest date is before the week. */
  predicate PassedWeek(r: PageResult, start: string) {
    r.count == 0 && r.oldest.Some? && LexLess(r.oldest.value, start)
  }

  /** The loop stops after page n: the week is passed, or there is no next page, or it is the last page allowed. */
  predicate StopsAt(rs: seq<PageResult>, n: nat, start: string) {
    PassedWeek(ResultAt(rs, n), start) || !ResultAt(rs, n).hasNext || n >= MaxPages
  }

  /** The total counted from page n on, and the last page visited. */
  function PaginateFrom(rs: seq<PageResult>, start: string, n: nat): (r: (nat, nat))
    requires 1 <= n <= MaxPages
    ensures n <= r.1 <= MaxPages
    decreases MaxPages - n
  {
    var c := ResultAt(rs, n).count;
    if StopsAt(rs, n, start) then (c, n)
    else
      var rest := PaginateFrom(rs, start, n + 1);
      (c + rest.0, rest.1)
  }

  /** The sum of the page counts of pages `from` through `upto`. */
  function SumCounts(rs: seq<PageResult>, from: nat, upto: nat): nat
    decreases upto - from
  {
    if from > upto then 0 else ResultAt(rs, from).count + SumCounts(rs, from + 1, upto)
  }

  /** The total from page n is the sum of the counts of the pages visited. */
  lemma {:induction false} PaginateSums(rs: seq<PageResult>, start: string, n: nat)
    requires 1 <= n <= MaxPages
    ensures PaginateFrom(rs, start, n).0 == SumCounts(rs, n, PaginateFrom(rs, start, n).1)
    decreases MaxPages - n
  {
    if !StopsAt(rs, n, start) {
      PaginateSums(rs, start, n + 1);
    }
  }

  /** The last page visited stops the loop, and no page before it from page n does. */
  lemma {:induction false} PaginateStops(rs: seq<PageResult>, start: string, n: nat)
    requires 1 <= n <= MaxPages
    ensures StopsAt(rs, PaginateFrom(rs, start, n).1, start)
    ensures forall k :: n <= k < PaginateFrom(rs, start, n).1 ==> !StopsAt(rs, k, start)
    decreases MaxPages - n
  {
    if !StopsAt(rs, n, start) {
      PaginateStops(rs, start, n + 1);
    }
  }

  /** The results of pages 1 through n. */
  function Visited(pages: seq<Page>, start: string, end: string, n: nat): (rs: seq<PageResult>)
    ensures |rs| == n
  {
    if n == 0 then [] else Visited(pages, start, end, n - 1) + [PageSummary(PageAt(pages, n), start, end)]
  }

  /** Each visited result is what its page shows. */
  lemma {:induction false} VisitedAt(pages: seq<Page>, start: string, end: string, n: nat, i: nat)
    requires i < n
    ensures Visited(pages, start, end, n)[i] == PageSummary(PageAt(pages, i + 1), start, end)
  {
    if i < n - 1 {
      VisitedAt(pages, start, end, n - 1, i);
    }
  }

  /**
   * Pages 1 through `last` are the ones the loop visits: none before `last`
   * stops it and `last` does; the total is then the sum of their counts.
   */
  lemma {:induction false} PaginateVisits(rs: seq<PageResult>, start: string, n: nat, last: nat)
    requires 1 <= n <= last <= MaxPages
    requires forall k :: n <= k < last ==> !StopsAt(rs, k, start)
    requires StopsAt(rs, last, start)
    ensures PaginateFrom(rs, start, n) == (SumCounts(rs, n, last), last)
    decreases last - n
  {
    if n < last {
      PaginateVisits(rs, start, n + 1, last);
    }
  }

  /** The pagination reads no page after the one it stops at: results that agree up to there give the same outcome. */
  lemma {:induction false} PaginateReadsVisited(rs: seq<PageResult>, other: seq<PageResult>, start: string, n: nat)
    requires 1 <= n <= MaxPages
    requires forall k :: n <= k <= PaginateFrom(rs, start, n).1 ==> ResultAt(other, k) == ResultAt(rs, k)
    ensures PaginateFrom(other, start, n) == PaginateFrom(rs, start, n)
    decreases MaxPages - n
  {
    assert ResultAt(other, n) == ResultAt(rs, n);
    if !StopsAt(rs, n, start) {
      PaginateReadsVisited(rs, other, start, n + 1);
    }
  }

  /**
   * The outcome over the pages the loop visits is the outcome over all 20
   * pages it may visit: what the method returns is determined by the pages.
   */
  lemma VisitedSuffices(pages: seq<Page>, start: string, end: string, last: nat)
    requires 1 <= last <= MaxPages
    requires PaginateFrom(Visited(pages, start, end, last), start, 1).1 == last
    ensures PaginateFrom(Visited(pages, start, end, MaxPages), start, 1) == PaginateFrom(Visited(pages, start, end, last), start, 1)
  {
    var rs := Visited(pages, start, end, last);
    var all := Visited(pages, start, end, MaxPages);
    forall k | 1 <= k <= last ensures ResultAt(all, k) == ResultAt(rs, k) {
      VisitedAt(pages, start, end, last, k - 1);
      VisitedAt(pages, start, end, MaxPages, k - 1);
    }
    PaginateReadsVisited(rs, all, start, 1);
  }

  /** After n pages: their results, none of which stopped the loop, and the sum of their counts. */
  ghost predicate CountedSoFar(seen: seq<PageResult>, pages: seq<Page>, start: string, end: string, n: nat, total: nat) {
    && seen == Visited(pages, start, end, n)
    && (forall k :: 1 <= k <= n ==> !StopsAt(seen, k, start))
    && total == SumCounts(seen, 1, n)
  }

  /** Page n stops the loop: the total and the last page are the pagination of the results so far. */
  lemma LastPageVisited(seen: seq<PageResult>, pages: seq<Page>, start: string, end: string, n: nat, total: nat, r: PageResult)
    requires 1 <= n <= MaxPages && CountedSoFar(seen, pages, start, end, n - 1, total)
    requires StopsAt(seen + [r], n, start)
    ensures PaginateFrom(seen + [r], start, 1).0 == total + r.count
    ensures PaginateFrom(seen + [r], start, 1).1 == n
  {
    var next := seen + [r];
    assert next[..n - 1] == seen;
    SeenExtend(seen, next, start, n);
    PaginateVisits(next, start, 1, n);
  }

  /** Page n does not stop the loop: the loop goes on with one more page counted. */
  lemma MorePages(seen: seq<PageResult>, pages: seq<Page>, start: string, end: string, n: nat, total: nat, r: PageResult)
    requires 1 <= n <= MaxPages && CountedSoFar(seen, pages, start, end, n - 1, total)
    requires r == PageSummary(PageAt(pages, n), start, end) && !StopsAt(seen + [r], n, start)
    ensures CountedSoFar(seen + [r], pages, start, end, n, total + r.count)
  {
    var next := seen + [r];
    assert next[..n - 1] == seen;
    SeenExtend(seen, next, start, n);
  }

  /**
   * `getNewReviewsCountForApp`: count page by page, newest first, until the
   * week is passed. `seen` lists what each visited page showed; the total and
   * the last page are the pagination of those results.
   */
  method CountForApp(pages: seq<Page>, start: string, end: string) returns (totalInRange: nat, lastPage: nat, ghost seen: seq<PageResult>)
    ensures |seen| == lastPage && 1 <= lastPage <= MaxPages
    ensures seen == Visited(pages, start, end, lastPage)
    ensures totalInRange == PaginateFrom(seen, start, 1).0 && lastPage == PaginateFrom(seen, start, 1).1
  {
    totalInRange := 0;
    seen := [];
    var pageNum: nat := 1;
    while pageNum <= MaxPages
      invariant 1 <= pageNum <= MaxPages
      invariant CountedSoFar(seen, pages, start, end, pageNum - 1, totalInRange)
      decreases MaxPages - pageNum
    {
      var r := ReadPage(PageAt(pages, pageNum), start, end);
      ghost var prevSeen, prevTotal := seen, totalInRange;
      totalInRange := totalInRange + r.count;
      seen := seen + [r];
      if r.count == 0 && r.oldest.Some? && LexLess(r.oldest.value, start) {
        LastPageVisited(prevSeen, pages, start, end, pageNum, prevTotal, r);
        break;
      }
      if !r.hasNext || pageNum >= MaxPages {
        LastPageVisited(prevSeen, pages, start, end, pageNum, prevTotal, r);
        break;
      }
      MorePages(prevSeen, pages, start, end, pageNum, prevTotal, r);
      pageNum := pageNum + 1;
    }
    lastPage := pageNum;
  }

  /** One page's visit: its in-week count, then its oldest date, then whether it links a next page. */
  method ReadPage(page: Page, start: string, end: string) returns (r: PageResult)
    ensures r == PageSummary(page, start, end)
  {
    var onThisPage := CountNewReviewsInRange(page.cards, start, end);
    var oldestOnPage := OldestDateOnPage(page.oldestCards);
    r := PageResult(onThisPage, oldestOnPage, page.hasNext);
  }

  /** Appending page n's result keeps the earlier pages' results, stops and sums. */
  lemma SeenExtend(prev: seq<PageResult>, seen: seq<PageResult>, start: string, n: nat)
    requires 1 <= n && |prev| == n - 1 && |seen| == n && seen[..n - 1] == prev
    ensures forall k :: 1 <= k < n ==> ResultAt(seen, k) == ResultAt(prev, k)
    ensures forall k :: 1 <= k < n ==> (StopsAt(seen, k, start) <==> StopsAt(prev, k, start))
    ensures SumCounts(seen, 1, n) == SumCounts(prev, 1, n - 1) + seen[n - 1].count
  {
    SumCountsExtend(prev, seen, 1, n);
  }

  lemma {:induction false} SumCountsExtend(prev: seq<PageResult>, seen: seq<PageResult>, from: nat, n: nat)
    requires 1 <= from <= n && |prev| == n - 1 && |seen| == n && seen[..n - 1] == prev
    ensures SumCounts(seen, from, n) == SumCounts(prev, from, n - 1) + seen[n - 1].count
    decreases n - from
  {
    if from < n {
      SumCountsExtend(prev, seen, from + 1, n);
    }
  }

  // ---------------------------------------------------------------------------
  // The report's week.
  // ---------------------------------------------------------------------------

  /** `getSlug(url)` on the report's own URL list. */
  function ReportSlug(url: string): string {
    SlugOrEmpty(Some(url))
  }

  /** The week end: the argument if given, else the last Sunday before today. */
  function DefaultWeekEnd(weekEndArg: Option<string>, today: int): Option<string> {
    if Truthy(weekEndArg) then weekEndArg else LastSunday(today)
  }

  /** Without an argument the report covers the last full week: the window whose Sunday is the last Sunday. */
  lemma DefaultWeekIsLastWeek(today: int)
    requires DefaultWeekEnd(None, today).Some?
    requires WeekMondayToSunday(DefaultWeekEnd(None, today).value).Some?
    ensures WeekMondayToSunday(DefaultWeekEnd(None, today).value).value.end == DefaultWeekEnd(None, today).value
    ensures ParseIsoDay(DefaultWeekEnd(None, today).value) == Some(WeekEndDay(today - 1))
  {
    LastSundaySpec(today);
    LastSundayIsPreviousWeekEnd(today);
  }
}
