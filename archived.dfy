/**
 * The plain logic of the archived-review scraper: the three extraction
 * strategies' record filters (over what the page queries found, the DOM
 * itself abstracted away), the merge of their results, the last-page fold and
 * the per-app "last archived date" summary.
 */
module Archived {
  import opened Wrappers
  import opened Strs
  import opened Records
  import opened Slugs

  // ---------------------------------------------------------------------------
  // Container strategy: `<time>` elements first, then id blocks, then children.
  // ---------------------------------------------------------------------------

  /**
   * A `<time>` element of the archived-reviews container: the record read from
   * its enclosing card (None where that is not an element), its `datetime`
   * attribute and its whitespace-collapsed text.
   */
  datatype TimeHit = TimeHit(row: Option<Review>, datetime: Option<string>, timeText: Option<string>)

  /** Results and the ids seen so far, the two things the container scan accumulates. */
  datatype Scan = Scan(results: seq<Review>, seenIds: set<string>)

  /** The record of a `<time>` element: the card's record with the element's own date, where it has one. */
  function TimeRecord(row: Review, h: TimeHit): (rec: Review)
    ensures rec.id == row.id && rec.rating == row.rating && rec.text == row.text
    ensures Truthy(h.datetime) ==> rec.dateISO == h.datetime
    ensures Truthy(h.timeText) ==> rec.dateText == h.timeText
  {
    row.(dateISO := if Truthy(h.datetime) then h.datetime else row.dateISO,
         dateText := if Truthy(h.timeText) then h.timeText else row.dateText)
  }

  /** `if (row.id) seenIds.add(String(row.id))`. */
  function SeeId(seen: set<string>, row: Review): set<string> {
    if Truthy(row.id) then seen + {row.id.value} else seen
  }

  /** The push guarded by the signal test. */
  function Keep(results: seq<Review>, rec: Review): seq<Review> {
    if HasSignal(rec) then results + [rec] else results
  }

  /** The first pass, over the `<time>` elements. */
  function TimePhase(hits: seq<TimeHit>): (s: Scan)
    ensures forall i :: 0 <= i < |s.results| ==> HasSignal(s.results[i])
    ensures |s.results| <= |hits|
  {
    if hits == [] then Scan([], {})
    else
      var s := TimePhase(hits[..|hits| - 1]);
      var h := hits[|hits| - 1];
      if h.row.None? then s
      else Scan(Keep(s.results, TimeRecord(h.row.value, h)), SeeId(s.seenIds, h.row.value))
  }

  /**
   * The second pass, over the id blocks, from the ids the first pass saw: a
   * block whose id was seen is skipped, and the id of every record read is
   * added. The block's id attribute is the id its record is read with.
   */
  function IdPhase(blocks: seq<Option<Review>>, seen0: set<string>): (s: Scan)
    ensures forall i :: 0 <= i < |s.results| ==> HasSignal(s.results[i])
    ensures |s.results| <= |blocks|
  {
    if blocks == [] then Scan([], seen0)
    else
      var s := IdPhase(blocks[..|blocks| - 1], seen0);
      var b := blocks[|blocks| - 1];
      if b.None? || (Truthy(b.value.id) && b.value.id.value in s.seenIds) then s
      else Scan(Keep(s.results, b.value), SeeId(s.seenIds, b.value))
  }

  /** The last pass, over the container's children, run only when the first two found nothing. */
  function Fallback(children: seq<Option<Review>>): (rs: seq<Review>)
    ensures forall i :: 0 <= i < |rs| ==> HasSignal(rs[i])
    ensures |rs| <= |children|
  {
    if children == [] then []
    else
      var c := children[|children| - 1];
      Fallback(children[..|children| - 1]) + (if c.Some? && HasSignal(c.value) then [c.value] else [])
  }

  function ContainerSpec(hits: seq<TimeHit>, blocks: seq<Option<Review>>, children: seq<Option<Review>>): seq<Review> {
    var t := TimePhase(hits);
    var b := IdPhase(blocks, t.seenIds);
    if t.results + b.results == [] then Fallback(children) else t.results + b.results
  }

  /** The container strategy. */
  method ContainerReviews(hits: seq<TimeHit>, blocks: seq<Option<Review>>, children: seq<Option<Review>>)
    returns (results: seq<Review>)
    ensures results == ContainerSpec(hits, blocks, children)
    ensures forall i :: 0 <= i < |results| ==> HasSignal(results[i])
    ensures |results| <= |hits| + |blocks| + |children|
  {
    results := [];
    var seenIds: set<string> := {};
    var i := 0;
    while i < |hits|
      invariant 0 <= i <= |hits|
      invariant Scan(results, seenIds) == TimePhase(hits[..i])
    {
      assert hits[..i + 1][..i] == hits[..i];
      var h := hits[i];
      if h.row.Some? {
        var row := h.row.value;
        var rec := TimeRecord(row, h);
        if Truthy(row.id) {
          seenIds := seenIds + {row.id.value};
        }
        if HasSignal(rec) {
          results := results + [rec];
        }
      }
      i := i + 1;
    }
    assert hits[..|hits|] == hits;
    var timeResults := results;
    var j := 0;
    while j < |blocks|
      invariant 0 <= j <= |blocks|
      invariant results == timeResults + IdPhase(blocks[..j], TimePhase(hits).seenIds).results
      invariant seenIds == IdPhase(blocks[..j], TimePhase(hits).seenIds).seenIds
    {
      assert blocks[..j + 1][..j] == blocks[..j];
      var b := blocks[j];
      if b.Some? && !(Truthy(b.value.id) && b.value.id.value in seenIds) {
        var row := b.value;
        if Truthy(row.id) {
          seenIds := seenIds + {row.id.value};
        }
        if HasSignal(row) {
          results := results + [row];
        }
      }
      j := j + 1;
    }
    assert blocks[..|blocks|] == blocks;
    if |results| == 0 {
      var k := 0;
      while k < |children|
        invariant 0 <= k <= |children|
        invariant results == Fallback(children[..k])
      {
        assert children[..k + 1][..k] == children[..k];
        var c := children[k];
        if c.Some? && HasSignal(c.value) {
          results := results + [c.value];
        }
        k := k + 1;
      }
      assert children[..|children|] == children;
    }
  }

  /** Every card id the first pass reads is among the ids it has seen. */
  lemma {:induction false} TimePhaseSeesIds(hits: seq<TimeHit>)
    ensures forall i :: 0 <= i < |hits| && hits[i].row.Some? && Truthy(hits[i].row.value.id) ==>
      hits[i].row.value.id.value in TimePhase(hits).seenIds
  {
    if hits != [] {
      var init := hits[..|hits| - 1];
      TimePhaseSeesIds(init);
      assert forall i :: 0 <= i < |init| ==> init[i] == hits[i];
    }
  }

  /**
   * The id pass never emits an id that was seen before it (from the first
   * pass or an earlier block), so its records carry distinct ids, each one
   * recorded as seen once emitted.
   */
  lemma {:induction false} IdPhaseUnique(blocks: seq<Option<Review>>, seen0: set<string>)
    ensures seen0 <= IdPhase(blocks, seen0).seenIds
    ensures forall i :: 0 <= i < |IdPhase(blocks, seen0).results| && Truthy(IdPhase(blocks, seen0).results[i].id) ==>
      IdPhase(blocks, seen0).results[i].id.value in IdPhase(blocks, seen0).seenIds
      && IdPhase(blocks, seen0).results[i].id.value !in seen0
    ensures forall i, j :: 0 <= i < j < |IdPhase(blocks, seen0).results| && Truthy(IdPhase(blocks, seen0).results[i].id) ==>
      IdPhase(blocks, seen0).results[i].id != IdPhase(blocks, seen0).results[j].id
  {
    if blocks != [] {
      IdPhaseUnique(blocks[..|blocks| - 1], seen0);
    }
  }

  /** In the container result, no id-block record repeats the id of a card a `<time>` element was read from. */
  lemma ContainerIdsUnique(hits: seq<TimeHit>, blocks: seq<Option<Review>>, i: int, k: int)
    requires 0 <= i < |IdPhase(blocks, TimePhase(hits).seenIds).results|
    requires 0 <= k < |hits| && hits[k].row.Some? && Truthy(hits[k].row.value.id)
    ensures IdPhase(blocks, TimePhase(hits).seenIds).results[i].id != hits[k].row.value.id
  {
    TimePhaseSeesIds(hits);
    IdPhaseUnique(blocks, TimePhase(hits).seenIds);
  }

  // ---------------------------------------------------------------------------
  // Card strategy: one record per non-empty date div of each card.
  // ---------------------------------------------------------------------------

  /** A date div of a card, with what its enclosing block gives: a rating, its label, a text and an id. */
  datatype DateDiv = DateDiv(dateText: Option<string>, rating: Option<real>, ratingLabel: Option<string>, text: Option<string>, id: Option<string>)

  /** A review card: the card's own rating, its date divs, and its own text and id. */
  datatype Card = Card(rating: Option<real>, ratingLabel: Option<string>, dateDivs: seq<DateDiv>, text: Option<string>, id: Option<string>)

  /** The record of a date div: the block's rating else the card's, the block's label else the card's. */
  function DivRecord(card: Card, d: DateDiv, parse: string -> Option<string>): (r: Review)
    requires Truthy(d.dateText)
    ensures r.dateText == d.dateText && r.dateISO == parse(d.dateText.value)
    ensures r.rating == (if d.rating.Some? then d.rating else card.rating)
  {
    Review(Normalize(d.id), if d.rating.Some? then d.rating else card.rating,
           if Truthy(d.ratingLabel) then d.ratingLabel else card.ratingLabel,
           Normalize(d.text), d.dateText, parse(d.dateText.value))
  }

  function DivRecords(card: Card, divs: seq<DateDiv>, parse: string -> Option<string>): (rs: seq<Review>)
    ensures forall i :: 0 <= i < |rs| ==> Truthy(rs[i].dateText)
    ensures |rs| <= |divs|
  {
    if divs == [] then []
    else
      var d := divs[|divs| - 1];
      DivRecords(card, divs[..|divs| - 1], parse) + (if Truthy(d.dateText) then [DivRecord(card, d, parse)] else [])
  }

  /**
   * The records of one card. A card without date divs has no date either (the
   * date lookup uses the same selector), so it yields one record when it has
   * a text or an id.
   */
  function CardRecords(card: Card, parse: string -> Option<string>): (rs: seq<Review>)
    ensures forall i :: 0 <= i < |rs| ==> HasSignal(rs[i])
    ensures |rs| <= if card.dateDivs == [] then 1 else |card.dateDivs|
  {
    if card.dateDivs != [] then DivRecords(card, card.dateDivs, parse)
    else if Truthy(card.text) || Truthy(card.id) then
      [Review(Normalize(card.id), card.rating, card.ratingLabel, Normalize(card.text), None, None)]
    else []
  }

  function AllCardRecords(cards: seq<Card>, parse: string -> Option<string>): (rs: seq<Review>)
    ensures forall i :: 0 <= i < |rs| ==> HasSignal(rs[i])
  {
    if cards == [] then [] else AllCardRecords(cards[..|cards| - 1], parse) + CardRecords(cards[|cards| - 1], parse)
  }

  /** The card strategy. */
  method CardReviews(cards: seq<Card>, parse: string -> Option<string>) returns (results: seq<Review>)
    ensures results == AllCardRecords(cards, parse)
    ensures forall i :: 0 <= i < |results| ==> HasSignal(results[i])
  {
    results := [];
    var i := 0;
    while i < |cards|
      invariant 0 <= i <= |cards|
      invariant results == AllCardRecords(cards[..i], parse)
    {
      assert cards[..i + 1][..i] == cards[..i];
      results := PushCard(results, cards[i], parse);
      i := i + 1;
    }
    assert cards[..|cards|] == cards;
  }

  /** One card of the card strategy: a record pushed per date div with a text, or the card's own record. */
  method PushCard(results0: seq<Review>, card: Card, parse: string -> Option<string>) returns (results: seq<Review>)
    ensures results == results0 + CardRecords(card, parse)
  {
    results := results0;
    var k := 0;
    while k < |card.dateDivs|
      invariant 0 <= k <= |card.dateDivs|
      invariant results == results0 + DivRecords(card, card.dateDivs[..k], parse)
    {
      assert card.dateDivs[..k + 1][..k] == card.dateDivs[..k];
      var d := card.dateDivs[k];
      if Truthy(d.dateText) {
        assert results0 + DivRecords(card, card.dateDivs[..k + 1], parse) == results + [DivRecord(card, d, parse)];
        results := results + [DivRecord(card, d, parse)];
      } else {
        assert DivRecords(card, card.dateDivs[..k + 1], parse) == DivRecords(card, card.dateDivs[..k], parse);
      }
      k := k + 1;
    }
    assert card.dateDivs[..|card.dateDivs|] == card.dateDivs;
    if |card.dateDivs| == 0 && (Truthy(card.text) || Truthy(card.id)) {
      results := results + [Review(Normalize(card.id), card.rating, card.ratingLabel, Normalize(card.text), None, None)];
    } else if |card.dateDivs| == 0 {
      assert results == results0 + [];
    }
  }

  // ---------------------------------------------------------------------------
  // Merchant strategy: one record per `[data-merchant-review]` container.
  // ---------------------------------------------------------------------------

  /** What a merchant-review container gives: an id, a rating and its label, a date text and a text. */
  datatype MerchantBox = MerchantBox(id: Option<string>, rating: Option<real>, ratingLabel: Option<string>, dateText: Option<string>, text: Option<string>)

  function MerchantRecord(m: MerchantBox, parse: string -> Option<string>): Review {
    var dateText := Normalize(m.dateText);
    Review(Normalize(m.id), m.rating, Normalize(m.ratingLabel), Normalize(m.text), dateText,
           if dateText.Some? then parse(dateText.value) else None)
  }

  /** The merchant strategy's push guard: an id, a rating, a date text or a text (the ISO date is not asked). */
  predicate MerchantKept(m: MerchantBox) {
    Truthy(m.id) || m.rating.Some? || Truthy(m.dateText) || Truthy(m.text)
  }

  function MerchantSpec(boxes: seq<MerchantBox>, parse: string -> Option<string>): (rs: seq<Review>)
    ensures |rs| <= |boxes|
  {
    if boxes == [] then []
    else
      var m := boxes[|boxes| - 1];
      MerchantSpec(boxes[..|boxes| - 1], parse) + (if MerchantKept(m) then [MerchantRecord(m, parse)] else [])
  }

  /** The merchant strategy. */
  method MerchantReviews(boxes: seq<MerchantBox>, parse: string -> Option<string>) returns (results: seq<Review>)
    ensures results == MerchantSpec(boxes, parse)
    ensures forall i :: 0 <= i < |results| ==> HasSignal(results[i])
  {
    results := [];
    var i := 0;
    while i < |boxes|
      invariant 0 <= i <= |boxes|
      invariant results == MerchantSpec(boxes[..i], parse)
      invariant forall k :: 0 <= k < |results| ==> HasSignal(results[k])
    {
      assert boxes[..i + 1][..i] == boxes[..i];
      var m := boxes[i];
      if MerchantKept(m) {
        results := results + [MerchantRecord(m, parse)];
      }
      i := i + 1;
    }
    assert boxes[..|boxes|] == boxes;
  }

  // ---------------------------------------------------------------------------
  // Merge.
  // ---------------------------------------------------------------------------

  /** The non-empty keys of the container records: the `seen` set the merge starts from. */
  function ContainerKeys(container: seq<Review>): set<string> {
    set r | r in container && Key(r) != "" :: Key(r)
  }

  /** The records appended by the merge loop from `seen0`, and the keys seen after it. */
  function Appended(rs: seq<Review>, seen0: set<string>): (p: (seq<Review>, set<string>))
    ensures |p.0| <= |rs|
  {
    if rs == [] then ([], seen0)
    else
      var (out, seen) := Appended(rs[..|rs| - 1], seen0);
      var r := rs[|rs| - 1];
      if Key(r) != "" && Key(r) !in seen then (out + [r], seen + {Key(r)}) else (out, seen)
  }

  function MergeSpec(container: seq<Review>, merchant: seq<Review>, cards: seq<Review>): seq<Review> {
    var merged := container + Appended(merchant + cards, ContainerKeys(container)).0;
    if merged == [] && (cards != [] || merchant != []) then (if cards != [] then cards else merchant)
    else merged
  }

  /** The merge of the three strategies' results. */
  method Merge(container: seq<Review>, merchant: seq<Review>, cards: seq<Review>) returns (result: seq<Review>)
    ensures result == MergeSpec(container, merchant, cards)
    ensures |result| <= |container| + |merchant| + |cards|
  {
    var merged := AppendUnseen(container, ContainerKeys(container), merchant + cards);
    if |merged| == 0 && (|cards| > 0 || |merchant| > 0) {
      result := if |cards| > 0 then cards else merchant;
    } else {
      result := merged;
    }
  }

  /** The merge loop: each candidate with a non-empty key not yet seen is pushed onto `merged` and its key seen. */
  method AppendUnseen(merged0: seq<Review>, seen0: set<string>, candidates: seq<Review>) returns (merged: seq<Review>)
    ensures merged == merged0 + Appended(candidates, seen0).0
  {
    var seen := seen0;
    merged := merged0;
    ghost var appended: seq<Review> := [];
    var i := 0;
    while i < |candidates|
      invariant 0 <= i <= |candidates|
      invariant appended == Appended(candidates[..i], seen0).0 && seen == Appended(candidates[..i], seen0).1
      invariant merged == merged0 + appended
    {
      AppendedNext(candidates, i, seen0);
      var r := candidates[i];
      var key := Key(r);
      if key != "" && key !in seen {
        seen := seen + {key};
        assert merged + [r] == merged0 + (appended + [r]);
        merged := merged + [r];
        appended := appended + [r];
      }
      i := i + 1;
    }
    assert candidates[..|candidates|] == candidates;
  }

  /** One more candidate: appended, with its key seen, when its key is non-empty and unseen. */
  lemma AppendedNext(rs: seq<Review>, i: nat, seen0: set<string>)
    requires i < |rs|
    ensures var out := Appended(rs[..i], seen0).0;
      var seen := Appended(rs[..i], seen0).1;
      var kept := Key(rs[i]) != "" && Key(rs[i]) !in seen;
      && Appended(rs[..i + 1], seen0).0 == (if kept then out + [rs[i]] else out)
      && Appended(rs[..i + 1], seen0).1 == (if kept then seen + {Key(rs[i])} else seen)
  {
    assert rs[..i + 1][..i] == rs[..i];
  }

  /** The keys of a list of records. */
  function KeysOf(rs: seq<Review>): set<string> {
    set r | r in rs :: Key(r)
  }

  /**
   * What the merge loop keeps true: the appended records have non-empty keys,
   * new to `seen0` and pairwise distinct, and the keys seen are exactly
   * `seen0` and theirs.
   */
  predicate AppendInvariant(out: seq<Review>, seen: set<string>, seen0: set<string>) {
    && seen == seen0 + KeysOf(out)
    && (forall i :: 0 <= i < |out| ==> Key(out[i]) != "" && Key(out[i]) !in seen0)
    && (forall i, j :: 0 <= i < j < |out| ==> Key(out[i]) != Key(out[j]))
  }

  lemma KeysOfSnoc(out: seq<Review>, r: Review)
    ensures KeysOf(out + [r]) == KeysOf(out) + {Key(r)}
  {
    assert forall x :: x in out + [r] <==> x in out || x == r;
  }

  /** Appending a record whose key is non-empty and unseen keeps the invariant. */
  lemma AppendStep(out: seq<Review>, seen: set<string>, seen0: set<string>, r: Review)
    requires AppendInvariant(out, seen, seen0)
    requires Key(r) != "" && Key(r) !in seen
    ensures AppendInvariant(out + [r], seen + {Key(r)}, seen0)
  {
    KeysOfSnoc(out, r);
    AppendDistinct(out, seen, seen0, r);
  }

  /** The appended record's key is new to `seen0` and to the records before it. */
  lemma AppendDistinct(out: seq<Review>, seen: set<string>, seen0: set<string>, r: Review)
    requires AppendInvariant(out, seen, seen0)
    requires Key(r) != "" && Key(r) !in seen
    ensures forall i :: 0 <= i < |out + [r]| ==> Key((out + [r])[i]) != "" && Key((out + [r])[i]) !in seen0
    ensures forall i, j :: 0 <= i < j < |out + [r]| ==> Key((out + [r])[i]) != Key((out + [r])[j])
  {
    var out' := out + [r];
    forall i | 0 <= i < |out|
      ensures Key(out[i]) != Key(r)
    {
      assert out[i] in out;
    }
    forall i | 0 <= i < |out|
      ensures out'[i] == out[i]
    {
    }
  }

  lemma {:induction false} AppendedKeys(rs: seq<Review>, seen0: set<string>)
    ensures AppendInvariant(Appended(rs, seen0).0, Appended(rs, seen0).1, seen0)
  {
    if rs != [] {
      var init := rs[..|rs| - 1];
      AppendedKeys(init, seen0);
      var r := rs[|rs| - 1];
      if Key(r) != "" && Key(r) !in Appended(init, seen0).1 {
        AppendStep(Appended(init, seen0).0, Appended(init, seen0).1, seen0, r);
      }
    } else {
      assert KeysOf([]) == {};
    }
  }

  /** Every non-empty key of the input is seen after the loop: appended, or already seen. */
  lemma {:induction false} AppendedComplete(rs: seq<Review>, seen0: set<string>)
    ensures seen0 <= Appended(rs, seen0).1
    ensures forall j :: 0 <= j < |rs| && Key(rs[j]) != "" ==> Key(rs[j]) in Appended(rs, seen0).1
  {
    if rs != [] {
      var init := rs[..|rs| - 1];
      AppendedComplete(init, seen0);
      assert forall j :: 0 <= j < |init| ==> rs[j] == init[j];
    }
  }

  /** The record kept for a key is the first record of the input with that key. */
  predicate FirstWithKey(rs: seq<Review>, r: Review) {
    exists j :: 0 <= j < |rs| && rs[j] == r && forall k :: 0 <= k < j ==> Key(rs[k]) != Key(r)
  }

  lemma FirstWithKeyExtend(rs: seq<Review>, x: Review, r: Review)
    requires FirstWithKey(rs, r)
    ensures FirstWithKey(rs + [x], r)
  {
    var j :| 0 <= j < |rs| && rs[j] == r && forall k :: 0 <= k < j ==> Key(rs[k]) != Key(r);
    assert (rs + [x])[j] == r;
    assert forall k :: 0 <= k < j ==> (rs + [x])[k] == rs[k];
  }

  lemma {:induction false} AppendedFirst(rs: seq<Review>, seen0: set<string>)
    ensures forall i :: 0 <= i < |Appended(rs, seen0).0| ==> FirstWithKey(rs, Appended(rs, seen0).0[i])
  {
    if rs != [] {
      var init := rs[..|rs| - 1];
      AppendedFirst(init, seen0);
      AppendedComplete(init, seen0);
      var out := Appended(init, seen0).0;
      var r := rs[|rs| - 1];
      assert rs == init + [r];
      forall i | 0 <= i < |out| ensures FirstWithKey(rs, out[i]) {
        FirstWithKeyExtend(init, r, out[i]);
      }
      if Key(r) != "" && Key(r) !in Appended(init, seen0).1 {
        assert forall k :: 0 <= k < |init| ==> Key(rs[k]) != Key(r);
        assert FirstWithKey(rs, r);
      }
    }
  }

  /**
   * Unless the whole-list fallback applies (no record at all was merged), the
   * merged result starts with the container records, unchanged, and appends
   * only new non-empty keys.
   */
  lemma MergeKeepsContainer(container: seq<Review>, merchant: seq<Review>, cards: seq<Review>)
    requires |container| + |Appended(merchant + cards, ContainerKeys(container)).0| > 0
    ensures |MergeSpec(container, merchant, cards)| >= |container|
    ensures MergeSpec(container, merchant, cards)[..|container|] == container
    ensures forall i, j :: |container| <= i < j < |MergeSpec(container, merchant, cards)| ==>
      Key(MergeSpec(container, merchant, cards)[i]) != Key(MergeSpec(container, merchant, cards)[j])
    ensures forall i :: |container| <= i < |MergeSpec(container, merchant, cards)| ==>
      Key(MergeSpec(container, merchant, cards)[i]) != "" && forall c :: c in container ==> Key(c) != Key(MergeSpec(container, merchant, cards)[i])
  {
    var p := Appended(merchant + cards, ContainerKeys(container));
    AppendedKeys(merchant + cards, ContainerKeys(container));
    assert MergeSpec(container, merchant, cards) == container + p.0;
    AfterContainer(container, p.0, p.1);
  }

  /** The container records followed by records appended past the container's keys. */
  lemma AfterContainer(container: seq<Review>, out: seq<Review>, seen: set<string>)
    requires AppendInvariant(out, seen, ContainerKeys(container))
    ensures (container + out)[..|container|] == container
    ensures forall i, j :: |container| <= i < j < |container + out| ==> Key((container + out)[i]) != Key((container + out)[j])
    ensures forall i :: |container| <= i < |container + out| ==>
      Key((container + out)[i]) != "" && forall c :: c in container ==> Key(c) != Key((container + out)[i])
  {
    var m := container + out;
    forall i | |container| <= i < |m|
      ensures m[i] == out[i - |container|]
    {
    }
    forall i, c | |container| <= i < |m| && c in container
      ensures Key(c) != Key(m[i])
    {
      assert Key(c) != "" ==> Key(c) in ContainerKeys(container);
    }
  }

  /**
   * On a key shared by a merchant record and a card record and new to the
   * container, the record kept is one that comes no later than the merchant
   * record: the card record never displaces it.
   */
  lemma MerchantFirst(container: seq<Review>, merchant: seq<Review>, cards: seq<Review>, i: int)
    requires 0 <= i < |Appended(merchant + cards, ContainerKeys(container)).0|
    requires exists m :: 0 <= m < |merchant| && Key(merchant[m]) == Key(Appended(merchant + cards, ContainerKeys(container)).0[i])
    ensures exists j :: 0 <= j < |merchant| && merchant[j] == Appended(merchant + cards, ContainerKeys(container)).0[i]
  {
    var rs := merchant + cards;
    var out := Appended(rs, ContainerKeys(container)).0;
    AppendedFirst(rs, ContainerKeys(container));
    var r := out[i];
    var m :| 0 <= m < |merchant| && Key(merchant[m]) == Key(r);
    assert rs[m] == merchant[m];
    NoLaterThanKeyMate(rs, r, m);
    var j :| 0 <= j <= m && rs[j] == r;
    assert rs[j] == merchant[j];
  }

  /** A record that is the first with its key sits no later than any record sharing its key. */
  lemma NoLaterThanKeyMate(rs: seq<Review>, r: Review, m: nat)
    requires FirstWithKey(rs, r) && m < |rs| && Key(rs[m]) == Key(r)
    ensures exists j :: 0 <= j <= m && rs[j] == r
  {
    var j :| 0 <= j < |rs| && rs[j] == r && forall k :: 0 <= k < j ==> Key(rs[k]) != Key(r);
    assert j <= m;
  }

  /** The fallback to a whole strategy list happens only when no record of any strategy had a key. */
  lemma MergeFallback(container: seq<Review>, merchant: seq<Review>, cards: seq<Review>)
    requires container + Appended(merchant + cards, ContainerKeys(container)).0 == []
    ensures container == []
    ensures forall r :: r in merchant + cards ==> Key(r) == ""
    ensures cards != [] ==> MergeSpec(container, merchant, cards) == cards
    ensures cards == [] ==> MergeSpec(container, merchant, cards) == merchant
  {
    var rs := merchant + cards;
    assert container == [];
    assert ContainerKeys(container) == {};
    AppendedComplete(rs, {});
    AppendedKeys(rs, {});
    assert KeysOf([]) == {};
    assert Appended(rs, {}).1 == {};
    forall r | r in rs ensures Key(r) == "" {
      var j :| 0 <= j < |rs| && rs[j] == r;
    }
  }

  // ---------------------------------------------------------------------------
  // Last page number.
  // ---------------------------------------------------------------------------

  /** `getLastPageNumber`: 1 when the pager shows no page numbers, else the largest one. */
  method LastPageNumber(pageNumbers: seq<int>) returns (last: int)
    ensures |pageNumbers| == 0 ==> last == 1
    ensures |pageNumbers| > 0 ==> last in pageNumbers && forall n :: n in pageNumbers ==> n <= last
  {
    if |pageNumbers| == 0 {
      return 1;
    }
    last := pageNumbers[0];
    var i := 1;
    while i < |pageNumbers|
      invariant 1 <= i <= |pageNumbers|
      invariant last in pageNumbers[..i]
      invariant forall k :: 0 <= k < i ==> pageNumbers[k] <= last
    {
      if pageNumbers[i] > last {
        last := pageNumbers[i];
      }
      i := i + 1;
    }
    assert pageNumbers[..i] == pageNumbers;
  }

  // ---------------------------------------------------------------------------
  // Last-date summary.
  // ---------------------------------------------------------------------------

  /** The latest archived date of an app as the summary tracks it. */
  datatype LastDate = LastDate(iso: Option<string>, text: Option<string>)

  /**
   * One review of the summary loop: the first record with any date sets both
   * fields; after that only a strictly greater ISO date replaces them.
   */
  function LastDateStep(st: LastDate, r: Review): LastDate {
    var iso := Normalize(r.dateISO);
    var text := Normalize(r.dateText);
    if iso.None? && text.None? then st
    else if st.iso.None? && st.text.None? then LastDate(iso, text)
    else if iso.Some? && (st.iso.None? || LexLess(st.iso.value, iso.value)) then LastDate(iso, text)
    else st
  }

  function LastDateOf(rs: seq<Review>): LastDate {
    if rs == [] then LastDate(None, None) else LastDateStep(LastDateOf(rs[..|rs| - 1]), rs[|rs| - 1])
  }

  /** The summary loop over one app's reviews. */
  method LastDateLoop(reviews: seq<Review>) returns (st: LastDate)
    ensures st == LastDateOf(reviews)
    ensures st.iso == LastIso(reviews)
  {
    st := LastDate(None, None);
    var i := 0;
    while i < |reviews|
      invariant 0 <= i <= |reviews|
      invariant st == LastDateOf(reviews[..i])
    {
      assert reviews[..i + 1][..i] == reviews[..i];
      var r := reviews[i];
      var iso := Normalize(r.dateISO);
      var text := Normalize(r.dateText);
      if iso.Some? || text.Some? {
        if st.iso.None? && st.text.None? {
          st := LastDate(iso, text);
        } else if iso.Some? {
          if st.iso.None? || LexLess(st.iso.value, iso.value) {
            st := LastDate(iso, text);
          }
        }
      }
      i := i + 1;
    }
    assert reviews[..|reviews|] == reviews;
    LastDateIso(reviews);
  }

  /** The first date text among the reviews. */
  function FirstText(rs: seq<Review>): Option<string> {
    if rs == [] then None
    else if FirstText(rs[..|rs| - 1]).Some? then FirstText(rs[..|rs| - 1])
    else Normalize(rs[|rs| - 1].dateText)
  }

  predicate HasIso(rs: seq<Review>, x: string) {
    exists i :: 0 <= i < |rs| && rs[i].dateISO == Some(x)
  }

  /** The date text of the first review whose ISO date is x. */
  function TextOfFirstIso(rs: seq<Review>, x: string): Option<string> {
    if rs == [] then None
    else if HasIso(rs[..|rs| - 1], x) then TextOfFirstIso(rs[..|rs| - 1], x)
    else if rs[|rs| - 1].dateISO == Some(x) then Normalize(rs[|rs| - 1].dateText)
    else None
  }

  /** The summary's ISO date is the greatest ISO date of the app's reviews, the one the server also reports. */
  lemma {:induction false} LastDateIso(rs: seq<Review>)
    ensures LastDateOf(rs).iso == LastIso(rs)
  {
    if rs != [] {
      LastDateIso(rs[..|rs| - 1]);
    }
  }

  /**
   * The summary's date text: with no ISO date anywhere, the first date text;
   * otherwise the text of the first review carrying the greatest ISO date, so
   * text-only records and later equal dates never replace it.
   */
  lemma {:induction false} LastDateText(rs: seq<Review>)
    ensures LastDateOf(rs).iso.None? ==> LastDateOf(rs).text == FirstText(rs)
    ensures LastDateOf(rs).iso.Some? ==> LastDateOf(rs).text == TextOfFirstIso(rs, LastDateOf(rs).iso.value)
  {
    if rs != [] {
      var init := rs[..|rs| - 1];
      var r := rs[|rs| - 1];
      LastDateText(init);
      LastDateIso(init);
      LastDateIso(rs);
      LastIsoIsMax(init);
      LastIsoIsMax(rs);
      assert forall i :: 0 <= i < |init| ==> init[i] == rs[i];
      var st := LastDateOf(init);
      var iso := Normalize(r.dateISO);
      if st.iso.Some? {
        assert HasIso(init, st.iso.value);
        if LastDateOf(rs).iso == st.iso {
          assert HasIso(init, st.iso.value);
        } else {
          assert LastDateOf(rs).iso == iso && iso.Some?;
          LastIsoNotBefore(init, iso.value);
        }
      } else {
        assert forall i :: 0 <= i < |init| ==> !Truthy(init[i].dateISO);
        if iso.Some? {
          assert !HasIso(init, iso.value);
        }
      }
    }
  }

  /** A value greater than the greatest ISO date is not among the ISO dates. */
  lemma LastIsoNotBefore(rs: seq<Review>, x: string)
    requires LastIso(rs).Some? && LexLess(LastIso(rs).value, x)
    ensures !HasIso(rs, x)
  {
    LastIsoIsMax(rs);
    assert x != "";
  }

  /** One line of the "last archived review date per app" summary. */
  datatype SummaryLine =
    | ErrorLine(app: Option<string>, note: string)
    | DateLine(app: Option<string>, url: Option<string>, lastDateISO: Option<string>, lastDateText: Option<string>, count: nat)

  /** The summary line of an app: its error with the raw URL, or its name, latest date and review count. */
  function SummaryOf(app: App): SummaryLine {
    if Truthy(app.error) then ErrorLine(app.appReviewsUrl, app.error.value)
    else
      var st := LastDateOf(ReviewsOf(app));
      DateLine(SummaryName(app.appReviewsUrl), app.appReviewsUrl, st.iso, st.text, |ReviewsOf(app)|)
  }

  /** The summary of a scrape, one line per app in order. */
  method Summarize(apps: seq<App>) returns (summary: seq<SummaryLine>)
    ensures |summary| == |apps|
    ensures forall i :: 0 <= i < |apps| ==> summary[i] == SummaryOf(apps[i])
    ensures forall i :: 0 <= i < |apps| && !Truthy(apps[i].error) ==>
      summary[i].DateLine? && summary[i].lastDateISO == LastIso(ReviewsOf(apps[i])) && summary[i].count == |ReviewsOf(apps[i])|
  {
    summary := [];
    var i := 0;
    while i < |apps|
      invariant 0 <= i <= |apps|
      invariant |summary| == i
      invariant forall k :: 0 <= k < i ==> summary[k] == SummaryOf(apps[k])
      invariant forall k :: 0 <= k < i && !Truthy(apps[k].error) ==> summary[k].lastDateISO == LastIso(ReviewsOf(apps[k]))
    {
      var app := apps[i];
      if Truthy(app.error) {
        summary := summary + [ErrorLine(app.appReviewsUrl, app.error.value)];
      } else {
        var reviews := ReviewsOf(app);
        var st := LastDateLoop(reviews);
        summary := summary + [DateLine(SummaryName(app.appReviewsUrl), app.appReviewsUrl, st.iso, st.text, |reviews|)];
      }
      i := i + 1;
    }
  }
}
