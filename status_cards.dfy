/**
 * The row of status cards above the store-settings and settlement tables:
 * which card is highlighted for the current selection, what a click selects,
 * and the two fixed card lists built from a table of counts.
 */
module StatusCards {
  import opened Wrappers
  import opened Filtering
  import Types

  /**
   * One card: its label and the count read from the counts record. A label
   * missing from the record reads as `undefined`, here `None`. Colours are
   * presentation and not modelled.
   */
  datatype Card = Card(name: string, count: Option<int>)

  /** `counts[key]`: a key the record does not hold reads as `undefined`. */
  function Lookup(counts: map<string, int>, key: string): (r: Option<int>)
    ensures r.Some? <==> key in counts
    ensures r.Some? ==> r.value == counts[key]
  {
    if key in counts then Some(counts[key]) else None
  }

  /** A card is drawn highlighted when it is selected, or when nothing is and it is the 전체 card. */
  predicate Highlighted(selected: Option<string>, title: string) {
    selected == Some(title) || (selected.None? && title == All)
  }

  /** The `onClick` of a card: 전체 selects nothing (`null`), any other card selects its label. */
  function ClickValue(title: string): (r: Option<string>)
    ensures r.None? <==> title == All
    ensures r.Some? ==> r.value == title
  {
    if title == All then None else Some(title)
  }

  /** Round trip: after a click the clicked card is highlighted, and it is the only label that is. */
  lemma ClickHighlightsClicked(title: string, other: string)
    ensures Highlighted(ClickValue(title), title)
    ensures Highlighted(ClickValue(title), other) <==> other == title
  {
  }

  /** The labels of a card list are pairwise different. */
  predicate DistinctLabels(cards: seq<Card>) {
    forall i, j :: 0 <= i < j < |cards| ==> cards[i].name != cards[j].name
  }

  /** With distinct labels, whatever the selection, at most one card of the row is highlighted. */
  lemma AtMostOneHighlighted(cards: seq<Card>, selected: Option<string>)
    requires DistinctLabels(cards)
    ensures forall i, j ::
      (0 <= i < |cards| && 0 <= j < |cards| && Highlighted(selected, cards[i].name) && Highlighted(selected, cards[j].name))
      ==> i == j
  {
    forall i, j | 0 <= i < |cards| && 0 <= j < |cards| && Highlighted(selected, cards[i].name)
      && Highlighted(selected, cards[j].name)
      ensures i == j
    {
      assert cards[i].name == cards[j].name;
    }
  }

  /** Clicking a card of a row with distinct labels highlights that card and no other. */
  lemma ClickHighlightsExactlyOne(cards: seq<Card>, i: int)
    requires DistinctLabels(cards) && 0 <= i < |cards|
    ensures forall j :: 0 <= j < |cards| ==> (Highlighted(ClickValue(cards[i].name), cards[j].name) <==> j == i)
  {
    forall j | 0 <= j < |cards| && Highlighted(ClickValue(cards[i].name), cards[j].name)
      ensures j == i
    {
      AtMostOneHighlighted(cards, ClickValue(cards[i].name));
    }
  }

  /** The cards for `labels`, 전체 first with `counts.total`, then one card per label with that label's count. */
  function CardsFor(counts: map<string, int>, labels: seq<string>): (r: seq<Card>)
    ensures |r| == |labels| + 1
    ensures r[0] == Card(All, Lookup(counts, "total"))
    ensures forall k :: 0 <= k < |labels| ==> r[k + 1] == Card(labels[k], Lookup(counts, labels[k]))
  {
    [Card(All, Lookup(counts, "total"))]
      + seq(|labels|, k requires 0 <= k < |labels| => Card(labels[k], Lookup(counts, labels[k])))
  }

  /**
   * A row renders only when every card has a count: `count.toLocaleString()`
   * on an `undefined` count throws, and the row fails to render.
   */
  predicate Renders(cards: seq<Card>) {
    forall k :: 0 <= k < |cards| ==> cards[k].count.Some?
  }

  /** A row built from `counts` renders exactly when the record holds `total` and every label. */
  lemma CardsRenderIff(counts: map<string, int>, labels: seq<string>)
    ensures Renders(CardsFor(counts, labels)) <==> "total" in counts && forall l :: l in labels ==> l in counts
  {
    var r := CardsFor(counts, labels);
    if Renders(r) {
      forall l | l in labels ensures l in counts {
        var k :| 0 <= k < |labels| && labels[k] == l;
        assert r[k + 1].count.Some?;
      }
      assert r[0].count.Some?;
    }
    if "total" in counts && forall l :: l in labels ==> l in counts {
      forall k | 0 <= k < |r| ensures r[k].count.Some? {
        if k > 0 { assert labels[k - 1] in labels; }
      }
    }
  }

  const StoreCardLabels: seq<string> := ["작성중", "심사중", "심사완료", "임시휴무", "탈퇴"]
  const SettlementCardLabels: seq<string> := ["정산대기", "정산완료", "정산보류", "정산취소"]

  /** `getStoreStatusCards`: 전체 and the five store statuses, in that order. */
  function StoreStatusCards(counts: map<string, int>): (r: seq<Card>)
    ensures |r| == 6
    ensures r[0] == Card(All, Lookup(counts, "total"))
    ensures forall k :: 0 <= k < 5 ==> r[k + 1] == Card(StoreCardLabels[k], Lookup(counts, StoreCardLabels[k]))
  {
    CardsFor(counts, StoreCardLabels)
  }

  /** `getSettlementStatusCards`: 전체 and the four settlement statuses, in that order. */
  function SettlementStatusCards(counts: map<string, int>): (r: seq<Card>)
    ensures |r| == 5
    ensures r[0] == Card(All, Lookup(counts, "total"))
    ensures forall k :: 0 <= k < 4 ==> r[k + 1] == Card(SettlementCardLabels[k], Lookup(counts, SettlementCardLabels[k]))
  {
    CardsFor(counts, SettlementCardLabels)
  }

  /** The store row renders exactly when the record holds `total` and the five store statuses. */
  lemma StoreCardsRender(counts: map<string, int>)
    ensures Renders(StoreStatusCards(counts)) <==>
      "total" in counts && "작성중" in counts && "심사중" in counts && "심사완료" in counts && "임시휴무" in counts && "탈퇴" in counts
  {
    CardsRenderIff(counts, StoreCardLabels);
  }

  /** The settlement row renders exactly when the record holds `total` and the four settlement statuses. */
  lemma SettlementCardsRender(counts: map<string, int>)
    ensures Renders(SettlementStatusCards(counts)) <==>
      "total" in counts && "정산대기" in counts && "정산완료" in counts && "정산보류" in counts && "정산취소" in counts
  {
    CardsRenderIff(counts, SettlementCardLabels);
  }

  /** Labels whose first and last characters tell them apart are distinct. */
  lemma {:induction false} DistinctByEnds(cards: seq<Card>)
    requires forall k :: 0 <= k < |cards| ==> |cards[k].name| > 0
    requires forall i, j :: 0 <= i < j < |cards| ==>
      (cards[i].name[0] != cards[j].name[0] || cards[i].name[|cards[i].name| - 1] != cards[j].name[|cards[j].name| - 1])
    ensures DistinctLabels(cards)
  {
  }

  /** The store row has distinct labels: at most one of its cards is highlighted. */
  lemma StoreCardsDistinct(counts: map<string, int>)
    ensures DistinctLabels(StoreStatusCards(counts))
  {
    var sc := StoreStatusCards(counts);
    assert sc[0].name == "전체" && sc[1].name == "작성중" && sc[2].name == "심사중";
    assert sc[3].name == "심사완료" && sc[4].name == "임시휴무" && sc[5].name == "탈퇴";
    DistinctByEnds(sc);
  }

  /** The settlement row has distinct labels: at most one of its cards is highlighted. */
  lemma SettlementCardsDistinct(counts: map<string, int>)
    ensures DistinctLabels(SettlementStatusCards(counts))
  {
    var tc := SettlementStatusCards(counts);
    assert tc[0].name == "전체" && tc[1].name == "정산대기" && tc[2].name == "정산완료";
    assert tc[3].name == "정산보류" && tc[4].name == "정산취소";
    DistinctByEnds(tc);
  }

  /** The cards after 전체 are exactly the statuses' labels. */
  lemma CardsCoverStatuses()
    ensures forall l :: l in Types.StoreStatusLabels <==> l in StoreCardLabels
    ensures forall s: Types.SettlementStatus :: s.Label() in SettlementCardLabels
  {
  }

  /** With nothing selected the 전체 card is the highlighted one; a click on it returns to that state. */
  lemma NothingSelectedHighlightsAll(counts: map<string, int>)
    ensures Highlighted(None, StoreStatusCards(counts)[0].name)
    ensures forall k :: 1 <= k < 6 ==> !Highlighted(None, StoreStatusCards(counts)[k].name)
    ensures ClickValue(StoreStatusCards(counts)[0].name) == None
  {
    var sc := StoreStatusCards(counts);
    assert forall k :: 1 <= k < 6 ==> sc[k].name == StoreCardLabels[k - 1];
  }
}
