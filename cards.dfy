/**
 * The drink card and the list-level functions the card manager is specified by:
 * the total (a left fold, like `reduce`), the filter `deleteCard` applies, and
 * the reversal `renderCards` applies.
 */
module Cards {
  import opened Calculator

  /** One logged drink. */
  datatype Card = Card(id: string, name: string, abv: real, volume: real, pureAlcohol: real, timestamp: int)

  /** The card `addCard` builds; the id and the timestamp come from outside. */
  function NewCard(id: string, name: string, abv: real, volume: real, timestamp: int): (c: Card)
    ensures c.id == id && c.name == name && c.abv == abv && c.volume == volume && c.timestamp == timestamp
    ensures NearestTenth(volume * abv / 100.0, c.pureAlcohol)
  {
    Card(id, name, abv, volume, CalculatePureAlcohol(volume, abv), timestamp)
  }

  /** A card whose fields are in the ranges validation admits and whose amount is the formula's. */
  ghost predicate WellFormed(c: Card)
  {
    0.0 <= c.abv <= 100.0 && c.volume >= 1.0 &&
    c.pureAlcohol == CalculatePureAlcohol(c.volume, c.abv) && c.pureAlcohol >= 0.0
  }

  ghost predicate AllWellFormed(cards: seq<Card>)
  {
    forall k :: 0 <= k < |cards| ==> WellFormed(cards[k])
  }

  /** Cards built from in-range inputs are well formed. */
  lemma NewCardWellFormed(id: string, name: string, abv: real, volume: real, timestamp: int)
    requires 0.0 <= abv <= 100.0 && volume >= 1.0
    ensures WellFormed(NewCard(id, name, abv, volume, timestamp))
  {
    PureAlcoholNonNegative(volume, abv);
  }

  /** `cards.reduce((total, card) => total + card.pureAlcohol, 0)`, folded from the left. */
  function Sum(cards: seq<Card>): real
  {
    if cards == [] then 0.0 else Sum(cards[..|cards| - 1]) + cards[|cards| - 1].pureAlcohol
  }

  lemma {:induction false} SumAppend(a: seq<Card>, b: seq<Card>)
    ensures Sum(a + b) == Sum(a) + Sum(b)
    decreases |b|
  {
    if b == [] {
      assert a + b == a;
    } else {
      var last := |b| - 1;
      assert (a + b)[..|a + b| - 1] == a + b[..last];
      SumAppend(a, b[..last]);
    }
  }

  /** Adding one card raises the total by exactly that card's amount. */
  lemma SumPush(cards: seq<Card>, c: Card)
    ensures Sum(cards + [c]) == Sum(cards) + c.pureAlcohol
  {
    assert (cards + [c])[..|cards|] == cards;
  }

  /** A list of well-formed cards has a non-negative total. */
  lemma {:induction false} SumNonNegative(cards: seq<Card>)
    requires AllWellFormed(cards)
    ensures Sum(cards) >= 0.0
  {
    if cards != [] {
      SumNonNegative(cards[..|cards| - 1]);
      assert WellFormed(cards[|cards| - 1]);
    }
  }

  /** The list `Array.prototype.reverse` leaves behind. */
  function Reversed(cards: seq<Card>): (r: seq<Card>)
    ensures |r| == |cards|
    ensures forall k :: 0 <= k < |cards| ==> r[k] == cards[|cards| - 1 - k]
  {
    if cards == [] then [] else Reversed(cards[1..]) + [cards[0]]
  }

  lemma ReversedTwice(cards: seq<Card>)
    ensures Reversed(Reversed(cards)) == cards
  {
  }

  lemma ReversedPair(x: Card, y: Card)
    ensures Reversed([x, y]) == [y, x]
  {
  }

  lemma ReversedTriple(x: Card, y: Card, z: Card)
    ensures Reversed([x, y, z]) == [z, y, x]
  {
  }

  /** Reversing after a push puts the pushed card first, ahead of the old reversed list. */
  lemma ReversedPush(cards: seq<Card>, c: Card)
    ensures Reversed(cards + [c]) == [c] + Reversed(cards)
  {
  }

  /** The total does not depend on the order of the list. */
  lemma {:induction false} SumReversed(cards: seq<Card>)
    ensures Sum(Reversed(cards)) == Sum(cards)
    decreases |cards|
  {
    if cards != [] {
      SumReversed(cards[1..]);
      SumAppend(Reversed(cards[1..]), [cards[0]]);
      SumAppend([cards[0]], cards[1..]);
      assert [cards[0]] + cards[1..] == cards;
      assert [cards[0]][..0] == [];
    }
  }

  /** `cards.filter(card => card.id !== id)`. */
  function WithoutId(cards: seq<Card>, id: string): (r: seq<Card>)
    ensures |r| <= |cards|
    ensures forall k :: 0 <= k < |r| ==> r[k].id != id
    ensures forall c :: multiset(r)[c] == if c.id == id then 0 else multiset(cards)[c]
    ensures forall c :: c in r <==> c in cards && c.id != id
  {
    if cards == [] then []
    else
      assert cards == [cards[0]] + cards[1..];
      (if cards[0].id == id then [] else [cards[0]]) + WithoutId(cards[1..], id)
  }

  /** a can be obtained from b by dropping elements (greedy matching from the front). */
  ghost predicate IsSubsequence(a: seq<Card>, b: seq<Card>)
    decreases |b|
  {
    if a == [] then true
    else if b == [] then false
    else if a[0] == b[0] then IsSubsequence(a[1..], b[1..])
    else IsSubsequence(a, b[1..])
  }

  /** The filter keeps the remaining cards in their original relative order. */
  lemma {:induction false} WithoutIdKeepsOrder(cards: seq<Card>, id: string)
    ensures IsSubsequence(WithoutId(cards, id), cards)
    decreases |cards|
  {
    if cards != [] {
      WithoutIdKeepsOrder(cards[1..], id);
      var rest := WithoutId(cards[1..], id);
      if cards[0].id == id {
        assert WithoutId(cards, id) == rest;
        SkipHeadKeepsSubsequence(rest, cards);
      } else {
        assert WithoutId(cards, id) == [cards[0]] + rest;
        assert ([cards[0]] + rest)[1..] == rest;
      }
    }
  }

  lemma {:induction false} SkipHeadKeepsSubsequence(a: seq<Card>, b: seq<Card>)
    requires b != [] && IsSubsequence(a, b[1..])
    ensures IsSubsequence(a, b)
    decreases |b|
  {
    if a != [] && a[0] == b[0] {
      SubsequenceOfTail(a, b[1..]);
      assert b[1..][1..] == b[2..];
      SkipHeadKeepsSubsequence(a[1..], b[1..]);
    }
  }

  lemma {:induction false} SubsequenceOfTail(a: seq<Card>, b: seq<Card>)
    requires a != [] && IsSubsequence(a, b)
    ensures b != [] && IsSubsequence(a[1..], b[1..])
    decreases |b|
  {
    if b == [] {
      assert false;
    } else if a[0] != b[0] {
      SubsequenceOfTail(a, b[1..]);
      SkipHeadKeepsSubsequence(a[1..], b[1..]);
    }
  }

  /** Deleting an id no card carries leaves the list unchanged. */
  lemma {:induction false} WithoutAbsentId(cards: seq<Card>, id: string)
    requires forall k :: 0 <= k < |cards| ==> cards[k].id != id
    ensures WithoutId(cards, id) == cards
    decreases |cards|
  {
    if cards != [] {
      WithoutAbsentId(cards[1..], id);
      assert [cards[0]] + cards[1..] == cards;
    }
  }

  /** Deleting the same id a second time changes nothing. */
  lemma WithoutIdIdempotent(cards: seq<Card>, id: string)
    ensures WithoutId(WithoutId(cards, id), id) == WithoutId(cards, id)
  {
    WithoutAbsentId(WithoutId(cards, id), id);
  }

  /** No two cards share an id. */
  ghost predicate UniqueIds(cards: seq<Card>)
  {
    forall i, j :: 0 <= i < j < |cards| ==> cards[i].id != cards[j].id
  }

  function Ids(cards: seq<Card>): set<string>
  {
    set c | c in cards :: c.id
  }

  /** Pushing a card with a fresh id keeps ids unique. */
  lemma PushKeepsUniqueIds(cards: seq<Card>, c: Card)
    requires UniqueIds(cards) && c.id !in Ids(cards)
    ensures UniqueIds(cards + [c])
  {
    var s := cards + [c];
    forall i, j | 0 <= i < j < |s| ensures s[i].id != s[j].id {
      if j == |cards| {
        assert s[i] in cards;
      }
    }
  }

  /** A list headed by c has unique ids exactly when its tail does and c's id is not in it. */
  lemma UniqueIdsCons(c: Card, cards: seq<Card>)
    ensures UniqueIds([c] + cards) <==> UniqueIds(cards) && c.id !in Ids(cards)
  {
    var s := [c] + cards;
    if UniqueIds(s) {
      forall i, j | 0 <= i < j < |cards| ensures cards[i].id != cards[j].id {
        assert s[i + 1] == cards[i] && s[j + 1] == cards[j];
      }
      forall d | d in cards ensures d.id != c.id {
        var k :| 0 <= k < |cards| && cards[k] == d;
        assert s[0] == c && s[k + 1] == d;
      }
    }
    if UniqueIds(cards) && c.id !in Ids(cards) {
      forall i, j | 0 <= i < j < |s| ensures s[i].id != s[j].id {
        assert s[j] == cards[j - 1];
        if i == 0 {
          assert s[j] in cards;
        } else {
          assert s[i] == cards[i - 1];
        }
      }
    }
  }

  /** Filtering keeps ids unique. */
  lemma {:induction false} WithoutIdKeepsUniqueIds(cards: seq<Card>, id: string)
    requires UniqueIds(cards)
    ensures UniqueIds(WithoutId(cards, id))
    decreases |cards|
  {
    if cards != [] {
      var tail := cards[1..];
      assert cards == [cards[0]] + tail;
      UniqueIdsCons(cards[0], tail);
      WithoutIdKeepsUniqueIds(tail, id);
      var rest := WithoutId(tail, id);
      if cards[0].id != id {
        assert Ids(rest) <= Ids(tail);
        UniqueIdsCons(cards[0], rest);
      }
    }
  }

  /** Reversing keeps ids unique. */
  lemma ReversedKeepsUniqueIds(cards: seq<Card>)
    requires UniqueIds(cards)
    ensures UniqueIds(Reversed(cards))
  {
    var r := Reversed(cards);
    forall i, j | 0 <= i < j < |r| ensures r[i].id != r[j].id {
      assert r[i] == cards[|cards| - 1 - i] && r[j] == cards[|cards| - 1 - j];
    }
  }
}
