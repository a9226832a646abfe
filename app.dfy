/**
 * The non-DOM part of the page: trimming the name field, the submit and
 * delete handlers, and what rendering does to the card manager's list.
 * Rendering itself (elements, text, escaping) is not modelled; only the one
 * effect it has on the held state, and the order in which it shows cards.
 */
module Application {
  import opened Wrappers
  import opened Calculator
  import opened Cards
  import opened Storage
  import opened Validation
  import opened CardManagement

  /** The characters `String.prototype.trim` removes: white space and line terminators. */
  predicate IsWhiteSpace(c: char)
  {
    c == '\t' || c == '\n' || c == '\U{000B}' || c == '\U{000C}' || c == '\r' || c == ' ' ||
    c == '\U{00A0}' || c == '\U{1680}' || ('\U{2000}' <= c <= '\U{200A}') ||
    c == '\U{2028}' || c == '\U{2029}' || c == '\U{202F}' || c == '\U{205F}' ||
    c == '\U{3000}' || c == '\U{FEFF}'
  }

  predicate AllWhiteSpace(s: string)
  {
    forall k :: 0 <= k < |s| ==> IsWhiteSpace(s[k])
  }

  /** Drops leading white space: what is left is a suffix starting with a non-space. */
  function TrimStart(s: string): (r: string)
    ensures |r| <= |s| && r == s[|s| - |r|..]
    ensures AllWhiteSpace(s[..|s| - |r|])
    ensures r == [] || !IsWhiteSpace(r[0])
  {
    if s != [] && IsWhiteSpace(s[0]) then
      var r := TrimStart(s[1..]);
      assert s[..|s| - |r|] == [s[0]] + s[1..][..|s| - 1 - |r|];
      r
    else s
  }

  /** Drops trailing white space: what is left is a prefix ending with a non-space. */
  function TrimEnd(s: string): (r: string)
    ensures |r| <= |s| && r == s[..|r|]
    ensures AllWhiteSpace(s[|r|..])
    ensures r == [] || !IsWhiteSpace(r[|r| - 1])
  {
    if s != [] && IsWhiteSpace(s[|s| - 1]) then
      var r := TrimEnd(s[..|s| - 1]);
      assert s[|r|..] == s[..|s| - 1][|r|..] + [s[|s| - 1]];
      r
    else s
  }

  /** `value.trim()`. */
  function Trim(s: string): (r: string)
    ensures r == [] || (!IsWhiteSpace(r[0]) && !IsWhiteSpace(r[|r| - 1]))
  {
    TrimEnd(TrimStart(s))
  }

  /** t is s with the white space s[..i] in front and the white space after t removed. */
  ghost predicate TrimmedAt(s: string, i: int, t: string)
  {
    0 <= i <= |s| - |t| && s[i..][..|t|] == t && AllWhiteSpace(s[..i]) && AllWhiteSpace(s[i..][|t|..])
  }

  /** Trim removes white space from the two ends and nothing else. */
  lemma TrimRemovesOnlyEnds(s: string)
    ensures exists i :: TrimmedAt(s, i, Trim(s))
  {
    var t := TrimStart(s);
    var i := |s| - |t|;
    assert s[i..] == t;
    assert TrimmedAt(s, i, Trim(s));
  }

  /** A trimmed name is empty exactly when the field held only white space. */
  lemma TrimEmptyIff(s: string)
    ensures Trim(s) == [] <==> AllWhiteSpace(s)
  {
    var t := TrimStart(s);
    if Trim(s) == [] {
      assert AllWhiteSpace(t[0..]);
      assert s == s[..|s| - |t|] + t;
    }
  }

  lemma TrimIdempotent(s: string)
    ensures Trim(Trim(s)) == Trim(s)
  {
    var r := Trim(s);
    assert TrimStart(r) == r;
    assert TrimEnd(r) == r;
  }

  /** UIManager: what rendering reads from, and does to, the card manager. */
  class UIManager {
    const cardManager: CardManager

    constructor (cardManager: CardManager)
      ensures this.cardManager == cardManager
    {
      this.cardManager := cardManager;
    }

    /** updateTotalDisplay: the total, shown with one decimal. */
    method UpdateTotalDisplay() returns (shown: real)
      ensures NearestTenth(Sum(cardManager.cards), shown)
    {
      var total := cardManager.GetTotalPureAlcohol();
      shown := RoundToTenths(total);
    }

    /**
     * renderCards as written: `getAllCards()` hands out the manager's own
     * list and `reverse()` turns it around in place, so the held order flips
     * on every render.
     */
    method RenderCards() returns (shown: seq<Card>)
      modifies cardManager`cards
      ensures cardManager.cards == Reversed(old(cardManager.cards))
      ensures shown == cardManager.cards
      ensures Sum(cardManager.cards) == old(Sum(cardManager.cards))
    {
      var cards := cardManager.GetAllCards();
      SumReversed(cards);
      if |cards| == 0 {
        shown := [];
        return;
      }
      cardManager.cards := Reversed(cards);
      shown := cardManager.cards;
    }

    /** renderCards as intended: show the newest card first and leave the held list alone. */
    method RenderCardsNewestFirst() returns (shown: seq<Card>)
      ensures shown == Reversed(cardManager.cards)
      ensures cardManager.cards != [] ==> shown[0] == cardManager.cards[|cardManager.cards| - 1]
    {
      var cards := cardManager.GetAllCards();
      shown := Reversed(cards);
    }

    /** render: the total first, then the cards. */
    method Render() returns (total: real, shown: seq<Card>)
      modifies cardManager`cards
      ensures NearestTenth(Sum(old(cardManager.cards)), total)
      ensures cardManager.cards == Reversed(old(cardManager.cards)) && shown == cardManager.cards
    {
      total := UpdateTotalDisplay();
      shown := RenderCards();
    }
  }

  /** The outcome of a form submission. */
  datatype SubmitResult = Rejected(kind: ErrorKind) | Added(card: Card) | SaveFailed(error: SaveError)

  class App {
    const cardManager: CardManager
    const uiManager: UIManager

    /** The page's UI manager renders this page's card manager. */
    ghost predicate Wired()
    {
      uiManager.cardManager == cardManager
    }

    /** The constructor and init: load the saved list, then render it once. */
    constructor (storage: StorageManager)
      ensures Wired() && cardManager.storage == storage
      ensures cardManager.cards == Reversed(StoredCards(storage.slot, storage.backend))
    {
      var manager := new CardManager(storage);
      var ui := new UIManager(manager);
      cardManager := manager;
      uiManager := ui;
      new;
      manager.LoadFromStorage();
      var _, _ := ui.Render();
    }

    /**
     * handleFormSubmit without the DOM: trim the name, validate, add only when
     * valid, and render only when the add (and so the save) went through.
     * The raw fields are parsed again, as addCard does with `parseFloat`.
     */
    method HandleFormSubmit(rawName: string, abv: string, volume: string, parse: string -> Option<real>,
                            id: string, timestamp: int) returns (r: SubmitResult)
      requires Wired()
      modifies cardManager`cards, cardManager.storage`slot
      ensures Validate(Trim(rawName), abv, volume, parse).Invalid? ==>
        r == Rejected(Validate(Trim(rawName), abv, volume, parse).kind) &&
        cardManager.cards == old(cardManager.cards) && cardManager.storage.slot == old(cardManager.storage.slot)
      ensures Validate(Trim(rawName), abv, volume, parse) == Valid ==>
        WellFormed(NewCard(id, Trim(rawName), parse(abv).value, parse(volume).value, timestamp))
      ensures Validate(Trim(rawName), abv, volume, parse) == Valid && cardManager.storage.backend == Working ==>
        var card := NewCard(id, Trim(rawName), parse(abv).value, parse(volume).value, timestamp);
        r == Added(card) &&
        cardManager.storage.slot == Some(Stored(old(cardManager.cards) + [card])) &&
        cardManager.cards == Reversed(old(cardManager.cards) + [card])
      ensures Validate(Trim(rawName), abv, volume, parse) == Valid && cardManager.storage.backend != Working ==>
        var card := NewCard(id, Trim(rawName), parse(abv).value, parse(volume).value, timestamp);
        r == SaveFailed(if cardManager.storage.backend == QuotaFull then QuotaExceeded else StorageUnavailable) &&
        cardManager.storage.slot == old(cardManager.storage.slot) &&
        cardManager.cards == old(cardManager.cards) + [card]
      ensures r.Added? ==> Sum(cardManager.cards) == old(Sum(cardManager.cards)) + r.card.pureAlcohol
    {
      var name := Trim(rawName);
      var validation := Validate(name, abv, volume, parse);
      if validation.Invalid? {
        r := Rejected(validation.kind);
        return;
      }
      var abvValue, volumeValue := parse(abv).value, parse(volume).value;
      var card := NewCard(id, name, abvValue, volumeValue, timestamp);
      NewCardWellFormed(id, name, abvValue, volumeValue, timestamp);
      ghost var before := cardManager.cards;
      var added := cardManager.AddCard(name, abvValue, volumeValue, id, timestamp);
      if added.Failure? {
        r := SaveFailed(added.error);
        return;
      }
      assert added.value == card;
      ghost var pushed := cardManager.cards;
      SumReversed(pushed);
      var _, _ := uiManager.Render();
      r := Added(card);
    }

    /** handleDelete: delete, then render; a failed save ends the handler before rendering. */
    method HandleDelete(id: string) returns (r: Outcome<SaveError>)
      requires Wired()
      modifies cardManager`cards, cardManager.storage`slot
      ensures r == Pass ==>
        cardManager.storage.slot == Some(Stored(WithoutId(old(cardManager.cards), id))) &&
        cardManager.cards == Reversed(WithoutId(old(cardManager.cards), id))
      ensures r.Fail? ==>
        cardManager.cards == WithoutId(old(cardManager.cards), id) &&
        cardManager.storage.slot == old(cardManager.storage.slot)
      ensures r == Pass <==> cardManager.storage.backend == Working
      ensures cardManager.storage.backend == QuotaFull ==> r == Fail(QuotaExceeded)
      ensures cardManager.storage.backend == Blocked ==> r == Fail(StorageUnavailable)
    {
      r := cardManager.DeleteCard(id);
      if r == Pass {
        var _, _ := uiManager.Render();
      }
    }
  }

  /**
   * Two saved cards, a page load, one added card: the as-written render shows
   * the new card first but the older two oldest-first.
   */
  method DisplayOrderAsWritten(a: Card, b: Card, name: string, abv: real, volume: real, id: string, timestamp: int)
    returns (afterLoad: seq<Card>, afterAdd: seq<Card>)
    ensures afterLoad == [b, a]
    ensures afterAdd == [NewCard(id, name, abv, volume, timestamp), a, b]
    ensures a != b ==> afterAdd != Reversed([a, b, NewCard(id, name, abv, volume, timestamp)])
  {
    var storage := new StorageManager(Some(Stored([a, b])), Working);
    var manager := new CardManager(storage);
    var ui := new UIManager(manager);
    var c := NewCard(id, name, abv, volume, timestamp);
    ReversedPair(a, b);
    ReversedTriple(b, a, c);
    ReversedTriple(a, b, c);
    manager.LoadFromStorage();
    afterLoad := ui.RenderCards();
    var _ := manager.AddCard(name, abv, volume, id, timestamp);
    assert manager.cards == [b, a] + [c] == [b, a, c];
    afterAdd := ui.RenderCards();
    assert afterAdd == [c, a, b];
    assert afterAdd[1] == a && Reversed([a, b, c])[1] == b;
  }

  /** The same session with the corrected render: newest first throughout. */
  method DisplayOrderNewestFirst(a: Card, b: Card, name: string, abv: real, volume: real, id: string, timestamp: int)
    returns (afterLoad: seq<Card>, afterAdd: seq<Card>)
    ensures afterLoad == [b, a]
    ensures afterAdd == [NewCard(id, name, abv, volume, timestamp), b, a]
    ensures afterAdd == Reversed([a, b, NewCard(id, name, abv, volume, timestamp)])
  {
    var storage := new StorageManager(Some(Stored([a, b])), Working);
    var manager := new CardManager(storage);
    var ui := new UIManager(manager);
    var c := NewCard(id, name, abv, volume, timestamp);
    ReversedPair(a, b);
    ReversedTriple(a, b, c);
    manager.LoadFromStorage();
    afterLoad := ui.RenderCardsNewestFirst();
    var _ := manager.AddCard(name, abv, volume, id, timestamp);
    assert manager.cards == [a, b] + [c] == [a, b, c];
    afterAdd := ui.RenderCardsNewestFirst();
  }

  /**
   * With the corrected render the held list keeps insertion order, so after an
   * add the display is the new card followed by the previous display.
   */
  method NewestFirstAfterAdd(ui: UIManager, name: string, abv: real, volume: real, id: string, timestamp: int)
    returns (before: seq<Card>, after: seq<Card>)
    modifies ui.cardManager, ui.cardManager.storage
    ensures after == [NewCard(id, name, abv, volume, timestamp)] + before
  {
    before := ui.RenderCardsNewestFirst();
    var _ := ui.cardManager.AddCard(name, abv, volume, id, timestamp);
    after := ui.RenderCardsNewestFirst();
    ReversedPush(old(ui.cardManager.cards), NewCard(id, name, abv, volume, timestamp));
  }
}
