/**
 * CardManager: the in-memory card list of the session. Every change is made
 * to memory first and saved afterwards; a failed save is reported but not
 * undone, so memory may then hold more than the slot.
 */
module CardManagement {
  import opened Wrappers
  import opened Cards
  import opened Storage

  class CardManager {
    var cards: seq<Card>
    const storage: StorageManager

    constructor (storage: StorageManager)
      ensures cards == [] && this.storage == storage
    {
      cards := [];
      this.storage := storage;
    }

    /**
     * addCard: push the new card, then save the whole list. The id and the
     * timestamp, which the source takes from a clock and a random source,
     * are parameters.
     */
    method AddCard(name: string, abv: real, volume: real, id: string, timestamp: int) returns (r: Result<Card, SaveError>)
      modifies this`cards, storage`slot
      ensures cards == old(cards) + [NewCard(id, name, abv, volume, timestamp)]
      ensures Sum(cards) == old(Sum(cards)) + NewCard(id, name, abv, volume, timestamp).pureAlcohol
      ensures storage.backend == Working ==> r == Success(NewCard(id, name, abv, volume, timestamp)) && storage.slot == Some(Stored(cards))
      ensures storage.backend == QuotaFull ==> r == Failure(QuotaExceeded) && storage.slot == old(storage.slot)
      ensures storage.backend == Blocked ==> r == Failure(StorageUnavailable) && storage.slot == old(storage.slot)
      ensures old(UniqueIds(cards)) && id !in old(Ids(cards)) ==> UniqueIds(cards)
      ensures old(AllWellFormed(cards)) && 0.0 <= abv <= 100.0 && volume >= 1.0 ==> AllWellFormed(cards)
    {
      var card := NewCard(id, name, abv, volume, timestamp);
      SumPush(cards, card);
      if UniqueIds(cards) && id !in Ids(cards) {
        PushKeepsUniqueIds(cards, card);
      }
      if 0.0 <= abv <= 100.0 && volume >= 1.0 {
        NewCardWellFormed(id, name, abv, volume, timestamp);
      }
      cards := cards + [card];
      var saved := storage.SaveCards(cards);
      if saved.Fail? {
        r := Failure(saved.error);
      } else {
        r := Success(card);
      }
    }

    /** deleteCard: drop every card with this id, then save the whole list. */
    method DeleteCard(id: string) returns (r: Outcome<SaveError>)
      modifies this`cards, storage`slot
      ensures cards == WithoutId(old(cards), id)
      ensures IsSubsequence(cards, old(cards))
      ensures (forall k :: 0 <= k < |old(cards)| ==> old(cards)[k].id != id) ==> cards == old(cards)
      ensures old(UniqueIds(cards)) ==> UniqueIds(cards)
      ensures storage.backend == Working ==> r == Pass && storage.slot == Some(Stored(cards))
      ensures storage.backend == QuotaFull ==> r == Fail(QuotaExceeded) && storage.slot == old(storage.slot)
      ensures storage.backend == Blocked ==> r == Fail(StorageUnavailable) && storage.slot == old(storage.slot)
    {
      WithoutIdKeepsOrder(cards, id);
      if forall k :: 0 <= k < |cards| ==> cards[k].id != id {
        WithoutAbsentId(cards, id);
      }
      if UniqueIds(cards) {
        WithoutIdKeepsUniqueIds(cards, id);
      }
      cards := WithoutId(cards, id);
      r := storage.SaveCards(cards);
    }

    /** getAllCards: the held list itself (the source hands out the same array object). */
    method GetAllCards() returns (all: seq<Card>)
      ensures all == cards
    {
      all := cards;
    }

    /** getTotalPureAlcohol: the sum of every card's amount, 0 for no cards. */
    method GetTotalPureAlcohol() returns (total: real)
      ensures total == Sum(cards)
      ensures cards == [] ==> total == 0.0
    {
      total := 0.0;
      for i := 0 to |cards|
        invariant total == Sum(cards[..i])
      {
        assert cards[..i + 1][..i] == cards[..i];
        total := total + cards[i].pureAlcohol;
      }
      assert cards[..|cards|] == cards;
    }

    /** loadFromStorage: the held list is replaced by what the slot yields. */
    method LoadFromStorage()
      modifies this`cards
      ensures cards == StoredCards(storage.slot, storage.backend)
    {
      cards := storage.LoadCards();
    }
  }

  /**
   * After a successful add, a new manager over the same slot loads the same
   * list, in the same order.
   */
  method ReloadAfterAdd(manager: CardManager, name: string, abv: real, volume: real, id: string, timestamp: int)
    returns (added: Result<Card, SaveError>, reloaded: seq<Card>)
    modifies manager, manager.storage
    ensures added.Success? ==> reloaded == manager.cards == old(manager.cards) + [added.value]
  {
    added := manager.AddCard(name, abv, volume, id, timestamp);
    var other := new CardManager(manager.storage);
    other.LoadFromStorage();
    reloaded := other.cards;
  }

  /** Deleting the same id twice: the second deletion leaves the list as the first left it. */
  method DeleteTwice(manager: CardManager, id: string) returns (first: seq<Card>, second: seq<Card>)
    modifies manager, manager.storage
    ensures first == WithoutId(old(manager.cards), id)
    ensures second == first
  {
    var _ := manager.DeleteCard(id);
    first := manager.cards;
    var _ := manager.DeleteCard(id);
    second := manager.cards;
    WithoutIdIdempotent(old(manager.cards), id);
  }
}
