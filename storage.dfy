/**
 * StorageManager: the card list persisted in one named slot of a key-value
 * store. The store's failures are injected through `backend`.
 */
module Storage {
  import opened Wrappers
  import opened Cards

  /** The one key the cards live under; no other key is ever touched. */
  const StorageKey := "pureAlcoholMeter_cards"

  /** The exception name the source recognises as a full store. */
  const QuotaErrorName := "QuotaExceededError"

  /** What the slot holds: a serialised card list, or text that does not parse. */
  datatype SlotValue = Stored(cards: seq<Card>) | Unparseable

  /**
   * How the key-value store behaves: everything works; writes are refused as
   * over quota; or the store cannot be used at all (every access throws).
   */
  datatype Backend = Working | QuotaFull | Blocked

  /** The two failures `saveCards` reports. */
  datatype SaveError = QuotaExceeded | StorageUnavailable

  /** The name of the exception `setItem` throws, None when it succeeds. */
  function SetItemError(backend: Backend): Option<string>
  {
    match backend
    case Working => None
    case QuotaFull => Some(QuotaErrorName)
    case Blocked => Some("SecurityError")
  }

  /** The catch block of `saveCards`: only a quota error is reported as such. */
  function ClassifySaveError(errorName: string): (e: SaveError)
    ensures e == QuotaExceeded <==> errorName == QuotaErrorName
    ensures e == StorageUnavailable <==> errorName != QuotaErrorName
  {
    if errorName == QuotaErrorName then QuotaExceeded else StorageUnavailable
  }

  /**
   * The function specifying `LoadCards`: the list a load yields for a given
   * slot and store. An unusable store, an absent slot and unparseable text
   * all give the empty list; a stored list comes back as stored.
   */
  function StoredCards(slot: Option<SlotValue>, backend: Backend): seq<Card>
  {
    if backend == Blocked then []
    else match slot
      case None => []
      case Some(Unparseable) => []
      case Some(Stored(cards)) => cards
  }

  class StorageManager {
    var slot: Option<SlotValue>
    var backend: Backend

    constructor (slot: Option<SlotValue>, backend: Backend)
      ensures this.slot == slot && this.backend == backend
    {
      this.slot := slot;
      this.backend := backend;
    }

    /** saveCards: the whole list replaces the slot, or a classified failure is thrown. */
    method SaveCards(cards: seq<Card>) returns (r: Outcome<SaveError>)
      modifies this`slot
      ensures backend == Working ==> r == Pass && slot == Some(Stored(cards))
      ensures backend == QuotaFull ==> r == Fail(QuotaExceeded) && slot == old(slot)
      ensures backend == Blocked ==> r == Fail(StorageUnavailable) && slot == old(slot)
    {
      match SetItemError(backend)
      case None =>
        slot := Some(Stored(cards));
        r := Pass;
      case Some(name) =>
        r := Fail(ClassifySaveError(name));
    }

    /** loadCards: the stored list, or the empty list when there is none to read. */
    method LoadCards() returns (cards: seq<Card>)
      ensures cards == StoredCards(slot, backend)
    {
      if backend == Blocked {
        cards := [];
      } else {
        match slot
        case None => cards := [];
        case Some(Unparseable) => cards := [];
        case Some(Stored(cs)) => cards := cs;
      }
    }

    /** clearCards: removes the slot; reports false when the store cannot be used. */
    method ClearCards() returns (ok: bool)
      modifies this`slot
      ensures ok <==> backend != Blocked
      ensures ok ==> slot == None
      ensures !ok ==> slot == old(slot)
    {
      if backend == Blocked {
        ok := false;
      } else {
        slot := None;
        ok := true;
      }
    }
  }

  /** A successful save followed by a load gives back the saved list. */
  method SaveThenLoad(storage: StorageManager, cards: seq<Card>) returns (saved: Outcome<SaveError>, loaded: seq<Card>)
    modifies storage
    ensures saved == Pass <==> storage.backend == Working
    ensures saved == Pass ==> loaded == cards
    ensures saved.Fail? ==> loaded == old(StoredCards(storage.slot, storage.backend))
  {
    saved := storage.SaveCards(cards);
    loaded := storage.LoadCards();
  }

  /**
   * After a clear the next load is empty: a successful clear removed the slot,
   * and a failed one means the store cannot be read either.
   */
  method ClearThenLoad(storage: StorageManager) returns (cleared: bool, loaded: seq<Card>)
    modifies storage
    ensures cleared <==> storage.backend != Blocked
    ensures cleared ==> storage.slot == None
    ensures loaded == []
  {
    cleared := storage.ClearCards();
    loaded := storage.LoadCards();
  }
}
