/**
 * The card list screen: its in-memory list of cards, loaded from storage
 * whenever the screen gains focus, and the delete handler that filters the
 * in-memory list, writes it back and only then shows it.
 */
module CardList {
  import opened Vocab
  import opened Storage

  class CardListScreen {
    var cards: seq<Card>

    /** The list starts empty. */
    constructor ()
      ensures cards == []
    {
      cards := [];
    }

    /**
     * `loadCards`: the stored list, or the empty list when nothing is
     * stored. A failed read (or a value that is not a list) shows an alert
     * and leaves the list as it was.
     */
    method LoadCards(store: AsyncStorage, readFails: bool) returns (ok: bool)
      modifies this
      ensures ok <==> !readFails && (CardsKey !in store.items || store.items[CardsKey].CardList?)
      ensures ok && CardsKey !in store.items ==> cards == []
      ensures ok && CardsKey in store.items ==> cards == store.items[CardsKey].cards
      ensures !ok ==> cards == old(cards)
    {
      var stored := store.GetItem(CardsKey, readFails);
      match stored {
        case ReadError =>
          ok := false;
        case Missing =>
          cards := [];
          ok := true;
        case Found(v) =>
          ok := v.CardList?;
          if ok {
            cards := v.cards;
          }
      }
    }

    /**
     * `deleteCard(id)`: the in-memory list without the cards carrying `id`
     * is written whole (even when no card carries `id`), and it replaces the
     * in-memory list only after the write succeeds.
     */
    method DeleteCard(store: AsyncStorage, id: string, writeFails: bool) returns (ok: bool)
      modifies this, store
      ensures ok == !writeFails
      ensures ok ==> cards == WithoutId(old(cards), id)
      ensures ok ==> store.items == old(store.items)[CardsKey := CardList(cards)]
      ensures !ok ==> cards == old(cards) && store.items == old(store.items)
      ensures WellShaped(old(store.items)) ==> WellShaped(store.items)
    {
      var updated := WithoutId(cards, id);
      if WellShaped(store.items) {
        WriteKeepsShape(store.items, CardsKey, CardList(updated));
      }
      ok := store.SetItem(CardsKey, CardList(updated), writeFails);
      if ok {
        cards := updated;
      }
    }
  }
}
