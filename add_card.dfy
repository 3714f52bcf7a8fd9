/**
 * The add-card form: the three text inputs and the handler that validates
 * them and appends a new card to the stored collection.
 */
module AddCard {
  import opened Wrappers
  import opened Text
  import opened Decimal
  import opened Vocab
  import opened Storage

  /** Which alert the handler ends with. */
  datatype AddOutcome =
    | MissingFields     // "Please fill in both word and meaning"; nothing is read or written
    | Added(card: Card) // "Card added successfully"
    | AddFailed         // "Failed to add card": the read, the decoding or the write failed

  /**
   * The card the handler builds from its inputs and the clock value `now`,
   * or None when the word or the meaning is only white space.
   */
  function NewCard(word: string, meaning: string, example: string, now: nat): (r: Option<Card>)
    ensures r.Some? <==> !Blank(word) && !Blank(meaning)
    ensures r.Some? ==> r.value == Card(ToDecimal(now), Trim(word), Trim(meaning), Trim(example))
    ensures r.Some? ==> r.value.word != [] && r.value.meaning != []
  {
    TrimEmptyIffBlank(word);
    TrimEmptyIffBlank(meaning);
    if Trim(word) == [] || Trim(meaning) == [] then None
    else Some(Card(ToDecimal(now), Trim(word), Trim(meaning), Trim(example)))
  }

  /**
   * The list the handler writes back: the stored list (empty when the key is
   * absent) followed by `card`; None when the stored value is not a list.
   */
  function CardsAfterAdd(items: map<string, StoredValue>, card: Card): (r: Option<seq<Card>>)
    ensures r.Some? <==> CardsKey !in items || items[CardsKey].CardList?
    ensures CardsKey !in items ==> r == Some([card])
    ensures r.Some? ==> |r.value| >= 1 && r.value[|r.value| - 1] == card
    ensures r.Some? && CardsKey in items ==> r.value[..|r.value| - 1] == items[CardsKey].cards
  {
    if CardsKey !in items then Some([card])
    else if items[CardsKey].CardList? then Some(items[CardsKey].cards + [card])
    else None
  }

  /** A card whose id no stored card carries keeps the ids of the collection unique. */
  lemma AddFreshIdKeepsUnique(items: map<string, StoredValue>, card: Card)
    requires CardsKey !in items || items[CardsKey].CardList?
    requires CardsKey in items ==> UniqueIds(items[CardsKey].cards)
    requires CardsKey in items ==>
      forall i :: 0 <= i < |items[CardsKey].cards| ==> items[CardsKey].cards[i].id != card.id
    ensures CardsAfterAdd(items, card).Some? && UniqueIds(CardsAfterAdd(items, card).value)
  {
    if CardsKey in items {
      AppendFreshKeepsUnique(items[CardsKey].cards, card);
    }
  }

  /**
   * Two successful adds, one after the other, that read the same clock
   * value (for instance after the clock was set back) give two cards with
   * the same id: the timestamp alone does not make ids unique.
   */
  lemma SameInstantSameId(items: map<string, StoredValue>, now: nat,
                          w1: string, m1: string, e1: string, w2: string, m2: string, e2: string)
    requires NewCard(w1, m1, e1, now).Some? && NewCard(w2, m2, e2, now).Some?
    requires CardsAfterAdd(items, NewCard(w1, m1, e1, now).value).Some?
    ensures var first := CardsAfterAdd(items, NewCard(w1, m1, e1, now).value).value;
            var after := items[CardsKey := CardList(first)];
            && CardsAfterAdd(after, NewCard(w2, m2, e2, now).value).Some?
            && !UniqueIds(CardsAfterAdd(after, NewCard(w2, m2, e2, now).value).value)
  {
    var c1, c2 := NewCard(w1, m1, e1, now).value, NewCard(w2, m2, e2, now).value;
    var first := CardsAfterAdd(items, c1).value;
    var second := CardsAfterAdd(items[CardsKey := CardList(first)], c2).value;
    assert second == first + [c2];
    assert second[|first| - 1] == c1 && second[|first|] == c2;
  }

  class AddCardScreen {
    var word: string
    var meaning: string
    var example: string

    /** The three inputs start empty. */
    constructor ()
      ensures word == "" && meaning == "" && example == ""
    {
      word, meaning, example := "", "", "";
    }

    /**
     * `handleAddCard`: validate the trimmed word and meaning, build the card
     * with the decimal clock value as id, read the stored list (empty when
     * absent), append the card and write the whole list back.
     */
    method HandleAddCard(store: AsyncStorage, now: nat, readFails: bool, writeFails: bool)
      returns (outcome: AddOutcome)
      modifies store
      ensures NewCard(word, meaning, example, now).None? ==> outcome == MissingFields
      ensures NewCard(word, meaning, example, now).Some? ==> outcome != MissingFields
      ensures outcome.Added? <==>
        && NewCard(word, meaning, example, now).Some?
        && !readFails && !writeFails
        && CardsAfterAdd(old(store.items), NewCard(word, meaning, example, now).value).Some?
      ensures outcome.Added? ==>
        && NewCard(word, meaning, example, now) == Some(outcome.card)
        && store.items == old(store.items)[CardsKey := CardList(CardsAfterAdd(old(store.items), outcome.card).value)]
      ensures !outcome.Added? ==> store.items == old(store.items)
      ensures WellShaped(old(store.items)) ==> WellShaped(store.items)
    {
      var built := NewCard(word, meaning, example, now);
      if built.None? {
        return MissingFields;
      }
      var card := built.value;
      var existing := store.GetItem(CardsKey, readFails);
      var cards: seq<Card>;
      match existing {
        case ReadError =>
          return AddFailed;
        case Missing =>
          cards := [];
          assert CardsKey !in store.items;
          assert cards + [card] == [card];
          assert CardsAfterAdd(store.items, card) == Some([card]);
        case Found(v) =>
          if !v.CardList? {
            return AddFailed;
          }
          cards := v.cards;
          assert CardsAfterAdd(store.items, card) == Some(cards + [card]);
      }
      cards := cards + [card];
      if WellShaped(store.items) {
        WriteKeepsShape(store.items, CardsKey, CardList(cards));
      }
      var ok := store.SetItem(CardsKey, CardList(cards), writeFails);
      outcome := if ok then Added(card) else AddFailed;
    }
  }

  /**
   * Two complete adds, one after the other, that read the same clock value,
   * starting from no stored list: both succeed and store two cards with the
   * same id.
   */
  method DoubleTap(screen: AddCardScreen, store: AsyncStorage, now: nat)
    returns (first: AddOutcome, second: AddOutcome)
    requires !Blank(screen.word) && !Blank(screen.meaning)
    requires CardsKey !in store.items
    modifies store
    ensures first.Added? && second.Added? && first.card.id == second.card.id
    ensures CardsKey in store.items && store.items[CardsKey] == CardList([first.card, second.card])
    ensures !UniqueIds(store.items[CardsKey].cards)
  {
    first := screen.HandleAddCard(store, now, false, false);
    ghost var between := store.items;
    second := screen.HandleAddCard(store, now, false, false);
    assert CardsAfterAdd(between, second.card) == Some([first.card] + [second.card]);
  }
}
