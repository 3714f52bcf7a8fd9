/**
 * The vocabulary card and the one list operation the screens perform on a
 * whole collection: keeping every card whose id differs from a given one.
 */
module Vocab {

  /** A card as stored: all four fields are strings; `id` is a decimal timestamp. */
  datatype Card = Card(id: string, word: string, meaning: string, example: string)

  /** No two cards of the list share an id. */
  predicate UniqueIds(cards: seq<Card>) {
    forall i, j :: 0 <= i < j < |cards| ==> cards[i].id != cards[j].id
  }

  /** The number of cards whose id is `id`. */
  function CountId(cards: seq<Card>, id: string): nat {
    if cards == [] then 0 else (if cards[0].id == id then 1 else 0) + CountId(cards[1..], id)
  }

  /**
   * `cards.filter(card => card.id !== id)`: every card whose id differs, in
   * the original order; exactly the cards carrying `id` go.
   */
  function WithoutId(cards: seq<Card>, id: string): (r: seq<Card>)
    ensures |r| + CountId(cards, id) == |cards|
    ensures forall i :: 0 <= i < |r| ==> r[i].id != id
  {
    if cards == [] then []
    else if cards[0].id == id then WithoutId(cards[1..], id)
    else [cards[0]] + WithoutId(cards[1..], id)
  }

  /** A card survives exactly when it was in the list and carries another id. */
  lemma {:induction false} WithoutIdMembers(cards: seq<Card>, id: string, c: Card)
    ensures c in WithoutId(cards, id) <==> c in cards && c.id != id
  {
    if cards != [] {
      WithoutIdMembers(cards[1..], id, c);
      assert c in cards <==> c == cards[0] || c in cards[1..];
    }
  }

  /** Filtering a concatenation filters each part and keeps the parts in order: relative order survives. */
  lemma {:induction false} WithoutIdAppend(a: seq<Card>, b: seq<Card>, id: string)
    ensures WithoutId(a + b, id) == WithoutId(a, id) + WithoutId(b, id)
  {
    if a == [] {
      assert a + b == b;
    } else {
      var ab := a + b;
      assert ab[0] == a[0] && ab[1..] == a[1..] + b;
      WithoutIdAppend(a[1..], b, id);
      if a[0].id != id {
        assert [a[0]] + (WithoutId(a[1..], id) + WithoutId(b, id)) == ([a[0]] + WithoutId(a[1..], id)) + WithoutId(b, id);
      }
    }
  }

  /** Removing an id that no card carries leaves the list as it was. */
  lemma {:induction false} WithoutAbsentId(cards: seq<Card>, id: string)
    requires forall i :: 0 <= i < |cards| ==> cards[i].id != id
    ensures WithoutId(cards, id) == cards
  {
    if cards != [] {
      WithoutAbsentId(cards[1..], id);
    }
  }

  /** Removing the same id twice removes nothing more. */
  lemma WithoutIdIdempotent(cards: seq<Card>, id: string)
    ensures WithoutId(WithoutId(cards, id), id) == WithoutId(cards, id)
  {
    WithoutAbsentId(WithoutId(cards, id), id);
  }

  /** Removing cards keeps ids unique. */
  lemma {:induction false} WithoutIdKeepsUnique(cards: seq<Card>, id: string)
    requires UniqueIds(cards)
    ensures UniqueIds(WithoutId(cards, id))
  {
    if cards != [] {
      var tail := cards[1..];
      WithoutIdKeepsUnique(tail, id);
      var rest := WithoutId(tail, id);
      if cards[0].id != id {
        forall j | 0 <= j < |rest| ensures cards[0].id != rest[j].id {
          assert rest[j] in rest;
          WithoutIdMembers(tail, id, rest[j]);
          var k :| 0 <= k < |tail| && tail[k] == rest[j];
          assert cards[k + 1] == tail[k];
        }
      }
    }
  }

  /** Deleting the id of two cards that share it removes both. */
  lemma DeleteRemovesTwins(c1: Card, c2: Card)
    requires c1.id == c2.id
    ensures WithoutId([c1, c2], c1.id) == []
  {
    assert [c1, c2][1..] == [c2];
  }

  /** Appending a card whose id is new keeps ids unique. */
  lemma AppendFreshKeepsUnique(cards: seq<Card>, card: Card)
    requires UniqueIds(cards)
    requires forall i :: 0 <= i < |cards| ==> cards[i].id != card.id
    ensures UniqueIds(cards + [card])
  {
  }
}
