/**
 * The decklist database (the "master json"): colour identity -> deck type ->
 * deck name -> decklist, every level a Python dict in insertion order.
 */
module Database {
  import opened Dicts

  type Decklist = seq<string>
  type Decks = Dict<Decklist>
  type DeckTypes = Dict<Decks>
  type Catalogue = Dict<DeckTypes>

  /** Every (deck name, decklist) entry, in colour -> deck type -> deck name iteration order. */
  function Entries(cat: Catalogue): seq<(string, Decklist)>
  {
    if cat == [] then [] else ConcatValues(cat[0].1) + Entries(cat[1..])
  }

  lemma {:induction false} EntriesAppend(a: Catalogue, b: Catalogue)
    ensures Entries(a + b) == Entries(a) + Entries(b)
  {
    if a == [] {
      assert a + b == b;
    } else {
      assert (a + b)[1..] == a[1..] + b;
      EntriesAppend(a[1..], b);
    }
  }

  lemma EntriesSnoc(cat: Catalogue, i: nat)
    requires i < |cat|
    ensures Entries(cat[..i + 1]) == Entries(cat[..i]) + ConcatValues(cat[i].1)
  {
    assert cat[..i + 1] == cat[..i] + [cat[i]];
    EntriesAppend(cat[..i], [cat[i]]);
  }

  /** Every card of every decklist, copies and basic lands included, in iteration order. */
  function AllCards(cat: Catalogue): seq<string>
  {
    ConcatValues(Entries(cat))
  }
}
