/**
 * Deck statistics over the decklist database: the basic-land stoplist, the
 * Jaccard similarity of two decks, the first-match deck lookup and the
 * card-occurrence census.
 */
module Analyze {
  import opened Wrappers
  import opened Dicts
  import opened Database
  import opened Seqs

  /** The stoplist of basic lands (analyze.py:6-18). */
  const BasicLands: seq<string> := [
    "Plains", "Island", "Swamp", "Mountain", "Forest",
    "Snow-Covered Plains", "Snow-Covered Island", "Snow-Covered Swamp",
    "Snow-Covered Mountain", "Snow-Covered Forest"
  ]

  /** `not_basic_land`: an exact, case-sensitive test against the stoplist. */
  predicate NotBasicLand(card: string)
  {
    card !in BasicLands
  }

  /** The stoplist holds ten distinct names, and the match is exact and case-sensitive. */
  lemma BasicLandsExact()
    ensures |BasicLands| == 10
    ensures forall i, j :: 0 <= i < j < |BasicLands| ==> BasicLands[i] != BasicLands[j]
    ensures !NotBasicLand("Island") && !NotBasicLand("Snow-Covered Forest")
    ensures NotBasicLand("island") && NotBasicLand("Snow-covered Forest") && NotBasicLand("Wastes")
  {
  }

  /**
   * `jaccard_similarity`: |a & b| / |a | b|. The source does not guard the
   * division, so the union must be non-empty.
   */
  function Jaccard(a: set<string>, b: set<string>): (r: real)
    requires a + b != {}
    ensures 0.0 <= r <= 1.0
    ensures r == 1.0 <==> a == b
    ensures r == 0.0 <==> a * b == {}
  {
    IntersectionBelowUnion(a, b);
    assert a * b == {} <==> |a * b| == 0;
    Ratio(|a * b|, |a + b|)
  }

  /** A ratio of two counts, the first no larger than the second. */
  function Ratio(num: nat, den: nat): (r: real)
    requires 0 < den && num <= den
    ensures 0.0 <= r <= 1.0
    ensures r == 1.0 <==> num == den
    ensures r == 0.0 <==> num == 0
  {
    var r := (num as real) / (den as real);
    assert r * (den as real) == num as real;
    r
  }

  /** The intersection is no larger than the union, and as large only when the sets are equal. */
  lemma IntersectionBelowUnion(a: set<string>, b: set<string>)
    ensures |a * b| <= |a + b|
    ensures |a * b| == |a + b| <==> a == b
  {
    var extra := (a + b) - (a * b);
    assert a + b == (a * b) + extra;
    assert |a + b| == |a * b| + |extra|;
    if a != b {
      var x :| x in (a - b) + (b - a);
      assert x in extra;
    } else {
      assert extra == {};
    }
  }

  lemma JaccardSymmetric(a: set<string>, b: set<string>)
    requires a + b != {}
    ensures Jaccard(a, b) == Jaccard(b, a)
  {
    assert a * b == b * a && a + b == b + a;
  }

  /**
   * `find_decklist`'s search within one colour: deck types in order, deck
   * names in order within each type.
   */
  function FindInTypes(types: DeckTypes, target: string): (r: Option<Decklist>)
    ensures r == Get(ConcatValues(types), target)
  {
    if types == [] then None
    else
      GetAppend(types[0].1, ConcatValues(types[1..]), target);
      match Get(types[0].1, target)
      case Some(l) => Some(l)
      case None => FindInTypes(types[1..], target)
  }

  /**
   * `find_decklist`: the nested search over colours, deck types and deck names
   * in iteration order is a lookup in the flattened entry list.
   */
  function FindDecklist(cat: Catalogue, target: string): (r: Option<Decklist>)
    ensures r == Get(Entries(cat), target)
  {
    if cat == [] then None
    else
      GetAppend(ConcatValues(cat[0].1), Entries(cat[1..]), target);
      match FindInTypes(cat[0].1, target)
      case Some(l) => Some(l)
      case None => FindDecklist(cat[1..], target)
  }

  /**
   * `find_decklist` returns the decklist of the FIRST deck named `target` in
   * colour -> deck type -> deck name order, and None exactly when no deck has
   * that name.
   */
  lemma FindDecklistFirstMatch(cat: Catalogue, target: string)
    ensures FindDecklist(cat, target).None? <==> forall i :: 0 <= i < |Entries(cat)| ==> Entries(cat)[i].0 != target
    ensures FindDecklist(cat, target).Some? ==>
      exists i :: FirstKeyAt(Entries(cat), target, i) && Entries(cat)[i].1 == FindDecklist(cat, target).value
  {
    var r := FindDecklist(cat, target);
    assert r == Get(Entries(cat), target);
    GetFirst(Entries(cat), target);
    assert r.None? <==> forall i :: 0 <= i < |Entries(cat)| ==> Entries(cat)[i].0 != target;
  }

  /** Why `deck_similarity` raises. */
  datatype SimilarityError =
    | DeckNotFound(name: string)  // find_decklist gave None, and filtering it raises TypeError
    | ZeroDivision                // both decks hold nothing but basic lands

  /** `set(filter(not_basic_land, decklist))`: the distinct non-basic cards of a decklist. */
  function CardSet(decklist: Decklist): (s: set<string>)
    ensures forall c :: c in s <==> c in decklist && NotBasicLand(c)
  {
    set c | c in decklist && NotBasicLand(c)
  }

  /** Basic lands and repeated copies do not change a deck's card set. */
  lemma CardSetIgnoresBasicsAndCopies(decklist: Decklist, card: string)
    requires !NotBasicLand(card) || card in decklist
    ensures CardSet(decklist + [card]) == CardSet(decklist)
    ensures CardSet([card] + decklist) == CardSet(decklist)
  {
  }

  /** `deck_similarity`: Jaccard similarity of the two decks' non-basic card sets. */
  function DeckSimilarity(cat: Catalogue, deck1: string, deck2: string): (r: Result<real, SimilarityError>)
    ensures FindDecklist(cat, deck1).None? ==> r == Failure(DeckNotFound(deck1))
    ensures FindDecklist(cat, deck1).Some? && FindDecklist(cat, deck2).None? ==> r == Failure(DeckNotFound(deck2))
    ensures r == Failure(ZeroDivision) <==>
      FindDecklist(cat, deck1).Some? && FindDecklist(cat, deck2).Some? &&
      CardSet(FindDecklist(cat, deck1).value) == {} && CardSet(FindDecklist(cat, deck2).value) == {}
    ensures r.Success? ==>
      FindDecklist(cat, deck1).Some? && FindDecklist(cat, deck2).Some? &&
      CardSet(FindDecklist(cat, deck1).value) + CardSet(FindDecklist(cat, deck2).value) != {} &&
      r.value == Jaccard(CardSet(FindDecklist(cat, deck1).value), CardSet(FindDecklist(cat, deck2).value))
    ensures r.Success? ==> 0.0 <= r.value <= 1.0
  {
    match FindDecklist(cat, deck1)
    case None => Failure(DeckNotFound(deck1))
    case Some(raw1) =>
      match FindDecklist(cat, deck2)
      case None => Failure(DeckNotFound(deck2))
      case Some(raw2) =>
        var s1, s2 := CardSet(raw1), CardSet(raw2);
        if s1 + s2 == {} then Failure(ZeroDivision) else Success(Jaccard(s1, s2))
  }

  /** Swapping the two decks changes only which missing deck an error names. */
  lemma DeckSimilaritySymmetric(cat: Catalogue, deck1: string, deck2: string)
    ensures DeckSimilarity(cat, deck1, deck2).Success? <==> DeckSimilarity(cat, deck2, deck1).Success?
    ensures DeckSimilarity(cat, deck1, deck2).Success? ==>
      DeckSimilarity(cat, deck1, deck2).value == DeckSimilarity(cat, deck2, deck1).value
    ensures DeckSimilarity(cat, deck1, deck2) == Failure(ZeroDivision) <==>
      DeckSimilarity(cat, deck2, deck1) == Failure(ZeroDivision)
  {
    var r1, r2 := FindDecklist(cat, deck1), FindDecklist(cat, deck2);
    if r1.Some? && r2.Some? && CardSet(r1.value) + CardSet(r2.value) != {} {
      JaccardSymmetric(CardSet(r1.value), CardSet(r2.value));
    }
  }

  /** A deck that holds a non-basic card is fully similar to itself. */
  lemma DeckSimilarityReflexive(cat: Catalogue, deck: string, card: string)
    requires FindDecklist(cat, deck).Some?
    requires card in FindDecklist(cat, deck).value && NotBasicLand(card)
    ensures DeckSimilarity(cat, deck, deck) == Success(1.0)
  {
    assert card in CardSet(FindDecklist(cat, deck).value);
  }

  /**
   * The census of a card sequence, taken one card at a time as `summary` does:
   * a card seen for the first time is stored last with count 1, a card seen
   * before has its count raised by one.
   */
  function CensusOf(cards: seq<string>): Dict<nat>
  {
    if cards == [] then [] else Tally(CensusOf(cards[..|cards| - 1]), cards[|cards| - 1])
  }

  /** One step of the census: the count of `card` goes up by one, from 0 when it is new. */
  function Tally(counts: Dict<nat>, card: string): Dict<nat>
  {
    Put(counts, card, Get(counts, card).GetOr(0) + 1)
  }

  lemma CensusSnoc(cards: seq<string>, card: string)
    ensures CensusOf(cards + [card]) == Tally(CensusOf(cards), card)
  {
    var s := cards + [card];
    assert s[..|s| - 1] == cards && s[|s| - 1] == card;
  }

  lemma CensusPrefix(seen: seq<string>, cards: seq<string>, l: nat)
    requires l < |cards|
    ensures CensusOf(seen + cards[..l + 1]) == Tally(CensusOf(seen + cards[..l]), cards[l])
  {
    CensusSnoc(seen + cards[..l], cards[l]);
    assert cards[..l + 1] == cards[..l] + [cards[l]];
    Assoc(seen, cards[..l], [cards[l]]);
  }

  /** `counts` maps every card of `seen` to its number of occurrences, and holds nothing else. */
  ghost predicate CountsMatch(counts: Dict<nat>, seen: seq<string>) {
    forall c :: Get(counts, c) == (if c in seen then Some(multiset(seen)[c]) else None)
  }

  /** Counting the last card of `seen` on top of the census of the others. */
  lemma CountsMatchIncrement(counts: Dict<nat>, seen: seq<string>)
    requires seen != [] && CountsMatch(counts, seen[..|seen| - 1])
    ensures CountsMatch(Put(counts, seen[|seen| - 1], Get(counts, seen[|seen| - 1]).GetOr(0) + 1), seen)
  {
    var init, card := seen[..|seen| - 1], seen[|seen| - 1];
    var counts' := Put(counts, card, Get(counts, card).GetOr(0) + 1);
    assert seen == init + [card];
    assert multiset(seen) == multiset(init) + multiset{card};
    forall c ensures Get(counts', c) == (if c in seen then Some(multiset(seen)[c]) else None) {
      assert Get(counts, c) == (if c in init then Some(multiset(init)[c]) else None);
      if c == card {
        assert multiset(seen)[c] == multiset(init)[c] + 1;
        assert c in seen;
      } else {
        assert Get(counts', c) == Get(counts, c);
        assert multiset(seen)[c] == multiset(init)[c];
        assert c in seen <==> c in init;
      }
    }
  }

  /**
   * `all_cards[c]` is the number of occurrences of c, copies and basic lands
   * included, and only cards that occur are stored: so every count is at least 1.
   */
  lemma {:induction false} CensusCounts(cards: seq<string>)
    ensures CountsMatch(CensusOf(cards), cards)
  {
    if cards != [] {
      CensusCounts(cards[..|cards| - 1]);
      CountsMatchIncrement(CensusOf(cards[..|cards| - 1]), cards);
    }
  }

  /** Every stored count is positive. */
  lemma CensusPositive(cards: seq<string>, card: string)
    requires card in Keys(CensusOf(cards))
    ensures card in cards && Get(CensusOf(cards), card).GetOr(0) >= 1
  {
    CensusCounts(cards);
    GetNone(CensusOf(cards), card);
  }

  /** The counts add up to the number of cards. */
  lemma {:induction false} CensusTotal(cards: seq<string>)
    ensures SumValues(CensusOf(cards)) == |cards|
  {
    if cards != [] {
      var init, card := cards[..|cards| - 1], cards[|cards| - 1];
      CensusTotal(init);
      SumValuesPut(CensusOf(init), card, Get(CensusOf(init), card).GetOr(0) + 1);
    }
  }

  /** No card is stored twice. */
  lemma {:induction false} CensusUnique(cards: seq<string>)
    ensures UniqueKeys(CensusOf(cards))
  {
    if cards != [] {
      var init, card := cards[..|cards| - 1], cards[|cards| - 1];
      CensusUnique(init);
      PutUnique(CensusOf(init), card, Get(CensusOf(init), card).GetOr(0) + 1);
    }
  }

  /** `if card not in all_cards: all_cards[card] = 0`, then `all_cards[card] += 1`. */
  method AddCard(counts: Dict<nat>, card: string) returns (counts': Dict<nat>)
    ensures counts' == Tally(counts, card)
  {
    GetNone(counts, card);
    counts' := counts;
    if card !in Keys(counts') {
      counts' := Put(counts', card, 0);
      PutPut(counts, card, 0, 1);
    }
    counts' := Put(counts', card, Get(counts', card).value + 1);
  }


  /** The innermost loop of `summary`: count every card of one decklist. */
  method CountCards(allCards: Dict<nat>, ghost seen: seq<string>, cards: Decklist) returns (allCards': Dict<nat>)
    requires allCards == CensusOf(seen)
    ensures allCards' == CensusOf(seen + cards)
  {
    allCards' := allCards;
    assert seen + cards[..0] == seen;
    for l := 0 to |cards|
      invariant allCards' == CensusOf(seen + cards[..l])
    {
      var card := cards[l];
      allCards' := AddCard(allCards', card);
      CensusPrefix(seen, cards, l);
    }
    assert cards[..|cards|] == cards;
  }

  /** The deck loop of `summary`: count the cards of every deck of one type, and the decks. */
  method CountDecks(allCards: Dict<nat>, numDecks: nat, ghost seen: seq<string>, decks: Decks)
    returns (allCards': Dict<nat>, numDecks': nat)
    requires allCards == CensusOf(seen)
    ensures numDecks' == numDecks + |decks|
    ensures allCards' == CensusOf(seen + ConcatValues(decks))
  {
    allCards', numDecks' := allCards, numDecks;
    assert seen + ConcatValues(decks[..0]) == seen;
    for k := 0 to |decks|
      invariant numDecks' == numDecks + k
      invariant allCards' == CensusOf(seen + ConcatValues(decks[..k]))
    {
      allCards' := CountCards(allCards', seen + ConcatValues(decks[..k]), decks[k].1);
      numDecks' := numDecks' + 1;
      ConcatValuesSnoc(decks, k);
      Assoc(seen, ConcatValues(decks[..k]), decks[k].1);
    }
    assert decks[..|decks|] == decks;
  }

  /** The deck-type loop of `summary`: count every deck of one colour. */
  method CountTypes(allCards: Dict<nat>, numDecks: nat, ghost seen: seq<string>, types: DeckTypes)
    returns (allCards': Dict<nat>, numDecks': nat)
    requires allCards == CensusOf(seen)
    ensures numDecks' == numDecks + |ConcatValues(types)|
    ensures allCards' == CensusOf(seen + ConcatValues(ConcatValues(types)))
  {
    allCards', numDecks' := allCards, numDecks;
    assert seen + ConcatValues(ConcatValues(types[..0])) == seen;
    for j := 0 to |types|
      invariant numDecks' == numDecks + |ConcatValues(types[..j])|
      invariant allCards' == CensusOf(seen + ConcatValues(ConcatValues(types[..j])))
    {
      allCards', numDecks' := CountDecks(allCards', numDecks', seen + ConcatValues(ConcatValues(types[..j])), types[j].1);
      ConcatValuesSnoc(types, j);
      ConcatValuesAppend(ConcatValues(types[..j]), types[j].1);
      Assoc(seen, ConcatValues(ConcatValues(types[..j])), ConcatValues(types[j].1));
    }
    assert types[..|types|] == types;
  }

  /**
   * The counting loops of `summary`: `all_cards` counts every occurrence of
   * every card (copies and basic lands included) and `num_decks` counts the
   * deck entries of every colour and deck type.
   */
  method Census(cat: Catalogue) returns (allCards: Dict<nat>, numDecks: nat)
    ensures numDecks == |Entries(cat)|
    ensures allCards == CensusOf(AllCards(cat))
  {
    allCards, numDecks := [], 0;
    for i := 0 to |cat|
      invariant numDecks == |Entries(cat[..i])|
      invariant allCards == CensusOf(AllCards(cat[..i]))
    {
      allCards, numDecks := CountTypes(allCards, numDecks, AllCards(cat[..i]), cat[i].1);
      EntriesSnoc(cat, i);
      ConcatValuesAppend(Entries(cat[..i]), ConcatValues(cat[i].1));
    }
    assert cat[..|cat|] == cat;
  }

  /** The number of pairs of `counts` whose value is n, pair by pair in iteration order. */
  function CountValue(counts: Dict<nat>, n: nat): nat
  {
    if counts == [] then 0
    else CountValue(counts[..|counts| - 1], n) + (if counts[|counts| - 1].1 == n then 1 else 0)
  }

  /** The keys stored with value n. */
  ghost function KeysWithValue(counts: Dict<nat>, n: nat): set<string>
  {
    set c | c in Keys(counts) && Get(counts, c) == Some(n)
  }

  /** Taking the last pair into account adds its key when its value is n. */
  lemma KeysWithValueSnoc(counts: Dict<nat>, n: nat)
    requires counts != [] && counts[|counts| - 1].0 !in Keys(counts[..|counts| - 1])
    ensures var init, last := counts[..|counts| - 1], counts[|counts| - 1];
      KeysWithValue(counts, n) == KeysWithValue(init, n) + (if last.1 == n then {last.0} else {})
  {
    var init, last := counts[..|counts| - 1], counts[|counts| - 1];
    assert counts == init + [last];
    KeysSnoc(init, last);
    forall c | c in KeysWithValue(counts, n)
      ensures c in KeysWithValue(init, n) + (if last.1 == n then {last.0} else {})
    {
      GetSnoc(init, last, c);
    }
    forall c | c in KeysWithValue(init, n) + (if last.1 == n then {last.0} else {})
      ensures c in KeysWithValue(counts, n)
    {
      GetSnoc(init, last, c);
    }
  }

  /** With unique keys, CountValue counts the distinct keys stored with value n. */
  lemma {:induction false} CountValueKeys(counts: Dict<nat>, n: nat)
    requires UniqueKeys(counts)
    ensures CountValue(counts, n) == |KeysWithValue(counts, n)|
  {
    if counts != [] {
      var init, last := counts[..|counts| - 1], counts[|counts| - 1];
      UniqueInit(counts);
      CountValueKeys(init, n);
      KeysWithValueSnoc(counts, n);
      assert last.0 !in KeysWithValue(init, n);
    }
  }

  /**
   * The histogram loop of `summary`: for i from 1 to 10, `cur_representation`
   * counts the cards stored with count exactly i.
   */
  method Histogram(allCards: Dict<nat>) returns (featured: seq<nat>)
    ensures |featured| == 10
    ensures forall i :: 0 <= i < 10 ==> featured[i] == CountValue(allCards, i + 1)
  {
    featured := [];
    for i := 1 to 11
      invariant |featured| == i - 1
      invariant forall j :: 0 <= j < i - 1 ==> featured[j] == CountValue(allCards, j + 1)
    {
      var cur := 0;
      for m := 0 to |allCards|
        invariant cur == CountValue(allCards[..m], i)
      {
        assert allCards[..m + 1][..m] == allCards[..m];
        if allCards[m].1 == i {
          cur := cur + 1;
        }
      }
      assert allCards[..|allCards|] == allCards;
      featured := featured + [cur];
    }
  }

  /** The census of a card sequence holds, for each n, exactly the cards occurring n times. */
  lemma CensusFeatured(cards: seq<string>, n: nat)
    ensures CountValue(CensusOf(cards), n) == |set c | c in cards && multiset(cards)[c] == n|
  {
    var counts := CensusOf(cards);
    CensusUnique(cards);
    CensusCounts(cards);
    CountValueKeys(counts, n);
    forall c ensures (c in Keys(counts) && Get(counts, c) == Some(n)) <==> (c in cards && multiset(cards)[c] == n) {
      GetNone(counts, c);
    }
    assert (set c | c in Keys(counts) && Get(counts, c) == Some(n)) == (set c | c in cards && multiset(cards)[c] == n);
  }

  /**
   * `summary`: the card census, the deck count and the histogram of how many
   * cards are featured exactly 1..10 times, over every decklist of the catalogue.
   */
  method Summary(cat: Catalogue) returns (allCards: Dict<nat>, numDecks: nat, featured: seq<nat>)
    ensures numDecks == |Entries(cat)|
    ensures forall c :: Get(allCards, c) == if c in AllCards(cat) then Some(multiset(AllCards(cat))[c]) else None
    ensures UniqueKeys(allCards)
    ensures SumValues(allCards) == |AllCards(cat)|
    ensures |featured| == 10
    ensures forall i :: 0 <= i < 10 ==>
      featured[i] == |set c | c in AllCards(cat) && multiset(AllCards(cat))[c] == i + 1|
  {
    allCards, numDecks := Census(cat);
    featured := Histogram(allCards);
    CensusCounts(AllCards(cat));
    CensusUnique(AllCards(cat));
    CensusTotal(AllCards(cat));
    forall i | 0 <= i < 10
      ensures featured[i] == |set c | c in AllCards(cat) && multiset(AllCards(cat))[c] == i + 1|
    {
      CensusFeatured(AllCards(cat), i + 1);
    }
  }
}
