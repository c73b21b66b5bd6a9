/**
 * The text handling of the web front end: `/fetch` turns a decklist into the
 * text box's "1 <card>" lines, and `/recommend` turns the text box back into a
 * list of card names before it calls the recommender.
 */
module App {
  import opened Strings
  import opened Database
  import opened Scraper

  // ---------------------------------------------------------------------------
  // fetch_decklist

  /** The text `fetch_decklist` sends back: one line "1 <card>" per card, each ending in a newline. */
  function Serialize(cards: Decklist): string
  {
    if cards == [] then ""
    else Serialize(cards[..|cards| - 1]) + ("1 " + cards[|cards| - 1] + "\n")
  }

  /**
   * `fetch_decklist`: the decklist of the URL, written one card per line. The
   * trailing newline stays, since the result of the final `strip` is discarded.
   */
  method FetchDecklist(url: string, fetch: Fetch) returns (text: string)
    ensures text == Serialize(DecklistOf(url, fetch))
  {
    var decklist := ParseDecklistPlatform(url, fetch);
    text := "";
    for i := 0 to |decklist|
      invariant text == Serialize(decklist[..i])
    {
      assert decklist[..i + 1][..i] == decklist[..i];
      text := text + ("1 " + decklist[i] + "\n");
    }
    assert decklist[..|decklist|] == decklist;
  }

  lemma {:induction false} SerializeCons(c: string, cards: Decklist)
    ensures Serialize([c] + cards) == ("1 " + c + "\n") + Serialize(cards)
    decreases |cards|
  {
    var all := [c] + cards;
    if cards == [] {
      assert all[..0] == [];
    } else {
      var init := cards[..|cards| - 1];
      assert all[..|all| - 1] == [c] + init;
      SerializeCons(c, init);
    }
  }

  /** The lines "1 <card>" of a decklist, without their newlines. */
  function Lines(cards: Decklist): (r: seq<string>)
    ensures |r| == |cards|
  {
    seq(|cards|, i requires 0 <= i < |cards| => "1 " + cards[i])
  }

  /** Splitting the serialised text on newlines gives back its lines, and a last empty piece after the final newline. */
  lemma {:induction false} SerializeSplit(cards: Decklist)
    requires forall i :: 0 <= i < |cards| ==> '\n' !in cards[i]
    ensures Split(Serialize(cards), "\n") == Lines(cards) + [""]
    decreases |cards|
  {
    if cards != [] {
      var c := cards[0];
      var rest := cards[1..];
      assert cards == [c] + rest;
      SerializeCons(c, rest);
      SerializeSplit(rest);
      var line := "1 " + c;
      forall i | 0 <= i < |line| ensures !OccursAt(line + "\n", "\n", i) {
        assert (line + "\n")[i..i + 1] == [line[i]];
        assert line[i] != '\n' by {
          if i >= 2 {
            assert line[i] == c[i - 2];
          }
        }
      }
      SplitFirst(line, "\n", Serialize(rest));
      assert Lines(cards) == [line] + Lines(rest);
    }
  }

  // ---------------------------------------------------------------------------
  // recommend_cards

  /** `" ".join(card.split()[1:])`: the tokens of a line after the first, joined by single spaces. */
  function CleanCard(line: string): string
  {
    var tokens := Tokens(line);
    if tokens == [] then "" else Join(" ", tokens[1..])
  }

  /** The cleaned card names of the lines, the empty lines skipped. */
  function Cleaned(lines: seq<string>): seq<string>
  {
    if lines == [] then []
    else
      var line := lines[|lines| - 1];
      Cleaned(lines[..|lines| - 1]) + (if line != "" then [CleanCard(line)] else [])
  }

  /** The loop of `recommend_cards` over the lines of the text box. */
  method CleanDecklist(decklist: string) returns (cleaned: seq<string>)
    ensures cleaned == Cleaned(Split(decklist, "\n"))
  {
    var lines := Split(decklist, "\n");
    cleaned := [];
    for i := 0 to |lines|
      invariant cleaned == Cleaned(lines[..i])
    {
      assert lines[..i + 1][..i] == lines[..i];
      if lines[i] != "" {
        cleaned := cleaned + [CleanCard(lines[i])];
      }
    }
    assert lines[..|lines|] == lines;
  }

  const NoDecklistMessage := "No decklist provided! Fetch via decklist URL or paste in above text box."

  /** The recommender, called with the cleaned names and the colour identity; it is not part of this model. */
  type Recommender = (seq<string>, string) -> string

  /**
   * `recommend_cards`: the fixed message when no card line is left after
   * cleaning, and otherwise what the recommender returns for the cleaned names.
   */
  method RecommendCards(decklist: string, identity: string, recommend: Recommender) returns (reply: string)
    ensures Cleaned(Split(decklist, "\n")) == [] ==> reply == NoDecklistMessage
    ensures Cleaned(Split(decklist, "\n")) != [] ==> reply == recommend(Cleaned(Split(decklist, "\n")), identity)
  {
    var cleaned := CleanDecklist(decklist);
    if cleaned == [] {
      reply := NoDecklistMessage;
    } else {
      reply := recommend(cleaned, identity);
    }
  }

  /** Nothing is left after cleaning exactly when every line is empty. */
  lemma {:induction false} CleanedEmpty(lines: seq<string>)
    ensures Cleaned(lines) == [] <==> forall i :: 0 <= i < |lines| ==> lines[i] == ""
  {
    if lines != [] {
      var init := lines[..|lines| - 1];
      CleanedEmpty(init);
      assert forall i :: 0 <= i < |init| ==> init[i] == lines[i];
    }
  }

  /** A line that is whitespace only, or a single token, still gives an entry: the empty name. */
  lemma CleanCardShort(line: string)
    requires |Tokens(line)| <= 1
    ensures CleanCard(line) == ""
  {
  }

  /** A whitespace-only line has no tokens, so it cleans to the empty name. */
  lemma CleanBlankLine(line: string)
    requires forall i :: 0 <= i < |line| ==> IsSpace(line[i])
    ensures CleanCard(line) == ""
  {
    TokensEmpty(line);
  }

  /** A name as the text box holds it: non-empty, its words separated by single spaces. */
  predicate SingleSpaced(name: string) {
    name != [] && !IsSpace(name[0]) && !IsSpace(name[|name| - 1])
    && forall i :: 0 <= i < |name| && IsSpace(name[i]) ==> name[i] == ' ' && !IsSpace(name[i + 1])
  }

  /** Joining the tokens of a single-spaced name gives the name back. */
  lemma {:induction false} JoinTokens(name: string)
    requires SingleSpaced(name)
    ensures Join(" ", Tokens(name)) == name
    decreases |name|
  {
    var w := Word(name);
    if |w| == |name| {
      assert w == name;
      assert TrimLeft(name) == name;
      assert name[|w|..] == [];
      assert Tokens(name) == [w];
    } else {
      var rest := name[|w| + 1..];
      assert name[|w|] == ' ';
      assert name == w + [' '] + rest;
      assert SingleSpaced(rest) by {
        forall i | 0 <= i < |rest| && IsSpace(rest[i]) ensures rest[i] == ' ' && !IsSpace(rest[i + 1]) {
          assert rest[i] == name[|w| + 1 + i];
        }
      }
      TokensFirst(w, ' ', rest);
      TokensSkipSpace(' ', rest);
      JoinTokens(rest);
      TokensEmpty(rest);
      JoinCons(" ", w, Tokens(rest));
    }
  }

  /** The quantity in front of a name is dropped, not used to repeat the card. */
  lemma CleanCardDropsQuantity(quantity: string, name: string)
    requires IsToken(quantity) && SingleSpaced(name)
    ensures CleanCard(quantity + " " + name) == name
  {
    TokensFirst(quantity, ' ', name);
    assert quantity + " " + name == quantity + [' '] + name;
    TokensSkipSpace(' ', name);
    JoinTokens(name);
    assert Tokens(quantity + " " + name)[1..] == Tokens(name);
  }

  /** Cleaning the "1 <card>" lines gives back the cards. */
  lemma {:induction false} CleanLines(cards: Decklist)
    requires forall i :: 0 <= i < |cards| ==> SingleSpaced(cards[i])
    ensures Cleaned(Lines(cards)) == cards
  {
    if cards != [] {
      var init := cards[..|cards| - 1];
      var last := cards[|cards| - 1];
      assert cards == init + [last];
      LinesSnoc(init, last);
      CleanedSnoc(Lines(init), "1 " + last);
      CleanLines(init);
      CleanOneLine(last);
    }
  }

  lemma LinesSnoc(cards: Decklist, card: string)
    ensures Lines(cards + [card]) == Lines(cards) + ["1 " + card]
  {
  }

  lemma CleanedSnoc(lines: seq<string>, line: string)
    requires line != ""
    ensures Cleaned(lines + [line]) == Cleaned(lines) + [CleanCard(line)]
  {
    assert (lines + [line])[..|lines|] == lines;
  }

  lemma CleanOneLine(card: string)
    requires SingleSpaced(card)
    ensures CleanCard("1 " + card) == card
  {
    CleanCardDropsQuantity("1", card);
    assert "1 " + card == "1" + " " + card;
  }

  /**
   * The text `/fetch` produces, cleaned by `/recommend`, gives back the
   * decklist when every card name is single-spaced.
   */
  lemma CleanSerialized(cards: Decklist)
    requires forall i :: 0 <= i < |cards| ==> SingleSpaced(cards[i])
    ensures Cleaned(Split(Serialize(cards), "\n")) == cards
  {
    forall i | 0 <= i < |cards| ensures '\n' !in cards[i] {
      if '\n' in cards[i] {
        var j :| 0 <= j < |cards[i]| && cards[i][j] == '\n';
        assert IsSpace(cards[i][j]);
      }
    }
    SerializeSplit(cards);
    CleanLines(cards);
    assert (Lines(cards) + [""])[..|cards|] == Lines(cards);
  }
}
