/**
 * The deterministic core of the cEDH decklist database scraper: URL
 * canonicalisation, the colour string of a deck, the choice of the decklist
 * platform, the expansion of the (quantity, card) records each platform's
 * parser extracts, and the insertion of every decklist into the nested
 * colour -> deck type -> deck name catalogue.
 */
module Scraper {
  import opened Wrappers
  import opened Dicts
  import opened Strings
  import opened Database
  import opened Seqs

  // ---------------------------------------------------------------------------
  // clean

  /** `url.split("?")[0]`: the part of the URL before its first `?`. */
  function BeforeQuery(url: string): string
  {
    Split(url, "?")[0]
  }

  /** `s.rstrip(c)` for one character c: s without its trailing run of c. */
  function RStrip(s: string, c: char): (r: string)
    ensures |r| <= |s| && r == s[..|r|]
    ensures r == [] || r[|r| - 1] != c
    ensures forall i :: |r| <= i < |s| ==> s[i] == c
  {
    if s == [] || s[|s| - 1] != c then s else RStrip(s[..|s| - 1], c)
  }

  /** `clean`: drop the query string and end the URL with exactly one `/`. */
  function Clean(url: string): string
  {
    RStrip(BeforeQuery(url), '/') + "/"
  }

  /**
   * The part before the query is a prefix of the URL without `?`, and it is
   * either the whole URL or followed by the first `?`.
   */
  lemma BeforeQueryShape(url: string)
    ensures var p := BeforeQuery(url);
      |p| <= |url| && p == url[..|p|] && '?' !in p && (|p| < |url| ==> url[|p|] == '?')
  {
    var r := Split(url, "?");
    var p := r[0];
    SplitFirstPrefix(url, "?");
    SplitPiecesFree(url, "?");
    assert p in r;
    forall i | 0 <= i < |p| ensures p[i] != '?' {
      assert p[i..i + 1] == [p[i]];
      assert !OccursAt(p, "?", i);
    }
    SplitJoin(url, "?");
    if |r| > 1 {
      assert r == [r[0]] + r[1..];
      JoinCons("?", r[0], r[1..]);
      assert url == p + "?" + Join("?", r[1..]);
      assert url[|p|] == (p + "?" + Join("?", r[1..]))[|p|];
    } else {
      assert Join("?", r) == p;
    }
  }

  /**
   * A clean URL holds no `?` and ends with exactly one `/`; without that `/`
   * it is the part before the query minus its trailing slashes.
   */
  lemma CleanShape(url: string)
    ensures var r := Clean(url); var p := BeforeQuery(url);
      '?' !in r && r[|r| - 1] == '/' && (|r| >= 2 ==> r[|r| - 2] != '/')
      && |r| - 1 <= |p| && r[..|r| - 1] == p[..|r| - 1]
      && (forall i :: |r| - 1 <= i < |p| ==> p[i] == '/')
  {
    var p := BeforeQuery(url);
    var stripped := RStrip(p, '/');
    var r := Clean(url);
    BeforeQueryShape(url);
    assert r[..|r| - 1] == stripped;
    forall i | 0 <= i < |r| ensures r[i] != '?' {
      if i < |stripped| {
        assert r[i] == p[i];
      }
    }
  }

  /** Cleaning a clean URL changes nothing. */
  lemma CleanIdempotent(url: string)
    ensures Clean(Clean(url)) == Clean(url)
  {
    var c := Clean(url);
    var stripped := RStrip(BeforeQuery(url), '/');
    CleanShape(url);
    forall i | 0 <= i <= |c| - 1 ensures !OccursAt(c, "?", i) {
      assert c[i..i + 1] == [c[i]];
    }
    SplitAbsent(c, "?");
    assert BeforeQuery(c) == c;
    assert c == stripped + "/";
    assert c[..|c| - 1] == stripped;
  }

  // ---------------------------------------------------------------------------
  // parse_color

  /** Python's `s[1:]`: s without its first character, empty for the empty string. */
  function Tail(s: string): string
  {
    if s == [] then [] else s[1..]
  }

  /**
   * The colour letters of a deck: the first class name of each colour icon
   * minus its first character, in order, leaving out those that give "x".
   */
  function ColorLetters(classes: seq<string>): string
  {
    if classes == [] then ""
    else
      var letter := Tail(classes[|classes| - 1]);
      ColorLetters(classes[..|classes| - 1]) + (if letter == "x" then "" else letter)
  }

  /** `parse_color` over the first class name of each colour icon. */
  method ParseColor(classes: seq<string>) returns (color: string)
    ensures ColorLetters(classes) == "" ==> color == "Colorless"
    ensures ColorLetters(classes) != "" ==> color == ColorLetters(classes)
  {
    var letters := "";
    for i := 0 to |classes|
      invariant letters == ColorLetters(classes[..i])
    {
      assert classes[..i + 1][..i] == classes[..i];
      var current := Tail(classes[i]);
      if current == "x" {
        continue;
      }
      letters := letters + current;
    }
    assert classes[..|classes|] == classes;
    if letters == "" {
      return "Colorless";
    }
    color := letters;
  }

  /** The colour letters of two runs of icons are the letters of each, one after the other. */
  lemma {:induction false} ColorLettersAppend(a: seq<string>, b: seq<string>)
    ensures ColorLetters(a + b) == ColorLetters(a) + ColorLetters(b)
    decreases |b|
  {
    if b == [] {
      assert a + b == a;
    } else {
      var init := b[..|b| - 1];
      var last := Tail(b[|b| - 1]);
      var piece := if last == "x" then "" else last;
      assert (a + b)[..|a + b| - 1] == a + init;
      assert (a + b)[|a + b| - 1] == b[|b| - 1];
      assert ColorLetters(a + b) == ColorLetters(a + init) + piece;
      assert ColorLetters(b) == ColorLetters(init) + piece;
      ColorLettersAppend(a, init);
      Assoc(ColorLetters(a), ColorLetters(init), piece);
    }
  }


  /** A deck is colourless exactly when every icon's class gives "x" or nothing. */
  lemma {:induction false} ColorlessIff(classes: seq<string>)
    ensures ColorLetters(classes) == "" <==> forall i :: 0 <= i < |classes| ==> Tail(classes[i]) in {"", "x"}
  {
    if classes != [] {
      var init := classes[..|classes| - 1];
      ColorlessIff(init);
      assert forall i :: 0 <= i < |init| ==> init[i] == classes[i];
    }
  }

  // ---------------------------------------------------------------------------
  // parse_decklist_platform

  /** The decklist sites with a parser; Deckbox has one that no table entry uses. */
  datatype Platform = Moxfield | TappedOut | Archidekt | Scryfall | Deckbox

  /** `DECKLIST_PLATFORM_PARSERS`, in its iteration order. */
  const Parsers: seq<(string, Platform)> :=
    [("moxfield", Moxfield), ("tappedout", TappedOut), ("archidekt", Archidekt), ("scryfall", Scryfall)]

  /** The platform of the first table entry whose name occurs in the URL. */
  function FirstMatch(table: seq<(string, Platform)>, url: string): Option<Platform>
  {
    if table == [] then None
    else if Contains(url, table[0].0) then Some(table[0].1)
    else FirstMatch(table[1..], url)
  }

  /**
   * The first match is found exactly when some entry's name occurs in the URL,
   * and it is the platform of an entry whose name occurs while no earlier
   * entry's name does.
   */
  lemma {:induction false} FirstMatchSpec(table: seq<(string, Platform)>, url: string)
    ensures FirstMatch(table, url).Some? <==> exists i :: 0 <= i < |table| && Contains(url, table[i].0)
    ensures FirstMatch(table, url).Some? ==>
      exists i :: 0 <= i < |table| && Contains(url, table[i].0) && table[i].1 == FirstMatch(table, url).value
        && forall j :: 0 <= j < i ==> !Contains(url, table[j].0)
  {
    if table != [] && !Contains(url, table[0].0) {
      FirstMatchSpec(table[1..], url);
      if FirstMatch(table, url).Some? {
        var i :| 0 <= i < |table[1..]| && Contains(url, table[1..][i].0) && table[1..][i].1 == FirstMatch(table, url).value
          && forall j :: 0 <= j < i ==> !Contains(url, table[1..][j].0);
        assert forall j :: 1 <= j < i + 1 ==> table[j] == table[1..][j - 1];
        assert Contains(url, table[i + 1].0);
      } else {
        forall i | 0 <= i < |table| ensures !Contains(url, table[i].0) {
          if i > 0 {
            assert table[i] == table[1..][i - 1];
          }
        }
      }
    }
  }

  /** The dispatch never picks Deckbox: no entry of the table names it. */
  lemma NeverDeckbox(url: string)
    ensures FirstMatch(Parsers, url) != Some(Deckbox)
  {
    FirstMatchSpec(Parsers, url);
  }

  /** The loop of `parse_decklist_platform`: the first platform whose name is in the URL. */
  method ChoosePlatform(url: string) returns (platform: Option<Platform>)
    ensures platform == FirstMatch(Parsers, url)
  {
    for i := 0 to |Parsers|
      invariant FirstMatch(Parsers, url) == FirstMatch(Parsers[i..], url)
    {
      assert Parsers[i..][1..] == Parsers[i + 1..];
      if Contains(url, Parsers[i].0) {
        return Some(Parsers[i].1);
      }
    }
    return None;
  }

  /**
   * The decklist a platform parser extracts from a URL. The parsers fetch the
   * page over the network, so their results are a parameter of the model.
   */
  type Fetch = (Platform, string) -> Decklist

  /** `parse_decklist_platform`: the chosen platform's decklist, or the empty one when none matches. */
  function DecklistOf(url: string, fetch: Fetch): Decklist
  {
    match FirstMatch(Parsers, url)
    case None => []
    case Some(p) => fetch(p, url)
  }

  method ParseDecklistPlatform(url: string, fetch: Fetch) returns (decklist: Decklist)
    ensures FirstMatch(Parsers, url).None? ==> decklist == []
    ensures FirstMatch(Parsers, url).Some? ==> decklist == fetch(FirstMatch(Parsers, url).value, url)
  {
    var platform := ChoosePlatform(url);
    if platform.None? {
      return [];
    }
    decklist := fetch(platform.value, url);
  }

  // ---------------------------------------------------------------------------
  // Quantity expansion in the platform parsers

  /** Python's `q * [name]`: q copies of name, none when q is not positive. */
  function Repeat(name: string, q: int): (r: seq<string>)
    ensures |r| == if q > 0 then q else 0
    ensures forall i :: 0 <= i < |r| ==> r[i] == name
    decreases q
  {
    if q <= 0 then [] else [name] + Repeat(name, q - 1)
  }

  /** The decklist of (card name, quantity) records: each name repeated its quantity times, in order. */
  function Expand(records: Dict<int>): seq<string>
  {
    if records == [] then []
    else
      var last := records[|records| - 1];
      Expand(records[..|records| - 1]) + Repeat(last.0, last.1)
  }

  /** The sum of the positive quantities. */
  function Total(records: Dict<int>): nat
  {
    if records == [] then 0
    else
      var last := records[|records| - 1];
      Total(records[..|records| - 1]) + (if last.1 > 0 then last.1 else 0)
  }

  /** The sum of the positive quantities of the records that name card x. */
  function Copies(records: Dict<int>, x: string): nat
  {
    if records == [] then 0
    else
      var last := records[|records| - 1];
      Copies(records[..|records| - 1], x) + (if last.0 == x && last.1 > 0 then last.1 else 0)
  }

  /** The expansion has one card per unit of positive quantity. */
  lemma {:induction false} ExpandLength(records: Dict<int>)
    ensures |Expand(records)| == Total(records)
  {
    if records != [] {
      ExpandLength(records[..|records| - 1]);
    }
  }

  lemma {:induction false} RepeatCount(name: string, q: int, x: string)
    ensures multiset(Repeat(name, q))[x] == if x == name && q > 0 then q else 0
    decreases q
  {
    if q > 0 {
      RepeatCount(name, q - 1, x);
      assert Repeat(name, q) == [name] + Repeat(name, q - 1);
    }
  }

  /** Each card occurs in the expansion as often as the positive quantities of its records add up to. */
  lemma {:induction false} ExpandCount(records: Dict<int>, x: string)
    ensures multiset(Expand(records))[x] == Copies(records, x)
  {
    if records != [] {
      var last := records[|records| - 1];
      ExpandCount(records[..|records| - 1], x);
      RepeatCount(last.0, last.1, x);
    }
  }

  /** Expanding two runs of records gives the two expansions one after the other. */
  lemma {:induction false} ExpandAppend(a: Dict<int>, b: Dict<int>)
    ensures Expand(a + b) == Expand(a) + Expand(b)
    decreases |b|
  {
    if b == [] {
      assert a + b == a;
    } else {
      var init := b[..|b| - 1];
      assert (a + b)[..|a + b| - 1] == a + init;
      ExpandAppend(a, init);
    }
  }

  /**
   * The (name, quantity) records of the cards a parser does not skip, in
   * order; skip and record stand for the per-platform tests and field reads.
   */
  function Kept<T>(cards: seq<T>, skip: T -> bool, record: T -> (string, int)): Dict<int>
  {
    if cards == [] then []
    else
      var last := cards[|cards| - 1];
      Kept(cards[..|cards| - 1], skip, record) + (if skip(last) then [] else [record(last)])
  }

  lemma {:induction false} KeptAppend<T>(a: seq<T>, b: seq<T>, skip: T -> bool, record: T -> (string, int))
    ensures Kept(a + b, skip, record) == Kept(a, skip, record) + Kept(b, skip, record)
    decreases |b|
  {
    if b == [] {
      assert a + b == a;
    } else {
      var init := b[..|b| - 1];
      assert (a + b)[..|a + b| - 1] == a + init;
      KeptAppend(a, init, skip, record);
    }
  }

  /** A skipped card contributes nothing wherever it occurs. */
  lemma SkippedIgnored<T>(a: seq<T>, m: T, b: seq<T>, skip: T -> bool, record: T -> (string, int))
    requires skip(m)
    ensures Expand(Kept(a + [m] + b, skip, record)) == Expand(Kept(a + b, skip, record))
  {
    KeptAppend(a + [m], b, skip, record);
    KeptAppend(a, [m], skip, record);
    KeptAppend(a, b, skip, record);
    assert [m][..0] == [];
    assert Kept([m], skip, record) == [];
    assert Kept(a, skip, record) + [] == Kept(a, skip, record);
  }

  /** One step of a parser loop: the kept records of a prefix one card longer. */
  lemma KeptStep<T>(cards: seq<T>, i: nat, skip: T -> bool, record: T -> (string, int))
    requires i < |cards|
    ensures Kept(cards[..i + 1], skip, record)
      == Kept(cards[..i], skip, record) + (if skip(cards[i]) then [] else [record(cards[i])])
  {
    assert cards[..i + 1][..i] == cards[..i];
  }

  lemma ExpandStep(records: Dict<int>, r: (string, int))
    ensures Expand(records + [r]) == Expand(records) + Repeat(r.0, r.1)
  {
    assert (records + [r])[..|records|] == records;
  }

  /** `parse_moxfield` after the API call: the mainboard expanded in dict order, then each commander once. */
  method ParseMoxfield(mainboard: Dict<int>, commanders: seq<string>) returns (decklist: Decklist)
    ensures decklist == Expand(mainboard) + commanders
  {
    decklist := [];
    for i := 0 to |mainboard|
      invariant decklist == Expand(mainboard[..i])
    {
      assert mainboard[..i + 1] == mainboard[..i] + [mainboard[i]];
      ExpandStep(mainboard[..i], mainboard[i]);
      decklist := decklist + Repeat(mainboard[i].0, mainboard[i].1);
    }
    assert mainboard[..|mainboard|] == mainboard;
    ghost var main := decklist;
    for j := 0 to |commanders|
      invariant decklist == main + commanders[..j]
    {
      assert commanders[..j + 1] == commanders[..j] + [commanders[j]];
      decklist := decklist + [commanders[j]];
    }
    assert commanders[..|commanders|] == commanders;
  }

  /** One card of an Archidekt deck as its API returns it. */
  datatype ArchidektCard = ArchidektCard(category: string, quantity: int, name: string)

  /** Archidekt's maybeboard test: the category lower-cases to "maybeboard". */
  predicate ArchidektSkip(card: ArchidektCard) {
    Lower(card.category) == "maybeboard"
  }

  function ArchidektRecord(card: ArchidektCard): (string, int) {
    (card.name, card.quantity)
  }

  /** `parse_archidekt` after the API call: every card outside the maybeboard, expanded. */
  method ParseArchidekt(cards: seq<ArchidektCard>) returns (decklist: Decklist)
    ensures decklist == Expand(Kept(cards, ArchidektSkip, ArchidektRecord))
  {
    decklist := [];
    for i := 0 to |cards|
      invariant decklist == Expand(Kept(cards[..i], ArchidektSkip, ArchidektRecord))
    {
      KeptStep(cards, i, ArchidektSkip, ArchidektRecord);
      if Lower(cards[i].category) == "maybeboard" {
        assert Kept(cards[..i], ArchidektSkip, ArchidektRecord) + [] == Kept(cards[..i], ArchidektSkip, ArchidektRecord);
        continue;
      }
      ExpandStep(Kept(cards[..i], ArchidektSkip, ArchidektRecord), ArchidektRecord(cards[i]));
      decklist := decklist + Repeat(cards[i].name, cards[i].quantity);
    }
    assert cards[..|cards|] == cards;
  }

  /** One `.boardlist .member` element of a TappedOut page: its id, quantity and card name. */
  datatype TappedOutCard = TappedOutCard(id: string, quantity: int, name: string)

  /** TappedOut's sideboard and maybeboard test on the lower-cased element id. */
  predicate TappedOutSkip(card: TappedOutCard) {
    Contains(Lower(card.id), "boardcontainer-side") || Contains(Lower(card.id), "boardcontainer-maybe")
  }

  function TappedOutRecord(card: TappedOutCard): (string, int) {
    (card.name, card.quantity)
  }

  /**
   * `parse_tappedout` after the page fetch: every card outside the side- and
   * maybeboards, expanded, then the commander names its extra requests return.
   */
  method ParseTappedOut(cards: seq<TappedOutCard>, commanders: seq<string>) returns (decklist: Decklist)
    ensures decklist == Expand(Kept(cards, TappedOutSkip, TappedOutRecord)) + commanders
  {
    decklist := [];
    for i := 0 to |cards|
      invariant decklist == Expand(Kept(cards[..i], TappedOutSkip, TappedOutRecord))
    {
      KeptStep(cards, i, TappedOutSkip, TappedOutRecord);
      var id := Lower(cards[i].id);
      if Contains(id, "boardcontainer-side") {
        assert Kept(cards[..i], TappedOutSkip, TappedOutRecord) + [] == Kept(cards[..i], TappedOutSkip, TappedOutRecord);
        continue;
      }
      if Contains(id, "boardcontainer-maybe") {
        assert Kept(cards[..i], TappedOutSkip, TappedOutRecord) + [] == Kept(cards[..i], TappedOutSkip, TappedOutRecord);
        continue;
      }
      ExpandStep(Kept(cards[..i], TappedOutSkip, TappedOutRecord), TappedOutRecord(cards[i]));
      decklist := decklist + Repeat(cards[i].name, cards[i].quantity);
    }
    assert cards[..|cards|] == cards;
    ghost var main := decklist;
    for j := 0 to |commanders|
      invariant decklist == main + commanders[..j]
    {
      assert commanders[..j + 1] == commanders[..j] + [commanders[j]];
      decklist := decklist + [commanders[j]];
    }
    assert commanders[..|commanders|] == commanders;
  }

  /** One `.deck-list-entry` of a Scryfall deck page: its count and the text of its name element. */
  datatype ScryfallEntry = ScryfallEntry(count: int, text: string)

  /** The card name of a Scryfall entry: the first line of the stripped name text. */
  function ScryfallName(text: string): (name: string)
    ensures '\n' !in name
  {
    var lines := Split(Strip(text), "\n");
    SplitPiecesFree(Strip(text), "\n");
    assert lines[0] in lines;
    NoCharIfAbsent(lines[0], '\n');
    lines[0]
  }

  /** A string that does not contain the one-character string [c] does not contain c. */
  lemma NoCharIfAbsent(s: string, c: char)
    requires !Contains(s, [c])
    ensures c !in s
  {
    forall i | 0 <= i < |s| ensures s[i] != c {
      assert s[i..i + 1] == [s[i]];
      assert !OccursAt(s, [c], i);
    }
  }

  predicate ScryfallSkip(entry: ScryfallEntry) {
    false
  }

  function ScryfallRecord(entry: ScryfallEntry): (string, int) {
    (ScryfallName(entry.text), entry.count)
  }

  /** `parse_scryfall` after the page fetch: every entry, expanded, under the first line of its name. */
  method ParseScryfall(entries: seq<ScryfallEntry>) returns (decklist: Decklist)
    ensures decklist == Expand(Kept(entries, ScryfallSkip, ScryfallRecord))
  {
    decklist := [];
    for i := 0 to |entries|
      invariant decklist == Expand(Kept(entries[..i], ScryfallSkip, ScryfallRecord))
    {
      KeptStep(entries, i, ScryfallSkip, ScryfallRecord);
      var name := Split(Strip(entries[i].text), "\n")[0];
      ExpandStep(Kept(entries[..i], ScryfallSkip, ScryfallRecord), ScryfallRecord(entries[i]));
      decklist := decklist + Repeat(name, entries[i].count);
    }
    assert entries[..|entries|] == entries;
  }

  /** A record is kept exactly when some card that is not skipped yields it. */
  lemma {:induction false} KeptMember<T>(cards: seq<T>, skip: T -> bool, record: T -> (string, int), r: (string, int))
    ensures r in Kept(cards, skip, record) <==> exists i :: 0 <= i < |cards| && !skip(cards[i]) && record(cards[i]) == r
  {
    if cards != [] {
      var init := cards[..|cards| - 1];
      KeptMember(init, skip, record, r);
      assert forall i :: 0 <= i < |init| ==> init[i] == cards[i];
    }
  }

  // ---------------------------------------------------------------------------
  // The master_json catalogue built by parse

  /**
   * `master_json[color][deck_type][name] = decklist`, after creating the colour
   * and deck-type levels that are missing as empty dicts.
   */
  function Store(master: Catalogue, color: string, deckType: string, name: string, decklist: Decklist): Catalogue
  {
    var types := Get(master, color).GetOr([]);
    var decks := Get(types, deckType).GetOr([]);
    Put(master, color, Put(types, deckType, Put(decks, name, decklist)))
  }

  /** The decklist filed under colour, deck type and deck name, if any. */
  function Lookup(master: Catalogue, color: string, deckType: string, name: string): Option<Decklist>
  {
    match Get(master, color)
    case None => None
    case Some(types) =>
      match Get(types, deckType)
      case None => None
      case Some(decks) => Get(decks, name)
  }

  /** The insertion in the loop of `parse`, level by level as Python performs it. */
  method Insert(master: Catalogue, color: string, deckType: string, name: string, decklist: Decklist)
    returns (master': Catalogue)
    ensures master' == Store(master, color, deckType, name, decklist)
  {
    master' := master;
    GetNone(master', color);
    if color !in Keys(master') {
      master' := Put(master', color, []);
    }
    var types := Get(master', color).value;
    GetNone(types, deckType);
    if deckType !in Keys(types) {
      types := Put(types, deckType, []);
      master' := Put(master', color, types);
    }
    var decks := Get(types, deckType).value;
    var filed := Put(types, deckType, Put(decks, name, decklist));
    PutPut(Get(master, color).GetOr([]), deckType, [], Put(decks, name, decklist));
    PutPut(master, color, [], filed);
    PutPut(master, color, types, filed);
    PutPut(Put(master, color, []), color, types, filed);
    master' := Put(master', color, filed);
  }

  /**
   * After an insertion the new decklist is filed under its colour, deck type
   * and name, the missing levels created, and every other path is unchanged.
   */
  lemma StoreLookup(master: Catalogue, color: string, deckType: string, name: string, decklist: Decklist,
                    c: string, t: string, n: string)
    ensures Lookup(Store(master, color, deckType, name, decklist), c, t, n)
      == if c == color && t == deckType && n == name then Some(decklist) else Lookup(master, c, t, n)
  {
  }

  /** Filing a second decklist under the same path overwrites the first: the last write wins. */
  lemma StoreTwice(master: Catalogue, color: string, deckType: string, name: string, first: Decklist, second: Decklist)
    ensures Store(Store(master, color, deckType, name, first), color, deckType, name, second)
      == Store(master, color, deckType, name, second)
  {
    var types := Get(master, color).GetOr([]);
    var decks := Get(types, deckType).GetOr([]);
    PutPut(decks, name, first, second);
    PutPut(types, deckType, Put(decks, name, first), Put(decks, name, second));
    PutPut(master, color, Put(types, deckType, Put(decks, name, first)), Put(types, deckType, Put(decks, name, second)));
  }

  /** Where `parse` files one decklist. */
  datatype Placement = Placement(color: string, deckType: string, name: string, decklist: Decklist)

  /** The insertions of a run of placements, in order. */
  function StoreAll(master: Catalogue, placements: seq<Placement>): Catalogue
  {
    if placements == [] then master
    else
      var p := placements[|placements| - 1];
      Store(StoreAll(master, placements[..|placements| - 1]), p.color, p.deckType, p.name, p.decklist)
  }

  lemma {:induction false} StoreAllAppend(master: Catalogue, a: seq<Placement>, b: seq<Placement>)
    ensures StoreAll(master, a + b) == StoreAll(StoreAll(master, a), b)
    decreases |b|
  {
    if b == [] {
      assert a + b == a;
    } else {
      var init := b[..|b| - 1];
      assert (a + b)[..|a + b| - 1] == a + init;
      StoreAllAppend(master, a, init);
    }
  }

  /** The decklist of the last placement on the given path, if any. */
  function LastPlacement(placements: seq<Placement>, c: string, t: string, n: string): Option<Decklist>
  {
    if placements == [] then None
    else
      var p := placements[|placements| - 1];
      if p.color == c && p.deckType == t && p.name == n then Some(p.decklist)
      else LastPlacement(placements[..|placements| - 1], c, t, n)
  }

  /**
   * After a run of insertions a path holds the decklist of the last placement
   * on it, and what it held before when no placement names it.
   */
  lemma {:induction false} StoreAllLookup(master: Catalogue, placements: seq<Placement>, c: string, t: string, n: string)
    ensures Lookup(StoreAll(master, placements), c, t, n)
      == match LastPlacement(placements, c, t, n)
         case Some(d) => Some(d)
         case None => Lookup(master, c, t, n)
  {
    if placements != [] {
      var p := placements[|placements| - 1];
      StoreAllLookup(master, placements[..|placements| - 1], c, t, n);
      StoreLookup(StoreAll(master, placements[..|placements| - 1]), p.color, p.deckType, p.name, p.decklist, c, t, n);
    }
  }

  /** One deck-type element of the database page: its colour icons' classes, its type and its decklist links. */
  datatype DeckElement = DeckElement(colorClasses: seq<string>, deckType: string, links: seq<DeckLink>)

  /** One decklist link: its text (the deck name) and its target. */
  datatype DeckLink = DeckLink(text: string, href: string)

  /** The colour string `parse_color` returns. */
  function ColorOf(classes: seq<string>): string
  {
    if ColorLetters(classes) == "" then "Colorless" else ColorLetters(classes)
  }

  /** The placements of the links of one element, in order. */
  function LinkPlacements(color: string, deckType: string, links: seq<DeckLink>, fetch: Fetch): seq<Placement>
  {
    if links == [] then []
    else
      var link := links[|links| - 1];
      LinkPlacements(color, deckType, links[..|links| - 1], fetch)
        + [Placement(color, deckType, Strip(link.text), DecklistOf(Clean(link.href), fetch))]
  }

  /** The placements of every link of every element, in page order. */
  function Placements(elements: seq<DeckElement>, fetch: Fetch): seq<Placement>
  {
    if elements == [] then []
    else
      var e := elements[|elements| - 1];
      Placements(elements[..|elements| - 1], fetch) + LinkPlacements(ColorOf(e.colorClasses), e.deckType, e.links, fetch)
  }

  lemma LinkPlacementsStep(color: string, deckType: string, links: seq<DeckLink>, i: nat, fetch: Fetch)
    requires i < |links|
    ensures LinkPlacements(color, deckType, links[..i + 1], fetch)
      == LinkPlacements(color, deckType, links[..i], fetch)
         + [Placement(color, deckType, Strip(links[i].text), DecklistOf(Clean(links[i].href), fetch))]
  {
    assert links[..i + 1][..i] == links[..i];
  }

  lemma StoreAllSnoc(master: Catalogue, placements: seq<Placement>, p: Placement)
    ensures StoreAll(master, placements + [p]) == Store(StoreAll(master, placements), p.color, p.deckType, p.name, p.decklist)
  {
    assert (placements + [p])[..|placements|] == placements;
  }

  /** The inner loop of `parse`: every link of one element filed under its colour and type. */
  method ParseLinks(master: Catalogue, color: string, deckType: string, links: seq<DeckLink>, fetch: Fetch)
    returns (master': Catalogue)
    ensures master' == StoreAll(master, LinkPlacements(color, deckType, links, fetch))
  {
    master' := master;
    for i := 0 to |links|
      invariant master' == StoreAll(master, LinkPlacements(color, deckType, links[..i], fetch))
    {
      var name := Strip(links[i].text);
      var decklist := ParseDecklistPlatform(Clean(links[i].href), fetch);
      LinkPlacementsStep(color, deckType, links, i, fetch);
      StoreAllSnoc(master, LinkPlacements(color, deckType, links[..i], fetch), Placement(color, deckType, name, decklist));
      master' := Insert(master', color, deckType, name, decklist);
    }
    assert links[..|links|] == links;
  }

  lemma PlacementsStep(elements: seq<DeckElement>, i: nat, fetch: Fetch)
    requires i < |elements|
    ensures Placements(elements[..i + 1], fetch)
      == Placements(elements[..i], fetch)
         + LinkPlacements(ColorOf(elements[i].colorClasses), elements[i].deckType, elements[i].links, fetch)
  {
    assert elements[..i + 1][..i] == elements[..i];
  }

  /**
   * `parse` after the page fetch: every decklist of every element filed under
   * its colour, deck type and name. The decklists come from fetch.
   */
  method Parse(elements: seq<DeckElement>, fetch: Fetch) returns (master: Catalogue)
    ensures master == StoreAll([], Placements(elements, fetch))
  {
    master := [];
    for i := 0 to |elements|
      invariant master == StoreAll([], Placements(elements[..i], fetch))
    {
      var color := ParseColor(elements[i].colorClasses);
      var deckType := elements[i].deckType;
      PlacementsStep(elements, i, fetch);
      StoreAllAppend([], Placements(elements[..i], fetch), LinkPlacements(color, deckType, elements[i].links, fetch));
      master := ParseLinks(master, color, deckType, elements[i].links, fetch);
    }
    assert elements[..|elements|] == elements;
  }

  /** Every path of the parsed catalogue holds the decklist of the last link placed on it, and nothing else is filed. */
  lemma ParseLookup(elements: seq<DeckElement>, fetch: Fetch, c: string, t: string, n: string)
    ensures Lookup(StoreAll([], Placements(elements, fetch)), c, t, n) == LastPlacement(Placements(elements, fetch), c, t, n)
  {
    StoreAllLookup([], Placements(elements, fetch), c, t, n);
  }
}
