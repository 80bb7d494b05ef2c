/**
 * The callback data of the inline buttons of app/tarot/bot/tarot.py: each
 * button's data is a `"_"`-separated string that its handler splits with
 * `split("_")` and converts back with `int`.
 */
module TarotCallbacks {
  import opened Wrappers
  import opened Text

  /** `int(b)` */
  function BoolInt(b: bool): int {
    if b then 1 else 0
  }

  /** `[int(x) for x in parts]`; `None` when one of them raises. */
  function ParseAll(parts: seq<string>): (r: Option<seq<int>>)
    ensures r.Some? ==> |r.value| == |parts|
    decreases |parts|
  {
    if parts == [] then Some([])
    else match (ParseInt(parts[0]), ParseAll(parts[1..]))
      case (Some(v), Some(vs)) => Some([v] + vs)
      case _ => None
  }

  /** `str` of each number. */
  function Decimals(ns: seq<int>): (r: seq<string>)
    ensures |r| == |ns| && forall k :: 0 <= k < |ns| ==> r[k] == IntToString(ns[k])
  {
    seq(|ns|, k requires 0 <= k < |ns| => IntToString(ns[k]))
  }

  lemma {:induction false} ParseAllDecimals(ns: seq<int>)
    ensures ParseAll(Decimals(ns)) == Some(ns)
    decreases |ns|
  {
    if ns != [] {
      ParseAllDecimals(ns[1..]);
      DecimalsCons(ns);
      ParseAllCons(ns[0], Decimals(ns[1..]), ns[1..]);
      assert [ns[0]] + ns[1..] == ns;
    }
  }

  /** The decimals of a list are the first one's followed by the rest's. */
  lemma DecimalsCons(ns: seq<int>)
    requires ns != []
    ensures Decimals(ns) == [IntToString(ns[0])] + Decimals(ns[1..])
  {
  }

  /** A decimal followed by parts that parse is parsed as that number followed by theirs. */
  lemma ParseAllCons(n: int, parts: seq<string>, vs: seq<int>)
    requires ParseAll(parts) == Some(vs)
    ensures ParseAll([IntToString(n)] + parts) == Some([n] + vs)
  {
    ParseIntToString(n);
    assert ([IntToString(n)] + parts)[1..] == parts;
  }

  /** A character that no part and not the separator holds is not in the join. */
  lemma {:induction false} JoinAvoids(sep: string, parts: seq<string>, c: char)
    requires c !in sep && forall k :: 0 <= k < |parts| ==> c !in parts[k]
    ensures c !in Join(sep, parts)
    decreases |parts|
  {
    if |parts| > 1 {
      JoinAvoids(sep, parts[1..], c);
    }
  }

  /** `str(n)` holds none of the separators. */
  lemma DecimalsAvoid(ns: seq<int>)
    ensures forall k :: 0 <= k < |ns| ==> '_' !in Decimals(ns)[k] && '#' !in Decimals(ns)[k]
  {
    forall k | 0 <= k < |ns| ensures '_' !in Decimals(ns)[k] && '#' !in Decimals(ns)[k] {
      IntToStringChars(ns[k]);
    }
  }

  /** Four parts without `"_"` joined by `"_"` split back into themselves. */
  lemma SplitFour(a: string, b: string, c: string, d: string)
    requires '_' !in a && '_' !in b && '_' !in c && '_' !in d
    ensures Split(Join("_", [a, b, c, d]), '_') == [a, b, c, d]
  {
    SplitJoin([a, b, c, d], '_');
  }

  /** `str(int(b))` parses back to `int(b)`. */
  lemma BoolIntText(b: bool)
    ensures '_' !in IntToString(BoolInt(b)) && ParseInt(IntToString(BoolInt(b))) == Some(BoolInt(b))
  {
    IntToStringChars(BoolInt(b));
    ParseIntToString(BoolInt(b));
  }

  // ---------------------------------------------------------------------
  // more_

  /** `f"more_{deck.id}_{int(major)}_{int(flip)}"` */
  function MoreData(deckId: int, major: bool, flip: bool): string {
    Join("_", ["more", IntToString(deckId), IntToString(BoolInt(major)), IntToString(BoolInt(flip))])
  }

  datatype MoreArgs = MoreArgs(deckId: string, major: int, flip: int)

  /** `_, deck_id, major, flip = query.data.split("_")` and the two `int` calls; `None` is the `ValueError`. */
  function ParseMore(data: string): Option<MoreArgs> {
    var parts := Split(data, '_');
    if |parts| != 4 then None
    else match (ParseInt(parts[2]), ParseInt(parts[3]))
      case (Some(major), Some(flip)) => Some(MoreArgs(parts[1], major, flip))
      case _ => None
  }

  /** The "one more card" button hands its handler the deck and the two flags it was built from. */
  lemma MoreRoundTrip(deckId: int, major: bool, flip: bool)
    ensures ParseMore(MoreData(deckId, major, flip)) == Some(MoreArgs(IntToString(deckId), BoolInt(major), BoolInt(flip)))
    ensures ParseInt(IntToString(deckId)) == Some(deckId)
  {
    IntToStringChars(deckId);
    BoolIntText(major);
    BoolIntText(flip);
    SplitFour("more", IntToString(deckId), IntToString(BoolInt(major)), IntToString(BoolInt(flip)));
    ParseIntToString(deckId);
  }

  // ---------------------------------------------------------------------
  // deckspage_

  /** `f"deckspage_{page}_{deck_type}"` */
  function DecksPageData(page: int, deckType: string): string {
    Join("_", ["deckspage", IntToString(page), deckType])
  }

  /** `_, page_number, deck_type = query.data.split("_")` and `int(page_number)`. */
  function ParseDecksPage(data: string): Option<(int, string)> {
    var parts := Split(data, '_');
    if |parts| != 3 then None
    else match ParseInt(parts[1])
      case Some(page) => Some((page, parts[2]))
      case None => None
  }

  lemma DecksPageRoundTrip(page: int, deckType: string)
    requires '_' !in deckType
    ensures ParseDecksPage(DecksPageData(page, deckType)) == Some((page, deckType))
  {
    IntToStringChars(page);
    SplitJoin(["deckspage", IntToString(page), deckType], '_');
    ParseIntToString(page);
  }

  // ---------------------------------------------------------------------
  // futhark_

  /** `f"futhark_{rune.id}_{int(bool(inverted))}_{i + 1}"` */
  function FutharkData(runeId: int, inverted: bool, position: int): string {
    Join("_", ["futhark", IntToString(runeId), IntToString(BoolInt(inverted)), IntToString(position)])
  }

  datatype FutharkArgs = FutharkArgs(runeId: string, inverted: bool, position: int)

  /** `rune_id, inverted, position = callback_data.split("_")[1:]`, `bool(int(inverted))`, `int(position)`. */
  function ParseFuthark(data: string): Option<FutharkArgs> {
    var parts := Split(data, '_');
    if |parts| != 4 then None
    else match (ParseInt(parts[2]), ParseInt(parts[3]))
      case (Some(inverted), Some(position)) => Some(FutharkArgs(parts[1], inverted != 0, position))
      case _ => None
  }

  lemma FutharkRoundTrip(runeId: int, inverted: bool, position: int)
    ensures ParseFuthark(FutharkData(runeId, inverted, position)) == Some(FutharkArgs(IntToString(runeId), inverted, position))
  {
    IntToStringChars(runeId);
    IntToStringChars(position);
    BoolIntText(inverted);
    SplitFour("futhark", IntToString(runeId), IntToString(BoolInt(inverted)), IntToString(position));
    ParseIntToString(position);
  }

  // ---------------------------------------------------------------------
  // allcard_

  /** `f"allcard_{deck_id}_{card_index}"` */
  function AllcardData(deckId: int, index: int): string {
    Join("_", ["allcard", IntToString(deckId), IntToString(index)])
  }

  /** `_, deck_id, card_index = query.data.split("_")` and the two `int` calls. */
  function ParseAllcard(data: string): Option<(int, int)> {
    var parts := Split(data, '_');
    if |parts| != 3 then None
    else match (ParseInt(parts[1]), ParseInt(parts[2]))
      case (Some(deckId), Some(index)) => Some((deckId, index))
      case _ => None
  }

  lemma AllcardRoundTrip(deckId: int, index: int)
    ensures ParseAllcard(AllcardData(deckId, index)) == Some((deckId, index))
  {
    IntToStringChars(deckId);
    IntToStringChars(index);
    SplitJoin(["allcard", IntToString(deckId), IntToString(index)], '_');
    ParseIntToString(deckId);
    ParseIntToString(index);
  }

  // ---------------------------------------------------------------------
  // meaning_

  /** `"_".join(["meaning", meaning, str(card), "#".join(map(str, cards)), str(page)])` */
  function MeaningData(meaning: string, card: int, cards: seq<int>, page: int): string {
    Join("_", ["meaning", meaning, IntToString(card), Join("#", Decimals(cards)), IntToString(page)])
  }

  datatype MeaningArgs = MeaningArgs(meaning: string, card: int, cards: seq<int>, page: int)

  /**
   * `_, meaning_type, card_index, cards, page = query.data.split("_")`, then
   * `int(page)`, `int(card_index)` and `[int(i) for i in cards.split("#")]`.
   */
  function ParseMeaning(data: string): Option<MeaningArgs> {
    var parts := Split(data, '_');
    if |parts| != 5 then None
    else match (ParseInt(parts[4]), ParseInt(parts[2]), ParseAll(Split(parts[3], '#')))
      case (Some(page), Some(card), Some(cards)) => Some(MeaningArgs(parts[1], card, cards, page))
      case _ => None
  }

  /**
   * A pagination button hands its handler the meaning, the card position,
   * the whole list of cards and the page it was built from, provided the
   * meaning's id has no `"_"` and the list is not empty.
   */
  lemma MeaningRoundTrip(meaning: string, card: int, cards: seq<int>, page: int)
    requires '_' !in meaning && |cards| > 0
    ensures ParseMeaning(MeaningData(meaning, card, cards, page)) == Some(MeaningArgs(meaning, card, cards, page))
  {
    MeaningParts(meaning, card, cards, page);
    CardsSplit(cards);
    ParseAllDecimals(cards);
    ParseIntToString(card);
    ParseIntToString(page);
  }

  /** The five `"_"`-separated parts of a pagination button's data. */
  lemma MeaningParts(meaning: string, card: int, cards: seq<int>, page: int)
    requires '_' !in meaning
    ensures Split(MeaningData(meaning, card, cards, page), '_')
            == ["meaning", meaning, IntToString(card), Join("#", Decimals(cards)), IntToString(page)]
  {
    var ds := Decimals(cards);
    DecimalsAvoid(cards);
    JoinAvoids("#", ds, '_');
    IntToStringChars(card);
    IntToStringChars(page);
    SplitJoin(["meaning", meaning, IntToString(card), Join("#", ds), IntToString(page)], '_');
  }

  /** The `"#"`-joined card numbers split back into their decimals. */
  lemma CardsSplit(cards: seq<int>)
    requires |cards| > 0
    ensures Split(Join("#", Decimals(cards)), '#') == Decimals(cards)
  {
    DecimalsAvoid(cards);
    SplitJoin(Decimals(cards), '#');
  }

  /** Buttons for two different card positions carry different data. */
  lemma MeaningCardsDiffer(meaning: string, card: int, other: int, cards: seq<int>, page: int)
    requires '_' !in meaning && |cards| > 0 && card != other
    ensures MeaningData(meaning, card, cards, page) != MeaningData(meaning, other, cards, page)
  {
    MeaningRoundTrip(meaning, card, cards, page);
    MeaningRoundTrip(meaning, other, cards, page);
  }

  /** An empty list of cards does not parse back: `int("")` raises. */
  lemma MeaningEmptyCards(meaning: string, card: int, page: int)
    requires '_' !in meaning
    ensures ParseMeaning(MeaningData(meaning, card, [], page)) == None
  {
    var parts := ["meaning", meaning, IntToString(card), "", IntToString(page)];
    IntToStringChars(card);
    IntToStringChars(page);
    assert Join("#", Decimals([])) == "";
    SplitJoin(parts, '_');
    assert Split(MeaningData(meaning, card, [], page), '_') == parts;
    assert Split("", '#') == [""];
    assert ParseInt("") == None;
    assert ParseAll([""]) == None;
  }
}
