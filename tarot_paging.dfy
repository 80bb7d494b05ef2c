/**
 * Paging in app/tarot/bot/tarot.py: long meanings cut into chunks
 * (`split_text`), the keyboard under a page of a meaning
 * (`create_pagination_keyboard`), the list of decks thirteen to a page
 * (`make_decks_page`), and the buttons of the one-card-at-a-time view of a
 * deck (`make_only_card_message`).
 */
module TarotPaging {
  import opened Wrappers
  import opened Text
  import LinkHandling
  import TarotCallbacks
  import TarotCards

  datatype Button = Button(text: string, data: string)

  // ---------------------------------------------------------------------
  // split_text

  predicate NoEmptyLine(text: string) {
    var lines := Split(text, '\n');
    forall k :: 0 <= k < |lines| ==> lines[k] != ""
  }

  /** The chunks emitted so far followed by the one being built, if any. */
  function Pending(chunks: seq<string>, current: string): seq<string> {
    if current == "" then chunks else chunks + [current]
  }

  /**
   * `split_text(text, chunk_size)`: the lines of `text` gathered greedily
   * into chunks of at most `chunk_size` characters. No chunk is empty; a
   * chunk longer than `chunk_size` is a single line of the text; and when
   * the text has no empty line the chunks joined by line breaks give the
   * text back.
   */
  method SplitText(text: string, chunkSize: int) returns (chunks: seq<string>)
    ensures forall k :: 0 <= k < |chunks| ==> chunks[k] != ""
    ensures forall k :: 0 <= k < |chunks| && |chunks[k]| > chunkSize ==> chunks[k] in Split(text, '\n')
    ensures NoEmptyLine(text) ==> Join("\n", chunks) == text
  {
    var lines := Split(text, '\n');
    chunks := [];
    var current := "";
    for i := 0 to |lines|
      invariant forall k :: 0 <= k < |chunks| ==> chunks[k] != ""
      invariant forall k :: 0 <= k < |chunks| && |chunks[k]| > chunkSize ==> chunks[k] in lines
      invariant current != "" && |current| > chunkSize ==> current in lines
      invariant i == 0 ==> chunks == [] && current == ""
      invariant NoEmptyLine(text) ==> (i > 0 <==> current != "")
      invariant NoEmptyLine(text) ==> Join("\n", Pending(chunks, current)) == Join("\n", lines[..i])
    {
      var line := lines[i];
      assert lines[..i + 1] == lines[..i] + [line];
      if NoEmptyLine(text) && i > 0 {
        JoinSnoc("\n", lines[..i], line);
      }
      var needed := |line| + (if current != "" then 1 else 0);
      if |current| + needed > chunkSize {
        if current != "" {
          if NoEmptyLine(text) {
            JoinSnoc("\n", chunks + [current], line);
          }
          chunks := chunks + [current];
        }
        current := line;
      } else {
        if current != "" {
          JoinExtendLast("\n", chunks, current, line);
          current := current + "\n" + line;
        } else {
          current := line;
        }
      }
    }
    assert lines[..|lines|] == lines;
    if current != "" {
      chunks := chunks + [current];
    }
    JoinSplit(text, '\n');
  }

  // ---------------------------------------------------------------------
  // create_pagination_keyboard

  /** A meaning category of a card: its id as text (`"base"` for the base meaning) and its name. */
  datatype Meaning = Meaning(id: string, name: string)

  const BaseMeaning: Meaning := Meaning("base", "Базовый")

  const BackText: string := "← Назад"
  const ForwardText: string := "Вперед →"

  /** The position of the first meaning with this id. */
  function MeaningIndexFrom(ms: seq<Meaning>, id: string, from: nat): (r: Option<nat>)
    requires from <= |ms|
    ensures r.Some? ==> from <= r.value < |ms| && ms[r.value].id == id
    ensures r.Some? ==> forall j :: from <= j < r.value ==> ms[j].id != id
    ensures r.None? ==> forall j :: from <= j < |ms| ==> ms[j].id != id
    decreases |ms| - from
  {
    if from == |ms| then None
    else if ms[from].id == id then Some(from)
    else MeaningIndexFrom(ms, id, from + 1)
  }

  /** `current_idx`: the position of the current meaning, or 0 when it is not in the list. */
  function CurrentIndex(ms: seq<Meaning>, id: string): (i: nat)
    requires |ms| > 0
    ensures i < |ms|
    ensures (exists j :: 0 <= j < |ms| && ms[j].id == id) ==> ms[i].id == id && forall j :: 0 <= j < i ==> ms[j].id != id
    ensures (forall j :: 0 <= j < |ms| ==> ms[j].id != id) ==> i == 0
  {
    match MeaningIndexFrom(ms, id, 0)
    case None => 0
    case Some(i) => i
  }

  /** The row of Back and Forward: Back when there is an earlier page, Forward when there is a later one. */
  function PagedRow(meaningType: string, card: int, cards: seq<int>, page: int, totalPages: int): seq<Button> {
    (if page > 1 then [Button(BackText, TarotCallbacks.MeaningData(meaningType, card, cards, page - 1))] else [])
    + (if page < totalPages then [Button(ForwardText, TarotCallbacks.MeaningData(meaningType, card, cards, page + 1))] else [])
  }

  /** The two neighbouring meanings in the sorted list, wrapping around at both ends, each at page 1. */
  function MeaningRow(ms: seq<Meaning>, meaningType: string, card: int, cards: seq<int>): seq<Button>
    requires |ms| > 0
  {
    var i := CurrentIndex(ms, meaningType);
    var prev := ms[(i - 1) % |ms|];
    var next := ms[(i + 1) % |ms|];
    [Button(prev.name, TarotCallbacks.MeaningData(prev.id, card, cards, 1)),
     Button(next.name, TarotCallbacks.MeaningData(next.id, card, cards, 1))]
  }

  /**
   * As written, the previous-card button needs `card_prev` to be truthy, so
   * position 0 never gets one even though it is a card; `intended` shows it
   * whenever there is an earlier card.
   */
  predicate PrevCardShown(card: int, intended: bool) {
    card > 0 && (intended || card - 1 != 0)
  }

  /** The next-card index `card + 1` is shown when it exists and is truthy. */
  predicate NextCardShown(card: int, count: nat) {
    card < count - 1 && card + 1 != 0
  }

  /**
   * The row of neighbouring cards, each opening its base meaning at page 1;
   * none for a single card. `None` stands for a card whose name lookup
   * raises.
   */
  function CardsRow(card: int, cards: seq<int>, names: map<int, string>, intended: bool): Option<seq<Button>> {
    if |cards| <= 1 then Some([])
    else
      var prev := if PrevCardShown(card, intended) then PyIndex(cards, card - 1) else None;
      var next := if NextCardShown(card, |cards|) then PyIndex(cards, card + 1) else None;
      if prev.Some? && prev.value !in names then None
      else if next.Some? && next.value !in names then None
      else
        Some((if prev.Some? then [Button("← " + names[prev.value], TarotCallbacks.MeaningData("base", card - 1, cards, 1))] else [])
             + (if next.Some? then [Button(names[next.value] + " →", TarotCallbacks.MeaningData("base", card + 1, cards, 1))] else []))
  }

  /**
   * `create_pagination_keyboard(meaning_type, current_card, total_cards,
   * current_page, total_pages)`. `ms` is the card's meanings with the base
   * one, sorted by name; `names` maps card numbers to names. `None` is the
   * `None` returned when anything raises.
   */
  function PaginationKeyboard(meaningType: string, card: int, cards: seq<int>, page: int, totalPages: int,
                              ms: seq<Meaning>, names: map<int, string>, intended: bool): Option<seq<seq<Button>>>
    requires BaseMeaning in ms
  {
    if PyIndex(cards, card).None? then None
    else
      var paged := PagedRow(meaningType, card, cards, page, totalPages);
      match CardsRow(card, cards, names, intended)
      case None => None
      case Some(row) =>
        Some((if paged == [] then [] else [paged]) + [MeaningRow(ms, meaningType, card, cards)] + (if row == [] then [] else [row]))
  }

  /**
   * The keyboard is built exactly when the current card is a position of
   * the list (counting from the end for a negative one) and the
   * neighbouring cards' names are found.
   */
  lemma KeyboardBuilt(meaningType: string, card: int, cards: seq<int>, page: int, totalPages: int,
                      ms: seq<Meaning>, names: map<int, string>, intended: bool)
    requires BaseMeaning in ms
    ensures !(-|cards| <= card < |cards|) ==> PaginationKeyboard(meaningType, card, cards, page, totalPages, ms, names, intended) == None
    ensures -|cards| <= card < |cards| && (forall k :: 0 <= k < |cards| ==> cards[k] in names) ==>
      PaginationKeyboard(meaningType, card, cards, page, totalPages, ms, names, intended).Some?
  {
  }

  /**
   * Back appears exactly when `page > 1` and Forward exactly when
   * `page < total_pages`; they keep the meaning and the card and lead to
   * the neighbouring pages, which exist when the current page does.
   */
  lemma PagedButtons(meaningType: string, card: int, cards: seq<int>, page: int, totalPages: int)
    ensures var row := PagedRow(meaningType, card, cards, page, totalPages);
      |row| == (if page > 1 then 1 else 0) + (if page < totalPages then 1 else 0)
      && (page > 1 ==> row[0] == Button(BackText, TarotCallbacks.MeaningData(meaningType, card, cards, page - 1)))
      && (page < totalPages ==> row[|row| - 1] == Button(ForwardText, TarotCallbacks.MeaningData(meaningType, card, cards, page + 1)))
    ensures 1 <= page <= totalPages ==>
      var row := PagedRow(meaningType, card, cards, page, totalPages);
      forall k :: 0 <= k < |row| ==> exists p :: 1 <= p <= totalPages && row[k].data == TarotCallbacks.MeaningData(meaningType, card, cards, p)
  {
    var row := PagedRow(meaningType, card, cards, page, totalPages);
    if 1 <= page <= totalPages {
      forall k | 0 <= k < |row|
        ensures exists p :: 1 <= p <= totalPages && row[k].data == TarotCallbacks.MeaningData(meaningType, card, cards, p)
      {
        if page > 1 && k == 0 {
          assert row[k].data == TarotCallbacks.MeaningData(meaningType, card, cards, page - 1);
        } else {
          assert row[k].data == TarotCallbacks.MeaningData(meaningType, card, cards, page + 1);
        }
      }
    }
  }

  /** Stepping one place around a ring of `n` positions, as `%` does for Python. */
  lemma RingStep(i: int, n: int)
    requires 0 <= i < n
    ensures (i - 1) % n == (if i == 0 then n - 1 else i - 1)
    ensures (i + 1) % n == (if i == n - 1 then 0 else i + 1)
  {
  }

  /**
   * The meaning buttons name the meanings before and after the current one,
   * wrapping around; an unknown meaning counts as the first, so they name
   * the last and the second meaning.
   */
  lemma MeaningButtons(ms: seq<Meaning>, meaningType: string, card: int, cards: seq<int>)
    requires |ms| > 0
    ensures var row := MeaningRow(ms, meaningType, card, cards);
      var i := CurrentIndex(ms, meaningType);
      |row| == 2
      && row[0].text == ms[if i == 0 then |ms| - 1 else i - 1].name
      && row[1].text == ms[if i == |ms| - 1 then 0 else i + 1].name
    ensures (forall j :: 0 <= j < |ms| ==> ms[j].id != meaningType) ==>
      var row := MeaningRow(ms, meaningType, card, cards);
      row[0].text == ms[|ms| - 1].name && row[1].text == ms[1 % |ms|].name
  {
    var i := CurrentIndex(ms, meaningType);
    RingStep(i, |ms|);
  }

  /**
   * As written, a card gets a previous-card button only from position 2 on,
   * and a next-card button exactly when a later card exists; the buttons
   * lead to the neighbouring positions.
   */
  lemma CardButtonsAsWritten(card: int, cards: seq<int>, names: map<int, string>)
    requires 0 <= card < |cards| && |cards| > 1 && forall k :: 0 <= k < |cards| ==> cards[k] in names
    ensures var row := CardsRow(card, cards, names, false);
      row.Some?
      && |row.value| == (if card >= 2 then 1 else 0) + (if card < |cards| - 1 then 1 else 0)
      && (card >= 2 ==> row.value[0] == Button("← " + names[cards[card - 1]], TarotCallbacks.MeaningData("base", card - 1, cards, 1)))
      && (card < |cards| - 1 ==> row.value[|row.value| - 1] == Button(names[cards[card + 1]] + " →", TarotCallbacks.MeaningData("base", card + 1, cards, 1)))
  {
  }

  /** With the fix, every card after the first gets a previous-card button. */
  lemma CardButtonsIntended(card: int, cards: seq<int>, names: map<int, string>)
    requires 0 <= card < |cards| && |cards| > 1 && forall k :: 0 <= k < |cards| ==> cards[k] in names
    ensures var row := CardsRow(card, cards, names, true);
      row.Some?
      && |row.value| == (if card >= 1 then 1 else 0) + (if card < |cards| - 1 then 1 else 0)
      && (card >= 1 ==> row.value[0] == Button("← " + names[cards[card - 1]], TarotCallbacks.MeaningData("base", card - 1, cards, 1)))
      && (card < |cards| - 1 ==> row.value[|row.value| - 1] == Button(names[cards[card + 1]] + " →", TarotCallbacks.MeaningData("base", card + 1, cards, 1)))
  {
  }

  /**
   * The second card of a spread of two or more has no way back to the
   * first as written; with the fix it has.
   */
  lemma SecondCardHasNoBack(cards: seq<int>, names: map<int, string>)
    requires |cards| > 1 && forall k :: 0 <= k < |cards| ==> cards[k] in names
    ensures forall b :: b in CardsRow(1, cards, names, false).value ==> b.data != TarotCallbacks.MeaningData("base", 0, cards, 1)
    ensures Button("← " + names[cards[0]], TarotCallbacks.MeaningData("base", 0, cards, 1)) in CardsRow(1, cards, names, true).value
  {
    var row := CardsRow(1, cards, names, false).value;
    if |cards| > 2 {
      assert row == [Button(names[cards[2]] + " →", TarotCallbacks.MeaningData("base", 2, cards, 1))];
      TarotCallbacks.MeaningCardsDiffer("base", 2, 0, cards, 1);
    } else {
      assert row == [];
    }
  }

  // ---------------------------------------------------------------------
  // make_decks_page

  datatype Deck = Deck(id: int, name: string)

  datatype DecksPage = DecksPage(text: string, buttons: seq<Button>)

  const PerPage: nat := 13
  const DecksBackText: string := "⬅️ Назад"
  const DecksForwardText: string := "➡️ Вперед"

  /**
   * `[all_decks[i : i + 13] for i in range(0, count, 13)]`: pages that
   * concatenate back to the decks, none empty, all but the last full.
   */
  function DecksPages(decks: seq<Deck>): (pages: seq<seq<Deck>>)
    ensures LinkHandling.Flatten(pages) == decks
    ensures forall k :: 0 <= k < |pages| ==> 0 < |pages[k]| <= PerPage
    ensures forall k :: 0 <= k < |pages| - 1 ==> |pages[k]| == PerPage
    ensures |pages| == (|decks| + PerPage - 1) / PerPage
    decreases |decks|
  {
    if decks == [] then []
    else if |decks| <= PerPage then [decks]
    else
      var rest := DecksPages(decks[PerPage..]);
      assert decks[..PerPage] + decks[PerPage..] == decks;
      [decks[..PerPage]] + rest
  }

  /** One line of the list: the command that draws from the deck, then its name. */
  function DeckLine(command: string, d: Deck): string {
    Concat(["<code>/", command, " deck ", IntToString(d.id), "</code> - ", d.name])
  }

  function DecksButtons(page: int, count: nat, deckType: string): seq<Button> {
    (if page > 0 then [Button(DecksBackText, TarotCallbacks.DecksPageData(page - 1, deckType))] else [])
    + (if page < count - 1 then [Button(DecksForwardText, TarotCallbacks.DecksPageData(page + 1, deckType))] else [])
  }

  /**
   * `make_decks_page(current_page, 13, deck_type)` over the decks of each
   * kind ordered by id. `None` stands for the `ValueError` of an unknown
   * kind and the `IndexError` of a list without decks.
   */
  function MakeDecksPage(page: int, deckType: string, tarot: seq<Deck>, oraculum: seq<Deck>): Option<DecksPage> {
    if deckType != "oraculum" && deckType != "tarot" then None
    else
      var decks := if deckType == "oraculum" then oraculum else tarot;
      var pages := DecksPages(decks);
      var p := if page >= |pages| then 0 else page;
      match PyIndex(pages, p)
      case None => None
      case Some(shown) =>
        var command := if deckType == "oraculum" then "oraculum" else "card";
        Some(DecksPage(Join("\n", seq(|shown|, k requires 0 <= k < |shown| => DeckLine(command, shown[k]))),
                       DecksButtons(p, |pages|, deckType)))
  }

  /** An unknown kind of deck, or no deck of the kind, raises. */
  lemma DecksPageFails(page: int, deckType: string, tarot: seq<Deck>, oraculum: seq<Deck>)
    ensures deckType != "oraculum" && deckType != "tarot" ==> MakeDecksPage(page, deckType, tarot, oraculum) == None
    ensures deckType == "tarot" && tarot == [] ==> MakeDecksPage(page, deckType, tarot, oraculum) == None
    ensures deckType == "oraculum" && oraculum == [] ==> MakeDecksPage(page, deckType, tarot, oraculum) == None
  {
  }

  /** A page past the last one shows the first page. */
  lemma DecksPageReset(page: int, deckType: string, tarot: seq<Deck>, oraculum: seq<Deck>)
    requires page >= |DecksPages(if deckType == "oraculum" then oraculum else tarot)|
    ensures MakeDecksPage(page, deckType, tarot, oraculum) == MakeDecksPage(0, deckType, tarot, oraculum)
  {
  }

  /**
   * A page that exists is shown as it is: its decks one per line, Back
   * exactly when there is an earlier page and Forward exactly when there is
   * a later one, each carrying that neighbouring page and the same kind.
   */
  lemma DecksPageShown(page: int, deckType: string, tarot: seq<Deck>, oraculum: seq<Deck>)
    requires deckType == "oraculum" || deckType == "tarot"
    requires 0 <= page < |DecksPages(if deckType == "oraculum" then oraculum else tarot)|
    ensures var pages := DecksPages(if deckType == "oraculum" then oraculum else tarot);
      var command := if deckType == "oraculum" then "oraculum" else "card";
      var r := MakeDecksPage(page, deckType, tarot, oraculum);
      r.Some?
      && r.value.text == Join("\n", seq(|pages[page]|, k requires 0 <= k < |pages[page]| => DeckLine(command, pages[page][k])))
      && r.value.buttons == DecksButtons(page, |pages|, deckType)
  {
  }

  /**
   * Back appears exactly when `page > 0` and Forward exactly when
   * `page < count - 1`; both lead to pages that exist.
   */
  lemma DecksNavigation(page: int, count: nat, deckType: string)
    requires 0 <= page < count
    ensures var buttons := DecksButtons(page, count, deckType);
      |buttons| == (if page > 0 then 1 else 0) + (if page < count - 1 then 1 else 0)
      && (page > 0 ==> buttons[0] == Button(DecksBackText, TarotCallbacks.DecksPageData(page - 1, deckType)) && 0 <= page - 1)
      && (page < count - 1 ==> buttons[|buttons| - 1] == Button(DecksForwardText, TarotCallbacks.DecksPageData(page + 1, deckType)) && page + 1 < count)
  {
  }

  // ---------------------------------------------------------------------
  // make_only_card_message

  /** The buttons under one card of the all-cards view of a deck holding `count` cards. */
  function OnlyCardButtons(deckId: int, index: int, count: int): seq<Button> {
    (if index > 0 then [Button(DecksBackText, TarotCallbacks.AllcardData(deckId, index - 1))] else [])
    + (if index < count - 1 then [Button(DecksForwardText, TarotCallbacks.AllcardData(deckId, index + 1))] else [])
  }

  /** `make_only_card_message(card, deck_id, card_index)`: the caption without reversal, and the buttons. */
  function OnlyCardMessage(card: TarotCards.CardView, deckId: int, index: int, count: int): (string, seq<Button>) {
    (TarotCards.FormatCardName(card, false), OnlyCardButtons(deckId, index, count))
  }

  /**
   * Back appears exactly when `index > 0` and Forward exactly when
   * `index < count - 1`, each carrying the same deck and the neighbouring
   * index.
   */
  lemma OnlyCardNavigation(deckId: int, index: int, count: int)
    ensures var buttons := OnlyCardButtons(deckId, index, count);
      |buttons| == (if index > 0 then 1 else 0) + (if index < count - 1 then 1 else 0)
      && (index > 0 ==> buttons[0] == Button(DecksBackText, TarotCallbacks.AllcardData(deckId, index - 1)))
      && (index < count - 1 ==> buttons[|buttons| - 1] == Button(DecksForwardText, TarotCallbacks.AllcardData(deckId, index + 1)))
  {
  }

  /** The caption of the all-cards view never marks the card reversed. */
  lemma OnlyCardCaption(card: TarotCards.CardView, deckId: int, index: int, count: int)
    ensures OnlyCardMessage(card, deckId, index, count).0
      == card.name + (match card.instance
                      case TarotItem => ""
                      case OraculumItem(description, _, direct) => "\n" + description + " " + direct)
  {
    TarotCards.FormatCardNameLines(card, false);
  }
}
