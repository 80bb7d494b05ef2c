/**
 * Drawing tarot cards in app/tarot/bot/tarot.py: the selection rules of
 * `get_cards`, the caption of `format_card_name`, and the per-user lists of
 * cards already drawn (`user_exclude_cards`) that the "one more card"
 * button extends.
 */
module TarotCards {
  import opened Wrappers
  import opened Text
  import TarotOptions

  /** A card of one deck (`TarotCardItem` with its `TarotCard`). */
  datatype DeckCard = DeckCard(cardId: string, isMajor: bool, name: string, imgId: string)

  /** One entry of `get_cards`' result. */
  datatype Drawn = Drawn(card: DeckCard, flipped: bool)

  /** Why `get_cards` raised; both surface as a `RuntimeError`. */
  datatype CardsError = DeckMissing | TooFewCards(available: nat, required: nat)

  datatype CardsResult = Cards(cards: seq<Drawn>) | Failed(error: CardsError)

  predicate Distinct<T(==)>(s: seq<T>) {
    forall i, j :: 0 <= i < j < |s| ==> s[i] != s[j]
  }

  function IdsOf(cards: seq<DeckCard>): (ids: seq<string>)
    ensures |ids| == |cards| && forall k :: 0 <= k < |cards| ==> ids[k] == cards[k].cardId
  {
    seq(|cards|, k requires 0 <= k < |cards| => cards[k].cardId)
  }

  // ---------------------------------------------------------------------
  // List filtering

  /** `[x for x in s if (x in t) == inside]` */
  function Filter(s: seq<string>, t: set<string>, inside: bool): (r: seq<string>)
    ensures |r| <= |s|
    ensures forall x :: x in r <==> x in s && (x in t) == inside
    decreases |s|
  {
    if s == [] then []
    else (if (s[0] in t) == inside then [s[0]] else []) + Filter(s[1..], t, inside)
  }

  lemma {:induction false} FilterDistinct(s: seq<string>, t: set<string>, inside: bool)
    requires Distinct(s)
    ensures Distinct(Filter(s, t, inside))
    decreases |s|
  {
    if s != [] {
      FilterDistinct(s[1..], t, inside);
      assert s[0] !in s[1..] by {
        forall k | 0 <= k < |s[1..]| ensures s[1..][k] != s[0] {
          assert s[1..][k] == s[k + 1];
        }
      }
    }
  }

  /** `[card for card in cards if card.tarot_card.is_major]`, in query order. */
  function Majors(cards: seq<DeckCard>): (m: seq<DeckCard>)
    ensures forall c :: c in m <==> c in cards && c.isMajor
    decreases |cards|
  {
    if cards == [] then [] else (if cards[0].isMajor then [cards[0]] else []) + Majors(cards[1..])
  }

  /** The position of the first `x` in `s`. */
  function FirstIndex(s: seq<string>, x: string): (i: nat)
    requires x in s
    ensures i < |s| && s[i] == x && forall j :: 0 <= j < i ==> s[j] != x
    decreases |s|
  {
    if s[0] == x then 0 else 1 + FirstIndex(s[1..], x)
  }

  /** The elements of `s` are in the order of their first occurrence in `ids`. */
  predicate FirstOccurrenceOrder(s: seq<string>, ids: seq<string>)
    requires forall x :: x in s ==> x in ids
  {
    forall i, j :: 0 <= i < j < |s| ==> FirstIndex(ids, s[i]) < FirstIndex(ids, s[j])
  }

  /** `list(dict.fromkeys(s))`: each element once, at its first occurrence. */
  function Dedup(s: seq<string>): (d: seq<string>)
    ensures Distinct(d)
    ensures forall x :: x in d <==> x in s
    decreases |s|
  {
    if s == [] then []
    else
      var p := Dedup(s[..|s| - 1]);
      var x := s[|s| - 1];
      assert s == s[..|s| - 1] + [x];
      if x in p then p else p + [x]
  }

  lemma FirstIndexSnoc(p: seq<string>, x: string, y: string)
    requires y in p
    ensures FirstIndex(p + [x], y) == FirstIndex(p, y)
  {
    var i := FirstIndex(p, y);
    var k := FirstIndex(p + [x], y);
    assert (p + [x])[i] == y;
  }

  lemma {:induction false} DedupOrder(s: seq<string>)
    ensures FirstOccurrenceOrder(Dedup(s), s)
    decreases |s|
  {
    if s != [] {
      var p := s[..|s| - 1];
      var x := s[|s| - 1];
      assert s == p + [x];
      DedupOrder(p);
      var dp := Dedup(p);
      if x in dp {
        OrderExtend(dp, p, x);
      } else {
        OrderAppendNew(dp, p, x);
      }
    }
  }

  /** A later occurrence does not move the first ones. */
  lemma OrderExtend(d: seq<string>, p: seq<string>, x: string)
    requires forall y :: y in d ==> y in p
    requires FirstOccurrenceOrder(d, p)
    ensures FirstOccurrenceOrder(d, p + [x])
  {
    forall y | y in d ensures FirstIndex(p + [x], y) == FirstIndex(p, y) {
      FirstIndexSnoc(p, x, y);
    }
  }

  /** A new element first occurs after all the others. */
  lemma OrderAppendNew(d: seq<string>, p: seq<string>, x: string)
    requires forall y :: y in d ==> y in p
    requires FirstOccurrenceOrder(d, p) && x !in p
    ensures FirstOccurrenceOrder(d + [x], p + [x])
  {
    OrderExtend(d, p, x);
    var s := p + [x];
    assert FirstIndex(s, x) == |p| by {
      assert forall j :: 0 <= j < |p| ==> s[j] == p[j];
    }
    var e := d + [x];
    forall i, j | 0 <= i < j < |e| ensures FirstIndex(s, e[i]) < FirstIndex(s, e[j]) {
      assert e[i] == d[i];
      if j < |d| {
        assert e[j] == d[j];
      }
    }
  }

  lemma {:induction false} FilterOrder(s: seq<string>, t: set<string>, inside: bool, ids: seq<string>)
    requires forall x :: x in s ==> x in ids
    requires FirstOccurrenceOrder(s, ids)
    ensures FirstOccurrenceOrder(Filter(s, t, inside), ids)
    decreases |s|
  {
    if s != [] {
      var rest := s[1..];
      assert FirstOccurrenceOrder(rest, ids) by {
        forall i, j | 0 <= i < j < |rest| ensures FirstIndex(ids, rest[i]) < FirstIndex(ids, rest[j]) {
          assert rest[i] == s[i + 1] && rest[j] == s[j + 1];
        }
      }
      FilterOrder(rest, t, inside, ids);
      var f := Filter(s, t, inside);
      if (s[0] in t) == inside {
        var fr := Filter(rest, t, inside);
        assert f == [s[0]] + fr;
        forall i, j | 0 <= i < j < |f| ensures FirstIndex(ids, f[i]) < FirstIndex(ids, f[j]) {
          if i == 0 {
            assert f[j] == fr[j - 1] && fr[j - 1] in rest;
            var m :| 0 <= m < |rest| && rest[m] == f[j];
            assert s[m + 1] == f[j];
          } else {
            assert f[i] == fr[i - 1] && f[j] == fr[j - 1];
          }
        }
      }
    }
  }

  // ---------------------------------------------------------------------
  // get_cards

  /** The cards of the deck the query ranges over: only the major arcana when asked and no card number is given. */
  function Base(deck: seq<DeckCard>, major: bool, cardIds: seq<string>): seq<DeckCard> {
    if major && |cardIds| == 0 then Majors(deck) else deck
  }

  /** The requested cards that the query finds, each once, in the order first requested. */
  function ManualIds(deck: seq<DeckCard>, major: bool, cardIds: seq<string>): seq<string> {
    Filter(Dedup(cardIds), set x | x in IdsOf(Base(deck, major, cardIds)), true)
  }

  /** `max(0, counter - len(manual_cards))` */
  function Remaining(deck: seq<DeckCard>, counter: nat, major: bool, cardIds: seq<string>): nat {
    var m := |ManualIds(deck, major, cardIds)|;
    if counter <= m then 0 else counter - m
  }

  /** `available_ids`: the query's cards that are neither excluded nor already requested. */
  function Available(deck: seq<DeckCard>, major: bool, cardIds: seq<string>, exclude: seq<string>): seq<string> {
    var all := Filter(IdsOf(Base(deck, major, cardIds)), set x | x in exclude, false);
    Filter(all, set x | x in ManualIds(deck, major, cardIds), false)
  }

  /** What `random.sample(available, k)` may return when `available` has no repeats. */
  predicate IsSample(picks: seq<string>, available: seq<string>, k: nat) {
    |picks| == k && Distinct(picks) && forall x :: x in picks ==> x in available
  }

  /** The card of the query with this number (`base_query.aget(tarot_card__card_id=cid)`). */
  function Lookup(cards: seq<DeckCard>, id: string): (c: DeckCard)
    requires id in IdsOf(cards)
    ensures c in cards && c.cardId == id
    decreases |cards|
  {
    if cards[0].cardId == id then cards[0]
    else
      assert id in IdsOf(cards[1..]) by {
        var k :| 0 <= k < |cards| && IdsOf(cards)[k] == id;
        assert IdsOf(cards[1..])[k - 1] == id;
      }
      Lookup(cards[1..], id)
  }

  /** The numbers of the chosen cards: the requested ones, then the random ones, cut to `counter`. */
  function ChosenIds(deck: seq<DeckCard>, counter: nat, major: bool, cardIds: seq<string>, picks: seq<string>): seq<string> {
    Take(ManualIds(deck, major, cardIds) + picks, counter)
  }

  /**
   * `get_cards(deck_id, counter, card_ids, major, exclude_cards)`. A `None`
   * list of numbers or of exclusions is the empty list; `picks` is what
   * `random.sample` returned and `flips` what the per-card `random.choice`
   * returned.
   */
  function GetCards(deckExists: bool, deck: seq<DeckCard>, counter: nat, cardIds: seq<string>, major: bool,
                    exclude: seq<string>, picks: seq<string>, flips: seq<bool>): (r: CardsResult)
    requires Distinct(IdsOf(deck))
    requires |Available(deck, major, cardIds, exclude)| >= Remaining(deck, counter, major, cardIds) ==>
      IsSample(picks, Available(deck, major, cardIds, exclude), Remaining(deck, counter, major, cardIds))
    requires |flips| >= counter
  {
    var available := Available(deck, major, cardIds, exclude);
    var remaining := Remaining(deck, counter, major, cardIds);
    if !deckExists then Failed(DeckMissing)
    else if |available| < remaining then Failed(TooFewCards(|available|, remaining))
    else
      var base := Base(deck, major, cardIds);
      var ids := ChosenIds(deck, counter, major, cardIds, picks);
      assert forall k :: 0 <= k < |ids| ==> ids[k] in IdsOf(base) by {
        forall k | 0 <= k < |ids| ensures ids[k] in IdsOf(base) {
          var m := ManualIds(deck, major, cardIds);
          assert ids[k] in m + picks;
        }
      }
      Cards(seq(|ids|, k requires 0 <= k < |ids| => Drawn(Lookup(base, ids[k]), flips[k])))
  }

  /** `get_cards` raises exactly when the deck is missing or too few cards are left to draw from. */
  lemma GetCardsFails(deckExists: bool, deck: seq<DeckCard>, counter: nat, cardIds: seq<string>, major: bool,
                      exclude: seq<string>, picks: seq<string>, flips: seq<bool>)
    requires Distinct(IdsOf(deck))
    requires |Available(deck, major, cardIds, exclude)| >= Remaining(deck, counter, major, cardIds) ==>
      IsSample(picks, Available(deck, major, cardIds, exclude), Remaining(deck, counter, major, cardIds))
    requires |flips| >= counter
    ensures var r := GetCards(deckExists, deck, counter, cardIds, major, exclude, picks, flips);
      (r == Failed(DeckMissing) <==> !deckExists)
      && (r.Failed? && r.error.TooFewCards? <==>
          deckExists && |Available(deck, major, cardIds, exclude)| < Remaining(deck, counter, major, cardIds))
  {
  }

  /**
   * On success there are exactly `counter` cards: the requested ones that
   * exist, in the order first requested, then random ones, and no card
   * appears twice.
   */
  lemma {:induction false} GetCardsChosen(deckExists: bool, deck: seq<DeckCard>, counter: nat, cardIds: seq<string>, major: bool,
                                          exclude: seq<string>, picks: seq<string>, flips: seq<bool>)
    requires Distinct(IdsOf(deck))
    requires |Available(deck, major, cardIds, exclude)| >= Remaining(deck, counter, major, cardIds) ==>
      IsSample(picks, Available(deck, major, cardIds, exclude), Remaining(deck, counter, major, cardIds))
    requires |flips| >= counter
    ensures var r := GetCards(deckExists, deck, counter, cardIds, major, exclude, picks, flips);
      var m := ManualIds(deck, major, cardIds);
      r.Cards? ==>
        |r.cards| == counter
        && Distinct(IdsOf(seq(|r.cards|, k requires 0 <= k < |r.cards| => r.cards[k].card)))
        && (forall k :: 0 <= k < |r.cards| && k < |m| ==> r.cards[k].card.cardId == m[k])
        && (forall k :: 0 <= k < |r.cards| ==> r.cards[k].flipped == flips[k])
  {
    var r := GetCards(deckExists, deck, counter, cardIds, major, exclude, picks, flips);
    if r.Cards? {
      var m := ManualIds(deck, major, cardIds);
      var available := Available(deck, major, cardIds, exclude);
      var ids := ChosenIds(deck, counter, major, cardIds, picks);
      DedupDistinctFiltered(deck, major, cardIds);
      assert Distinct(m + picks) by {
        forall i, j | 0 <= i < j < |m + picks| ensures (m + picks)[i] != (m + picks)[j] {
          if j >= |m| && i < |m| {
            assert (m + picks)[j] == picks[j - |m|] && picks[j - |m|] in available;
          } else if i >= |m| {
            assert (m + picks)[i] == picks[i - |m|] && (m + picks)[j] == picks[j - |m|];
          }
        }
      }
      var cs := seq(|r.cards|, k requires 0 <= k < |r.cards| => r.cards[k].card);
      assert IdsOf(cs) == ids;
    }
  }

  lemma DedupDistinctFiltered(deck: seq<DeckCard>, major: bool, cardIds: seq<string>)
    ensures Distinct(ManualIds(deck, major, cardIds))
  {
    FilterDistinct(Dedup(cardIds), set x | x in IdsOf(Base(deck, major, cardIds)), true);
  }

  /**
   * The requested cards that are drawn are exactly the requested numbers the
   * query finds, each once, in the order of their first request.
   */
  lemma ManualIdsMeaning(deck: seq<DeckCard>, major: bool, cardIds: seq<string>)
    ensures var m := ManualIds(deck, major, cardIds);
      Distinct(m)
      && (forall x :: x in m <==> x in cardIds && x in IdsOf(Base(deck, major, cardIds)))
      && FirstOccurrenceOrder(m, cardIds)
  {
    DedupDistinctFiltered(deck, major, cardIds);
    DedupOrder(cardIds);
    FilterOrder(Dedup(cardIds), set x | x in IdsOf(Base(deck, major, cardIds)), true, cardIds);
  }

  /**
   * Every drawn card is a card of the deck; a random one is neither
   * excluded nor requested; with the major filter on, all are major arcana.
   */
  lemma GetCardsRandomPicks(deckExists: bool, deck: seq<DeckCard>, counter: nat, cardIds: seq<string>, major: bool,
                            exclude: seq<string>, picks: seq<string>, flips: seq<bool>)
    requires Distinct(IdsOf(deck))
    requires |Available(deck, major, cardIds, exclude)| >= Remaining(deck, counter, major, cardIds) ==>
      IsSample(picks, Available(deck, major, cardIds, exclude), Remaining(deck, counter, major, cardIds))
    requires |flips| >= counter
    ensures var r := GetCards(deckExists, deck, counter, cardIds, major, exclude, picks, flips);
      var m := ManualIds(deck, major, cardIds);
      r.Cards? ==>
        (forall k :: 0 <= k < |r.cards| ==> r.cards[k].card in deck)
        && (forall k :: |m| <= k < |r.cards| ==> r.cards[k].card.cardId !in exclude && r.cards[k].card.cardId !in cardIds)
        && (major && cardIds == [] ==> forall k :: 0 <= k < |r.cards| ==> r.cards[k].card.isMajor)
  {
    var r := GetCards(deckExists, deck, counter, cardIds, major, exclude, picks, flips);
    if r.Cards? {
      var m := ManualIds(deck, major, cardIds);
      var available := Available(deck, major, cardIds, exclude);
      var ids := ChosenIds(deck, counter, major, cardIds, picks);
      forall k | |m| <= k < |r.cards| ensures r.cards[k].card.cardId !in exclude && r.cards[k].card.cardId !in cardIds {
        assert ids[k] == picks[k - |m|] && ids[k] in available;
        assert r.cards[k].card.cardId == ids[k];
      }
    }
  }

  /** With card numbers given, the major flag changes nothing. */
  lemma MajorIgnoredWithIds(deckExists: bool, deck: seq<DeckCard>, counter: nat, cardIds: seq<string>,
                            exclude: seq<string>, picks: seq<string>, flips: seq<bool>)
    requires cardIds != []
    requires Distinct(IdsOf(deck))
    requires |Available(deck, true, cardIds, exclude)| >= Remaining(deck, counter, true, cardIds) ==>
      IsSample(picks, Available(deck, true, cardIds, exclude), Remaining(deck, counter, true, cardIds))
    requires |flips| >= counter
    ensures GetCards(deckExists, deck, counter, cardIds, true, exclude, picks, flips)
         == GetCards(deckExists, deck, counter, cardIds, false, exclude, picks, flips)
  {
  }

  // ---------------------------------------------------------------------
  // format_card_name

  datatype Instance = TarotItem | OraculumItem(description: string, inverted: string, direct: string)

  /** The fields of a drawn card that `format_card_name` reads. */
  datatype CardView = CardView(name: string, flipped: bool, instance: Instance)

  const Reversed: string := "Перевернуто"

  function View(d: Drawn): CardView {
    CardView(d.card.name, d.flipped, TarotItem)
  }

  /** `[str(item) for item in parts if item is not None]` */
  function Present(parts: seq<Option<string>>): (r: seq<string>)
    ensures |r| <= |parts|
    decreases |parts|
  {
    if parts == [] then []
    else (if parts[0].Some? then [parts[0].value] else []) + Present(parts[1..])
  }

  function AsList(o: Option<string>): seq<string> {
    if o.Some? then [o.value] else []
  }

  lemma PresentThree(p: seq<Option<string>>)
    requires |p| == 3
    ensures Present(p) == AsList(p[0]) + AsList(p[1]) + AsList(p[2])
  {
    var q := p[1..];
    var r := q[1..];
    assert r[1..] == [];
    assert Present(r) == AsList(r[0]);
    assert Present(q) == AsList(q[0]) + Present(r);
    assert Present(p) == AsList(p[0]) + Present(q);
  }

  /** The name, the reversal mark, and for an oracle card its description with the matching reading. */
  function Parts(c: CardView, flip: bool): seq<Option<string>> {
    var reversed := flip && c.flipped;
    [Some(c.name),
     if reversed then Some(Reversed) else None,
     match c.instance
     case TarotItem => None
     case OraculumItem(description, inverted, direct) => Some(description + " " + (if reversed then inverted else direct))]
  }

  function FormatCardName(c: CardView, flip: bool): string {
    Join("\n", Present(Parts(c, flip)))
  }

  /**
   * The caption is the name, then the line "Перевернуто" when reversals are
   * on and the card came out reversed, then for an oracle card the line of
   * its description and the reading that matches the orientation.
   */
  lemma FormatCardNameLines(c: CardView, flip: bool)
    ensures var reversed := flip && c.flipped;
      FormatCardName(c, flip)
      == c.name + (if reversed then "\n" + Reversed else "")
         + (match c.instance
            case TarotItem => ""
            case OraculumItem(description, inverted, direct) => "\n" + description + " " + (if reversed then inverted else direct))
  {
    if c.instance.TarotItem? {
      TarotNameLines(c, flip);
    } else {
      OracleNameLines(c, flip);
    }
  }

  lemma TarotNameLines(c: CardView, flip: bool)
    requires c.instance.TarotItem?
    ensures FormatCardName(c, flip) == c.name + (if flip && c.flipped then "\n" + Reversed else "")
  {
    var p := Parts(c, flip);
    PresentThree(p);
    if flip && c.flipped {
      assert Present(p) == [c.name, Reversed];
      JoinTwo("\n", [c.name, Reversed]);
    } else {
      assert Present(p) == [c.name];
    }
  }

  lemma OracleNameLines(c: CardView, flip: bool)
    requires c.instance.OraculumItem?
    ensures var reversed := flip && c.flipped;
      var i := c.instance;
      FormatCardName(c, flip)
      == c.name + (if reversed then "\n" + Reversed else "")
         + ("\n" + i.description + " " + (if reversed then i.inverted else i.direct))
  {
    var p := Parts(c, flip);
    PresentThree(p);
    var i := c.instance;
    var reversed := flip && c.flipped;
    var last := i.description + " " + (if reversed then i.inverted else i.direct);
    assert "\n" + i.description + " " + (if reversed then i.inverted else i.direct) == "\n" + last;
    if reversed {
      assert Present(p) == [c.name, Reversed, last];
      JoinThree("\n", [c.name, Reversed, last]);
      AppendAssoc(c.name, "\n" + Reversed, "\n" + last);
      AppendAssoc("\n", Reversed, "\n" + last);
      AppendAssoc(Reversed, "\n", last);
    } else {
      assert Present(p) == [c.name, last];
      JoinTwo("\n", [c.name, last]);
    }
  }

  /** A tarot card's caption is its name, followed by "Перевернуто" exactly when it is shown reversed. */
  lemma TarotCaption(d: Drawn, flip: bool)
    ensures FormatCardName(View(d), flip) == d.card.name + (if flip && d.flipped then "\n" + Reversed else "")
  {
    FormatCardNameLines(View(d), flip);
  }

  /**
   * When no field holds a line break, the line "Перевернуто" appears after
   * the name exactly when reversals are on and the card came out reversed:
   * the description line always holds a space and so is never that line.
   */
  lemma ReversedLineIff(c: CardView, flip: bool)
    requires '\n' !in c.name
    requires c.instance.OraculumItem? ==>
      '\n' !in c.instance.description && '\n' !in c.instance.inverted && '\n' !in c.instance.direct
    ensures Reversed in Split(FormatCardName(c, flip), '\n')[1..] <==> flip && c.flipped
  {
    var parts := Present(Parts(c, flip));
    var reversed := flip && c.flipped;
    PresentThree(Parts(c, flip));
    assert '\n' !in Reversed;
    match c.instance
    case TarotItem =>
      if reversed {
        assert parts == [c.name, Reversed];
      } else {
        assert parts == [c.name];
      }
      SplitJoin(parts, '\n');
    case OraculumItem(description, inverted, direct) =>
      var last := description + " " + (if reversed then inverted else direct);
      assert last[|description|] == ' ';
      assert ' ' !in Reversed;
      assert last != Reversed;
      assert '\n' !in last;
      if reversed {
        assert parts == [c.name, Reversed, last];
      } else {
        assert parts == [c.name, last];
      }
      SplitJoin(parts, '\n');
  }

  // ---------------------------------------------------------------------
  // The module dictionaries `user_exclude_cards` and `reading_ids`

  /** `str(card_id)` for each number that `handle_card` parsed. */
  function RequestedIds(ids: Option<seq<nat>>): (r: seq<string>)
    ensures ids.None? ==> r == []
    ensures ids.Some? ==> |r| == |ids.value|
  {
    match ids
    case None => []
    case Some(s) => seq(|s|, k requires 0 <= k < |s| => IntToString(s[k]))
  }

  function Get(m: map<int, seq<string>>, user: int): seq<string> {
    if user in m then m[user] else []
  }

  class TarotSession {
    /**
     * `user_exclude_cards`: the cards drawn so far in each user's current
     * reading, keyed by the Telegram user id (`update.effective_user.id`).
     */
    var excludeCards: map<int, seq<string>>
    /**
     * `reading_ids`: the message that started each user's current reading,
     * keyed by the primary key of the `TgUser` row (`user.id`), not by the
     * Telegram id. One key serves both maps here because `save_reading`
     * fetches the row with `aget_or_create(tg_id=...)` (app/tarot/bot/tarot.py:114), which
     * pairs each `TgUser` primary key with exactly one Telegram id.
     */
    var readingIds: map<int, int>

    ghost predicate Valid()
      reads this
    {
      forall u :: u in excludeCards ==> Distinct(excludeCards[u])
    }

    constructor ()
      ensures Valid() && excludeCards == map[] && readingIds == map[]
    {
      excludeCards := map[];
      readingIds := map[];
    }

    /** `save_reading` remembers the message that started the reading. */
    method SaveReading(user: int, messageId: int)
      modifies this
      ensures readingIds == old(readingIds)[user := messageId] && excludeCards == old(excludeCards)
    {
      readingIds := readingIds[user := messageId];
    }

    /**
     * `handle_card`: draw the cards the options ask for; once the reading is
     * saved (`saved`), the drawn cards become the user's exclusion list.
     */
    method DrawReading(user: int, messageId: int, options: TarotOptions.CardOptions, deckExists: bool,
                       deck: seq<DeckCard>, picks: seq<string>, flips: seq<bool>, saved: bool)
      returns (r: CardsResult)
      requires Valid() && Distinct(IdsOf(deck))
      requires var ids := RequestedIds(options.cardIds);
        |Available(deck, options.major, ids, [])| >= Remaining(deck, options.counter, options.major, ids) ==>
        IsSample(picks, Available(deck, options.major, ids, []), Remaining(deck, options.counter, options.major, ids))
      requires |flips| >= options.counter
      modifies this
      ensures Valid()
      ensures r == GetCards(deckExists, deck, options.counter, RequestedIds(options.cardIds), options.major, [], picks, flips)
      ensures r.Cards? && saved ==>
        excludeCards == old(excludeCards)[user := seq(|r.cards|, k requires 0 <= k < |r.cards| => r.cards[k].card.cardId)]
        && readingIds == old(readingIds)[user := messageId]
      ensures !(r.Cards? && saved) ==> excludeCards == old(excludeCards)
    {
      var ids := RequestedIds(options.cardIds);
      r := GetCards(deckExists, deck, options.counter, ids, options.major, [], picks, flips);
      if r.Cards? && saved {
        GetCardsChosen(deckExists, deck, options.counter, ids, options.major, [], picks, flips);
        var cs := seq(|r.cards|, k requires 0 <= k < |r.cards| => r.cards[k].card);
        var drawn := seq(|r.cards|, k requires 0 <= k < |r.cards| => r.cards[k].card.cardId);
        assert drawn == IdsOf(cs);
        SaveReading(user, messageId);
        excludeCards := excludeCards[user := drawn];
      }
    }

    /**
     * `handle_more_button`: one more card of the same deck, avoiding every
     * card of the reading so far; once saved it joins the exclusion list.
     * The new card is never one already drawn.
     */
    method DrawMore(user: int, deckExists: bool, deck: seq<DeckCard>, major: bool, picks: seq<string>,
                    flips: seq<bool>, saved: bool)
      returns (r: CardsResult)
      requires Valid() && Distinct(IdsOf(deck))
      requires |Available(deck, major, [], Get(excludeCards, user))| >= Remaining(deck, 1, major, []) ==>
        IsSample(picks, Available(deck, major, [], Get(excludeCards, user)), Remaining(deck, 1, major, []))
      requires |flips| >= 1
      modifies this
      ensures Valid() && readingIds == old(readingIds)
      ensures r == GetCards(deckExists, deck, 1, [], major, Get(old(excludeCards), user), picks, flips)
      ensures r.Cards? ==> |r.cards| == 1 && r.cards[0].card.cardId !in Get(old(excludeCards), user)
      ensures r.Cards? && saved ==>
        excludeCards == old(excludeCards)[user := Get(old(excludeCards), user) + [r.cards[0].card.cardId]]
      ensures !(r.Cards? && saved) ==> excludeCards == old(excludeCards)
    {
      var exclude := Get(excludeCards, user);
      r := GetCards(deckExists, deck, 1, [], major, exclude, picks, flips);
      GetCardsChosen(deckExists, deck, 1, [], major, exclude, picks, flips);
      GetCardsRandomPicks(deckExists, deck, 1, [], major, exclude, picks, flips);
      if r.Cards? {
        assert ManualIds(deck, major, []) == [];
      }
      if r.Cards? && saved {
        var full := exclude + [r.cards[0].card.cardId];
        assert Distinct(full) by {
          assert Distinct(exclude);
        }
        excludeCards := excludeCards[user := full];
      }
    }
  }
}
