/**
 * The options of the `/card` command of app/tarot/bot/tarot.py
 * (`handle_card`): how many cards, which deck, whether cards may be
 * reversed, whether only the major arcana are drawn, and which cards were
 * asked for by number.
 */
module TarotOptions {
  import opened Wrappers
  import opened Text
  import opened Scanner

  /** The 78 cards of a tarot deck are numbered 0 to 77. */
  const DeckSize: nat := 78

  const MaxCounter: nat := 10

  datatype CardOptions = CardOptions(counter: nat, deck: Option<nat>, flip: bool, cardIds: Option<seq<nat>>, major: bool)

  /** `max(1, min(n, 10))` */
  function ClampCounter(n: int): (c: nat)
    ensures 1 <= c <= MaxCounter
    ensures 1 <= n <= MaxCounter ==> c == n
  {
    if n < 1 then 1 else if n > MaxCounter then MaxCounter else n
  }

  /**
   * The number of cards: the digit after the first `"card"` that is followed
   * by a digit, clamped to 1..10; 1 when there is none.
   */
  function Counter(msg: string): (c: nat)
    ensures 1 <= c <= MaxCounter
    ensures (forall j :: !MatchAt(msg, "card", j)) ==> c == 1
    ensures forall j :: Leftmost(msg, "card", j) ==>
      c == ClampCounter(DigitValue(msg[j + 4]))
  {
    LeftmostIsFirst(msg, "card");
    match FirstMatch(msg, "card")
    case None => 1
    case Some(i) => ClampCounter(DigitValue(msg[i + 4]))
  }

  /**
   * The deck number: all the digits after the first `"deck "` that is
   * followed by a digit; `None` when there is none.
   */
  function DeckOption(msg: string): (d: Option<nat>)
    ensures d.None? <==> forall j :: !MatchAt(msg, "deck ", j)
    ensures forall j :: Leftmost(msg, "deck ", j) ==>
      d == Some(DigitsValue(DigitRun(msg, j + 5)))
  {
    LeftmostIsFirst(msg, "deck ");
    match FirstMatch(msg, "deck ")
    case None => None
    case Some(i) => Some(DigitsValue(DigitRun(msg, i + 5)))
  }

  /** `(x % 78 + 1) % 78 == (x + 1) % 78` */
  lemma NextModulo(x: int)
    ensures (x % DeckSize + 1) % DeckSize == (x + 1) % DeckSize
  {
  }

  /**
   * `ids` holds `counter` card numbers: those of `group` modulo 78 as far as
   * they go, then the numbers counting on from the last of them, modulo 78.
   */
  predicate Padded(group: seq<nat>, counter: nat, ids: seq<nat>)
    requires |group| > 0
  {
    |ids| == counter
    && (forall k :: 0 <= k < |ids| ==> ids[k] < DeckSize)
    && (forall k :: 0 <= k < |ids| && k < |group| ==> ids[k] == group[k] % DeckSize)
    && (forall k :: |group| <= k < |ids| ==> ids[k] == (group[|group| - 1] + (k - |group| + 1)) % DeckSize)
  }

  /**
   * `card_ids` from the digits of the first `c(\d+(?:_\d+)*)` match: every
   * number taken modulo 78, then, while fewer than `counter`, the number
   * after the last one (modulo 78) appended, and the list cut to `counter`.
   */
  method PadCardIds(group: seq<nat>, counter: nat) returns (ids: seq<nat>)
    requires |group| > 0
    ensures Padded(group, counter, ids)
  {
    ids := seq(|group|, i requires 0 <= i < |group| => group[i] % DeckSize);
    if |ids| < counter {
      var last := group[|group| - 1];
      var temp: nat := ids[|ids| - 1];
      for j := |group| to counter
        invariant |ids| == j
        invariant forall k :: 0 <= k < |group| ==> ids[k] == group[k] % DeckSize
        invariant forall k :: |group| <= k < j ==> ids[k] == (last + (k - |group| + 1)) % DeckSize
        invariant forall k :: 0 <= k < j ==> ids[k] < DeckSize
        invariant temp == (last + (j - |group|)) % DeckSize
      {
        NextModulo(last + (j - |group|));
        temp := (temp + 1) % DeckSize;
        ids := ids + [temp];
      }
    } else {
      ids := ids[..counter];
    }
  }

  /**
   * `handle_card`'s option dictionary; `idGroup` holds the numbers of the
   * first `c(\d+(?:_\d+)*)` match, split at `"_"`, when there is one.
   */
  method ParseCardOptions(msg: string, idGroup: Option<seq<nat>>) returns (options: CardOptions)
    requires idGroup.Some? ==> |idGroup.value| > 0
    ensures options.counter == Counter(msg) && 1 <= options.counter <= MaxCounter
    ensures options.deck == DeckOption(msg)
    ensures options.flip <==> Contains(msg, "flip")
    ensures options.major <==> Contains(msg, "major")
    ensures options.cardIds.Some? <==> idGroup.Some?
    ensures idGroup.Some? ==> Padded(idGroup.value, options.counter, options.cardIds.value)
  {
    var counter := Counter(msg);
    var deck := DeckOption(msg);
    var flip := Contains(msg, "flip");
    var cardIds: Option<seq<nat>> := None;
    if idGroup.Some? {
      var ids := PadCardIds(idGroup.value, counter);
      cardIds := Some(ids);
    }
    var major := Contains(msg, "major");
    options := CardOptions(counter, deck, flip, cardIds, major);
  }

  /** A count and a deck, as in the bot's help text. */
  lemma HelpExample()
    ensures Counter("/card3 deck 5") == 3
    ensures DeckOption("/card3 deck 5") == Some(5)
  {
    var s := "/card3 deck 5";
    assert |s| == 13 && s[..12] == "/card3 deck " && s[12] == '5';
    Card3Deck(s);
  }

  /** `/card3 deck ` and a number asks for three cards of the deck with that number. */
  lemma Card3Deck(s: string)
    requires |s| >= 13 && s[..12] == "/card3 deck " && IsDigit(s[12])
    ensures Counter(s) == 3
    ensures DeckOption(s) == Some(DigitsValue(DigitRun(s, 12)))
    ensures |s| == 13 ==> DeckOption(s) == Some(DigitValue(s[12]))
  {
    CardExample(s);
    DeckExample(s);
    assert s[5] == '3';
    if |s| == 13 {
      var d := DigitRun(s, 12);
      assert d == [s[12]] && d[..0] == [];
    }
  }

  /** `/card0` asks for no card and is clamped to one. */
  lemma ZeroCounterClamped()
    ensures Counter("/card0") == 1
  {
    assert MatchAt("/card0", "card", 1);
    LeftmostUnique("/card0", "card", 1);
  }
}
