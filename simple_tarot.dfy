/**
 * The `/card` handler of app/tg_bot/bot/tarot.py (`TarotBot.handle_card`):
 * it parses the same options as the full tarot bot, but reads at most two
 * digits for the deck and one card number (`c\d\d?`), and fills the rest of
 * the spread with the smallest numbers not yet taken instead of counting on
 * modulo 78. It replies with the options; no card is drawn.
 */
module SimpleTarot {
  import opened Wrappers
  import opened Text
  import opened Scanner
  import TarotOptions

  /** `max(0, min(card_id, 77))` */
  function ClampId(n: int): (c: nat)
    ensures c < TarotOptions.DeckSize
    ensures 0 <= n < TarotOptions.DeckSize ==> c == n
  {
    if n < 0 then 0 else if n > 77 then 77 else n
  }

  /** The number of the one or two digits from position `i`. */
  function TwoDigitNumber(msg: string, i: nat): (v: nat)
    requires i <= |msg|
    ensures v < 100
  {
    TwoDigitsBelowHundred(TwoDigitRun(msg, i));
    DigitsValue(TwoDigitRun(msg, i))
  }

  /** The deck from the first `deck \d\d?` match: at most two digits. */
  function ShortDeckOption(msg: string): (d: Option<nat>)
    ensures d.None? <==> forall j :: !MatchAt(msg, "deck ", j)
    ensures d.Some? ==> d.value < 100
  {
    match FirstMatch(msg, "deck ")
    case None => None
    case Some(i) => Some(TwoDigitNumber(msg, i + 5))
  }

  /** The deck is read from the leftmost `deck ` followed by a digit. */
  lemma ShortDeckLeftmost(msg: string, j: int)
    requires Leftmost(msg, "deck ", j)
    ensures ShortDeckOption(msg) == Some(TwoDigitNumber(msg, j + 5))
  {
    LeftmostUnique(msg, "deck ", j);
  }

  lemma TwoDigitsBelowHundred(ds: string)
    requires AllDigits(ds) && |ds| <= 2
    ensures DigitsValue(ds) < 100
  {
    if |ds| == 2 {
      assert ds[..1][..0] == "";
    } else if |ds| == 1 {
      assert ds[..0] == "";
    }
  }

  /** The one or two digits after position `i`, as a card number clamped into the deck. */
  function CardNumberAt(msg: string, i: nat): nat
    requires i < |msg|
  {
    ClampId(TwoDigitNumber(msg, i + 1))
  }

  /** The number asked for by the first `c\d\d?` match, clamped into the deck. */
  function RequestedId(msg: string): (r: Option<nat>)
    ensures r.None? <==> forall j :: !MatchAt(msg, "c", j)
    ensures forall j :: Leftmost(msg, "c", j) ==>
      r == Some(CardNumberAt(msg, j))
    ensures r.Some? ==> r.value < TarotOptions.DeckSize
  {
    LeftmostIsFirst(msg, "c");
    match FirstMatch(msg, "c")
    case None => None
    case Some(i) => Some(CardNumberAt(msg, i))
  }

  /** `v` is the smallest number from `from` on that `xs` does not hold. */
  predicate IsFresh(xs: seq<nat>, from: nat, v: nat) {
    from <= v && v !in xs && forall t :: from <= t < v ==> t in xs
  }

  /** At most one number is the smallest one missing. */
  lemma FreshUnique(xs: seq<nat>, from: nat, a: nat, b: nat)
    requires IsFresh(xs, from, a) && IsFresh(xs, from, b)
    ensures a == b
  {
  }

  /** The largest number of a list, 0 for none. */
  function Largest(xs: seq<nat>): (m: nat)
    ensures forall k :: 0 <= k < |xs| ==> xs[k] <= m
    ensures |xs| > 0 ==> m in xs
  {
    if xs == [] then 0
    else
      var rest := Largest(xs[1..]);
      assert forall k :: 1 <= k < |xs| ==> xs[k] == xs[1..][k - 1];
      if xs[0] >= rest then xs[0] else rest
  }

  predicate Distinct(xs: seq<nat>) {
    forall i, j :: 0 <= i < j < |xs| ==> xs[i] != xs[j]
  }

  /**
   * The asked-for number first, then for each later position `j` the
   * smallest number from `j` on that the list does not hold yet.
   */
  method PadIds(first: nat, counter: nat) returns (ids: seq<nat>)
    requires counter >= 1
    ensures |ids| == counter && ids[0] == first
    ensures Distinct(ids)
    ensures forall k :: 1 <= k < |ids| ==> IsFresh(ids[..k], k, ids[k])
  {
    ids := [first];
    for j := 1 to counter
      invariant |ids| == j && ids[0] == first
      invariant Distinct(ids)
      invariant forall k :: 1 <= k < j ==> IsFresh(ids[..k], k, ids[k])
    {
      var temp: nat := j;
      ghost var bound := if Largest(ids) + 1 > j then Largest(ids) + 1 else j;
      while temp in ids
        invariant j <= temp <= bound
        invariant forall t :: j <= t < temp ==> t in ids
        decreases bound - temp
      {
        temp := temp + 1;
      }
      assert IsFresh(ids, j, temp);
      assert forall k :: 0 <= k < j ==> (ids + [temp])[..k] == ids[..k];
      ids := ids + [temp];
    }
  }

  /**
   * `handle_card`'s option dictionary. The requested number is followed
   * by padding up to `counter` exactly when there is one.
   */
  method HandleCard(msg: string) returns (options: TarotOptions.CardOptions)
    ensures options.counter == TarotOptions.Counter(msg) && 1 <= options.counter <= TarotOptions.MaxCounter
    ensures options.deck == ShortDeckOption(msg)
    ensures options.flip <==> Contains(msg, "flip")
    ensures options.major <==> Contains(msg, "major")
    ensures options.cardIds.Some? <==> RequestedId(msg).Some?
    ensures options.cardIds.Some? ==>
      var ids := options.cardIds.value;
      |ids| == options.counter && ids[0] == RequestedId(msg).value && Distinct(ids)
      && forall k :: 1 <= k < |ids| ==> IsFresh(ids[..k], k, ids[k])
  {
    var counter := TarotOptions.Counter(msg);
    var deck := ShortDeckOption(msg);
    var flip := Contains(msg, "flip");
    var cardIds: Option<seq<nat>> := None;
    var requested := RequestedId(msg);
    if requested.Some? {
      var ids := PadIds(requested.value, counter);
      cardIds := Some(ids);
    }
    var major := Contains(msg, "major");
    options := TarotOptions.CardOptions(counter, deck, flip, cardIds, major);
  }
}
