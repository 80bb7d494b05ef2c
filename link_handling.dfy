/**
 * The link handling both parser bots share (app/tg_bot/bot/parser.py and
 * app/cardparser/bot/parser.py): the pictures that survive parsing, their
 * replies in media groups of at most ten, the merge of Ozon widget states,
 * and the query of the `/search` command.
 */
module LinkHandling {
  import opened Wrappers
  import opened Text

  /** A JSON value as `json.loads` produces it. */
  datatype Json =
    | JNull
    | JBool(b: bool)
    | JNum(n: int)
    | JStr(s: string)
    | JArr(items: seq<Json>)
    | JObj(fields: map<string, Json>)

  /** Python truthiness of a JSON value. */
  predicate Truthy(v: Json) {
    match v
    case JNull => false
    case JBool(b) => b
    case JNum(n) => n != 0
    case JStr(s) => s != ""
    case JArr(items) => items != []
    case JObj(fields) => fields != map[]
  }

  /** The availability mark of a size. */
  function Mark(available: bool): string {
    if available then "✅" else "❌"
  }

  // ---------------------------------------------------------------------
  // handle_links: the pictures worth sending

  /** The `media`, `caption` and `parse_mode` of a parse result. */
  datatype Picture = Picture(media: string, caption: string, parseMode: string)

  /** `p and p["media"]`: a parse that returned a dict with a non-empty `media`. */
  predicate IsKept(p: Option<Picture>) {
    p.Some? && p.value.media != ""
  }

  /** The pictures `handle_links` keeps, in the order of the links. */
  function Kept(results: seq<Option<Picture>>): (pics: seq<Picture>)
    ensures |pics| <= |results|
    ensures forall i :: 0 <= i < |pics| ==> pics[i].media != ""
    ensures (forall i :: 0 <= i < |results| ==> !IsKept(results[i])) ==> pics == []
    decreases |results|
  {
    if results == [] then []
    else
      var rest := Kept(results[1..]);
      assert forall i :: 1 <= i < |results| ==> results[1..][i - 1] == results[i];
      if IsKept(results[0]) then [results[0].value] + rest else rest
  }

  lemma {:induction false} KeptAppend(a: seq<Option<Picture>>, b: seq<Option<Picture>>)
    ensures Kept(a + b) == Kept(a) + Kept(b)
    decreases |a|
  {
    if a == [] {
      assert a + b == b;
    } else {
      assert (a + b)[0] == a[0] && (a + b)[1..] == a[1..] + b;
      KeptAppend(a[1..], b);
    }
  }

  /** A link whose parse is kept contributes exactly its picture; the others contribute nothing. */
  lemma KeptOne(p: Option<Picture>)
    ensures Kept([p]) == if IsKept(p) then [p.value] else []
  {
    assert [p][1..] == [];
  }

  /** The loop of `handle_links` that appends every kept parse result to `pictures`. */
  method CollectPictures(results: seq<Option<Picture>>) returns (pictures: seq<Picture>)
    ensures pictures == Kept(results)
  {
    pictures := [];
    for i := 0 to |results|
      invariant pictures == Kept(results[..i])
    {
      KeptAppend(results[..i], [results[i]]);
      KeptOne(results[i]);
      assert results[..i + 1] == results[..i] + [results[i]];
      if IsKept(results[i]) {
        pictures := pictures + [results[i].value];
      }
    }
    assert results[..|results|] == results;
  }

  // ---------------------------------------------------------------------
  // Media groups of at most ten

  const GroupSize: nat := 10

  function Flatten<T>(groups: seq<seq<T>>): seq<T>
    decreases |groups|
  {
    if groups == [] then [] else groups[0] + Flatten(groups[1..])
  }

  lemma {:induction false} FlattenSnoc<T>(groups: seq<seq<T>>, g: seq<T>)
    ensures Flatten(groups + [g]) == Flatten(groups) + g
    decreases |groups|
  {
    if groups == [] {
      assert groups + [g] == [g];
      assert [g][1..] == [];
    } else {
      assert (groups + [g])[1..] == groups[1..] + [g];
      FlattenSnoc(groups[1..], g);
    }
  }

  /**
   * `for i in range(0, len(pictures), 10): group = pictures[i : i + 10]`:
   * the groups, each sent as one media-group reply, concatenate back to the
   * list; none is empty, every one but the last holds ten, and there are
   * as few as ten per group allows.
   */
  method Batch<T>(items: seq<T>) returns (groups: seq<seq<T>>)
    ensures Flatten(groups) == items
    ensures forall k :: 0 <= k < |groups| ==> 0 < |groups[k]| <= GroupSize
    ensures forall k :: 0 <= k < |groups| - 1 ==> |groups[k]| == GroupSize
    ensures |groups| == (|items| + GroupSize - 1) / GroupSize
  {
    groups := [];
    var i := 0;
    while i < |items|
      invariant i == GroupSize * |groups|
      invariant i <= |items| ==> Flatten(groups) == items[..i]
      invariant i > |items| ==> Flatten(groups) == items
      invariant i > |items| ==> i < |items| + GroupSize
      invariant forall k :: 0 <= k < |groups| ==> 0 < |groups[k]| <= GroupSize
      invariant forall k :: 0 <= k < |groups| - 1 ==> |groups[k]| == GroupSize
      invariant i <= |items| ==> forall k :: 0 <= k < |groups| ==> |groups[k]| == GroupSize
    {
      var end := if i + GroupSize <= |items| then i + GroupSize else |items|;
      var group := items[i..end];
      FlattenSnoc(groups, group);
      assert items[..i] + group == items[..end];
      groups := groups + [group];
      i := i + GroupSize;
      if end == |items| {
        assert items[..end] == items;
      }
    }
    assert (|items| + GroupSize - 1) / GroupSize == |groups| by {
      assert i == GroupSize * |groups|;
      assert |items| <= i < |items| + GroupSize;
    }
  }

  /**
   * Both `handle_links`: the kept pictures, replied in groups of at most ten
   * that concatenate back to them in order.
   */
  method ReplyGroups(results: seq<Option<Picture>>) returns (groups: seq<seq<Picture>>)
    ensures Flatten(groups) == Kept(results)
    ensures forall k :: 0 <= k < |groups| ==> 0 < |groups[k]| <= GroupSize
    ensures forall k :: 0 <= k < |groups| - 1 ==> |groups[k]| == GroupSize
    ensures (forall i :: 0 <= i < |results| ==> !IsKept(results[i])) ==> groups == []
  {
    var pictures := CollectPictures(results);
    groups := Batch(pictures);
  }

  // ---------------------------------------------------------------------
  // get_ozon_widget

  /** One value of `widgetStates`: a JSON text whose `json.loads` gave an object, or anything else. */
  datatype WidgetState = Parsed(fields: map<string, Json>) | Malformed

  /** `widgetStates` in its key order. */
  type WidgetStates = seq<(string, WidgetState)>

  /**
   * The merge of the states whose key contains `key`, from first to last
   * (`res.update(...)`, later keys winning); `None` once one of them is
   * malformed, because `json.loads` or `update` raises.
   */
  function MergeFrom(acc: map<string, Json>, states: WidgetStates, key: string): Option<map<string, Json>>
    decreases |states|
  {
    if states == [] then Some(acc)
    else if !Contains(states[0].0, key) then MergeFrom(acc, states[1..], key)
    else match states[0].1
      case Malformed => None
      case Parsed(m) => MergeFrom(acc + m, states[1..], key)
  }

  /** `get_ozon_widget(widget_states, key)`: the merge, or `{}` on any error. */
  function OzonWidget(states: WidgetStates, key: string): map<string, Json> {
    match MergeFrom(map[], states, key)
    case None => map[]
    case Some(m) => m
  }

  /** The loop of `get_ozon_widget` over the matching keys. */
  method GetOzonWidget(states: WidgetStates, key: string) returns (res: map<string, Json>)
    ensures res == OzonWidget(states, key)
  {
    res := map[];
    var i := 0;
    while i < |states|
      invariant 0 <= i <= |states|
      invariant MergeFrom(res, states[i..], key) == MergeFrom(map[], states, key)
    {
      assert states[i..][1..] == states[i + 1..];
      if Contains(states[i].0, key) {
        match states[i].1
        case Malformed =>
          return map[];
        case Parsed(m) =>
          res := res + m;
      }
      i := i + 1;
    }
  }

  predicate Matches(states: WidgetStates, i: int, key: string)
    requires 0 <= i < |states|
  {
    Contains(states[i].0, key)
  }

  /** Any malformed matching state makes the whole widget `{}`. */
  lemma {:induction false} MergeFromMalformed(acc: map<string, Json>, states: WidgetStates, key: string, j: int)
    requires 0 <= j < |states| && Matches(states, j, key) && states[j].1.Malformed?
    ensures MergeFrom(acc, states, key) == None
    decreases |states|
  {
    if j > 0 && !(Matches(states, 0, key) && states[0].1.Malformed?) {
      var acc' := if Matches(states, 0, key) then acc + states[0].1.fields else acc;
      MergeFromMalformed(acc', states[1..], key, j - 1);
    }
  }

  /** Without a malformed matching state the merge succeeds. */
  lemma {:induction false} MergeFromWellFormed(acc: map<string, Json>, states: WidgetStates, key: string)
    requires forall i :: 0 <= i < |states| && Matches(states, i, key) ==> states[i].1.Parsed?
    ensures MergeFrom(acc, states, key).Some?
    decreases |states|
  {
    if states != [] {
      var acc' := if Matches(states, 0, key) then acc + states[0].1.fields else acc;
      assert forall i :: 0 <= i < |states[1..]| ==> states[1..][i] == states[i + 1];
      MergeFromWellFormed(acc', states[1..], key);
    }
  }

  /** No matching state is malformed. */
  predicate WellFormedFor(states: WidgetStates, key: string) {
    forall i :: 0 <= i < |states| && Matches(states, i, key) ==> states[i].1.Parsed?
  }

  /** Dropping the first state shifts the positions by one. */
  lemma MatchesShift(states: WidgetStates, key: string)
    requires states != []
    ensures forall i :: 0 <= i < |states[1..]| ==>
      states[1..][i] == states[i + 1] && (Matches(states[1..], i, key) <==> Matches(states, i + 1, key))
    ensures WellFormedFor(states, key) ==> WellFormedFor(states[1..], key)
  {
  }

  /**
   * Without malformed matching states, a field is in the merge iff it was
   * in the accumulator or in some matching state, and its value is the one
   * of the last matching state that has it.
   */
  lemma MergeFromFields(acc: map<string, Json>, states: WidgetStates, key: string, f: string)
    requires forall i :: 0 <= i < |states| && Matches(states, i, key) ==> states[i].1.Parsed?
    ensures MergeFrom(acc, states, key).Some?
    ensures var m := MergeFrom(acc, states, key).value;
      (f in m <==> f in acc || exists i :: 0 <= i < |states| && Matches(states, i, key) && f in states[i].1.fields)
      && (forall i :: 0 <= i < |states| && Matches(states, i, key) && f in states[i].1.fields
            && (forall j :: i < j < |states| && Matches(states, j, key) ==> f !in states[j].1.fields)
            ==> m[f] == states[i].1.fields[f])
      && (f in acc && (forall i :: 0 <= i < |states| && Matches(states, i, key) ==> f !in states[i].1.fields)
          ==> m[f] == acc[f])
  {
    MergeFromHas(acc, states, key, f);
    forall i | 0 <= i < |states| && Matches(states, i, key) && f in states[i].1.fields
            && (forall j :: i < j < |states| && Matches(states, j, key) ==> f !in states[j].1.fields)
      ensures MergeFrom(acc, states, key).value[f] == states[i].1.fields[f]
    {
      MergeFromLast(acc, states, key, f, i);
    }
    if f in acc && (forall i :: 0 <= i < |states| && Matches(states, i, key) ==> f !in states[i].1.fields) {
      MergeFromKept(acc, states, key, f);
    }
  }

  /** A field is in the merge iff it was in the accumulator or in some matching state. */
  lemma {:induction false} MergeFromHas(acc: map<string, Json>, states: WidgetStates, key: string, f: string)
    requires WellFormedFor(states, key)
    ensures MergeFrom(acc, states, key).Some?
    ensures f in MergeFrom(acc, states, key).value
            <==> f in acc || exists i :: 0 <= i < |states| && Matches(states, i, key) && f in states[i].1.fields
    decreases |states|
  {
    MergeFromWellFormed(acc, states, key);
    if states != [] {
      var acc' := if Matches(states, 0, key) then acc + states[0].1.fields else acc;
      var rest := states[1..];
      MatchesShift(states, key);
      MergeFromHas(acc', rest, key, f);
      assert MergeFrom(acc, states, key) == MergeFrom(acc', rest, key);
      if f !in acc && f in acc' {
        assert Matches(states, 0, key) && f in states[0].1.fields;
      }
      if exists i :: 0 <= i < |rest| && Matches(rest, i, key) && f in rest[i].1.fields {
        var i :| 0 <= i < |rest| && Matches(rest, i, key) && f in rest[i].1.fields;
        assert Matches(states, i + 1, key) && f in states[i + 1].1.fields;
      }
      if exists i :: 0 <= i < |states| && Matches(states, i, key) && f in states[i].1.fields {
        var i :| 0 <= i < |states| && Matches(states, i, key) && f in states[i].1.fields;
        if i > 0 {
          assert Matches(rest, i - 1, key) && f in rest[i - 1].1.fields;
        }
      }
    }
  }

  /** A field that no matching state holds keeps the accumulator's value. */
  lemma {:induction false} MergeFromKept(acc: map<string, Json>, states: WidgetStates, key: string, f: string)
    requires WellFormedFor(states, key)
    requires f in acc && forall i :: 0 <= i < |states| && Matches(states, i, key) ==> f !in states[i].1.fields
    ensures MergeFrom(acc, states, key).Some?
    ensures f in MergeFrom(acc, states, key).value && MergeFrom(acc, states, key).value[f] == acc[f]
    decreases |states|
  {
    MergeFromWellFormed(acc, states, key);
    if states != [] {
      var acc' := if Matches(states, 0, key) then acc + states[0].1.fields else acc;
      var rest := states[1..];
      MatchesShift(states, key);
      forall j | 0 <= j < |rest| && Matches(rest, j, key) ensures f !in rest[j].1.fields {
        assert Matches(states, j + 1, key);
      }
      assert f in acc' && acc'[f] == acc[f];
      MergeFromKept(acc', rest, key, f);
      assert MergeFrom(acc, states, key) == MergeFrom(acc', rest, key);
    }
  }

  /** A field takes its value from the last matching state that holds it. */
  lemma {:induction false} MergeFromLast(acc: map<string, Json>, states: WidgetStates, key: string, f: string, i: nat)
    requires WellFormedFor(states, key)
    requires i < |states| && Matches(states, i, key) && f in states[i].1.fields
    requires forall j :: i < j < |states| && Matches(states, j, key) ==> f !in states[j].1.fields
    ensures MergeFrom(acc, states, key).Some?
    ensures f in MergeFrom(acc, states, key).value && MergeFrom(acc, states, key).value[f] == states[i].1.fields[f]
    decreases |states|
  {
    MergeFromWellFormed(acc, states, key);
    var acc' := if Matches(states, 0, key) then acc + states[0].1.fields else acc;
    var rest := states[1..];
    MatchesShift(states, key);
    forall j | i <= j < |rest| && Matches(rest, j, key) ensures f !in rest[j].1.fields {
      assert Matches(states, j + 1, key);
    }
    if i > 0 {
      MergeFromLast(acc', rest, key, f, i - 1);
    } else {
      assert f in acc' && acc'[f] == states[0].1.fields[f];
      MergeFromKept(acc', rest, key, f);
    }
    assert MergeFrom(acc, states, key) == MergeFrom(acc', rest, key);
  }

  lemma OzonWidgetFields(states: WidgetStates, key: string, f: string)
    requires forall i :: 0 <= i < |states| && Matches(states, i, key) ==> states[i].1.Parsed?
    ensures var w := OzonWidget(states, key);
      (f in w <==> exists i :: 0 <= i < |states| && Matches(states, i, key) && f in states[i].1.fields)
      && (forall i :: 0 <= i < |states| && Matches(states, i, key) && f in states[i].1.fields
            && (forall j :: i < j < |states| && Matches(states, j, key) ==> f !in states[j].1.fields)
            ==> w[f] == states[i].1.fields[f])
  {
    MergeFromFields(map[], states, key, f);
  }

  /** A matching state that is not a JSON object ends `get_ozon_widget` in `{}`. */
  lemma OzonWidgetMalformed(states: WidgetStates, key: string, j: int)
    requires 0 <= j < |states| && Matches(states, j, key) && states[j].1.Malformed?
    ensures OzonWidget(states, key) == map[]
  {
    MergeFromMalformed(map[], states, key, j);
  }

  /** Without any matching state the widget is `{}`, so it is falsy. */
  lemma OzonWidgetAbsent(states: WidgetStates, key: string)
    requires forall i :: 0 <= i < |states| ==> !Matches(states, i, key)
    ensures OzonWidget(states, key) == map[]
  {
    forall f {
      OzonWidgetFields(states, key, f);
    }
  }

  // ---------------------------------------------------------------------
  // handle_search_command

  datatype SearchArg =
    | Prompt           // `IndexError` (no argument) or an empty query: the "please give a query" reply
    | Query(q: string)

  const QueryLimit: nat := 50

  /** `text.split(maxsplit=1)[1].strip()[:50]`, or the prompt when there is no second part. */
  function SearchQuery(text: string): (r: SearchArg)
    ensures r.Query? <==> |SplitMaxOne(text)| == 2
    ensures r.Query? ==> 0 < |r.q| <= QueryLimit && !IsSpace(r.q[0])
  {
    var parts := SplitMaxOne(text);
    if |parts| < 2 then Prompt
    else
      StripNonEmpty(parts[1]);
      var query := Take(Strip(parts[1]), QueryLimit);
      if query == "" then Prompt else Query(query)
  }

  /** `/search` followed by whitespace and an argument asks for the argument's first fifty characters. */
  lemma SearchQueryOf(command: string, gap: string, arg: string)
    requires |command| > 0 && NoSpace(command)
    requires |gap| > 0 && forall i :: 0 <= i < |gap| ==> IsSpace(gap[i])
    requires |arg| > 0 && !IsSpace(arg[0]) && !IsSpace(arg[|arg| - 1])
    ensures SearchQuery(command + gap + arg) == Query(Take(arg, QueryLimit))
  {
    SplitMaxOneWords(command, gap, arg);
    StripNoOp(arg);
  }

  /** The bare command, with or without trailing whitespace, gets the prompt. */
  lemma SearchQueryBare(command: string, gap: string)
    requires |command| > 0 && NoSpace(command)
    requires forall i :: 0 <= i < |gap| ==> IsSpace(gap[i])
    ensures SearchQuery(command + gap) == Prompt
  {
    var s := command + gap;
    assert LStrip(s) == s;
    if gap == [] {
      assert s == command + [];
      WordEndOfPrefix(command, []);
    } else {
      WordEndOfPrefix(command, gap);
    }
    assert s[|command|..] == gap;
    LStripSpaces(gap, []);
    assert gap + [] == gap;
  }
}
