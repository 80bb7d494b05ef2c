/**
 * The administrative triggers of app/cardparser/tasks.py: they build a
 * Telegram-shaped update that looks as if the bot's owner had typed a
 * command in a private chat, serialise it with `json.dumps` and push it to a
 * Redis list for the bot to consume.
 */
module CommandInjector {
  import opened Wrappers
  import opened Text
  import opened RedisStore
  import DispatchWorker

  // ---------------------------------------------------------------------
  // The update envelope

  /** `telegram.constants.MessageEntityType`; `json.dumps` writes its string value. */
  datatype EntityType = Url | BotCommand

  datatype Entity = Entity(kind: EntityType, offset: nat, length: nat)

  /** The `from` object; `id` is the bot's `chat_id`, a `CharField`, so a string. */
  datatype Sender = Sender(id: string, isBot: bool, firstName: string)

  datatype Chat = Chat(id: string, kind: string)

  datatype Message = Message(messageId: nat, sender: Sender, chat: Chat, date: int, text: string, entities: seq<Entity>)

  datatype Update = Update(updateId: int, message: Message)

  /** The sender name that marks an update as produced by this module. */
  const Sentinel: string := "django_task"

  /** The row of `Bot` fetched by `Bot.objects.get(id=bot_id, bot_type="ParserBot")`. */
  datatype BotRecord = BotRecord(token: string, chatId: string)

  /** The queue the update is pushed to, as written: a per-token key. */
  function InjectorQueueKey(token: string): string {
    "bot_messages_queue_" + token
  }

  /** The queue the update evidently should reach: the one the worker polls. */
  function IntendedQueueKey(token: string): string {
    DispatchWorker.QueueKey
  }

  function TargetKey(token: string, intended: bool): string {
    if intended then IntendedQueueKey(token) else InjectorQueueKey(token)
  }

  /** `len(full_command.split(" ", 1)[0])`: the length of the command word. */
  function CommandLength(fullCommand: string): (n: nat)
    ensures n <= |fullCommand| && ' ' !in fullCommand[..n]
    ensures n < |fullCommand| ==> fullCommand[n] == ' '
  {
    SplitFirstPartLength(fullCommand)
  }

  function SplitFirstPartLength(s: string): (n: nat)
    ensures n == |Split(s, ' ')[0]|
    ensures n <= |s| && ' ' !in s[..n]
    ensures n < |s| ==> s[n] == ' '
    decreases |s|
  {
    if |s| == 0 || s[0] == ' ' then 0
    else
      var n := 1 + SplitFirstPartLength(s[1..]);
      assert s[..n] == [s[0]] + s[1..][..n - 1];
      n
  }

  /** The example of the command-mode contract: "top_brand 12 34" has a ten-character command. */
  lemma CommandLengthExample()
    ensures CommandLength("/top_brand 12 34") == 10
  {
    var s := "/top_brand 12 34";
    assert ' ' !in s[..10] && s[10] == ' ';
    CommandLengthUnique(s, 10);
  }

  /** The command length is the position of the first space, so it is determined by that property. */
  lemma CommandLengthUnique(s: string, k: nat)
    requires k <= |s| && ' ' !in s[..k] && (k < |s| ==> s[k] == ' ')
    ensures CommandLength(s) == k
  {
  }

  /**
   * The `update_dict` of `put_django_task_command_to_bot_queue` for clock
   * value `now`: an update from the sentinel sender in the owner's private
   * chat, whose text is either the command `/txt` or the plain text `txt`,
   * with one entity covering the command word or the whole text.
   */
  function BuildUpdate(chatId: string, txt: string, isText: bool, now: nat): (u: Update)
    ensures u.updateId == now && u.message.date == now
    ensures u.message.messageId == now % 100000 && u.message.messageId < 100000
    ensures u.message.sender == Sender(chatId, false, Sentinel)
    ensures u.message.chat == Chat(chatId, "private") && u.message.chat.id == u.message.sender.id
    ensures |u.message.entities| == 1 && u.message.entities[0].offset == 0
    ensures isText ==> u.message.text == txt && u.message.entities[0] == Entity(Url, 0, |txt|)
    ensures !isText ==>
      u.message.text == "/" + txt && u.message.entities[0].kind == BotCommand
      && var n := u.message.entities[0].length;
         n <= |u.message.text| && ' ' !in u.message.text[..n]
         && (n < |u.message.text| ==> u.message.text[n] == ' ')
  {
    var fullCommand := "/" + txt;
    var text := if isText then txt else fullCommand;
    var entity := if isText then Entity(Url, 0, |txt|) else Entity(BotCommand, 0, CommandLength(fullCommand));
    Update(now, Message(now % 100000, Sender(chatId, false, Sentinel), Chat(chatId, "private"), now, text, [entity]))
  }

  // ---------------------------------------------------------------------
  // json.dumps(update_dict, ensure_ascii=False)

  function HexDigit(d: nat): (c: char)
    requires d < 16
  {
    if d < 10 then ('0' as int + d) as char else ('a' as int + d - 10) as char
  }

  /** One character inside a JSON string as `json.dumps(ensure_ascii=False)` writes it. */
  function EscapeChar(c: char): (e: string)
    ensures |e| > 0
  {
    if c == '"' then "\\\""
    else if c == '\\' then "\\\\"
    else if c == '\n' then "\\n"
    else if c == '\r' then "\\r"
    else if c == '\t' then "\\t"
    else if c == '\U{8}' then "\\b"
    else if c == '\U{c}' then "\\f"
    else if c < ' ' then "\\u00" + [HexDigit(c as int / 16), HexDigit(c as int % 16)]
    else [c]
  }

  function Escape(s: string): string
    decreases |s|
  {
    if s == [] then [] else EscapeChar(s[0]) + Escape(s[1..])
  }

  function HexValue(c: char): Option<nat> {
    if '0' <= c <= '9' then Some(c as int - '0' as int)
    else if 'a' <= c <= 'f' then Some(c as int - 'a' as int + 10)
    else if 'A' <= c <= 'F' then Some(c as int - 'A' as int + 10)
    else None
  }

  /** The character a `\uXXXX` escape stands for, in the range of control characters used here. */
  function UnicodeEscape(h: string): Option<char>
    requires |h| == 4
  {
    match (HexValue(h[0]), HexValue(h[1]), HexValue(h[2]), HexValue(h[3]))
    case (Some(a), Some(b), Some(c), Some(d)) =>
      var v := ((a * 16 + b) * 16 + c) * 16 + d;
      if v < 0xD800 then Some(v as char) else None
    case _ => None
  }

  /** The body of a JSON string as `json.loads` reads it; `None` for a malformed escape. */
  function Unescape(s: string): Option<string>
    decreases |s|
  {
    if s == [] then Some([])
    else if s[0] != '\\' then
      match Unescape(s[1..]) case Some(r) => Some([s[0]] + r) case None => None
    else if |s| < 2 then None
    else
      var c := s[1];
      var simple :=
        if c == '"' then Some('"') else if c == '\\' then Some('\\') else if c == '/' then Some('/')
        else if c == 'n' then Some('\n') else if c == 'r' then Some('\r') else if c == 't' then Some('\t')
        else if c == 'b' then Some('\U{8}') else if c == 'f' then Some('\U{c}') else None;
      if simple.Some? then
        match Unescape(s[2..]) case Some(r) => Some([simple.value] + r) case None => None
      else if c == 'u' && |s| >= 6 then
        match UnicodeEscape(s[2..6])
        case None => None
        case Some(ch) => match Unescape(s[6..]) case Some(r) => Some([ch] + r) case None => None
      else None
  }

  lemma UnescapeChar(c: char, rest: string)
    ensures Unescape(EscapeChar(c) + rest) ==
      match Unescape(rest) case Some(r) => Some([c] + r) case None => None
  {
    var s := EscapeChar(c) + rest;
    if c == '"' || c == '\\' || c == '\n' || c == '\r' || c == '\t' || c == '\U{8}' || c == '\U{c}' {
      assert s[2..] == rest;
    } else if c < ' ' {
      var v := c as int;
      assert s[2..6] == ['0', '0', HexDigit(v / 16), HexDigit(v % 16)];
      assert HexValue(HexDigit(v / 16)) == Some(v / 16);
      assert HexValue(HexDigit(v % 16)) == Some(v % 16);
      assert s[6..] == rest;
    } else {
      assert s[1..] == rest;
    }
  }

  /** `json.loads` reads back every string `json.dumps` wrote. */
  lemma {:induction false} EscapeRoundTrip(s: string)
    ensures Unescape(Escape(s)) == Some(s)
    decreases |s|
  {
    if s != [] {
      EscapeRoundTrip(s[1..]);
      UnescapeChar(s[0], Escape(s[1..]));
      assert [s[0]] + s[1..] == s;
    }
  }

  function JsonString(s: string): string {
    "\"" + Escape(s) + "\""
  }

  function JsonBool(b: bool): string {
    if b then "true" else "false"
  }

  function EntityTypeValue(t: EntityType): string {
    match t
    case Url => "url"
    case BotCommand => "bot_command"
  }

  function EntityJson(e: Entity): string {
    "{\"type\": " + JsonString(EntityTypeValue(e.kind)) + ", \"offset\": " + IntToString(e.offset)
    + ", \"length\": " + IntToString(e.length) + "}"
  }

  function EntitiesJson(es: seq<Entity>): string
    decreases |es|
  {
    if es == [] then "" else if |es| == 1 then EntityJson(es[0]) else EntityJson(es[0]) + ", " + EntitiesJson(es[1..])
  }

  /** `json.dumps(update_dict, ensure_ascii=False)`: keys in insertion order, default separators. */
  function ToJson(u: Update): (j: string)
    ensures |j| > 0 && j[0] == '{'
    ensures var tail := ", \"text\": " + JsonString(u.message.text) + ", \"entities\": ["
                        + EntitiesJson(u.message.entities) + "]}}";
      |tail| < |j| && j[|j| - |tail|..] == tail
  {
    var m := u.message;
    var head := Concat([
      "{\"update_id\": ", IntToString(u.updateId),
      ", \"message\": {\"message_id\": ", IntToString(m.messageId),
      ", \"from\": {\"id\": ", JsonString(m.sender.id), ", \"is_bot\": ", JsonBool(m.sender.isBot),
      ", \"first_name\": ", JsonString(m.sender.firstName), "}",
      ", \"chat\": {\"id\": ", JsonString(m.chat.id), ", \"type\": ", JsonString(m.chat.kind), "}",
      ", \"date\": ", IntToString(m.date)]);
    var tail := ", \"text\": " + JsonString(m.text) + ", \"entities\": [" + EntitiesJson(m.entities) + "]}}";
    assert (head + tail)[|head + tail| - |tail|..] == tail;
    head + tail
  }

  // ---------------------------------------------------------------------
  // Pushing

  datatype InjectOutcome =
    | BotNotFound   // `Bot.objects.get` raised `DoesNotExist`; it propagates
    | NoToken       // empty token: nothing is pushed
    | Pushed(key: string, payload: string)
    | PushFailed    // `rpush` raised; logged and swallowed

  /**
   * `put_django_task_command_to_bot_queue(bot_id, txt, is_text)`. `bot` is
   * the result of the lookup, `now` the clock, `pushFault` whether `rpush`
   * raises. With `intended` the update goes to the worker's queue rather
   * than the per-token key.
   */
  method PutCommand(store: Store, bot: Option<BotRecord>, txt: string, isText: bool, now: nat, pushFault: bool,
                    intended: bool)
    returns (outcome: InjectOutcome)
    requires store.Valid()
    modifies store
    ensures store.Valid() && store.locks == old(store.locks)
    ensures bot.None? ==> outcome == BotNotFound
    ensures bot.Some? && bot.value.token == "" ==> outcome == NoToken
    ensures bot.Some? && bot.value.token != "" ==>
      var key := TargetKey(bot.value.token, intended);
      var payload := ToJson(BuildUpdate(bot.value.chatId, txt, isText, now));
      outcome == (if pushFault || key in old(store.locks) then PushFailed else Pushed(key, payload))
    ensures outcome.Pushed? ==>
      store.lists == old(store.lists)[outcome.key := old(store.List(outcome.key)) + [outcome.payload]]
    ensures !outcome.Pushed? ==> store.lists == old(store.lists)
  {
    if bot.None? {
      return BotNotFound;
    }
    var token := bot.value.token;
    if token == "" {
      return NoToken;
    }
    var queueKey := TargetKey(token, intended);
    var update := BuildUpdate(bot.value.chatId, txt, isText, now);
    var jsonStr := ToJson(update);
    var r := store.RPush(queueKey, jsonStr, pushFault);
    outcome := if r.Ok? then Pushed(queueKey, jsonStr) else PushFailed;
  }

  // ---------------------------------------------------------------------
  // The triggers

  /** The `exclude_ids` argument of a trigger: `None`, a list or tuple of ints, or anything else. */
  datatype ExcludeArg = NoneArg | IdList(ids: seq<int>) | OtherArg

  /** `None` and anything that is not a list or tuple become `[]`. */
  function NormalizeExclude(arg: ExcludeArg): (ids: seq<int>)
    ensures arg.IdList? ==> ids == arg.ids
    ensures !arg.IdList? ==> ids == []
  {
    match arg
    case IdList(ids) => ids
    case _ => []
  }

  /** The command text of `trigger_top_brand_command`: the name, one space, then the ids. */
  function TopBrandText(arg: ExcludeArg): string {
    "top_brand " + IdsText(NormalizeExclude(arg))
  }

  /** The command text of `trigger_top_category_command`. */
  function TopCategoryText(arg: ExcludeArg): string {
    "top_category " + IdsText(NormalizeExclude(arg))
  }

  /** Without ids the command keeps its trailing space. */
  lemma EmptyExcludeText(arg: ExcludeArg)
    requires !arg.IdList? || arg.ids == []
    ensures TopBrandText(arg) == "top_brand " && TopCategoryText(arg) == "top_category "
  {
  }

  /** The text `trigger_popular_command` sends. */
  const PopularText: string := "popular"

  /** A product with an empty `caption_data`, newest first. */
  datatype ProductRow = ProductRow(productType: string, productId: string)

  /** The link `reparse_empty_caption_products` builds; `None` when `link` stays unbound. */
  function ReparseLink(p: ProductRow): (link: Option<string>)
    ensures link.Some? <==> p.productType == "wb" || p.productType == "ozon"
    ensures p.productType == "wb" ==> link == Some("https://www.wildberries.ru/catalog/" + p.productId + "/detail.aspx")
    ensures p.productType == "ozon" ==> link == Some("https://ozon.ru/" + p.productId)
  {
    if p.productType == "wb" then Some("https://www.wildberries.ru/catalog/" + p.productId + "/detail.aspx")
    else if p.productType == "ozon" then Some("https://ozon.ru/" + p.productId)
    else None
  }

  datatype ReparseOutcome =
    | NoProducts
    | ReparseRaised            // `UnboundLocalError` or `DoesNotExist`, logged and re-raised
    | Injected(put: InjectOutcome)

  /**
   * `reparse_empty_caption_products(bot_id)` over the products with an empty
   * caption, ordered by `-updated_at`: the newest one is re-submitted as a
   * plain-text update carrying its link.
   */
  method ReparseEmptyCaption(store: Store, products: seq<ProductRow>, bot: Option<BotRecord>, now: nat, pushFault: bool,
                             intended: bool)
    returns (outcome: ReparseOutcome)
    requires store.Valid()
    modifies store
    ensures store.Valid() && store.locks == old(store.locks)
    ensures products == [] ==> outcome == NoProducts
    ensures products != [] && ReparseLink(products[0]).None? ==> outcome == ReparseRaised
    ensures products != [] && ReparseLink(products[0]).Some? && bot.None? ==> outcome == ReparseRaised
    ensures outcome.Injected? ==>
      products != [] && bot.Some? && ReparseLink(products[0]).Some?
      && (outcome.put.Pushed? ==> outcome.put.payload == ToJson(BuildUpdate(bot.value.chatId, ReparseLink(products[0]).value, true, now)))
    ensures products != [] && ReparseLink(products[0]).Some? && bot.Some? ==> outcome.Injected?
    ensures outcome.Injected? && outcome.put.Pushed? ==>
      outcome.put.key == TargetKey(bot.value.token, intended)
      && store.lists == old(store.lists)[outcome.put.key := old(store.List(outcome.put.key)) + [outcome.put.payload]]
    ensures !(outcome.Injected? && outcome.put.Pushed?) ==> store.lists == old(store.lists)
  {
    if products == [] {
      return NoProducts;
    }
    var link := ReparseLink(products[0]);
    if link.None? {
      return ReparseRaised;
    }
    var put := PutCommand(store, bot, link.value, true, now, pushFault, intended);
    outcome := if put == BotNotFound then ReparseRaised else Injected(put);
  }
}
