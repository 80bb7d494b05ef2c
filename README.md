# A verified model of the Telegram bot server's core

The system is a Django server that runs several Telegram bots. Telegram posts
updates to a webhook view, which pushes each raw body onto a Redis list; a
Celery worker per bot holds a Redis lock (`setnx`), pops the list one message
at a time and hands each decoded update to the bot's handlers, so that one
bad message never stops the loop. Periodic tasks inject synthetic bot
commands (`/top_brand`, `/top_category`, `/popular`) into a queue with a
sentinel sender, and the marketplace parser bot answers them by posting the
ranking of the most requested products to a marketing group. The bots
themselves are a Wildberries/Ozon card parser and two tarot bots that parse a
`/card` command, draw cards, caption them and page through their meanings
with inline buttons whose callback data is a `"_"`-separated string.

The model, one Dafny module per source file:

- `RedisStore` – the Redis key space as a class: lists (`map<string, seq<string>>`) and held locks (`set<string>`), with `setnx`, `delete`, `rpush` and `lpop`.
- `DispatchWorker` (app/tg_bot/tasks.py) – the lock guard of `process_bot`, handler registration and the poll loop of `run_bot`, proved against the specification function `Drain`.
- `Webhook` (app/tg_bot/views.py) – the webhook view.
- `CommandInjector` (app/cardparser/tasks.py) – the synthetic update envelope, its JSON text, the push, the `top_*` triggers and the reparse links.
- `Pipeline` – contracts across files: which queue the injector and the worker use, the `/top_brand` ids round trip, the sentinel.
- `LinkHandling`, `CardparserBot`, `ParserBot` (the two `parser.py` bots) – exclusion-id parsing, media classification, batching by 10, Ozon widget merging, the WB size and price summary, the image probes, the Ozon branch priority, search queries and the marketing-group messages.
- `Templates` (app/cardparser/utils.py) – `render_template`.
- `Ranking` (app/cardparser/services/marketing_queryset.py and popular.py) – the popular-products and top-brand rankings (popular.py repeats `get_popular_products` of marketing_queryset.py, so one member models both) as functions over a list of `(product, sent_at)` events with integer times.
- `WbImageUrl` (app/tg_bot/bot/wb_image_url.py) – the basket host arithmetic.
- `Scanner`, `TarotOptions`, `TarotCards`, `TarotCallbacks`, `TarotPaging` (app/tarot/bot/tarot.py) – the hand-written scanners for the `card`/`deck` patterns, `/card` options and card-id padding, `get_cards`, `format_card_name`, the exclusion dictionaries, the callback data and their round trips, `split_text`, the pagination keyboard, the deck pages and the all-cards view.
- `SimpleTarot` (app/tg_bot/bot/tarot.py) – the `/card` handler of the second tarot bot.
- `AppStartup` (app/tg_bot/apps.py) – the start-once gate of `TgBotConfig.ready`.
- `Wrappers`, `Text` – `Option`, and Python's string operations on `seq<char>` (`split`, `join`, `strip`, `replace`, `str`/`int` of integers, list indexing).

Python's `//` and `%` by a positive divisor round towards minus infinity, which is what Dafny's `/` and `%` do for a positive divisor, so they are used directly. Exceptions become `Option` values or error outcomes, and the outcomes of the environment (a Redis fault, an HTTP status, a database lookup, a random draw) are parameters.

## Model

| member | source | states |
|---|---|---|
| RedisStore.Store.SetNx | app/tg_bot/tasks.py:88 | the lock is taken exactly when the key is absent as any type; only that key is added to the locks and no list changes |
| RedisStore.Store.Delete | app/tg_bot/tasks.py:108 | the key is gone afterwards, whatever its type; every other key is unchanged |
| RedisStore.Store.RPush | app/tg_bot/views.py:32 | on success the value is appended at the tail of exactly that list and the new length is answered; a fault or a string key changes nothing |
| RedisStore.Store.LPop | app/tg_bot/tasks.py:53 | the head of the list is removed and answered, `None` for an empty or missing list; a fault changes nothing |
| DispatchWorker.LockKey | app/tg_bot/tasks.py:80 | the lock key is `"bot_processing_lock_"` followed by the token |
| DispatchWorker.LockKeyInjective | app/tg_bot/tasks.py:80 | distinct tokens get distinct lock keys |
| DispatchWorker.QueueKeyIsNoLock | app/tg_bot/tasks.py:53 | the queue key `"bot_messages_queue"` is no lock key |
| DispatchWorker.LookupGlobal | app/tg_bot/tasks.py:29-32 | `globals().get` finds a truthy value exactly for the module's imported and defined names and the module attributes Python sets other than the `None` of `__doc__`, and a bot class exactly for that class's name |
| DispatchWorker.Application.AddHandler | app/tg_bot/tasks.py:41 | the handler is appended to the application's handler list |
| DispatchWorker.RegisterHandlers | app/tg_bot/tasks.py:40-41 | the application's handlers are the old ones followed by the given ones, in order |
| DispatchWorker.DrainConsumesInOrder | app/tg_bot/tasks.py:50-75 | one event per iteration; the popped messages followed by the rest of the queue are the original queue (FIFO, at most one message per iteration) |
| DispatchWorker.DrainSnoc | app/tg_bot/tasks.py:50-75 | one more iteration extends the run by exactly one step |
| DispatchWorker.DrainIgnoresOutcomes | app/tg_bot/tasks.py:55-67 | a failing decode or handler never changes which messages are consumed or what stays queued |
| DispatchWorker.DrainEmpties | app/tg_bot/tasks.py:53-54 | with no failed poll, as many iterations as messages empty the queue |
| DispatchWorker.PollLoop | app/tg_bot/tasks.py:50-75 | the queue and the events are those of the specification `Drain`; no other key and no lock changes |
| DispatchWorker.RunBot | app/tg_bot/tasks.py:27-75 | an unknown class or a failed setup touches no list; a served bot has its class's handlers in order and its queue drained as `Drain` says |
| DispatchWorker.Guarded | app/tg_bot/tasks.py:92-109 | once the lock is held, it is deleted on every exit of the body (normal, exception or SIGTERM); the lists change only through the poll loop |
| DispatchWorker.ProcessBot | app/tg_bot/tasks.py:78-109 | when the lock exists nothing runs and the lock stays; otherwise the lock is taken, the body runs, and the lock is released on every exit |
| Webhook.OkUnreachable | app/tg_bot/views.py:32-39 | as written no request receives the "ok" response; a successful push still answers error/400 |
| Webhook.IntendedRespond | app/tg_bot/views.py:25-41 | "ok" exactly for a POST whose body was queued; otherwise the error/400 response (or the uncaught decode error) |
| Webhook.HandleWebhook | app/tg_bot/views.py:24-41 | a POST with a decodable body and a working `rpush` appends the body, unparsed, to the tail of `"bot_messages_queue"` whatever the token; anything else leaves every list unchanged; the response is as written or as intended |
| CommandInjector.CommandLength | app/cardparser/tasks.py:37 | the entity length is the position of the first space of the command, or its whole length |
| CommandInjector.CommandLengthExample | app/cardparser/tasks.py:35-37 | `"/top_brand 12 34"` has a command of length 10 |
| CommandInjector.CommandLengthUnique | app/cardparser/tasks.py:37 | the first-space property determines the command length |
| CommandInjector.BuildUpdate | app/cardparser/tasks.py:33-73 | update id and date are the clock, message id is the clock mod 100000 (< 100000); the sender is the non-bot `"django_task"` with the chat id, the chat is private; one entity at offset 0: a URL over the whole text, or a bot command over `"/" + txt` up to its first space |
| CommandInjector.EscapeRoundTrip | app/cardparser/tasks.py:77 | `json.loads` reads back every string `json.dumps` wrote |
| CommandInjector.ToJson | app/cardparser/tasks.py:77 | the serialised update is a JSON object opening with `{` that ends with the `text` member (the message text as a JSON string), then the `entities` array and `]}}` |
| CommandInjector.PutCommand | app/cardparser/tasks.py:24-81 | a missing bot raises, an empty token pushes nothing; otherwise the serialised update is appended to the per-token key (or, with the fix, the worker's queue), and a failing push is swallowed with nothing appended |
| CommandInjector.NormalizeExclude | app/cardparser/tasks.py:110-114 | `None` and anything not a list or tuple become `[]`; a list is kept |
| CommandInjector.EmptyExcludeText | app/cardparser/tasks.py:115-117 | without ids the command texts keep their trailing space |
| CommandInjector.ReparseLink | app/cardparser/tasks.py:151-154 | the link is the Wildberries catalogue URL for a `wb` product and the Ozon URL for an `ozon` one; any other type leaves it unbound |
| CommandInjector.ReparseEmptyCaption | app/cardparser/tasks.py:142-163 | no product does nothing; an unbound link or a missing bot raises; with a known link and a bot the newest product's link is always injected, and a push goes to the bot's queue key, appending the plain-text update to that list and changing no other |
| Pipeline.InjectorKeyNeverPolled | app/cardparser/tasks.py:31 | as written the injector's key `"bot_messages_queue_" + token` is never the key the worker polls or the webhook pushes |
| Pipeline.Inject | app/cardparser/tasks.py:24-81 | as written a pushed update is appended to a list of its own and the worker's queue is untouched; with the fix it is appended to the queue; nothing pushed changes nothing |
| Pipeline.ExcludeCommandRoundTrip | app/cardparser/tasks.py:35-37 | a command word, one space and the ids, sent as a command, parse back into the ids from the text of the update |
| Pipeline.IntendedKeyPolled | app/tg_bot/tasks.py:53 | with the fix the injector writes the key the worker polls |
| Pipeline.InjectThenPoll | app/cardparser/tasks.py:78 | after an injection as written the worker pops only what its queue held before; with the fix enough successful polls pop the old messages and then the update, in order |
| Pipeline.TopBrandRoundTrip | app/cardparser/tasks.py:110-117 | the ids the brand trigger injects are parsed back, by the brand handler, into the normalised id list |
| Pipeline.TopCategoryRoundTrip | app/cardparser/tasks.py:132-139 | the same for the category trigger and handler |
| Pipeline.SentinelMatches | app/cardparser/tasks.py:53 | the injected sender name passes the marketing send's guard; any other name sends nothing |
| CardparserBot.ParseIdsSome | app/cardparser/bot/parser.py:642 | the id list exists exactly when every token is an integer |
| CardparserBot.ParseIdsValues | app/cardparser/bot/parser.py:642 | the list holds the tokens' values, in order |
| CardparserBot.ParseIdsAt | app/cardparser/bot/parser.py:642 | each entry of a parsed list is the value of the token at its position |
| CardparserBot.ExcludeIdsRoundTrip | app/cardparser/bot/parser.py:639-642 | a command word, one space and the space-joined ids parse back into exactly those ids, the empty list included |
| CardparserBot.IdsTextParses | app/cardparser/bot/parser.py:642 | the space-joined ids, split at single spaces, parse back into the ids |
| CardparserBot.SplitCommandAlone | app/cardparser/bot/parser.py:639-641 | a command word with only a trailing space has no remainder, so the list stays empty |
| CardparserBot.DoubleSpaceRaises | app/cardparser/bot/parser.py:626 | two spaces between ids give an empty token, on which `int` raises |
| CardparserBot.MediaTypeOf | app/cardparser/bot/parser.py:294-301 | a link exactly when the lower-cased media starts with `http://` or `https://`; the media is kept as the URL or as the file id |
| CardparserBot.MediaTypeUpperCase | app/cardparser/bot/parser.py:296 | the scheme is matched in any letter case |
| CardparserBot.FileIdIsTelegram | app/cardparser/bot/parser.py:299-301 | media without a `:` is always a Telegram file id |
| CardparserBot.SizeEntryOf | app/cardparser/bot/parser.py:122-142 | the size keeps its name, is available exactly when it has stocks, and is priced by `product`, else `basic`, else 0; a falsy price dict gives no price; an explicit `None` fallback raises |
| CardparserBot.SizeEntries | app/cardparser/bot/parser.py:121-142 | the loop succeeds exactly when every size does, one entry per size in order |
| CardparserBot.SummariseSizes | app/cardparser/bot/parser.py:121-142 | the loop's result is that of `SizeEntries` |
| CardparserBot.CommonPrice | app/cardparser/bot/parser.py:144-153 | when the available prices form one value, it is the price of every available size |
| CardparserBot.SizeText | app/cardparser/bot/parser.py:160-162 | as written a size shows only its mark and name; with the intended guard a priced size without a common price also shows its price |
| CardparserBot.WbLines | app/cardparser/bot/parser.py:150-166 | heading with the article, the brand and the linked name, the common price line exactly when the available sizes share one price, then the sizes heading and list |
| CardparserBot.WbCard | app/cardparser/bot/parser.py:100-184 | a picture exactly when the card is readable, the image URL truthy and every price computable; its caption joins the lines with newlines |
| CardparserBot.SizesLineIgnoresPrices | app/cardparser/bot/parser.py:157-166 | as written the sizes list never carries a price, whatever the prices |
| CardparserBot.TwoPricesNotCommon | app/cardparser/bot/parser.py:144-147 | two available sizes at 1 and 2 roubles have no common price |
| CardparserBot.TwoPricesAsWritten | app/cardparser/bot/parser.py:162 | for those two sizes neither price appears anywhere as written |
| CardparserBot.TwoPricesIntended | app/cardparser/bot/parser.py:162 | with the intended guard the list carries each size's own price |
| CardparserBot.PricedSize | app/cardparser/bot/parser.py:139-162 | with the intended guard an available size priced in whole roubles reads its name, a dash and the price with `.0` |
| CardparserBot.IntendedShowsEveryPrice | app/cardparser/bot/parser.py:152-166 | with the intended guard every priced available size shows its price, on the common line or in its own entry |
| CardparserBot.ItemsOfRows | app/cardparser/services/marketing_queryset.py:98-107 | one item per ranked row, in order, with its id, count and platform |
| CardparserBot.LinesAppend | app/cardparser/bot/parser.py:694-701 | the lines of consecutive runs of items follow each other and the numbering goes on |
| CardparserBot.LinesNumbering | app/cardparser/bot/parser.py:694-701 | item `k` is on the line numbered `start + k`, after the lines of the items before it |
| CardparserBot.MediaGroup | app/cardparser/bot/parser.py:708-744 | at most one photo per item, in order, each with a non-empty file id; all items with a photo give all photos, none gives none |
| CardparserBot.MarketingDelivers | app/cardparser/bot/parser.py:668-706 | something is sent exactly for the sentinel sender with active settings, a group id, some items and a template; the header then goes to that group and starts with the template text |
| CardparserBot.BuildHeader | app/cardparser/bot/parser.py:693-701 | the header is the template text followed by one line per item, numbered from 1 |
| CardparserBot.BuildMediaGroup | app/cardparser/bot/parser.py:708-744 | the loop succeeds exactly when every item has a caption, and then builds `MediaGroup` |
| CardparserBot.SendToMarketingGroup | app/cardparser/bot/parser.py:659-761 | what is sent is what `Marketing` says |
| CardparserBot.TopBrandItemsReached | app/cardparser/bot/parser.py:638-652 | once the ids parse, the brand command reaches the marketing send exactly when some product qualifies |
| CardparserBot.ItemsOfSortedRows | app/cardparser/bot/parser.py:694 | items of ranked rows keep their order and their distinct products |
| CardparserBot.TopBrandItemsRanked | app/cardparser/bot/parser.py:643-645 | the brand command passes the items of the top 5 products of the chosen brand's sends in the last 24 hours: ranked, one per product, each with its in-window count and latest send, all of them when fewer than 5 come back, and no left-out product of the brand ranks above one kept |
| CardparserBot.BrandItemsOfRows | app/cardparser/bot/parser.py:643-645 | the items of the brand's top rows keep their products, order and in-window counts |
| CardparserBot.HandlePopular | app/cardparser/bot/parser.py:654-657 | the popular command passes to the marketing send the items of the top 5 products of the last 24 hours: distinct, ranked by count, each sent in the window with its in-window count, every sent product when fewer than 5 come back, and no left-out product ranking above one kept |
| LinkHandling.Kept | app/tg_bot/bot/parser.py:148-151 | at most one picture per link, each with a non-empty media; no kept parse gives no picture |
| LinkHandling.KeptAppend | app/cardparser/bot/parser.py:202-205 | the pictures of consecutive runs of links follow each other, in link order |
| LinkHandling.KeptOne | app/cardparser/bot/parser.py:204 | a link whose parse is truthy with a truthy media contributes exactly its picture; any other contributes nothing |
| LinkHandling.CollectPictures | app/tg_bot/bot/parser.py:147-151 | the append loop collects exactly `Kept` of the parse results |
| LinkHandling.FlattenSnoc | app/cardparser/bot/parser.py:320-321 | appending one group to the groups appends its items to their concatenation |
| LinkHandling.Batch | app/cardparser/bot/parser.py:320-321 | the groups concatenate back to the list in order; none is empty, all but the last hold 10, and there are ceil(n / 10) of them |
| LinkHandling.ReplyGroups | app/tg_bot/bot/parser.py:147-179 | the replies are groups of at most 10 that concatenate back to the kept pictures; no kept picture sends no reply |
| LinkHandling.GetOzonWidget | app/tg_bot/bot/parser.py:205-213 | the update loop computes `OzonWidget`: the merge of the matching states, or `{}` on an error |
| LinkHandling.MergeFromMalformed | app/cardparser/bot/parser.py:357-358 | one malformed matching state makes the merge fail |
| LinkHandling.MergeFromWellFormed | app/cardparser/bot/parser.py:357-358 | without a malformed matching state the merge succeeds |
| LinkHandling.MergeFromFields | app/cardparser/bot/parser.py:355-359 | a field is in the merge exactly when it is in the start value or in some matching state, and its value is that of the last matching state holding it |
| LinkHandling.MergeFromHas | app/cardparser/bot/parser.py:355-359 | the merge succeeds and holds a field exactly when the start value or some matching state has it |
| LinkHandling.MergeFromLast | app/cardparser/bot/parser.py:358 | a field takes the value of the last matching state holding it |
| LinkHandling.MergeFromKept | app/cardparser/bot/parser.py:356-358 | a field no matching state holds keeps its start value |
| LinkHandling.OzonWidgetMalformed | app/cardparser/bot/parser.py:353-361 | a malformed matching state gives `{}` |
| LinkHandling.OzonWidgetFields | app/cardparser/bot/parser.py:353-361 | with well-formed matching states the widget holds exactly their fields, the last key in order winning |
| LinkHandling.OzonWidgetAbsent | app/tg_bot/bot/parser.py:207-211 | no matching key gives `{}`, which is falsy |
| LinkHandling.SearchQuery | app/cardparser/bot/parser.py:566-574 | a query exactly when the text has a second part; the query is non-empty, at most 50 characters and starts with no whitespace; otherwise the prompt |
| LinkHandling.SearchQueryOf | app/tg_bot/bot/parser.py:385-388 | the command, whitespace and an argument ask for the argument's first 50 characters |
| LinkHandling.SearchQueryBare | app/tg_bot/bot/parser.py:431-433 | the bare command, with or without trailing whitespace, gets the prompt |
| ParserBot.FirstHit | app/tg_bot/bot/parser.py:58-73 | the first probe answering 200 with a readable length, with no hit before it; none when no probe hits |
| ParserBot.ProbeImages | app/tg_bot/bot/parser.py:58-79 | the loop stops at the first hit and reports its size and URL; with no hit, or when the host raises, `image_size` stays unbound |
| ParserBot.FirstHitAt | app/tg_bot/bot/parser.py:66-73 | a hit with no hit before it is the first hit |
| ParserBot.FirstHitNone | app/tg_bot/bot/parser.py:58-79 | without any hit there is no first hit |
| ParserBot.CaptionLines | app/tg_bot/bot/parser.py:104-120 | four lines: the heading with the article, the brand and the linked name, the price line and the sizes line |
| ParserBot.WbSucceeds | app/tg_bot/bot/parser.py:46-130 | a picture exactly when the card loaded, the host was built, a probe answered 200 with a readable length, and a large picture could be re-sent |
| ParserBot.WbPicture | app/tg_bot/bot/parser.py:80-127 | the picture is the probed URL, or the upload's file id above 51000 bytes, under the card's caption |
| ParserBot.WbNeedsHit | app/tg_bot/bot/parser.py:80 | without a 200 answer `wb` gives `None` |
| ParserBot.PriceLineStrikes | app/tg_bot/bot/parser.py:93-113 | the list price is struck through after the sale price exactly when `salePriceU` is present; otherwise the line is the price alone |
| ParserBot.SizeMarkAvailable | app/tg_bot/bot/parser.py:98-120 | a size is marked ✅ exactly when it has stocks and ❌ otherwise, followed by its name |
| ParserBot.OzonPriority | app/tg_bot/bot/parser.py:263-326 | error or adult check first, then out of stock, then price or sale, then the search header; none of them gives `None` |
| ParserBot.OzonMediaTruthy | app/tg_bot/bot/parser.py:325-332 | a picture is answered only when the chosen branch found a true one |
| ParserBot.PriceCardCover | app/tg_bot/bot/parser.py:307 | a product card takes the gallery's cover, or the heading's when the gallery has none |
| Templates.Placeholder | app/cardparser/utils.py:20 | the placeholder is the key in braces |
| Templates.RenderTemplate | app/cardparser/utils.py:15-25 | the reassignment loop computes `Render`: `""` for a missing template, else the entries applied in order |
| Templates.ApplyAllAppend | app/cardparser/utils.py:19-23 | applying two runs of entries is applying their concatenation |
| Templates.RenderSnoc | app/cardparser/utils.py:19-23 | substitution is sequential: the last entry replaces its placeholder in the output of all earlier ones |
| Templates.RenderNoneEntry | app/cardparser/utils.py:22 | an entry whose value is `None` changes nothing, so its placeholder stays |
| Templates.RenderNoTemplate | app/cardparser/utils.py:15-16 | a `None`, empty or non-string template renders as `""` |
| Templates.RenderEmptyContext | app/cardparser/utils.py:18-25 | an empty context returns the template unchanged |
| Templates.ApplyAllAbsent | app/cardparser/utils.py:19-23 | entries whose placeholders the template lacks leave it unchanged |
| Templates.RenderGreeting | app/cardparser/utils.py:8-9 | the documented `("Привет, {name}!", {"name": ...})` renders with the placeholder replaced by the name, for any name without a brace |
| Templates.RenderChained | app/cardparser/utils.py:19-23 | a value holding a later key's placeholder is substituted again |
| Ranking.Window | app/cardparser/services/marketing_queryset.py:126-131 | the window keeps exactly the sends made at or after the threshold `now - (days, hours)` and no others |
| Ranking.Count | app/cardparser/services/marketing_queryset.py:134 | `Count('product_id')` of a product is positive exactly when the product was sent, and never more than the number of sends |
| Ranking.LastSent | app/cardparser/services/marketing_queryset.py:135 | `Max('sent_at')` of a sent product is the time of one of its sends and no send of it is later |
| Ranking.Distinct | app/cardparser/services/marketing_queryset.py:132 | grouping by `product_id` yields each sent product exactly once |
| Ranking.Insert | app/cardparser/services/marketing_queryset.py:171 | one insertion step of the sort keeps the same multiset of statistics plus the inserted one |
| Ranking.InsertSorted | app/cardparser/services/marketing_queryset.py:171 | inserting into a list sorted by descending count, then descending latest send, keeps it sorted |
| Ranking.InsertDistinct | app/cardparser/services/marketing_queryset.py:171 | inserting a product not yet listed keeps one entry per product |
| Ranking.SortRanked | app/cardparser/services/marketing_queryset.py:137 | `order_by('-request_count', '-last_sent')` returns a permutation of its input |
| Ranking.SortRankedMembers | app/cardparser/services/marketing_queryset.py:137 | the ordered statistics hold exactly the statistics it was given |
| Ranking.SortRankedHead | app/cardparser/services/marketing_queryset.py:137 | the first of the ordered statistics ranks at least as high as every statistic it was given |
| Ranking.SortRankedSorted | app/cardparser/services/marketing_queryset.py:137 | the ordering is sorted by descending count, then descending latest send |
| Ranking.SortRankedDistinct | app/cardparser/services/marketing_queryset.py:137 | ordering statistics with one entry per product keeps one entry per product |
| Ranking.InsertAfterAll | app/cardparser/services/marketing_queryset.py:171 | an entry ranking no higher than every entry of a sorted list is placed last |
| Ranking.SortRankedOfSorted | app/cardparser/services/marketing_queryset.py:170-171 | re-sorting rows already in database order leaves them as they are, which is what the "keep the order" sort relies on |
| Ranking.Stats | app/cardparser/services/marketing_queryset.py:132-136 | the annotated statistics hold one entry per sent product, with that product's count and latest send, and no entry for a product never sent |
| Ranking.TopStatsOrder | app/cardparser/services/marketing_queryset.py:137 | the sliced statistics are at most `limit`, sorted, one per product |
| Ranking.PrefixSortedDistinct | app/cardparser/services/marketing_queryset.py:137 | a slice of a sorted list of distinct products is sorted and distinct |
| Ranking.TopStatsCounts | app/cardparser/services/marketing_queryset.py:132-137 | each of the top statistics is of a sent product and carries its count and latest send |
| Ranking.TopStatsComplete | app/cardparser/services/marketing_queryset.py:137 | when the slice returns fewer than `limit` entries, every sent product is among them |
| Ranking.TopStatsProperties | app/cardparser/services/marketing_queryset.py:129-141 | the top statistics are bounded, sorted, one per product, exact, complete below the limit, no higher-ranked than any kept for a product left out, and empty when nothing was sent |
| Ranking.StatOf | app/cardparser/services/marketing_queryset.py:132-136 | the statistic of a sent product is its count and its latest send |
| Ranking.TopStatsMaximal | app/cardparser/services/marketing_queryset.py:137 | a sent product is among the top statistics or ranks no higher than each of them |
| Ranking.SliceKeepsOrRanksAbove | app/cardparser/services/marketing_queryset.py:137 | slicing a sorted list keeps an entry in place or leaves it below every kept entry |
| Ranking.TypeDisplay | app/cardparser/services/marketing_queryset.py:163 | `get_product_type_display()` shows "Wildberries" for `wb`, "Ozon" for `ozon` and the raw value otherwise |
| Ranking.MakeRow | app/cardparser/services/marketing_queryset.py:157-168 | a row carries the product's statistics, its name or "Без названия" when the name is empty or missing, its brand and category names or "—", its caption and its marketplace id |
| Ranking.BuildRows | app/cardparser/services/marketing_queryset.py:155-173 | the appended, re-sorted and sliced rows are one row per statistic, in the statistics' order |
| Ranking.RowsKeepStats | app/cardparser/services/marketing_queryset.py:155-171 | the rows keep each statistic's product, count and latest send, and so its order and distinctness |
| Ranking.WindowConsistent | app/cardparser/services/marketing_queryset.py:126-131 | every send of the window is of a product in the catalog when every send is |
| Ranking.PopularProducts | app/cardparser/services/marketing_queryset.py:115-173 | the top `limit` products of the window (and of popular.py, which repeats the query): at most `limit` rows, sorted, one per product sent in the window, each with its in-window count and latest send; every sent product when fewer than `limit` come back; a product left out ranks no higher than any row; `[]` for an empty window |
| Ranking.RowsOfTopStats | app/cardparser/services/marketing_queryset.py:132-173 | rows made one per top statistic are the top `limit` products of the sends: bounded, sorted, distinct, exact, complete below the limit and maximal |
| Ranking.QualifyingProducts | app/cardparser/services/marketing_queryset.py:27-43 | the distinct requested products that have a brand and whose category is not excluded, each once |
| Ranking.FilterDistinct | app/cardparser/services/marketing_queryset.py:36-43 | filtering distinct product ids keeps exactly the qualifying ones, each once |
| Ranking.ProductsOfBrand | app/cardparser/services/marketing_queryset.py:44-46 | the qualifying products of one brand are exactly those whose brand it is |
| Ranking.LatestOf | app/cardparser/services/marketing_queryset.py:47 | `Max('product_users__sent_at')` is `None` only when no product of the group was ever sent, otherwise the time of one of their sends with no send later |
| Ranking.BrandsOf | app/cardparser/services/marketing_queryset.py:44 | `values('brand_id')` groups by exactly the brands of the qualifying products |
| Ranking.BrandStat | app/cardparser/services/marketing_queryset.py:45-48 | a brand's statistic counts its distinct qualifying products and carries the latest send of any of them |
| Ranking.BrandStats | app/cardparser/services/marketing_queryset.py:44-48 | one statistic per brand, in the brands' order |
| Ranking.BrandStatsMembers | app/cardparser/services/marketing_queryset.py:44-48 | each statistic is that of a brand of a qualifying product, and every listed brand has its statistic among them |
| Ranking.ChosenBrandMaximal | app/cardparser/services/marketing_queryset.py:49-54 | a brand is chosen iff some product qualifies, and the chosen brand ranks at least as high as every brand of a qualifying product |
| Ranking.BrandSends | app/cardparser/services/marketing_queryset.py:69-72 | the in-window sends of the brand's products are exactly the window's sends whose product has that brand |
| Ranking.TopRows | app/cardparser/services/marketing_queryset.py:92-105 | a row per top statistic, built from the catalogue |
| Ranking.QualifyingSent | app/cardparser/services/marketing_queryset.py:27-43 | every qualifying product has a brand and was sent |
| Ranking.BrandNone | app/cardparser/services/marketing_queryset.py:31-32 | the brand query answers `{}` exactly when no product sent in the window has a brand outside the excluded categories |
| Ranking.BrandChoice | app/cardparser/services/marketing_queryset.py:35-65 | the chosen brand is the brand of a qualifying product, its count is its number of qualifying products and its latest send their latest send, and no brand of a qualifying product has more products, or as many and a later send |
| Ranking.TopRowsOfSorted | app/cardparser/services/marketing_queryset.py:107-108 | rows built from sorted statistics of distinct products stay sorted and keep their ids and counts |
| Ranking.BrandTopStats | app/cardparser/services/marketing_queryset.py:68-79 | the brand's top statistics are bounded, sorted, one per product, of the brand's products with their in-window counts and latest sends, every sent product of the brand when fewer than `limit` come back, and none left out ranking above one kept |
| Ranking.BrandTopItems | app/cardparser/services/marketing_queryset.py:68-79 | each of the brand's top statistics is of a product of the brand sent in the window, with its in-window count and latest send |
| Ranking.BrandTopCovers | app/cardparser/services/marketing_queryset.py:68-79 | a product of the brand sent in the window is among the top statistics when fewer than `limit` come back, and ranks no higher than each of them when left out |
| Ranking.BrandSendsAgree | app/cardparser/services/marketing_queryset.py:69-76 | a product of the brand is sent, counted and last sent the same among the brand's sends as in the window |
| Ranking.BrandLastSent | app/cardparser/services/marketing_queryset.py:76 | a product of the brand has the same latest send among the brand's sends as in the window |
| Ranking.LastSentCovered | app/cardparser/services/marketing_queryset.py:76 | `Max('sent_at')` of a product over fewer sends is no later |
| Ranking.BrandSendsOfBrand | app/cardparser/services/marketing_queryset.py:69-72 | a product among the brand's sends is of that brand and sent in the window |
| Ranking.BrandRowsTop | app/cardparser/services/marketing_queryset.py:68-108 | the rows of the brand's top statistics are the top `limit` products of the brand's sends, of the brand, with their in-window counts and latest sends |
| Ranking.BrandTopProducts | app/cardparser/services/marketing_queryset.py:68-113 | the top products of the chosen brand are the top `limit` of its sends in the window, whatever their category: bounded, sorted, one per product, complete below the limit and maximal, each of that brand with its in-window count and latest send |
| Ranking.BrandRecord | app/cardparser/services/marketing_queryset.py:57 | the brand record of `Brand.objects.get` is the one a qualifying product of that brand refers to |
| Ranking.BrandData | app/cardparser/services/marketing_queryset.py:56-65 | the brand dict carries the name and the displayed `product_type` of the chosen brand, as a qualifying product of it records them |
| Ranking.CountOfBrandSends | app/cardparser/services/marketing_queryset.py:69-75 | restricting the window to the brand's sends keeps every send of a product of that brand |
| WbImageUrl.FloorDiv | app/tg_bot/bot/wb_image_url.py:4 | `e // 100000` is the floor quotient: the dividend lies in `[d*q, d*q + d)`, negative article numbers included |
| WbImageUrl.BasketNumber | app/tg_bot/bot/wb_image_url.py:5-62 | every volume is mapped to one of the baskets 01 to 29 |
| WbImageUrl.BasketRange | app/tg_bot/bot/wb_image_url.py:5-62 | a non-negative volume is in basket `k` exactly when it is above basket `k-1`'s largest volume and at most basket `k`'s |
| WbImageUrl.BasketBand | app/tg_bot/bot/wb_image_url.py:5-62 | a non-negative volume lies above the previous basket's largest volume and up to its own basket's |
| WbImageUrl.BoundsIncreasing | app/tg_bot/bot/wb_image_url.py:5-62 | the baskets' largest volumes grow |
| WbImageUrl.BasketMonotone | app/tg_bot/bot/wb_image_url.py:5-62 | a larger non-negative volume is never in a lower basket |
| WbImageUrl.BasketBoundaries | app/tg_bot/bot/wb_image_url.py:5-62 | volumes 0 and 143 are in basket 01, 144 in 02, 5501 in 28 and 5502 in 29 |
| WbImageUrl.BasketBeyondLast | app/tg_bot/bot/wb_image_url.py:59-62 | every volume past 5501 lands in basket 29 |
| WbImageUrl.BasketNegative | app/tg_bot/bot/wb_image_url.py:5-8 | a negative volume skips the first test and lands in basket 02 |
| WbImageUrl.BasketLabel | app/tg_bot/bot/wb_image_url.py:63 | the basket number is written as exactly two decimal digits |
| WbImageUrl.VolHostShape | app/tg_bot/bot/wb_image_url.py:3-63 | the host is `basket-`, the two digits of the volume's basket, `.wbbasket.ru/vol` and the volume `e // 100000` |
| WbImageUrl.ConstructHostShape | app/tg_bot/bot/wb_image_url.py:66-73 | the URL is built exactly when `int(e)` succeeds; it is `https://`, the basket host for kind `nm` (none for any other kind), `/part`, the part number `int(e) // 10000` for kind `video` and `int(e) // 1000` for every other kind, `/` and the article number, which reads back as `int(e)` |
| WbImageUrl.ConstructHostOfNumber | app/tg_bot/bot/wb_image_url.py:66-73 | for an article number written in decimal the URL is `https://`, the basket host for kind `nm` only, `/part` with the number `// 10000` for kind `video` and `// 1000` for every other kind, `/` and the number |
| Scanner.FirstMatchFrom | app/tarot/bot/tarot.py:385 | the scan from a position answers the first match at or after it, or none when no match follows |
| Scanner.FirstMatch | app/tarot/bot/tarot.py:385 | `re.search` finds a match exactly when one exists, and it is the leftmost |
| Scanner.DigitRun | app/tarot/bot/tarot.py:393-395 | `\d+` takes the longest run of digits at a position |
| Scanner.TwoDigitRun | app/tg_bot/bot/tarot.py:41-42 | `\d\d?` takes at most two digits, and two whenever two follow |
| Scanner.LeftmostUnique | app/tarot/bot/tarot.py:385 | a match with none before it is the one the search answers |
| Scanner.CardExample | app/tarot/bot/tarot.py:385 | in every command beginning `/card3 deck ` the count pattern is found at position 1 |
| Scanner.DeckExample | app/tarot/bot/tarot.py:393 | in every command beginning `/card3 deck ` and a digit the deck pattern is found at position 7 |
| Scanner.DigitRunExample | app/tarot/bot/tarot.py:393-395 | after `deck ` in `/card3 deck 123`, `\d+` reads `123` where `\d\d?` reads `12` |
| TarotOptions.ClampCounter | app/tarot/bot/tarot.py:389 | `max(1, min(n, 10))` lies in 1..10 and leaves a number already there unchanged |
| TarotOptions.Counter | app/tarot/bot/tarot.py:385-389 | the count is 1 without a `card` followed by a digit, otherwise the digit after the leftmost such `card`, clamped to 1..10 |
| TarotOptions.DeckOption | app/tarot/bot/tarot.py:393-396 | the deck is absent without a `deck ` followed by a digit, otherwise all the digits after the leftmost one |
| TarotOptions.NextModulo | app/tarot/bot/tarot.py:411 | stepping `(temp + 1) % 78` from a reduced number agrees with counting on and reducing once |
| TarotOptions.PadCardIds | app/tarot/bot/tarot.py:404-413 | exactly `counter` ids, all below 78: the given numbers modulo 78 as far as they go, then the numbers counting on from the last given one, modulo 78 |
| TarotOptions.ParseCardOptions | app/tarot/bot/tarot.py:383-421 | the option dictionary holds the clamped count, the deck, `flip` and `major` when those words occur, and padded card ids exactly when some were given |
| TarotOptions.Card3Deck | app/tarot/bot/tarot.py:385-396 | a command beginning `/card3 deck ` and a digit asks for three cards of the deck its digits spell, one digit when that digit ends the command |
| TarotOptions.HelpExample | app/tarot/bot/tarot.py:385-396 | `/card3 deck 5` asks for three cards of deck 5 |
| TarotOptions.ZeroCounterClamped | app/tarot/bot/tarot.py:389 | `/card0` asks for one card |
| TarotCards.IdsOf | app/tarot/bot/tarot.py:200-205 | the card numbers of the query, one per card in order |
| TarotCards.Filter | app/tarot/bot/tarot.py:211 | a comprehension keeps exactly the elements whose membership test comes out as required |
| TarotCards.FilterDistinct | app/tarot/bot/tarot.py:211 | filtering a list without repeats leaves none |
| TarotCards.Majors | app/tarot/bot/tarot.py:174-175 | the major-arcana filter keeps exactly the major cards |
| TarotCards.FirstIndex | app/tarot/bot/tarot.py:185 | the first position of an element present in the list |
| TarotCards.Dedup | app/tarot/bot/tarot.py:185 | `dict.fromkeys` keeps each requested number once and loses none |
| TarotCards.DedupOrder | app/tarot/bot/tarot.py:185 | the deduplicated numbers keep the order of their first request |
| TarotCards.FilterOrder | app/tarot/bot/tarot.py:195-197 | filtering keeps the order of first occurrence |
| TarotCards.Lookup | app/tarot/bot/tarot.py:228 | `aget(tarot_card__card_id=cid)` answers a card of the query with that number |
| TarotCards.GetCardsFails | app/tarot/bot/tarot.py:169-221 | `get_cards` raises for a missing deck, and raises "not enough cards" exactly when the deck exists and fewer cards are available than are still needed |
| TarotCards.GetCardsChosen | app/tarot/bot/tarot.py:182-244 | on success exactly `counter` cards, no card twice, the requested cards first in the order requested, each with its own reversal draw |
| TarotCards.DedupDistinctFiltered | app/tarot/bot/tarot.py:185-197 | the requested cards that are found appear once each |
| TarotCards.ManualIdsMeaning | app/tarot/bot/tarot.py:183-197 | the requested cards drawn are exactly the requested numbers the query finds, once each, in the order of their first request |
| TarotCards.GetCardsRandomPicks | app/tarot/bot/tarot.py:172-232 | every drawn card is a card of the deck; a random one is neither excluded nor requested; with the major filter on and no numbers given, every card is a major arcanum |
| TarotCards.MajorIgnoredWithIds | app/tarot/bot/tarot.py:174-175 | with card numbers given the `major` flag changes nothing |
| TarotCards.Present | app/tarot/bot/tarot.py:302-318 | dropping the `None` items never lengthens the list |
| TarotCards.PresentThree | app/tarot/bot/tarot.py:302-318 | of three optional items, those present are kept in order |
| TarotCards.FormatCardNameLines | app/tarot/bot/tarot.py:299-319 | the caption is the name, then "Перевернуто" when reversals are on and the card came out reversed, then for an oracle card its description and the reading of that orientation |
| TarotCards.TarotNameLines | app/tarot/bot/tarot.py:299-319 | a tarot card's caption is its name, then "Перевернуто" when shown reversed |
| TarotCards.OracleNameLines | app/tarot/bot/tarot.py:299-319 | an oracle card's caption adds the line of its description and the reading of that orientation |
| TarotCards.TarotCaption | app/tarot/bot/tarot.py:299-319 | a tarot card's caption is its name, with "Перевернуто" on a second line exactly when it is shown reversed |
| TarotCards.ReversedLineIff | app/tarot/bot/tarot.py:299-319 | when no field holds a line break, a "Перевернуто" line follows the name if and only if the card is shown reversed |
| TarotCards.RequestedIds | app/tarot/bot/tarot.py:184 | `str` of each parsed card number, none when none were parsed |
| TarotCards.TarotSession.constructor | app/tarot/bot/tarot.py:39-40 | both module dictionaries start empty |
| TarotCards.TarotSession.SaveReading | app/tarot/bot/tarot.py:113-130 | the user's reading message is remembered and the exclusions are untouched |
| TarotCards.TarotSession.DrawReading | app/tarot/bot/tarot.py:427-445 | the cards are `get_cards` of the options; once saved they are the user's whole exclusion list and the message starts the reading; on a failure nothing changes |
| TarotCards.TarotSession.DrawMore | app/tarot/bot/tarot.py:626-703 | one more card, never one of the user's reading so far; once saved it is appended to the exclusions; on a failure nothing changes; the reading ids are untouched |
| TarotCallbacks.ParseAll | app/tarot/bot/tarot.py:911-914 | the parsed list has as many numbers as there were parts |
| TarotCallbacks.Decimals | app/tarot/bot/tarot.py:859 | `map(str, cards)` writes each number in decimal |
| TarotCallbacks.ParseAllDecimals | app/tarot/bot/tarot.py:859 | `int` of each `str` gives the numbers back |
| TarotCallbacks.JoinAvoids | app/tarot/bot/tarot.py:859 | a character in neither the parts nor the separator is not in the join |
| TarotCallbacks.DecimalsAvoid | app/tarot/bot/tarot.py:859 | a decimal number holds neither `_` nor `#` |
| TarotCallbacks.SplitFour | app/tarot/bot/tarot.py:632 | four parts without `_`, joined by `_`, split back into themselves |
| TarotCallbacks.BoolIntText | app/tarot/bot/tarot.py:355 | `str(int(b))` has no `_` and parses back to `int(b)` |
| TarotCallbacks.MoreRoundTrip | app/tarot/bot/tarot.py:355 | the "one more card" data hands `handle_more_button` (line 632) the deck and both flags it was built from |
| TarotCallbacks.DecksPageRoundTrip | app/tarot/bot/tarot.py:1088 | the deck-list page data hands `handle_decks_page` (line 1143) its page and deck type, for a type without `_` |
| TarotCallbacks.FutharkRoundTrip | app/tarot/bot/tarot.py:1191 | the rune data hands the callback (line 1248) the rune, its orientation and its position |
| TarotCallbacks.AllcardRoundTrip | app/tarot/bot/tarot.py:1311 | the all-cards data hands the callback (line 1373) the deck and the card index |
| TarotCallbacks.MeaningRoundTrip | app/tarot/bot/tarot.py:854-861 | the pagination data hands `handle_pagination` (line 911) the meaning, card, cards and page, for a meaning without `_` and a non-empty list of cards |
| TarotCallbacks.MeaningEmptyCards | app/tarot/bot/tarot.py:859 | with no cards the data does not parse back, since `int("")` raises |
| TarotCallbacks.MeaningCardsDiffer | app/tarot/bot/tarot.py:854-861 | the buttons of two different card positions carry different data |
| TarotPaging.SplitText | app/tarot/bot/tarot.py:720-750 | no chunk is empty; a chunk longer than the limit is a single line of the text; without empty lines the chunks joined by line breaks give the text back |
| TarotPaging.MeaningIndexFrom | app/tarot/bot/tarot.py:793-800 | the first position from a start whose meaning has the id, or none |
| TarotPaging.CurrentIndex | app/tarot/bot/tarot.py:793-806 | the position of the first meaning with that id, 0 when none has it |
| TarotPaging.KeyboardBuilt | app/tarot/bot/tarot.py:760-872 | the keyboard is `None` when the card index is out of range and is built when it is in range and every card is known |
| TarotPaging.PagedButtons | app/tarot/bot/tarot.py:771-779 | Back exactly when `page > 1`, Forward exactly when `page < total_pages`; both keep meaning and card and lead to the neighbouring pages, which exist when the current one does |
| TarotPaging.RingStep | app/tarot/bot/tarot.py:809-810 | Python's `%` steps one place back or forward around the ring, wrapping at the ends |
| TarotPaging.MeaningButtons | app/tarot/bot/tarot.py:801-818 | two buttons naming the meanings before and after the current one, wrapping around; an unknown meaning counts as the first |
| TarotPaging.CardButtonsAsWritten | app/tarot/bot/tarot.py:820-845 | as written, a previous-card button appears only from position 2 on, a next-card button exactly when a later card exists, each leading to the neighbouring position on the base meaning |
| TarotPaging.CardButtonsIntended | app/tarot/bot/tarot.py:820-845 | with `card_prev is not None` every card after the first has a previous-card button |
| TarotPaging.SecondCardHasNoBack | app/tarot/bot/tarot.py:822-827 | as written the second card has no button back to the first; intended it has |
| TarotPaging.DecksPages | app/tarot/bot/tarot.py:1062-1065 | the pages hold all decks in order, 13 to a page except the last, and there are `ceil(n / 13)` of them |
| TarotPaging.DecksPageFails | app/tarot/bot/tarot.py:1052-1071 | an unknown deck type raises, and so does an empty deck list |
| TarotPaging.DecksPageReset | app/tarot/bot/tarot.py:1068-1069 | a page past the last shows the first page |
| TarotPaging.DecksPageShown | app/tarot/bot/tarot.py:1071-1101 | a page in range lists one `/card deck <id>` or `/oraculum deck <id>` line per deck of that page, with the page's navigation buttons |
| TarotPaging.DecksNavigation | app/tarot/bot/tarot.py:1082-1099 | Back exactly when the page is not the first, Forward exactly when it is not the last, each to an existing neighbouring page |
| TarotPaging.OnlyCardNavigation | app/tarot/bot/tarot.py:1306-1323 | Back exactly when the index is positive, Forward exactly when a later card exists, each with the same deck and the neighbouring index |
| TarotPaging.OnlyCardCaption | app/tarot/bot/tarot.py:1303 | the all-cards caption never marks the card reversed |
| SimpleTarot.ClampId | app/tg_bot/bot/tarot.py:51 | `max(0, min(card_id, 77))` lies in the deck and leaves a card number unchanged |
| SimpleTarot.ShortDeckOption | app/tg_bot/bot/tarot.py:41-42 | the deck is absent exactly when no `deck ` is followed by a digit, and is always below 100 |
| SimpleTarot.ShortDeckLeftmost | app/tg_bot/bot/tarot.py:41-42 | the deck is the number of the one or two digits after the leftmost `deck ` followed by a digit |
| SimpleTarot.TwoDigitNumber | app/tg_bot/bot/tarot.py:41 | one or two digits give a number below 100 |
| SimpleTarot.TwoDigitsBelowHundred | app/tg_bot/bot/tarot.py:41 | at most two digits make a number below 100 |
| SimpleTarot.RequestedId | app/tg_bot/bot/tarot.py:48-51 | a card number exactly when some `c` is followed by a digit: the one or two digits after the leftmost one, clamped into the deck |
| SimpleTarot.FreshUnique | app/tg_bot/bot/tarot.py:54-56 | the smallest number not yet taken is unique |
| SimpleTarot.Largest | app/tg_bot/bot/tarot.py:55 | the largest of the ids taken, which bounds the `while temp_id in card_ids` search |
| SimpleTarot.PadIds | app/tg_bot/bot/tarot.py:50-58 | exactly `counter` ids, the requested one first, no two alike, each later one the smallest number from its position on not yet taken |
| SimpleTarot.HandleCard | app/tg_bot/bot/tarot.py:35-63 | the options hold the clamped count, the short deck, `flip` and `major` when those words occur, and the padded ids exactly when a card number was given |
| AppStartup.ShouldStart | app/tg_bot/apps.py:18-28 | under `runserver` only the process with `RUN_MAIN=true` starts, otherwise any process that is not a Celery worker |
| AppStartup.ReloaderParentNeverStarts | app/tg_bot/apps.py:18-24 | under `runserver`, the autoreloader's watching parent, which runs without `RUN_MAIN=true`, never starts the bot processing, even outside Celery |
| AppStartup.CeleryNeverStarts | app/tg_bot/apps.py:25-28 | a Celery worker without `runserver` never starts it |
| AppStartup.TgBotConfig.constructor | app/tg_bot/apps.py:11 | the task is not started at first |
| AppStartup.TgBotConfig.StartBotProcessing | app/tg_bot/apps.py:31-37 | the flag is set exactly when `call_command` returns; a raised error leaves it as it was |
| AppStartup.TgBotConfig.Ready | app/tg_bot/apps.py:13-28 | `call_command` is invoked exactly when the task has not been started and this process should start it |
| AppStartup.StartsOnce | app/tg_bot/apps.py:13-37 | after a successful start no later `ready` invokes the command again; after a failed one the next `ready` tries again |
| Text.SplitJoin | app/tarot/bot/tarot.py:854-861 | `sep.join(parts).split(sep)` gives the parts back when none of them holds the separator, as every callback handler relies on |
| Text.JoinSplit | app/tarot/bot/tarot.py:721 | joining the pieces of `text.split("\n")` with line breaks gives the text back |
| Text.ParseIntToString | app/tarot/bot/tarot.py:1143 | `int(str(n)) == n` for every integer |
| Text.IntToStringChars | app/tarot/bot/tarot.py:859 | `str(n)` holds no whitespace and none of `_` and `#` |
| Text.PyIndex | app/tarot/bot/tarot.py:762 | list indexing succeeds exactly for `-len <= i < len`, counting from the end for a negative index |
| Text.JoinSnoc | app/tarot/bot/tarot.py:737 | joining one more part adds the separator and the part |
| Text.JoinExtendLast | app/tarot/bot/tarot.py:742 | extending the last part by the separator and a line extends the join the same way |
| Text.HundredthsText | app/cardparser/bot/parser.py:139 | `str(kopecks / 100)` has a whole part, a point and a last digit, and a minus exactly for a negative amount |
| Text.HundredthsTextExamples | app/cardparser/bot/parser.py:139 | 10400 kopecks print as `104.0` and 1250 as `12.5` |
| Text.HundredthsTextSmallExamples | app/cardparser/bot/parser.py:139 | 1205 kopecks print as `12.05` and 5 as `0.05` |
| Text.SplitMaxOneWords | app/tg_bot/bot/parser.py:385-388 | a word, whitespace and a text that starts without whitespace split into the word and the text |
| Text.JoinTwo | app/tarot/bot/tarot.py:319 | a join of two parts is the first, the separator and the second |
| Text.JoinThree | app/tarot/bot/tarot.py:319 | a join of three parts puts the separator between each two |

## Left out

- Concurrency: Redis is one in-memory store used by one caller at a time. Races between worker processes, the `signal` mechanics (SIGTERM is a flag saying whether it arrived), Celery's `shared_task`/`.delay`, the asyncio event loop and `asyncio.sleep` are not modelled.
- python-telegram-bot: `Update.de_json`, `Application.process_update`, handler and filter matching, `set_webhook` and every `reply_*`/`send_*`/`edit_*` call are opaque. A message's processing outcome is a parameter, and replies are the values the handlers compute.
- LinkHandling.SearchQueryBare: both bots register `/search` with `has_args=True` (app/cardparser/bot/parser.py:62, app/tg_bot/bot/parser.py:43), so python-telegram-bot drops a bare `/search` before the handler runs; the prompt branch the lemma covers is unreachable through that registration, and the registration itself is not modelled.
- HTTP and scraping (`aiohttp`/`requests` in `wb`, `parse_ozon`, `wb_image_url_get`, `load_page` with BeautifulSoup): the statuses of the image probes and the already-parsed JSON or page fields are inputs.
- Regular expressions: `wb_regexp`, `ozon_regexp` and the `c(\d+(?:_\d+)*)` search of the first tarot bot are taken as their match results. Only the `card`+digit, `deck `+digits, `deck `+one or two digits and `c`+one or two digits patterns are scanned by hand.
- The Django ORM: the catalogue is a map from product id to product, the decks and cards are lists in query order, and a deck's card numbers are taken to be distinct, as the unique constraints of app/tarot/models.py make them. Models, migrations, admin classes and the `load_*` management commands are not modelled.
- `save_reading` and `handle_more_button` write `TarotUserReading` rows; only their updates of `reading_ids` and `user_exclude_cards` are modelled, and whether the database write succeeded is the parameter `saved`.
- Randomness: `random.sample` and `random.choice` are the parameters `picks` and `flips`, constrained by what they may return.
- Floating point: prices are integer kopecks shown with two decimals as `price / 100` would print them, and `.timestamp()` sort keys are integer times.
- TarotPaging.PaginationKeyboard: the meanings list, with the base meaning added and sorted by name, is a parameter, and the `TarotCard.objects.aget` lookups of the neighbouring cards' names are a map. The keyboard builders are functions returning the rows they append.
- TarotPaging.SplitText: the join round trip is stated only for text without empty lines, because an empty line met while the current chunk is empty is dropped.
- Ranking.BuildRows: the products are taken in the order of their statistics. The database returns them in an unspecified order, and the re-sort restores the order only up to ties in count and latest send.
- Ranking.BrandRecord: `Brand.objects.get(id=...)` is modelled by the brand record carried by the brand's first qualifying product; the records of one brand are taken to agree.
- Ranking.TopRows: the brand's top products are taken in the order of their statistics, as in Ranking.BuildRows; the database order is unspecified and the re-sort restores the order only up to ties.
- ParserBot.Wb, ParserBot.OzonMedia: a failing card request in `wb` (`session.get`, app/tg_bot/bot/parser.py:53), or a failing `requests.post` or `response.json()` in `parse_ozon` (lines 221-226), happens outside their `try` and raises out of `handle_links` (lines 147-149), so no reply is sent for the whole message; the model starts after those calls and does not capture that abort.
- Text.ParseInt: `int` is read over ASCII digits with an optional sign and surrounding ASCII whitespace; Python also accepts `_` between digits (`1_000`) and non-ASCII decimal digits, which the model rejects.
- Scanner.DigitRun: the hand-written `\d` matches ASCII digits only, while Python's `re` also matches non-ASCII decimal digits; the same holds for every scan in Scanner.
- LinkHandling.OzonWidget: a widget state whose `json.loads` gives anything but an object is `Malformed` and ends the merge in `{}`; `dict.update` would also accept a list of key-value pairs.
- The oracle and rune parts of app/tarot/bot/tarot.py are not modelled: `get_oraculum_cards`, `handle_oraculum`, `handle_moreoracle_button`, the rune texts of `handle_futark` (only their callback data is), and the `moreoracle_` and `desc_` callback data. `handle_one_command` and `handle_last_readings` fetch pages and readings and are also left out.
- Thin files: app/tg_bot/bot/wb.py, app/tg_bot/bot/abstract.py, app/tg_bot/urls.py and the Celery fan-out of app/tg_bot/management/commands/start_bot_processing.py.
- `get_category_and_its_top_products` is imported by app/cardparser/bot/parser.py but is not part of this model, and neither is `cardparser.services.wb_link_builder`; the handlers that use them take their results as inputs.

## Findings

| source | as written | input that shows it | evidently intended | confidence | as-written member | corrected member |
|---|---|---|---|---|---|---|
| app/cardparser/tasks.py:31 | the synthetic command is pushed to `bot_messages_queue_<token>`, which no consumer pops: the worker pops only `bot_messages_queue` (app/tg_bot/tasks.py:53) | any bot token, e.g. `"123:abc"` | push to the queue the worker polls | not executed | Pipeline.InjectorKeyNeverPolled | Pipeline.IntendedKeyPolled |
| app/tg_bot/views.py:33 | after a successful push the view indexes the body string with `"update_id"`, which raises inside the `try`, so every POST is answered `{"status": "error"}` with 400 | any POST with a UTF-8 body and a working Redis | answer `{"status": "ok"}` once the body is queued | not executed | Webhook.OkUnreachable | Webhook.IntendedRespond |
| app/cardparser/bot/parser.py:162 | `hasattr(size, 'price')` on a dict is always false, so a size's own price is never shown when the available sizes have different prices | available sizes S priced 100 kopecks and M priced 200 kopecks | show each size's price when there is no common price | not executed | CardparserBot.TwoPricesAsWritten | CardparserBot.TwoPricesIntended |
| app/tarot/bot/tarot.py:822-827 | `if card_prev:` treats the index 0 as absent, so the second card has no button back to the first | a spread of two or more cards, viewing the card at index 1 | `if card_prev is not None:` | not executed | TarotPaging.SecondCardHasNoBack | TarotPaging.CardButtonsIntended |
