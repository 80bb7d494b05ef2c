/**
 * How the components of the dispatch pipeline meet: the synthetic commands of
 * app/cardparser/tasks.py, the queue that the worker of app/tg_bot/tasks.py
 * polls, and the handlers of app/cardparser/bot/parser.py that read those
 * commands back.
 */
module Pipeline {
  import opened Wrappers
  import opened Text
  import opened RedisStore
  import DispatchWorker
  import CommandInjector
  import CardparserBot

  // ---------------------------------------------------------------------
  // The queue key

  /** As written, the injector's per-token key is never the key the worker polls. */
  lemma InjectorKeyNeverPolled(token: string)
    ensures CommandInjector.InjectorQueueKey(token) != DispatchWorker.QueueKey
    ensures !StartsWith(CommandInjector.InjectorQueueKey(token), DispatchWorker.LockPrefix)
  {
    var k := CommandInjector.InjectorQueueKey(token);
    assert |k| == |DispatchWorker.QueueKey| + 1 + |token|;
    assert k[4] == 'm' && DispatchWorker.LockPrefix[4] == 'p';
  }

  /** With the evident fix the injector writes exactly where the worker (and the webhook) push and pop. */
  lemma IntendedKeyPolled(token: string)
    ensures CommandInjector.TargetKey(token, true) == DispatchWorker.QueueKey
    ensures CommandInjector.TargetKey(token, false) == CommandInjector.InjectorQueueKey(token)
  {
  }

  /**
   * The synthetic command as far as the worker's queue is concerned: as
   * written it lands in a list of its own and the queue is untouched; with
   * the fix it is appended to the queue.
   */
  method Inject(store: Store, bot: Option<CommandInjector.BotRecord>, txt: string, isText: bool, now: nat,
                pushFault: bool, intended: bool)
    returns (put: CommandInjector.InjectOutcome)
    requires store.Valid()
    modifies store
    ensures store.Valid() && store.locks == old(store.locks)
    ensures put.Pushed? && !intended ==>
      put.key != DispatchWorker.QueueKey
      && store.List(put.key) == old(store.List(put.key)) + [put.payload]
      && store.List(DispatchWorker.QueueKey) == old(store.List(DispatchWorker.QueueKey))
    ensures put.Pushed? && intended ==>
      store.List(DispatchWorker.QueueKey) == old(store.List(DispatchWorker.QueueKey)) + [put.payload]
    ensures !put.Pushed? ==> store.lists == old(store.lists)
  {
    put := CommandInjector.PutCommand(store, bot, txt, isText, now, pushFault, intended);
    if put.Pushed? {
      InjectorKeyNeverPolled(bot.value.token);
    }
  }

  /**
   * One synthetic command followed by a run of the poll loop. As written the
   * update stays in its own list, and the worker pops only what its queue
   * held before. With the fix, enough successful polls pop the queued
   * messages and then the update, in that order.
   */
  method InjectThenPoll(store: Store, bot: Option<CommandInjector.BotRecord>, txt: string, isText: bool, now: nat,
                        pushFault: bool, intended: bool, faults: seq<bool>, outcome: string -> DispatchWorker.Outcome)
    returns (put: CommandInjector.InjectOutcome, events: seq<DispatchWorker.Event>)
    requires store.Valid() && DispatchWorker.OnlyBotLocks(store)
    modifies store
    ensures store.Valid() && store.locks == old(store.locks)
    ensures put.Pushed? && !intended ==>
      store.List(put.key) == old(store.List(put.key)) + [put.payload]
      && DispatchWorker.Popped(events) + store.List(DispatchWorker.QueueKey) == old(store.List(DispatchWorker.QueueKey))
    ensures put.Pushed? && intended && |faults| > |old(store.List(DispatchWorker.QueueKey))|
            && (forall i :: 0 <= i < |faults| ==> !faults[i]) ==>
      DispatchWorker.Popped(events) == old(store.List(DispatchWorker.QueueKey)) + [put.payload]
      && store.List(DispatchWorker.QueueKey) == []
  {
    ghost var q0 := store.List(DispatchWorker.QueueKey);
    put := Inject(store, bot, txt, isText, now, pushFault, intended);
    ghost var q1 := store.List(DispatchWorker.QueueKey);
    ghost var own := if put.Pushed? then store.List(put.key) else [];
    events := DispatchWorker.PollLoop(store, faults, outcome);
    DispatchWorker.DrainConsumesInOrder(q1, faults, outcome);
    if put.Pushed? && !intended {
      assert store.List(put.key) == own;
    }
    if put.Pushed? && intended && |faults| > |q0| && (forall i :: 0 <= i < |faults| ==> !faults[i]) {
      DispatchWorker.DrainEmpties(q1, faults, outcome);
    }
  }

  // ---------------------------------------------------------------------
  // The brand and category commands

  /** A command word, one space and the ids, sent as a command, parses back into the ids. */
  lemma ExcludeCommandRoundTrip(name: string, ids: seq<int>, chatId: string, now: nat)
    requires |name| > 0 && NoSpace(name)
    ensures CardparserBot.ExcludeIds(CommandInjector.BuildUpdate(chatId, name + " " + IdsText(ids), false, now).message.text)
            == Some(ids)
  {
    var command := "/" + name;
    var text := CommandInjector.BuildUpdate(chatId, name + " " + IdsText(ids), false, now).message.text;
    assert text == command + " " + IdsText(ids);
    assert NoSpace(command) by {
      forall i | 0 <= i < |command| ensures !IsSpace(command[i]) {
        if i > 0 {
          assert command[i] == name[i - 1];
        }
      }
    }
    CardparserBot.ExcludeIdsRoundTrip(command, ids);
  }

  /** The brand handler parses the command `trigger_top_brand_command` injects back into the normalised ids. */
  lemma TopBrandRoundTrip(arg: CommandInjector.ExcludeArg, chatId: string, now: nat)
    ensures CardparserBot.ExcludeIds(CommandInjector.BuildUpdate(chatId, CommandInjector.TopBrandText(arg), false, now).message.text)
            == Some(CommandInjector.NormalizeExclude(arg))
  {
    var ids := CommandInjector.NormalizeExclude(arg);
    assert CommandInjector.TopBrandText(arg) == "top_brand" + " " + IdsText(ids);
    ExcludeCommandRoundTrip("top_brand", ids, chatId, now);
  }

  /** The same for `trigger_top_category_command` and the category handler. */
  lemma TopCategoryRoundTrip(arg: CommandInjector.ExcludeArg, chatId: string, now: nat)
    ensures CardparserBot.ExcludeIds(CommandInjector.BuildUpdate(chatId, CommandInjector.TopCategoryText(arg), false, now).message.text)
            == Some(CommandInjector.NormalizeExclude(arg))
  {
    var ids := CommandInjector.NormalizeExclude(arg);
    assert CommandInjector.TopCategoryText(arg) == "top_category" + " " + IdsText(ids);
    ExcludeCommandRoundTrip("top_category", ids, chatId, now);
  }

  // ---------------------------------------------------------------------
  // The sentinel sender

  /**
   * The sender name the injector writes is the one the marketing send
   * demands, so an injected update passes that guard, and an update from
   * any other name is dropped as if nothing had been asked.
   */
  lemma SentinelMatches(chatId: string, txt: string, isText: bool, now: nat, settings: CardparserBot.Settings,
                        items: seq<CardparserBot.MarketingItem>, template: Option<CardparserBot.EventTemplate>,
                        images: map<int, Option<string>>, other: string)
    requires other != CommandInjector.Sentinel
    ensures var name := CommandInjector.BuildUpdate(chatId, txt, isText, now).message.sender.firstName;
      name == CardparserBot.Sentinel
      && CardparserBot.Marketing(name, settings, items, template, images)
         == CardparserBot.Marketing(CardparserBot.Sentinel, settings, items, template, images)
    ensures CardparserBot.Marketing(other, settings, items, template, images) == CardparserBot.NothingSent
  {
  }
}
