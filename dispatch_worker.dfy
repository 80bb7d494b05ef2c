/**
 * The Celery worker of app/tg_bot/tasks.py: `process_bot` guards one bot with
 * a Redis lock and runs `run_bot`, which registers the bot's handlers and
 * then polls the shared update queue, one message per iteration.
 *
 * `while True` becomes a loop over a finite sequence of poll outcomes; the
 * environment's failures (a poll that raises, a handler that raises, the
 * Telegram setup calls) are arguments.
 */
module DispatchWorker {
  import opened Wrappers
  import opened Text
  import opened RedisStore

  const LockPrefix: string := "bot_processing_lock_"

  /** The one list key this worker consumes. */
  const QueueKey: string := "bot_messages_queue"

  /** The lock that keeps a second worker for the same token from starting. */
  function LockKey(token: string): (k: string)
    ensures StartsWith(k, LockPrefix) && k[|LockPrefix|..] == token
  {
    LockPrefix + token
  }

  /** Distinct tokens never share a lock. */
  lemma LockKeyInjective(a: string, b: string)
    ensures LockKey(a) == LockKey(b) <==> a == b
  {
    if LockKey(a) == LockKey(b) {
      assert a == LockKey(a)[|LockPrefix|..];
    }
  }

  /** No lock key is the queue key, so SETNX on a lock never shadows the queue. */
  lemma QueueKeyIsNoLock()
    ensures !StartsWith(QueueKey, LockPrefix)
  {
    assert QueueKey[4] != LockPrefix[4];
  }

  // ---------------------------------------------------------------------
  // Bot classes and their handlers

  datatype BotClass = ParserBotClass | TarotBotClass

  /** A python-telegram-bot handler, identified by what it matches and the method it calls. */
  datatype Handler =
    | OnMessage(filter: string, callback: string)
    | OnCommand(command: string, callback: string)

  /** `bot_instance.handlers` of each class (tg_bot/bot/parser.py, tg_bot/bot/tarot.py). */
  function HandlersOf(c: BotClass): seq<Handler> {
    match c
    case ParserBotClass => [
      OnMessage("TEXT & ~COMMAND & Regex(combined_regexp)", "handle_links_based_on_message"),
      OnCommand("last", "handle_last_products"),
      OnCommand("start", "start"),
      OnCommand("search", "handle_search_command")]
    case TarotBotClass => [
      OnMessage("TEXT & ChatType.PRIVATE & Regex(^/card(\\d+)?)", "handle_card")]
  }

  /** What `globals().get(name)` finds in the tasks module. */
  datatype Global = BotClassGlobal(cls: BotClass) | OtherGlobal

  function ClassName(c: BotClass): string {
    match c
    case ParserBotClass => "ParserBot"
    case TarotBotClass => "TarotBot"
  }

  /**
   * Module-level names that are not bot classes and hold a truthy value:
   * `bot_class()` raises for each of them, or the `.handlers` of what it
   * returns does. The module attributes that Python sets are here too,
   * except `__doc__`, which is `None` for this module without a docstring
   * and so reads as not found.
   */
  const OtherNames: set<string> := {
    "os", "redis", "asyncio", "json", "reverse", "settings", "signal", "shared_task",
    "ApplicationBuilder", "CommandHandler", "Update", "logger", "redis_client",
    "run_bot", "process_bot",
    "__name__", "__package__", "__loader__", "__spec__", "__file__", "__cached__", "__builtins__"}

  function LookupGlobal(name: string): (g: Option<Global>)
    ensures g.Some? <==> name in OtherNames || name == "ParserBot" || name == "TarotBot"
    ensures forall c :: g == Some(BotClassGlobal(c)) <==> name == ClassName(c)
  {
    if name == "ParserBot" then Some(BotClassGlobal(ParserBotClass))
    else if name == "TarotBot" then Some(BotClassGlobal(TarotBotClass))
    else if name in OtherNames then Some(OtherGlobal)
    else None
  }

  /** The python-telegram-bot `Application`, reduced to its handler list. */
  class Application {
    var handlers: seq<Handler>

    constructor ()
      ensures handlers == []
    {
      handlers := [];
    }

    method AddHandler(h: Handler)
      modifies this
      ensures handlers == old(handlers) + [h]
    {
      handlers := handlers + [h];
    }
  }

  /** `for handler in handlers: app.add_handler(handler)` */
  method RegisterHandlers(app: Application, hs: seq<Handler>)
    modifies app
    ensures app.handlers == old(app.handlers) + hs
  {
    var i := 0;
    while i < |hs|
      invariant 0 <= i <= |hs|
      invariant app.handlers == old(app.handlers) + hs[..i]
    {
      app.AddHandler(hs[i]);
      i := i + 1;
    }
    assert hs[..i] == hs;
  }

  // ---------------------------------------------------------------------
  // The poll loop as a specification

  /** How handling one popped message ended: decode, `json.loads`, `de_json` and `process_update` together. */
  datatype Outcome = Handled | Raised

  /** What one iteration of the `while True` loop did. */
  datatype Event =
    | Processed(message: string, outcome: Outcome) // popped and handed to the application
    | Skipped(message: string)                      // popped, but falsy (`b""`): not processed
    | Idle                                          // the queue was empty
    | PollFailed                                    // `lpop` raised; caught by the outer `except`

  /** One iteration on queue `q`; `fault` says whether `lpop` raised. */
  function Step(q: seq<string>, fault: bool, outcome: string -> Outcome): (seq<string>, Event) {
    if fault then (q, PollFailed)
    else if q == [] then ([], Idle)
    else if q[0] == "" then (q[1..], Skipped(q[0]))
    else (q[1..], Processed(q[0], outcome(q[0])))
  }

  /** The message an event removed from the queue, if any. */
  function Removed(e: Event): seq<string> {
    match e
    case Processed(m, _) => [m]
    case Skipped(m) => [m]
    case _ => []
  }

  /** The messages removed from the queue, in the order they were removed. */
  function Popped(events: seq<Event>): seq<string> {
    if events == [] then [] else Removed(events[0]) + Popped(events[1..])
  }

  /** Iterations `faults` applied to queue `q`: the final queue and one event per iteration. */
  function Drain(q: seq<string>, faults: seq<bool>, outcome: string -> Outcome): (seq<string>, seq<Event>)
    decreases |faults|
  {
    if faults == [] then (q, [])
    else
      var s := Step(q, faults[0], outcome);
      var rest := Drain(s.0, faults[1..], outcome);
      (rest.0, [s.1] + rest.1)
  }

  /**
   * Each iteration yields exactly one event, whatever the handlers did, and
   * removes at most one message: the popped messages followed by what is
   * left are the original queue, so messages are consumed in push order.
   */
  lemma {:induction false} DrainConsumesInOrder(q: seq<string>, faults: seq<bool>, outcome: string -> Outcome)
    ensures |Drain(q, faults, outcome).1| == |faults|
    ensures Popped(Drain(q, faults, outcome).1) + Drain(q, faults, outcome).0 == q
    ensures |Popped(Drain(q, faults, outcome).1)| <= |faults|
    decreases |faults|
  {
    if faults != [] {
      var s := Step(q, faults[0], outcome);
      DrainConsumesInOrder(s.0, faults[1..], outcome);
      var rest := Drain(s.0, faults[1..], outcome);
      assert ([s.1] + rest.1)[1..] == rest.1;
      assert Popped([s.1] + rest.1) == Removed(s.1) + Popped(rest.1);
    }
  }

  lemma {:induction false} PoppedAppend(a: seq<Event>, b: seq<Event>)
    ensures Popped(a + b) == Popped(a) + Popped(b)
    decreases |a|
  {
    if a != [] {
      assert (a + b)[1..] == a[1..] + b;
      PoppedAppend(a[1..], b);
    } else {
      assert a + b == b;
    }
  }

  /** Running one more iteration extends the run by one step. */
  lemma {:induction false} DrainSnoc(q: seq<string>, faults: seq<bool>, f: bool, outcome: string -> Outcome)
    ensures Drain(q, faults + [f], outcome) ==
      (Step(Drain(q, faults, outcome).0, f, outcome).0,
       Drain(q, faults, outcome).1 + [Step(Drain(q, faults, outcome).0, f, outcome).1])
    decreases |faults|
  {
    var st := Step(q, if faults == [] then f else faults[0], outcome);
    if faults == [] {
      assert faults + [f] == [f];
      assert [f][1..] == [];
      assert Drain(st.0, [], outcome) == (st.0, []);
      assert Drain(q, [f], outcome) == (st.0, [st.1] + []);
      assert [st.1] + [] == [] + [st.1];
    } else {
      assert (faults + [f])[0] == faults[0];
      assert (faults + [f])[1..] == faults[1..] + [f];
      DrainSnoc(st.0, faults[1..], f, outcome);
      var rest := Drain(st.0, faults[1..], outcome);
      assert ([st.1] + rest.1) + [Step(rest.0, f, outcome).1] == [st.1] + (rest.1 + [Step(rest.0, f, outcome).1]);
    }
  }

  /** A failing handler never changes which messages are consumed: failures are isolated to their message. */
  lemma {:induction false} DrainIgnoresOutcomes(q: seq<string>, faults: seq<bool>, o1: string -> Outcome, o2: string -> Outcome)
    ensures Drain(q, faults, o1).0 == Drain(q, faults, o2).0
    ensures Popped(Drain(q, faults, o1).1) == Popped(Drain(q, faults, o2).1)
    decreases |faults|
  {
    if faults != [] {
      DrainIgnoresOutcomes(Step(q, faults[0], o1).0, faults[1..], o1, o2);
    }
  }

  /** With no failed poll, as many iterations as queued messages empty the queue. */
  lemma {:induction false} DrainEmpties(q: seq<string>, faults: seq<bool>, outcome: string -> Outcome)
    requires |faults| >= |q|
    requires forall i :: 0 <= i < |faults| ==> !faults[i]
    ensures Drain(q, faults, outcome).0 == []
    decreases |faults|
  {
    if faults != [] {
      DrainEmpties(Step(q, faults[0], outcome).0, faults[1..], outcome);
    }
  }

  // ---------------------------------------------------------------------
  // The worker against the store

  /** Every string key in the store is a processing lock: the worker sets no other. */
  ghost predicate OnlyBotLocks(store: Store)
    reads store
  {
    forall k :: k in store.locks ==> StartsWith(k, LockPrefix)
  }

  /** The poll loop of `run_bot`, one `lpop` of the shared queue per iteration. */
  method PollLoop(store: Store, faults: seq<bool>, outcome: string -> Outcome) returns (events: seq<Event>)
    requires store.Valid() && OnlyBotLocks(store)
    modifies store
    ensures store.Valid() && store.locks == old(store.locks)
    ensures (store.List(QueueKey), events) == Drain(old(store.List(QueueKey)), faults, outcome)
    ensures forall k :: k != QueueKey ==> store.List(k) == old(store.List(k))
  {
    QueueKeyIsNoLock();
    assert QueueKey !in store.locks;
    ghost var q0 := store.List(QueueKey);
    events := [];
    var i := 0;
    while i < |faults|
      invariant 0 <= i <= |faults|
      invariant store.Valid() && store.locks == old(store.locks)
      invariant (store.List(QueueKey), events) == Drain(q0, faults[..i], outcome)
      invariant forall k :: k != QueueKey ==> store.List(k) == old(store.List(k))
    {
      ghost var before := store.List(QueueKey);
      var r := store.LPop(QueueKey, faults[i]);
      var ev: Event;
      match r {
        case Err(_) =>
          ev := PollFailed;
        case Ok(None) =>
          ev := Idle;
        case Ok(Some(m)) =>
          ev := if m == "" then Skipped(m) else Processed(m, outcome(m));
      }
      assert (store.List(QueueKey), ev) == Step(before, faults[i], outcome);
      DrainSnoc(q0, faults[..i], faults[i], outcome);
      assert faults[..i + 1] == faults[..i] + [faults[i]];
      events := events + [ev];
      i := i + 1;
    }
    assert faults[..i] == faults;
  }

  /** How the loop that never returns ended. */
  datatype Ending =
    | Interrupted   // a BaseException (SystemExit, KeyboardInterrupt): `finally` runs
    | Killed        // the process was killed: no Python code runs any more

  datatype Report =
    | AlreadyRunning                                   // SETNX failed
    | ClassNotFound                                    // `globals().get` found nothing
    | ClassFailed                                      // not a bot class: `bot_class()` or `.handlers` raised
    | SetupFailed                                      // `initialize` or `set_webhook` raised
    | Served(registered: seq<Handler>, events: seq<Event>)

  /**
   * What `run_bot` reports: the class lookup decides, then the setup calls;
   * a served bot has its class's handlers registered, in order, and the
   * events of its poll loop.
   */
  function RunBotReport(className: string, setupOk: bool, events: seq<Event>): Report {
    match LookupGlobal(className)
    case None => ClassNotFound
    case Some(OtherGlobal) => ClassFailed
    case Some(BotClassGlobal(c)) => if setupOk then Served(HandlersOf(c), events) else SetupFailed
  }

  /**
   * The body of `run_bot(token, handlersClass)` after the lock is held.
   * `setupOk` says whether `app.initialize()` and `set_webhook` succeeded.
   * Only the poll loop touches the store.
   */
  method RunBot(store: Store, className: string, setupOk: bool, faults: seq<bool>, outcome: string -> Outcome)
    returns (report: Report)
    requires store.Valid() && OnlyBotLocks(store)
    modifies store
    ensures store.Valid() && store.locks == old(store.locks)
    ensures report == RunBotReport(className, setupOk, Drain(old(store.List(QueueKey)), faults, outcome).1)
    ensures !report.Served? ==> store.lists == old(store.lists)
    ensures report.Served? ==>
      store.List(QueueKey) == Drain(old(store.List(QueueKey)), faults, outcome).0
      && forall k :: k != QueueKey ==> store.List(k) == old(store.List(k))
  {
    var g := LookupGlobal(className);
    match g {
      case None =>
        report := ClassNotFound;
      case Some(OtherGlobal) =>
        report := ClassFailed;
      case Some(BotClassGlobal(c)) =>
        var app := new Application();
        RegisterHandlers(app, HandlersOf(c));
        if !setupOk {
          report := SetupFailed;
        } else {
          var events := PollLoop(store, faults, outcome);
          assert app.handlers == HandlersOf(c);
          report := Served(app.handlers, events);
        }
    }
  }

  /**
   * The `try`/`finally` of `process_bot` once the lock is held. The SIGTERM
   * handler only deletes the lock; it touches another key than the loop, so
   * its place among the polls does not matter, and it does not stop the loop.
   */
  method Guarded(store: Store, lockKey: string, className: string, setupOk: bool,
                 faults: seq<bool>, outcome: string -> Outcome, sigterm: bool, ending: Ending)
    returns (report: Report)
    requires store.Valid() && OnlyBotLocks(store)
    requires lockKey in store.locks
    modifies store
    ensures store.Valid() && OnlyBotLocks(store)
    ensures report == RunBotReport(className, setupOk, Drain(old(store.List(QueueKey)), faults, outcome).1)
    ensures !report.Served? ==> store.lists == old(store.lists)
    ensures report.Served? ==>
      store.List(QueueKey) == Drain(old(store.List(QueueKey)), faults, outcome).0
      && forall k :: k != QueueKey ==> store.List(k) == old(store.List(k))
    ensures store.locks == if report.Served? && ending == Killed && !sigterm then old(store.locks) else old(store.locks) - {lockKey}
  {
    QueueKeyIsNoLock();
    assert lockKey !in store.lists;
    // try: loop.run_until_complete(run_bot(token, handlersClass))
    report := RunBot(store, className, setupOk, faults, outcome);
    assert lockKey !in store.lists;
    assert store.lists - {lockKey} == store.lists;
    if report.Served? {
      if sigterm {
        store.Delete(lockKey);
      }
      if ending == Killed {
        return;
      }
    }
    // finally: redis_client.delete(lock_key)
    store.Delete(lockKey);
  }

  /** `process_bot(token, handlersClass)`; `sigterm` says whether SIGTERM arrived while the loop ran. */
  method ProcessBot(store: Store, token: string, className: string, setupOk: bool,
                    faults: seq<bool>, outcome: string -> Outcome, sigterm: bool, ending: Ending)
    returns (report: Report)
    requires store.Valid() && OnlyBotLocks(store)
    modifies store
    ensures store.Valid() && OnlyBotLocks(store)
    ensures old(store.Exists(LockKey(token))) ==>
      report == AlreadyRunning && store.lists == old(store.lists) && store.locks == old(store.locks)
    ensures !old(store.Exists(LockKey(token))) ==>
      report == RunBotReport(className, setupOk, Drain(old(store.List(QueueKey)), faults, outcome).1)
    ensures !report.Served? ==> store.lists == old(store.lists) && store.locks == old(store.locks)
    ensures report.Served? ==>
      store.List(QueueKey) == Drain(old(store.List(QueueKey)), faults, outcome).0
      && (forall k :: k != QueueKey ==> store.List(k) == old(store.List(k)))
      && store.locks == if ending == Killed && !sigterm then old(store.locks) + {LockKey(token)} else old(store.locks)
  {
    var lockKey := LockKey(token);
    var acquired := store.SetNx(lockKey);
    if !acquired {
      return AlreadyRunning;
    }
    ghost var held := store.locks;
    assert held - {lockKey} == old(store.locks);
    report := Guarded(store, lockKey, className, setupOk, faults, outcome, sigterm, ending);
  }
}
