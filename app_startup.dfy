/**
 * The start-once gate of app/tg_bot/apps.py: when Django loads the `tg_bot`
 * application, `TgBotConfig.ready` starts the bot-processing command unless
 * it already did, unless this is the watching parent process of the
 * `runserver` autoreloader (the one without `RUN_MAIN=true`), and unless
 * this is a Celery worker. The command-line arguments and the
 * `RUN_MAIN` environment variable are parameters; whether `call_command`
 * returns or raises is the parameter `callOk`.
 */
module AppStartup {
  import opened Wrappers

  /**
   * Whether this process should start the bot processing: under
   * `runserver` only the main process (`RUN_MAIN == "true"`), otherwise any
   * process that is not a Celery worker.
   */
  function ShouldStart(argv: seq<string>, runMain: Option<string>): (start: bool)
    ensures "runserver" in argv ==> (start <==> runMain == Some("true"))
    ensures "runserver" !in argv ==> (start <==> "celery" !in argv)
  {
    if "runserver" in argv then runMain == Some("true") else "celery" !in argv
  }

  /**
   * The autoreloader's watching parent of `runserver`, which runs without
   * `RUN_MAIN=true` (the log line of apps.py calls it the child), never
   * starts the bot processing, even outside Celery.
   */
  lemma ReloaderParentNeverStarts(argv: seq<string>, runMain: Option<string>)
    requires "runserver" in argv && runMain != Some("true")
    ensures !ShouldStart(argv, runMain)
  {
  }

  /** A Celery worker never starts it, unless it was also given `runserver`. */
  lemma CeleryNeverStarts(argv: seq<string>, runMain: Option<string>)
    requires "celery" in argv && "runserver" !in argv
    ensures !ShouldStart(argv, runMain)
  {
  }

  class TgBotConfig {
    /** `_task_started` */
    var taskStarted: bool

    constructor ()
      ensures !taskStarted
    {
      taskStarted := false;
    }

    /**
     * `start_bot_processing`: the flag is set only when `call_command`
     * returns; when it raises the error is logged and the flag stays as it
     * was.
     */
    method StartBotProcessing(callOk: bool)
      modifies this
      ensures taskStarted == (old(taskStarted) || callOk)
    {
      if callOk {
        taskStarted := true;
      }
    }

    /**
     * `ready`: `called` says whether `call_command` was invoked, which
     * happens exactly when the task has not been started and this process
     * should start it.
     */
    method Ready(argv: seq<string>, runMain: Option<string>, callOk: bool) returns (called: bool)
      modifies this
      ensures called <==> !old(taskStarted) && ShouldStart(argv, runMain)
      ensures taskStarted == (old(taskStarted) || (called && callOk))
    {
      called := false;
      if taskStarted {
        return;
      }
      if "runserver" in argv {
        if runMain == Some("true") {
          StartBotProcessing(callOk);
          called := true;
        }
      } else {
        if "celery" !in argv {
          StartBotProcessing(callOk);
          called := true;
        }
      }
    }
  }

  /**
   * Once a start has succeeded, no later `ready` invokes the command again,
   * whatever the arguments; after a failed start the next `ready` tries
   * again.
   */
  method StartsOnce(argv: seq<string>, runMain: Option<string>, again: seq<string>, againRunMain: Option<string>)
    returns (first: bool, second: bool, tried: bool, retried: bool)
    requires ShouldStart(argv, runMain) && ShouldStart(again, againRunMain)
    ensures first && !second
    ensures tried && retried
  {
    var config := new TgBotConfig();
    first := config.Ready(argv, runMain, true);
    second := config.Ready(again, againRunMain, true);

    var failing := new TgBotConfig();
    tried := failing.Ready(argv, runMain, false);
    retried := failing.Ready(again, againRunMain, true);
  }
}
