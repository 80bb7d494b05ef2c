/**
 * The Telegram webhook view of app/tg_bot/views.py: a POST pushes its body,
 * unparsed, onto the shared update queue that the dispatch worker polls.
 */
module Webhook {
  import opened Wrappers
  import opened RedisStore
  import DispatchWorker

  /**
   * An HTTP request as the view sees it. `body` is the UTF-8 decoding of the
   * raw bytes, `None` when they are not valid UTF-8.
   */
  datatype Request = Request(httpMethod: string, body: Option<string>)

  datatype Response =
    | Json(httpStatus: nat, status: string) // JsonResponse({"status": status}, status=httpStatus)
    | ServerError                           // an exception the view does not catch

  const OkResponse := Json(200, "ok")
  const ErrorResponse := Json(400, "error")

  /**
   * The response of the view as written, given whether the push succeeded.
   * Line 33 indexes the body string with `"update_id"`, which raises
   * `TypeError` inside the `try`, so a successful push also ends in the
   * error response.
   */
  function Respond(req: Request, pushed: bool): Response {
    if req.httpMethod != "POST" then ErrorResponse
    else if req.body.None? then ServerError
    else ErrorResponse
  }

  /** As written, no request ever gets the "ok" response. */
  lemma OkUnreachable(req: Request, pushed: bool)
    ensures Respond(req, pushed) != OkResponse
    ensures req.httpMethod == "POST" && req.body.Some? && pushed ==> Respond(req, pushed) == ErrorResponse
  {
  }

  /** The response the view evidently intends: "ok" exactly when the body was queued. */
  function IntendedRespond(req: Request, pushed: bool): (resp: Response)
    ensures resp == OkResponse <==> req.httpMethod == "POST" && req.body.Some? && pushed
    ensures resp != OkResponse ==> resp == ErrorResponse || (resp == ServerError && req.body.None?)
  {
    if req.httpMethod != "POST" then ErrorResponse
    else if req.body.None? then ServerError
    else if pushed then OkResponse
    else ErrorResponse
  }

  /**
   * `webhook(request, token)`. `pushFault` says whether `rpush` raises.
   * `token` does not influence the queue key. With `intended` the view
   * answers as `IntendedRespond`, otherwise as written.
   */
  method HandleWebhook(store: Store, req: Request, token: string, pushFault: bool, intended: bool)
    returns (resp: Response, pushed: bool)
    requires store.Valid()
    modifies store
    ensures store.Valid() && store.locks == old(store.locks)
    ensures pushed ==> req.httpMethod == "POST" && req.body.Some?
    ensures pushed <==> req.httpMethod == "POST" && req.body.Some? && !pushFault
                        && DispatchWorker.QueueKey !in old(store.locks)
    ensures pushed ==>
      store.lists == old(store.lists)[DispatchWorker.QueueKey := old(store.List(DispatchWorker.QueueKey)) + [req.body.value]]
    ensures !pushed ==> store.lists == old(store.lists)
    ensures resp == if intended then IntendedRespond(req, pushed) else Respond(req, pushed)
  {
    pushed := false;
    if req.httpMethod == "POST" {
      match req.body {
        case None =>
          // `request.body.decode("UTF-8")` raised outside the `try`
        case Some(jsonStr) =>
          var r := store.RPush(DispatchWorker.QueueKey, jsonStr, pushFault);
          pushed := r.Ok?;
      }
    }
    resp := if intended then IntendedRespond(req, pushed) else Respond(req, pushed);
  }
}
