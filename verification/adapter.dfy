/**
  The done-callback of src/index.js (`makeHandleResponse`): turns the
  handler's `(err, response)` into the HTTP status, headers and body sent.
*/
module Adapter {
  import opened Wrappers
  import opened Js

  /**
    What is sent: the status, the headers object given to `res.set`
    (`None` when `res.set` is not called) and the body given to `res.send`.
  */
  datatype Reply = Reply(status: Value, headers: Option<Value>, body: Value)

  /**
    `done(err, response)`. A truthy `err` gives status 500 and the body
    `{message: err.message}`, whatever `response` is. Otherwise each field of
    `response` is used when truthy, else its default (200, `{}`, `{}`);
    a `response` of `undefined` or `null` makes the property read throw.
  */
  function Respond(err: Value, response: Value): (r: Completion<Reply>)
    ensures Truthy(err) ==>
      r == Returned(Reply(Num(500), None, Obj([("message", Get(err, "message"))])))
    ensures !Truthy(err) ==> (r.Threw? <==> response.Nullish())
    ensures r.Returned? ==> Truthy(r.value.status) && Truthy(r.value.body)
    ensures r.Returned? && !Truthy(err) ==> r.value.headers.Some? && Truthy(r.value.headers.value)
  {
    if Truthy(err) then
      Returned(Reply(Num(500), None, Obj([("message", Get(err, "message"))])))
    else if response.Nullish() then
      Threw(TypeError("Cannot read properties of " + (if response.Null? then "null" else "undefined")))
    else
      var headers := Get(response, "headers");
      var statusCode := Get(response, "statusCode");
      var body := Get(response, "body");
      Returned(Reply(Or(statusCode, Num(200)), Some(Or(headers, Obj([]))), Or(body, Obj([]))))
  }

  /** A handler failure hides the response completely. */
  lemma ErrorIgnoresResponse(err: Value, response1: Value, response2: Value)
    requires Truthy(err)
    ensures Respond(err, response1) == Respond(err, response2)
  {
  }

  /** Each field of a successful reply: the response's own when truthy, the default otherwise. */
  lemma SuccessFields(err: Value, response: Value)
    requires !Truthy(err) && !response.Nullish()
    ensures var r := Respond(err, response).value;
            && (Truthy(Get(response, "statusCode")) ==> r.status == Get(response, "statusCode"))
            && (!Truthy(Get(response, "statusCode")) ==> r.status == Num(200))
            && (Truthy(Get(response, "headers")) ==> r.headers == Some(Get(response, "headers")))
            && (!Truthy(Get(response, "headers")) ==> r.headers == Some(Obj([])))
            && (Truthy(Get(response, "body")) ==> r.body == Get(response, "body"))
            && (!Truthy(Get(response, "body")) ==> r.body == Obj([]))
  {
  }

  /** The response object that asks for exactly a given reply. */
  function AsResponse(reply: Reply): Value {
    Obj([("statusCode", reply.status),
         ("headers", match reply.headers case Some(h) => h case None => Obj([])),
         ("body", reply.body)])
  }

  /** Defaults are applied once: feeding a successful reply back as the response reproduces it. */
  lemma DefaultsStable(err: Value, response: Value)
    requires !Truthy(err) && !response.Nullish()
    ensures Respond(Null, AsResponse(Respond(err, response).value)) == Respond(err, response)
  {
    var reply := Respond(err, response).value;
    var o := AsResponse(reply);
    var es := o.entries;
    assert Get(o, "statusCode") == reply.status;
    assert Lookup(es[1..], "headers") == reply.headers.value;
    assert Get(o, "headers") == reply.headers.value;
    assert Lookup(es[2..], "body") == reply.body;
    assert es[1..][1..] == es[2..];
    assert Lookup(es[1..], "body") == reply.body;
    assert Get(o, "body") == reply.body;
  }
}
