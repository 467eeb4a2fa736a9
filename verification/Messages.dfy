/** The dictionaries that travel in frames: the five requests a client sends and
    the result message a server answers with. */
module Messages {
  import opened Base

  datatype Body =
    | Call(name: string, args: seq<Value>, kwargs: map<string, Value>)
    | CreateActor(actorId: string, className: string, args: seq<Value>, kwargs: map<string, Value>)
    | AttachActor(actorId: string)
    | CallActor(actorId: string, methodName: string, args: seq<Value>, kwargs: map<string, Value>)
    | DestroyActor(actorId: string)

  datatype Request = Request(callId: string, body: Body)

  datatype Response = Response(callId: string, outcome: Outcome)

  /** How the client's reader understands one message. */
  datatype Reading =
    | Completes(callId: string, outcome: Outcome)
    | BadFlag(callId: string)      // the call id is read and popped before `ok` turns out not to be a boolean
    | Malformed(why: string)

  function Protocol(why: string): Error {
    Error("ProtocolError", why)
  }

  // ---------- Requests ----------

  /** The dictionary the client serializes. */
  function BuildRequest(r: Request): Value {
    Dict(
      match r.body
      case Call(f, args, kwargs) =>
        map["type" := Text("call"), "function" := Text(f), "args" := List(args), "kwargs" := Dict(kwargs),
            "call_id" := Text(r.callId)]
      case CreateActor(id, c, args, kwargs) =>
        map["type" := Text("create_actor"), "actor_id" := Text(id), "class" := Text(c), "args" := List(args),
            "kwargs" := Dict(kwargs), "call_id" := Text(r.callId)]
      case AttachActor(id) =>
        map["type" := Text("attach_actor"), "actor_id" := Text(id), "call_id" := Text(r.callId)]
      case CallActor(id, m, args, kwargs) =>
        map["type" := Text("call_actor"), "actor_id" := Text(id), "method" := Text(m), "args" := List(args),
            "kwargs" := Dict(kwargs), "call_id" := Text(r.callId)]
      case DestroyActor(id) =>
        map["type" := Text("destroy_actor"), "actor_id" := Text(id), "call_id" := Text(r.callId)]
    )
  }

  function RequireString(m: map<string, Value>, field: string): Result<string, Error> {
    if field in m && m[field].Text? then Ok(m[field].s) else Err(Protocol(field + " must be a string"))
  }

  function RequireArguments(m: map<string, Value>): Result<(seq<Value>, map<string, Value>), Error> {
    var args := if "args" in m then m["args"] else List([]);
    var kwargs := if "kwargs" in m then m["kwargs"] else Dict(map[]);
    if !args.List? then Err(Protocol("args must be a list"))
    else if !kwargs.Dict? then Err(Protocol("kwargs must be a dictionary"))
    else Ok((args.items, kwargs.entries))
  }

  /** The server's dispatch on `type`, followed by the checks of the branch taken. */
  function ParseRequest(v: Value): Result<Request, Error> {
    if !v.Dict? then Err(Protocol("request message must be a dictionary"))
    else
      var m := v.entries;
      var type_ := if "type" in m then m["type"] else Null;
      if type_ == Text("call") then
        var id, f, a := RequireString(m, "call_id"), RequireString(m, "function"), RequireArguments(m);
        if id.Err? then Err(id.error) else if f.Err? then Err(f.error) else if a.Err? then Err(a.error)
        else Ok(Request(id.value, Call(f.value, a.value.0, a.value.1)))
      else if type_ == Text("create_actor") then
        var id, actor := RequireString(m, "call_id"), RequireString(m, "actor_id");
        var c, a := RequireString(m, "class"), RequireArguments(m);
        if id.Err? then Err(id.error) else if actor.Err? then Err(actor.error)
        else if c.Err? then Err(c.error) else if a.Err? then Err(a.error)
        else Ok(Request(id.value, CreateActor(actor.value, c.value, a.value.0, a.value.1)))
      else if type_ == Text("attach_actor") then
        var id, actor := RequireString(m, "call_id"), RequireString(m, "actor_id");
        if id.Err? then Err(id.error) else if actor.Err? then Err(actor.error)
        else Ok(Request(id.value, AttachActor(actor.value)))
      else if type_ == Text("call_actor") then
        var id, actor := RequireString(m, "call_id"), RequireString(m, "actor_id");
        var f, a := RequireString(m, "method"), RequireArguments(m);
        if id.Err? then Err(id.error) else if actor.Err? then Err(actor.error)
        else if f.Err? then Err(f.error) else if a.Err? then Err(a.error)
        else Ok(Request(id.value, CallActor(actor.value, f.value, a.value.0, a.value.1)))
      else if type_ == Text("destroy_actor") then
        var id, actor := RequireString(m, "call_id"), RequireString(m, "actor_id");
        if id.Err? then Err(id.error) else if actor.Err? then Err(actor.error)
        else Ok(Request(id.value, DestroyActor(actor.value)))
      else Err(Protocol("unexpected message type"))
  }

  /** Field `k` may be missing: it stands for empty arguments. */
  ghost predicate Defaulted(k: string, v: Value) {
    (k == "args" && v == List([])) || (k == "kwargs" && v == Dict(map[]))
  }

  /** Message `v` says request `r`: every field of the client's own dictionary is
      there with the same value, or is an empty argument field left out.
      Unknown extra fields are allowed. */
  ghost predicate Says(v: Value, r: Request) {
    && v.Dict?
    && var built := BuildRequest(r).entries;
       forall k :: k in built ==>
         if k in v.entries then v.entries[k] == built[k] else Defaulted(k, built[k])
  }

  lemma ParsedCallSays(v: Value, r: Request)
    requires ParseRequest(v) == Ok(r) && r.body.Call?
    ensures Says(v, r)
  {
  }

  lemma ParsedCreateSays(v: Value, r: Request)
    requires ParseRequest(v) == Ok(r) && r.body.CreateActor?
    ensures Says(v, r)
  {
  }

  lemma ParsedMethodSays(v: Value, r: Request)
    requires ParseRequest(v) == Ok(r) && r.body.CallActor?
    ensures Says(v, r)
  {
  }

  lemma ParsedActorSays(v: Value, r: Request)
    requires ParseRequest(v) == Ok(r) && (r.body.AttachActor? || r.body.DestroyActor?)
    ensures Says(v, r)
  {
  }

  lemma ParsedSays(v: Value, r: Request)
    requires ParseRequest(v) == Ok(r)
    ensures Says(v, r)
  {
    hide Says, ParseRequest;
    match r.body
    case Call(_, _, _) => ParsedCallSays(v, r);
    case CreateActor(_, _, _, _) => ParsedCreateSays(v, r);
    case CallActor(_, _, _, _) => ParsedMethodSays(v, r);
    case AttachActor(_) => ParsedActorSays(v, r);
    case DestroyActor(_) => ParsedActorSays(v, r);
  }

  /** The part of `Says` the server's checks look at. */
  ghost predicate Field(m: map<string, Value>, k: string, v: Value) {
    if k in m then m[k] == v else Defaulted(k, v)
  }

  lemma SaidField(v: Value, r: Request, k: string)
    requires Says(v, r) && k in BuildRequest(r).entries
    ensures Field(v.entries, k, BuildRequest(r).entries[k])
  {
  }

  lemma SaidFields(v: Value, r: Request)
    requires Says(v, r)
    ensures Field(v.entries, "call_id", Text(r.callId))
    ensures match r.body
      case Call(f, args, kwargs) => Field(v.entries, "type", Text("call")) && Field(v.entries, "function", Text(f)) &&
        Field(v.entries, "args", List(args)) && Field(v.entries, "kwargs", Dict(kwargs))
      case CreateActor(id, c, args, kwargs) => Field(v.entries, "type", Text("create_actor")) &&
        Field(v.entries, "actor_id", Text(id)) && Field(v.entries, "class", Text(c)) &&
        Field(v.entries, "args", List(args)) && Field(v.entries, "kwargs", Dict(kwargs))
      case AttachActor(id) => Field(v.entries, "type", Text("attach_actor")) && Field(v.entries, "actor_id", Text(id))
      case CallActor(id, f, args, kwargs) => Field(v.entries, "type", Text("call_actor")) &&
        Field(v.entries, "actor_id", Text(id)) && Field(v.entries, "method", Text(f)) &&
        Field(v.entries, "args", List(args)) && Field(v.entries, "kwargs", Dict(kwargs))
      case DestroyActor(id) => Field(v.entries, "type", Text("destroy_actor")) && Field(v.entries, "actor_id", Text(id))
  {
    hide Says, Field;
    SaidField(v, r, "type");
    SaidField(v, r, "call_id");
    if !r.body.Call? { SaidField(v, r, "actor_id"); }
    if !r.body.AttachActor? && !r.body.DestroyActor? {
      SaidField(v, r, "args");
      SaidField(v, r, "kwargs");
      SaidField(v, r, if r.body.Call? then "function" else if r.body.CallActor? then "method" else "class");
    }
  }

  lemma SaidParses(v: Value, r: Request)
    requires Says(v, r)
    ensures ParseRequest(v) == Ok(r)
  {
    SaidFields(v, r);
    hide Says, BuildRequest;
    match r.body
    case Call(_, _, _) =>
    case CreateActor(_, _, _, _) =>
    case AttachActor(_) =>
    case CallActor(_, _, _, _) =>
    case DestroyActor(_) =>
  }

  /** The server accepts exactly the messages that say some request, and reads
      that request out of them. In particular it reads back what a client built. */
  lemma ParseIsExact(v: Value, r: Request)
    ensures ParseRequest(v) == Ok(r) <==> Says(v, r)
    ensures ParseRequest(BuildRequest(r)) == Ok(r)
  {
    if ParseRequest(v) == Ok(r) {
      ParsedSays(v, r);
    }
    if Says(v, r) {
      SaidParses(v, r);
    }
    SaidParses(BuildRequest(r), r);
  }

  /** A message cannot say two requests. */
  lemma SaysOneRequest(v: Value, r: Request, q: Request)
    requires Says(v, r) && Says(v, q)
    ensures r == q
  {
    ParseIsExact(v, r);
    ParseIsExact(v, q);
  }

  // ---------- Responses ----------

  function BuildResponse(r: Response): Value {
    Dict(
      match r.outcome
      case Returned(v) =>
        map["type" := Text("result"), "call_id" := Text(r.callId), "ok" := Bool(true), "result" := v]
      case Raised(e) =>
        map["type" := Text("result"), "call_id" := Text(r.callId), "ok" := Bool(false),
            "error_type" := Text(e.kind), "error" := Text(e.message)]
    )
  }

  /** The checks of the client's response handler, in its order. `show` is Python's `str`. */
  function ReadResponse(show: Value -> string, v: Value): Reading {
    if !v.Dict? then Malformed("response message must be a dictionary")
    else
      var m := v.entries;
      if "type" !in m || m["type"] != Text("result") then Malformed("unexpected response type")
      else if "call_id" !in m || !m["call_id"].Text? then Malformed("response call_id must be a string")
      else
        var id := m["call_id"].s;
        if "ok" in m && m["ok"] == Bool(true) then
          Completes(id, Returned(if "result" in m then m["result"] else Null))
        else if "ok" in m && m["ok"] == Bool(false) then
          Completes(id, Raised(Error(
            if "error_type" in m then show(m["error_type"]) else "RemoteError",
            if "error" in m then show(m["error"]) else "remote call failed")))
        else BadFlag(id)
  }

  /** Whatever the server answers, the reader understands as that very answer;
      it can neither be malformed nor carry an `ok` that is not a boolean. */
  lemma ResponseRoundTrip(show: Value -> string, r: Response)
    requires forall s :: show(Text(s)) == s
    ensures ReadResponse(show, BuildResponse(r)) == Completes(r.callId, r.outcome)
  {
  }
}
