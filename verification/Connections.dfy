/** The client's connection object, its pending map of references, and the actor handle, each operation as one
    thread runs it when no other interferes. */
module Connections {
  import opened Base
  import opened Messages
  import opened Framing
  import opened Sockets
  import opened ObjectRefs
  import Client

  /** A dictionary that calls itself a result and has a call id that is a text. */
  predicate IsResult(message: Value) {
    && message.Dict? && "type" in message.entries && message.entries["type"] == Text("result")
    && "call_id" in message.entries && message.entries["call_id"].Text?
  }

  class RpcClientConnection {
    const sock: Outbound
    const dumps: Value -> Result<Bytes, Error>
    const show: Value -> string
    const maxFrame: nat
    var pending: map<string, ObjectRef>
    var closed: bool

    constructor (sock: Outbound, dumps: Value -> Result<Bytes, Error>, show: Value -> string, maxFrame: nat)
      ensures Valid() && pending == map[] && !closed
      ensures this.sock == sock && this.dumps == dumps && this.show == show && this.maxFrame == maxFrame
    {
      this.sock, this.dumps, this.show, this.maxFrame := sock, dumps, show, maxFrame;
      pending, closed := map[], false;
    }

    /** Every reference in the map is waiting, under its own call id and no other. */
    ghost predicate Valid()
      reads this, pending.Values
    {
      forall id :: id in pending ==> pending[id].callId == id && pending[id].View() == Client.Waiting
    }

    /** Completes the reference a response names. On any malformed message, or one that names no pending call, it
        raises; a message whose `ok` is not a boolean has by then lost its reference. */
    method HandleResponse(message: Value) returns (r: Result<(), Error>)
      requires Valid()
      modifies this`pending, pending.Values
      ensures Valid()
      ensures match ReadResponse(show, message)
        case Malformed(_) => r.Err? && pending == old(pending)
        case BadFlag(id) => r.Err? && pending == old(pending) - {id} && (id in old(pending) ==> old(pending)[id].View() == Client.Waiting)
        case Completes(id, outcome) =>
          if id in old(pending) then
            r.Ok? && pending == old(pending) - {id} && old(pending)[id].View() == Client.Done(outcome)
          else r.Err? && pending == old(pending)
      ensures !IsResult(message) ==> r.Err? && pending == old(pending)
      ensures IsResult(message) ==> var m := message.entries; var id := m["call_id"].s;
        if id !in old(pending) then r.Err? && pending == old(pending)
        else
          && pending == old(pending) - {id}
          && if "ok" in m && m["ok"] == Bool(true) then
               r.Ok? && old(pending)[id].View() == Client.Done(Returned(if "result" in m then m["result"] else Null))
             else if "ok" in m && m["ok"] == Bool(false) then
               r.Ok? && old(pending)[id].View() == Client.Done(Raised(Error(
                 if "error_type" in m then show(m["error_type"]) else "RemoteError",
                 if "error" in m then show(m["error"]) else "remote call failed")))
             else r.Err? && old(pending)[id].View() == Client.Waiting
      ensures r.Err? ==> r.error.kind == "ProtocolError"
    {
      if !message.Dict? {
        return Err(Error("ProtocolError", "response message must be a dictionary"));
      }
      var m := message.entries;
      if "type" !in m || m["type"] != Text("result") {
        return Err(Error("ProtocolError", "unexpected response type"));
      }
      if "call_id" !in m || !m["call_id"].Text? {
        return Err(Error("ProtocolError", "response call_id must be a string"));
      }
      var id := m["call_id"].s;
      if id !in pending {
        return Err(Error("ProtocolError", "received response for unknown call_id"));
      }
      var ref := pending[id];
      pending := pending - {id};
      if "ok" in m && m["ok"] == Bool(true) {
        var done := ref.SetResult(if "result" in m then m["result"] else Null);
        return Ok(());
      }
      if "ok" in m && m["ok"] == Bool(false) {
        var kind := if "error_type" in m then show(m["error_type"]) else "RemoteError";
        var text := if "error" in m then show(m["error"]) else "remote call failed";
        var done := ref.SetError(kind, text);
        return Ok(());
      }
      r := Err(Error("ProtocolError", "response ok field must be true or false"));
    }

    /** Closes once: closes the socket, takes all pending references out of the map and fails each with the given error.
        A second close does nothing. */
    method CloseWithError(kind: string, message: string)
      requires Valid()
      modifies this`pending, this`closed, pending.Values, sock`broken
      ensures Valid() && closed
      ensures old(closed) ==> pending == old(pending) && unchanged(sock) && forall id :: id in pending ==> unchanged(pending[id])
      ensures !old(closed) ==> sock.broken
      ensures !old(closed) ==> pending == map[]
      ensures !old(closed) ==>
        forall id :: id in old(pending) ==> old(pending)[id].View() == Client.Done(Raised(Error(kind, message)))
    {
      if closed {
        return;
      }
      closed := true;
      sock.Close();
      var refs := pending;
      pending := map[];
      var left := refs.Keys;
      while left != {}
        invariant left <= refs.Keys && pending == map[] && closed && sock.broken
        invariant forall id :: id in left ==> refs[id].View() == Client.Waiting
        invariant forall id :: id in refs && id !in left ==> refs[id].View() == Client.Done(Raised(Error(kind, message)))
        decreases left
      {
        var id :| id in left;
        left := left - {id};
        var ok := refs[id].SetError(kind, message);
      }
    }

    /** Sends a request under a call id that is not in use. On success its reference waits in the map and one
        frame more is on the wire. On any failure the map is as before, the reference, which the caller does not
        get, has failed unless the request did not even serialize, and only a failing socket may have taken
        part of the frame. */
    method SendRequest(request: Request) returns (ref: ObjectRef, r: Result<(), Error>)
      requires Valid() && request.callId !in pending
      modifies this`pending, sock
      ensures Valid() && fresh(ref) && ref.callId == request.callId
      ensures r.Ok? ==>
        && pending == old(pending)[request.callId := ref]
        && !closed && dumps(BuildRequest(request)).Ok? && Fits(dumps(BuildRequest(request)).value, maxFrame)
        && sock.sent == old(sock.sent) + Frame(dumps(BuildRequest(request)).value)
      ensures r.Err? ==>
        && pending == old(pending)
        && ref.View() == (if dumps(BuildRequest(request)).Err? then Client.Waiting
                        else Client.Done(Raised(Error("ConnectionError", "failed to send remote call"))))
        && (closed || dumps(BuildRequest(request)).Err? || !Fits(dumps(BuildRequest(request)).value, maxFrame) ==>
              sock.sent == old(sock.sent) && sock.broken == old(sock.broken))
        && (!closed && dumps(BuildRequest(request)).Ok? && Fits(dumps(BuildRequest(request)).value, maxFrame) ==> sock.broken)
      ensures r.Err? ==>
        if dumps(BuildRequest(request)).Err? then r.error == dumps(BuildRequest(request)).error
        else r.error.kind == if closed then "ConnectionClosedError" else "WriteError"
    {
      hide BuildRequest;
      ref := new ObjectRef(request.callId);
      var payload := dumps(BuildRequest(request));
      if payload.Err? {
        return ref, Err(payload.error);
      }
      if closed {
        var failed := ref.SetError("ConnectionError", "failed to send remote call");
        return ref, Err(Error("ConnectionClosedError", "client connection is closed"));
      }
      pending := pending[request.callId := ref];
      var sent := sock.WriteFrame(payload.value, maxFrame);
      if !sent {
        pending := pending - {request.callId};
        var failed := ref.SetError("ConnectionError", "failed to send remote call");
        return ref, Err(Error("WriteError", "the frame is too long or the socket failed"));
      }
      r := Ok(());
    }
  }

  class ActorHandle {
    const connection: RpcClientConnection
    const actorId: string
    const owns: bool
    var closed: bool

    constructor (connection: RpcClientConnection, actorId: string, owns: bool)
      ensures this.connection == connection && this.actorId == actorId && this.owns == owns && !closed
    {
      this.connection, this.actorId, this.owns := connection, actorId, owns;
      closed := false;
    }

    /** A call through a closed handle raises and sends nothing; through an open one it is sent for the handle's actor. */
    method Call(callId: string, methodName: string, args: seq<Value>, kwargs: map<string, Value>)
      returns (r: Result<ObjectRef, Error>)
      requires connection.Valid() && callId !in connection.pending
      modifies connection`pending, connection.sock
      ensures connection.Valid()
      ensures closed ==> r.Err? && r.error.kind == "ConnectionClosedError" && connection.sock.sent == old(connection.sock.sent)
      ensures r.Err? ==> connection.pending == old(connection.pending)
      ensures r.Ok? ==> var message := connection.dumps(BuildRequest(Request(callId, CallActor(actorId, methodName, args, kwargs))));
        && message.Ok? && Fits(message.value, connection.maxFrame)
        && connection.sock.sent == old(connection.sock.sent) + Frame(message.value)
        && connection.pending == old(connection.pending)[callId := r.value]
      ensures !closed && r.Err? ==> var message := connection.dumps(BuildRequest(Request(callId, CallActor(actorId, methodName, args, kwargs))));
        if message.Err? then r.error == message.error && connection.sock.sent == old(connection.sock.sent)
        else if connection.closed then r.error.kind == "ConnectionClosedError" && connection.sock.sent == old(connection.sock.sent)
        else r.error.kind == "WriteError" && (Fits(message.value, connection.maxFrame) ==> connection.sock.broken)
    {
      if closed {
        return Err(Error("ConnectionClosedError", "actor handle is closed"));
      }
      var ref, sent := connection.SendRequest(Request(callId, CallActor(actorId, methodName, args, kwargs)));
      if sent.Err? {
        return Err(sent.error);
      }
      r := Ok(ref);
    }

    /** Closes once. Only the first close of an owning handle sends a destruction and waits for its answer, which
        `answer` tells. That the connection is closed already, or the actor gone, is no error. */
    method Close(callId: string, answer: Option<Outcome>) returns (r: Result<(), Error>)
      requires connection.Valid() && callId !in connection.pending
      modifies this`closed, connection`pending, connection.sock
      ensures closed
      ensures answer == None ==> connection.Valid()
      ensures old(closed) || !owns ==> r.Ok? && connection.Valid() && connection.pending == old(connection.pending)
      ensures old(closed) || !owns ==> connection.sock.sent == old(connection.sock.sent)
      ensures !old(closed) && owns ==>
        var message := connection.dumps(BuildRequest(Request(callId, DestroyActor(actorId))));
        if message.Err? then if message.error.kind == "ConnectionClosedError" then r.Ok? else r == Err(message.error)
        else if connection.closed then r.Ok? && connection.sock.sent == old(connection.sock.sent)
        else if callId in connection.pending then
          && Fits(message.value, connection.maxFrame)
          && connection.sock.sent == old(connection.sock.sent) + Frame(message.value)
          && match answer
             case None => r.Err? && r.error.kind == "TimeoutError"
             case Some(Returned(_)) => r.Ok?
             case Some(Raised(e)) => if e.kind == "ActorNotFoundError" then r.Ok? else r == Err(e)
        else r.Err? && r.error.kind == "WriteError"
    {
      if closed {
        return Ok(());
      }
      closed := true;
      if !owns {
        return Ok(());
      }
      var ref, sent := connection.SendRequest(Request(callId, DestroyActor(actorId)));
      if sent.Err? {
        return if sent.error.kind == "ConnectionClosedError" then Ok(()) else Err(sent.error);
      }
      var got := ref.Get(answer);
      if got.Err? {
        return if got.error.kind == "ActorNotFoundError" then Ok(()) else Err(got.error);
      }
      r := Ok(());
    }
  }
}
