/** The idempotency middleware and the interceptor that captures a handler's response. */
module ResponseCache {
  import opened Wrappers
  import opened KeyTable

  /** Final status codes; the informational 1xx ones are not final. */
  type Status = c: nat | 200 <= c < 1000 witness 200

  /** What a handler does to its ResponseWriter. */
  datatype WriterOp = SetStatus(code: Status) | WriteBody(bytes: string)

  type Script = seq<WriterOp>

  /** The bytes a script writes, in order. */
  function Bytes(ops: Script): string {
    if ops == [] then ""
    else Bytes(ops[..|ops| - 1]) + (match ops[|ops| - 1] case WriteBody(b) => b case SetStatus(_) => "")
  }

  /** They are the writes one after the other, and nothing else is. */
  lemma {:induction false} BytesConcat(a: Script, b: Script)
    ensures Bytes(a + b) == Bytes(a) + Bytes(b)
  {
    if b == [] {
      assert a + b == a;
    } else {
      assert (a + b)[..|a + b| - 1] == a + b[..|b| - 1];
      BytesConcat(a, b[..|b| - 1]);
    }
  }

  lemma BytesOfOne(code: Status, bytes: string)
    ensures Bytes([WriteBody(bytes)]) == bytes && Bytes([SetStatus(code)]) == ""
  {
    assert [WriteBody(bytes)][..0] == [] && [SetStatus(code)][..0] == [];
  }

  /** The status on the wire: the first header wins, a write without one means 200. */
  function Wire(ops: Script): Option<Status> {
    if ops == [] then None
    else
      match Wire(ops[..|ops| - 1])
      case Some(c) => Some(c)
      case None => (match ops[|ops| - 1] case SetStatus(c) => Some(c) case WriteBody(_) => Some(200))
  }

  /** The interceptor's statusCode field: the last header wins, 0 while there is none. */
  function Field(ops: Script): nat {
    if ops == [] then 0
    else
      match ops[|ops| - 1]
      case SetStatus(c) => c
      case WriteBody(_) => if Field(ops[..|ops| - 1]) == 0 then 200 else Field(ops[..|ops| - 1])
  }

  /** The response the client gets, and the response the middleware would store. */
  function SentStatus(ops: Script): nat {
    if Wire(ops).Some? then Wire(ops).value else 200
  }

  function StoredStatus(ops: Script): nat {
    if Field(ops) == 0 then 200 else Field(ops)
  }

  /** The underlying http.ResponseWriter. */
  class ResponseWriter {
    var status: Option<Status>
    var sent: string

    constructor ()
      ensures status == None && sent == ""
    {
      status, sent := None, "";
    }

    method WriteHeader(code: Status)
      modifies this
      ensures status == (if old(status).Some? then old(status) else Some(code))
      ensures sent == old(sent)
    {
      if status.None? {
        status := Some(code);
      }
    }

    method Write(bytes: string)
      modifies this
      ensures status == (if old(status).Some? then old(status) else Some(200))
      ensures sent == old(sent) + bytes
    {
      if status.None? {
        status := Some(200);
      }
      sent := sent + bytes;
    }
  }

  class ResponseBufferInterceptor {
    const inner: ResponseWriter
    var statusCode: nat
    var bodyBuffer: string

    constructor (inner: ResponseWriter)
      ensures this.inner == inner && statusCode == 0 && bodyBuffer == ""
    {
      this.inner := inner;
      statusCode, bodyBuffer := 0, "";
    }

    method WriteHeader(code: Status)
      modifies this, inner
      ensures statusCode == code && bodyBuffer == old(bodyBuffer)
      ensures inner.status == (if old(inner.status).Some? then old(inner.status) else Some(code))
      ensures inner.sent == old(inner.sent)
    {
      statusCode := code;
      inner.WriteHeader(code);
    }

    method Write(bytes: string)
      modifies this, inner
      ensures statusCode == (if old(statusCode) == 0 then 200 else old(statusCode))
      ensures bodyBuffer == old(bodyBuffer) + bytes
      ensures inner.status == (if old(inner.status).Some? then old(inner.status) else Some(200))
      ensures inner.sent == old(inner.sent) + bytes
    {
      if statusCode == 0 {
        statusCode := 200;
      }
      bodyBuffer := bodyBuffer + bytes;
      inner.Write(bytes);
    }

    /** A handler run: its writes reach the field, the buffer and the client. */
    method Serve(ops: Script)
      requires statusCode == 0 && bodyBuffer == "" && inner.status == None && inner.sent == ""
      modifies this, inner
      ensures statusCode == Field(ops) && bodyBuffer == Bytes(ops)
      ensures inner.status == Wire(ops) && inner.sent == Bytes(ops)
    {
      var k := 0;
      while k < |ops|
        invariant k <= |ops|
        invariant statusCode == Field(ops[..k]) && bodyBuffer == Bytes(ops[..k])
        invariant inner.status == Wire(ops[..k]) && inner.sent == Bytes(ops[..k])
      {
        assert ops[..k + 1][..k] == ops[..k];
        match ops[k] {
          case SetStatus(code) => WriteHeader(code);
          case WriteBody(bytes) => Write(bytes);
        }
        k := k + 1;
      }
      assert ops[..|ops|] == ops;
    }
  }

  /** Passing the real writer through: the same writes, no capture. */
  method ServeDirectly(w: ResponseWriter, ops: Script)
    requires w.status == None && w.sent == ""
    modifies w
    ensures w.status == Wire(ops) && w.sent == Bytes(ops)
  {
    var k := 0;
    while k < |ops|
      invariant k <= |ops|
      invariant w.status == Wire(ops[..k]) && w.sent == Bytes(ops[..k])
    {
      assert ops[..k + 1][..k] == ops[..k];
      match ops[k] {
        case SetStatus(code) => w.WriteHeader(code);
        case WriteBody(bytes) => w.Write(bytes);
      }
      k := k + 1;
    }
    assert ops[..|ops|] == ops;
  }

  // ---- Exactness of the capture ----

  /** The last status the script sets, if it sets any. */
  function LastSet(ops: Script): Option<Status> {
    if ops == [] then None
    else
      match ops[|ops| - 1]
      case SetStatus(c) => Some(c)
      case WriteBody(_) => LastSet(ops[..|ops| - 1])
  }

  lemma {:induction false} FieldIsLastSet(ops: Script)
    ensures LastSet(ops).Some? ==> Field(ops) == LastSet(ops).value
    ensures LastSet(ops).None? ==> Field(ops) == (if ops == [] then 0 else 200)
  {
    if ops != [] {
      FieldIsLastSet(ops[..|ops| - 1]);
    }
  }

  lemma {:induction false} WireIsFirst(ops: Script)
    ensures ops == [] ==> Wire(ops) == None
    ensures ops != [] ==> Wire(ops) == Some(match ops[0] case SetStatus(c) => c case WriteBody(_) => 200)
  {
    if ops != [] {
      WireIsFirst(ops[..|ops| - 1]);
    }
  }

  /**
   The stored status is the one the client saw exactly when the handler sets no status, or the last
   status it sets is the one its first action put on the wire.
   */
  lemma CaptureIsExact(ops: Script)
    ensures StoredStatus(ops) == SentStatus(ops)
            <==> (LastSet(ops).Some? ==> match ops[0] case SetStatus(c) => c == LastSet(ops).value
                                                      case WriteBody(_) => LastSet(ops).value == 200)
  {
    FieldIsLastSet(ops);
    WireIsFirst(ops);
    if LastSet(ops).None? && ops != [] {
      NoneSet(ops);
    }
  }

  lemma {:induction false} NoneSet(ops: Script)
    requires LastSet(ops).None?
    ensures forall op :: op in ops ==> op.WriteBody?
  {
    if ops != [] {
      NoneSet(ops[..|ops| - 1]);
    }
  }

  /** Handlers that set the status at most once, before any write, are always captured exactly. */
  lemma OrderlyHandlersAreCaptured(ops: Script)
    requires forall k :: 0 < k < |ops| ==> ops[k].WriteBody?
    ensures StoredStatus(ops) == SentStatus(ops)
  {
    OnlyFirstSets(ops);
    CaptureIsExact(ops);
  }

  lemma {:induction false} OnlyFirstSets(ops: Script)
    requires forall k :: 0 < k < |ops| ==> ops[k].WriteBody?
    ensures LastSet(ops) == (if ops != [] && ops[0].SetStatus? then Some(ops[0].code) else None)
  {
    if |ops| > 1 {
      OnlyFirstSets(ops[..|ops| - 1]);
    }
  }

  /** What a repeat finds after the first run was saved is, byte for byte, what the first client got. */
  lemma ReplayEqualsFirstResponse(keys: Keys<string>, id: Digest, user: UserId, ops: Script)
    requires id !in keys
    requires forall k :: 0 < k < |ops| ==> ops[k].WriteBody?
    ensures Find(Insert(keys, id, Row(user, StoredStatus(ops), Bytes(ops))), id, user)
         == Some(Row(user, SentStatus(ops), Bytes(ops)))
  {
    OrderlyHandlersAreCaptured(ops);
  }

  // ---- The middleware ----

  datatype HttpRequest =
    HttpRequest(verb: string, xKey: string, plainKey: string, user: Option<UserId>, payload: string)
  {
    function RawKey(): string {
      if xKey == "" then plainKey else xKey
    }

    /** Requests the middleware keeps track of; all others go straight to the handler. */
    predicate Tracked() {
      (verb == "POST" || verb == "PUT" || verb == "PATCH") && RawKey() != "" && user.Some?
    }

    function Id(): Digest
      requires Tracked()
    {
      CompoundHash(RawKey(), user.value, payload)
    }
  }

  /**
   Kept track of are POST, PUT and PATCH with a user and a key in either header; the X- header goes
   before the plain one.
   */
  lemma HeaderRule(r: HttpRequest)
    ensures r.Tracked() <==> (r.verb == "POST" || r.verb == "PUT" || r.verb == "PATCH") && r.user.Some?
                             && (r.xKey != "" || r.plainKey != "")
    ensures r.Tracked() && r.xKey != "" ==> r.Id() == CompoundHash(r.xKey, r.user.value, r.payload)
    ensures r.Tracked() && r.xKey == "" ==> r.Id() == CompoundHash(r.plainKey, r.user.value, r.payload)
  {
  }

  /** What comes of a tracked request: the key table, the response on the wire, and whether the handler ran. */
  datatype Reply = Reply(keys: Keys<string>, status: Option<nat>, sent: string, ran: bool)

  /** A hit replays its row; a miss runs the handler, and its response is stored below 500. */
  function ReplyTo(keys: Keys<string>, id: Digest, user: UserId, ops: Script, lookupWorks: bool, saveWorks: bool): Reply
  {
    var found := Find(keys, id, user);
    if lookupWorks && found.Some? then Reply(keys, Some(found.value.code), found.value.body, false)
    else
      Reply(if saveWorks && StoredStatus(ops) < 500 then Insert(keys, id, Row(user, StoredStatus(ops), Bytes(ops)))
            else keys,
            Wire(ops), Bytes(ops), true)
  }

  class IdempotencyMiddleware {
    var keys: Keys<string>   // the idempotency_keys table
    var runs: nat            // handler runs so far

    constructor ()
      ensures keys == map[] && runs == 0
    {
      keys, runs := map[], 0;
    }

    /** One request; `ops` is what the handler would write, the flags say whether the table answers. */
    method Handle(r: HttpRequest, w: ResponseWriter, ops: Script, lookupWorks: bool, saveWorks: bool)
      requires w.status == None && w.sent == ""
      requires forall id :: id in keys ==> 200 <= keys[id].code < 500
      modifies this, w
      ensures forall id :: id in keys ==> 200 <= keys[id].code < 500
      ensures (r.verb != "POST" && r.verb != "PUT" && r.verb != "PATCH") || r.user.None?
              || (r.xKey == "" && r.plainKey == "") ==>
        keys == old(keys) && runs == old(runs) + 1 && w.status == Wire(ops) && w.sent == Bytes(ops)
      ensures (r.verb == "POST" || r.verb == "PUT" || r.verb == "PATCH") && r.user.Some?
              && (r.xKey != "" || r.plainKey != "") ==>
        var id := CompoundHash(if r.xKey != "" then r.xKey else r.plainKey, r.user.value, r.payload);
        var reply := ReplyTo(old(keys), id, r.user.value, ops, lookupWorks, saveWorks);
        && keys == reply.keys && runs == old(runs) + (if reply.ran then 1 else 0)
        && w.status == reply.status && w.sent == reply.sent
    {
      if (r.verb != "POST" && r.verb != "PUT" && r.verb != "PATCH") || r.RawKey() == "" || r.user.None? {
        runs := runs + 1;
        ServeDirectly(w, ops);
        return;
      }
      var user := r.user.value;
      var compoundHash := CompoundHash(r.RawKey(), user, r.payload);
      if lookupWorks {
        var cached := Find(keys, compoundHash, user);
        if cached.Some? {
          w.WriteHeader(cached.value.code);
          w.Write(cached.value.body);
          return;
        }
      }
      var interceptor := new ResponseBufferInterceptor(w);
      runs := runs + 1;
      interceptor.Serve(ops);
      if interceptor.statusCode == 0 {
        interceptor.statusCode := 200;
      }
      FieldIsLastSet(ops);
      if interceptor.statusCode < 500 && saveWorks {
        keys := Insert(keys, compoundHash, Row(user, interceptor.statusCode, interceptor.bodyBuffer));
      }
    }
  }

  /**
   A tracked request sent twice while the table works and the first answer is below 500: the handler
   runs once, or not at all if an answer was stored before, and both clients get the same bytes and, if
   the handler is an orderly one, the same status.
   */
  method SendTwice(m: IdempotencyMiddleware, r: HttpRequest, first: ResponseWriter, again: ResponseWriter,
                   ops: Script, otherOps: Script)
    requires first != again && first.status == None && first.sent == "" && again.status == None && again.sent == ""
    requires forall id :: id in m.keys ==> 200 <= m.keys[id].code < 500
    requires (r.verb == "POST" || r.verb == "PUT" || r.verb == "PATCH") && r.user.Some?
    requires r.xKey != "" || r.plainKey != ""
    requires StoredStatus(ops) < 500
    modifies m, first, again
    ensures var id := CompoundHash(if r.xKey != "" then r.xKey else r.plainKey, r.user.value, r.payload);
            var stored := Find(old(m.keys), id, r.user.value);
            && (stored.None? && id !in old(m.keys) ==> m.runs == old(m.runs) + 1)
            && (stored.Some? ==> m.runs == old(m.runs))
            && (stored.Some? || id !in old(m.keys) ==>
                  && again.sent == first.sent && again.status.Some?
                  && (ops != [] && (forall k :: 0 < k < |ops| ==> ops[k].WriteBody?) ==> again.status == first.status))
  {
    m.Handle(r, first, ops, true, true);
    if ops != [] && forall k :: 0 < k < |ops| ==> ops[k].WriteBody? {
      OrderlyHandlersAreCaptured(ops);
      WireIsFirst(ops);
    }
    m.Handle(r, again, otherOps, true, true);
  }
}
