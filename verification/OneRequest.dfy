/**
 The middleware of module ResponseCache and the requests of module EndToEnd are the same thing: if no
 other request saves in between, the key table and the response of `Handle` are those of the request's
 lookup and save. How a body is written as JSON is left to a function.
 */
module OneRequest {
  import opened Wrappers
  import opened History
  import opened Handlers
  import opened KeyTable
  import opened ResponseCache
  import opened EndToEnd

  /** An HTTP request that carries `q`: its key is in the X- header, or in the plain one with the other empty. */
  predicate Carries(h: HttpRequest, q: Request) {
    && (h.verb == "POST" || h.verb == "PUT" || h.verb == "PATCH")
    && h.user == Some(q.user) && h.payload == q.payload
    && (h.xKey == q.key || (h.xKey == "" && h.plainKey == q.key))
  }

  /** The middleware keeps track of it, under the request's own digest. */
  lemma NewRequestsAreTracked(h: HttpRequest, q: Request)
    requires q.New() && Carries(h, q)
    ensures h.Tracked() && h.Id() == q.id
  {
  }

  /** respondJSON: one status, then one body. */
  function ScriptOf(json: Body -> string, code: Status, body: Body): Script {
    [SetStatus(code), WriteBody(json(body))]
  }

  /** The key table with its bodies written out. */
  function Written(json: Body -> string, keys: Keys<Body>): Keys<string> {
    map id | id in keys :: Row(keys[id].user, keys[id].code, json(keys[id].body))
  }

  /** Such a script is captured as it is. */
  lemma ScriptIsCaptured(json: Body -> string, code: Status, body: Body)
    ensures var ops := ScriptOf(json, code, body);
            StoredStatus(ops) == code && Wire(ops) == Some(code) && Bytes(ops) == json(body)
  {
    var ops := ScriptOf(json, code, body);
    assert ops[..1] == [SetStatus(code)] && ops[..1][..0] == [];
    assert Bytes(ops[..1]) == "" && Wire(ops[..1]) == Some(code) && Field(ops[..1]) == code;
  }

  lemma WrittenFind(json: Body -> string, keys: Keys<Body>, id: Digest, user: UserId)
    ensures Find(Written(json, keys), id, user)
         == (match Find(keys, id, user)
             case None => None
             case Some(row) => Some(Row(row.user, row.code, json(row.body))))
  {
  }

  lemma WrittenInsert(json: Body -> string, keys: Keys<Body>, id: Digest, row: Row<Body>)
    ensures Written(json, Insert(keys, id, row))
         == Insert(Written(json, keys), id, Row(row.user, row.code, json(row.body)))
  {
  }

  /** A request that hits is answered as the middleware answers it, and leaves the table alone. */
  lemma HitIsHandled(json: Body -> string, s: System, r: Pid, ops: Script, saveWorks: bool)
    requires Enabled(s, Lookup(r, true)) && Find(s.keys, s.requests[r].id, s.requests[r].user).Some?
    ensures var q := s.requests[r];
            var s' := Do(s, Lookup(r, true));
            var x := s'.answers[|s.answers|];
            s'.requests[r].stage == Done(x.code, x.body, true)
            && ReplyTo(Written(json, s.keys), q.id, q.user, ops, true, saveWorks)
               == Reply(Written(json, s'.keys), Some(x.code), json(x.body), false)
  {
    WrittenFind(json, s.keys, s.requests[r].id, s.requests[r].user);
  }

  /** The answers handlers give are final statuses. */
  lemma AnsweredStatus(s: System, r: Pid)
    requires RequestsOk(s) && r in s.requests && s.requests[r].stage.Answered?
    ensures 200 <= s.requests[r].stage.code < 1000
  {
    assert RequestOk(s, r);
  }

  /**
   A request that misses, in state `s`, and is saved with the table as it was then, in state `s1`: table
   and response are those of the middleware around a handler that writes this answer.
   */
  lemma MissIsHandled(json: Body -> string, s: System, s1: System, r: Pid, lookupWorks: bool, saveWorks: bool)
    requires RequestsOk(s1) && Enabled(s, Lookup(r, lookupWorks)) && Enabled(s1, Save(r, saveWorks))
    requires lookupWorks ==> Find(s.keys, s.requests[r].id, s.requests[r].user).None?
    requires s1.keys == s.keys && s1.requests[r].id == s.requests[r].id && s1.requests[r].user == s.requests[r].user
    ensures Do(s, Lookup(r, lookupWorks)).requests[r].stage == Missed
    ensures var q := s1.requests[r];
            var s' := Do(s1, Save(r, saveWorks));
            var x := s'.answers[|s1.answers|];
            200 <= x.code < 1000 && s'.requests[r].stage == Done(x.code, x.body, false)
            && ReplyTo(Written(json, s.keys), q.id, q.user, ScriptOf(json, x.code, x.body), lookupWorks, saveWorks)
               == Reply(Written(json, s'.keys), Some(x.code), json(x.body), true)
  {
    var q := s1.requests[r];
    AnsweredStatus(s1, r);
    ScriptIsCaptured(json, q.stage.code, q.stage.body);
    WrittenFind(json, s.keys, q.id, q.user);
    WrittenInsert(json, s.keys, q.id, Row(q.user, q.stage.code, q.stage.body));
  }
}
