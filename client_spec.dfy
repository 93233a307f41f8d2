/** Reference definitions of the client's coroutines as runs against an
    arbitrary server: whatever state `S` the server keeps and however it
    answers (a `Transport`), a run records the server's new state, the
    requests the client sent in order, and what the coroutine returns.
    The lemmas here hold for every server. */
module ClientSpec {
  import opened Results
  import opened JsonValue
  import opened Decimal
  import opened Http

  /** The HTTP transport together with the server behind it. */
  type Transport<!S> = (S, Request) -> (S, Reply)

  datatype Run<S, T> = Run(state: S, sent: seq<Request>, result: T)

  /** One round trip: the server steps and `httpx` attaches the request URL. */
  function Exchange<S>(serve: Transport<S>, s: S, req: Request, url: string): (S, Response) {
    var (s1, reply) := serve(s, req);
    (s1, Response(reply.status, reply.body, reply.headers, url))
  }

  /** `Couchi.create_db`. */
  function CreateDbRun<S>(serve: Transport<S>, s: S, db: string, dbUrl: string): (run: Run<S, Pair>)
    ensures run.sent == [PutDb(db)]
  {
    var (s1, res) := Exchange(serve, s, PutDb(db), CreateDbUrl(dbUrl, db));
    Run(s1, [PutDb(db)], Check(res))
  }

  /** What `Couchi.add` returns. */
  datatype AddResult =
    | Unwrapped(value: Json)              // `return r[1]`
    | Tuple(pair: Pair)                   // a `(bool, value)` tuple
    | NotMade(db: string, reason: Json)   // `(False, f"{db} could not be made for {reason}")`
    | NoneResult                          // the coroutine ends without `return`

  /** Python's truth value of a `(bool, value)` tuple: a non-empty tuple is true. */
  predicate Truthy(p: Pair) {
    true
  }

  /** `Couchi.add`; `recursed` counts the retries made so far. The run never
      sends more than two requests per retry left. */
  function AddRun<S>(serve: Transport<S>, s: S, db: string, dbUrl: string,
                     docId: string, data: Json, recursed: int): (run: Run<S, AddResult>)
    requires recursed <= 2
    ensures |run.sent| <= 2 * (2 - recursed)
    decreases 2 - recursed
  {
    if recursed == 2 then Run(s, [], Tuple(Pair(false, JStr("recursed limit reached"))))
    else
      var (s1, res) := Exchange(serve, s, PutDoc(docId, data), DocUrl(dbUrl, docId));
      var r := Check(res);
      if r.ok then Run(s1, [PutDoc(docId, data)], Unwrapped(r.detail))
      else if !r.ok && r.detail == JStr("not_found") then
        var cdb := CreateDbRun(serve, s1, db, dbUrl);
        if Truthy(cdb.result) then
          var retry := AddRun(serve, cdb.state, db, dbUrl, docId, data, recursed + 1);
          Run(retry.state, [PutDoc(docId, data)] + cdb.sent + retry.sent, NoneResult)
        else Run(cdb.state, [PutDoc(docId, data)] + cdb.sent, NotMade(db, cdb.result.detail))
      else Run(s1, [PutDoc(docId, data)], Tuple(r))
  }

  /** The classification of the first document PUT of `add`. */
  function FirstPut<S>(serve: Transport<S>, s: S, dbUrl: string, docId: string, data: Json): Pair {
    Check(Exchange(serve, s, PutDoc(docId, data), DocUrl(dbUrl, docId)).1)
  }

  /** At the limit `add` sends nothing and reports the limit. */
  lemma AddAtLimit<S>(serve: Transport<S>, s: S, db: string, dbUrl: string, docId: string, data: Json)
    ensures AddRun(serve, s, db, dbUrl, docId, data, 2) ==
              Run(s, [], Tuple(Pair(false, JStr("recursed limit reached"))))
  {
  }

  /** The request `add` sends at position `i` of its run. */
  function AddStep(i: nat, db: string, docId: string, data: Json): Request {
    if i % 2 == 0 then PutDoc(docId, data) else PutDb(db)
  }

  predicate Alternates(reqs: seq<Request>, db: string, docId: string, data: Json) {
    forall i :: 0 <= i < |reqs| ==> reqs[i] == AddStep(i, db, docId, data)
  }

  /** One more round of `add` in front keeps the alternation. */
  lemma AlternatesPrepend(reqs: seq<Request>, db: string, docId: string, data: Json)
    requires Alternates(reqs, db, docId, data)
    ensures Alternates([PutDoc(docId, data), PutDb(db)] + reqs, db, docId, data)
  {
    var all := [PutDoc(docId, data), PutDb(db)] + reqs;
    forall i | 2 <= i < |all|
      ensures all[i] == AddStep(i, db, docId, data)
    {
      assert all[i] == reqs[i - 2];
      assert (i - 2) % 2 == i % 2;
    }
  }

  /** The requests of `add` alternate document PUT, database PUT, starting
      with the document; with two retries left that is at most two of each. */
  lemma {:induction false} AddRequestsAlternate<S>(serve: Transport<S>, s: S, db: string, dbUrl: string,
                                                   docId: string, data: Json, recursed: int)
    requires recursed <= 2
    ensures Alternates(AddRun(serve, s, db, dbUrl, docId, data, recursed).sent, db, docId, data)
    decreases 2 - recursed
  {
    var run := AddRun(serve, s, db, dbUrl, docId, data, recursed);
    if recursed < 2 {
      var (s1, res) := Exchange(serve, s, PutDoc(docId, data), DocUrl(dbUrl, docId));
      var r := Check(res);
      if !r.ok && r.detail == JStr("not_found") {
        var cdb := CreateDbRun(serve, s1, db, dbUrl);
        var retry := AddRun(serve, cdb.state, db, dbUrl, docId, data, recursed + 1);
        AddRequestsAlternate(serve, cdb.state, db, dbUrl, docId, data, recursed + 1);
        assert run.sent == [PutDoc(docId, data), PutDb(db)] + retry.sent;
        AlternatesPrepend(retry.sent, db, docId, data);
      }
    }
  }

  /** From `recursed = 0`: at most two document PUTs and two `create_db` calls,
      the last request of a long run being a `create_db`. */
  lemma AddRequestBound<S>(serve: Transport<S>, s: S, db: string, dbUrl: string, docId: string, data: Json)
    ensures var run := AddRun(serve, s, db, dbUrl, docId, data, 0);
      |run.sent| <= 4 &&
      (forall i :: 0 <= i < |run.sent| && run.sent[i].PutDoc? ==> i in {0, 2}) &&
      (forall i :: 0 <= i < |run.sent| && run.sent[i].PutDb? ==> i in {1, 3})
  {
  }

  /** What `add` returns is decided by its first PUT alone: the unwrapped
      value on success, `None` after "not_found" whatever the retry did, the
      failure tuple otherwise; the "could not be made" tuple never appears. */
  lemma AddResultByFirstPut<S>(serve: Transport<S>, s: S, db: string, dbUrl: string,
                               docId: string, data: Json, recursed: int)
    requires recursed < 2
    ensures var r := FirstPut(serve, s, dbUrl, docId, data);
      var run := AddRun(serve, s, db, dbUrl, docId, data, recursed);
      (r.ok ==> run.result == Unwrapped(r.detail) && run.sent == [PutDoc(docId, data)]) &&
      (r == Pair(false, JStr("not_found")) ==>
         run.result == NoneResult && run.sent[..2] == [PutDoc(docId, data), PutDb(db)]) &&
      (!r.ok && r.detail != JStr("not_found") ==> run.result == Tuple(r) && run.sent == [PutDoc(docId, data)]) &&
      !run.result.NotMade?
  {
  }

  /** The response headers of `Couchi.head`. */
  function HeadRun<S>(serve: Transport<S>, s: S, dbUrl: string, docId: string): (run: Run<S, map<string, string>>)
    ensures run.sent == [HeadDoc(docId)]
  {
    var (s1, res) := Exchange(serve, s, HeadDoc(docId), DocUrl(dbUrl, docId));
    Run(s1, [HeadDoc(docId)], res.headers)
  }

  /** `Couchi.get_cur_rev`: the `ETag` header of a HEAD, or `KeyError`. */
  function CurRevRun<S>(serve: Transport<S>, s: S, dbUrl: string, docId: string): (run: Run<S, Outcome<string>>)
    ensures run.sent == [HeadDoc(docId)]
    ensures var h := HeadRun(serve, s, dbUrl, docId).result;
      run.result == if "ETag" in h then Return(h["ETag"]) else RaiseKeyError("ETag")
  {
    var head := HeadRun(serve, s, dbUrl, docId);
    if "ETag" in head.result then Run(head.state, head.sent, Return(head.result["ETag"]))
    else Run(head.state, head.sent, RaiseKeyError("ETag"))
  }

  /** `Couchi.attach`: read the revision, then PUT the bytes conditionally on it. */
  function AttachRun<S>(serve: Transport<S>, s: S, dbUrl: string, data: seq<bv8>,
                        docId: string, attachId: string): (run: Run<S, Outcome<Response>>)
    ensures 1 <= |run.sent| <= 2 && run.sent[0] == HeadDoc(docId)
    ensures run.result.Return? <==> |run.sent| == 2
  {
    var rev := CurRevRun(serve, s, dbUrl, docId);
    match rev.result
    case RaiseKeyError(k) => Run(rev.state, rev.sent, RaiseKeyError(k))
    case Return(etag) =>
      var (s2, res) := Exchange(serve, rev.state, PutAttachment(docId, attachId, etag, data),
                                AttachmentUrl(dbUrl, docId, attachId));
      Run(s2, rev.sent + [PutAttachment(docId, attachId, etag, data)], Return(res))
  }

  /** `attach` sends a HEAD first; the PUT follows exactly when the HEAD
      carried an `ETag`, goes to `db_url/doc_id/attach_id` and carries that
      `ETag` as its `If-Match`. */
  lemma AttachIsConditionalOnHead<S>(serve: Transport<S>, s: S, dbUrl: string, data: seq<bv8>,
                                     docId: string, attachId: string)
    ensures var head := HeadRun(serve, s, dbUrl, docId);
      var run := AttachRun(serve, s, dbUrl, data, docId, attachId);
      1 <= |run.sent| <= 2 && run.sent[0] == HeadDoc(docId) &&
      (|run.sent| == 2 <==> "ETag" in head.result) &&
      (|run.sent| == 2 ==>
         run.sent[1] == PutAttachment(docId, attachId, head.result["ETag"], data) &&
         run.result.Return? && run.result.value.url == DocUrl(dbUrl, docId) + "/" + attachId) &&
      (|run.sent| == 1 ==> run.result == RaiseKeyError("ETag") && run.state == head.state)
  {
  }

  /** The PUT of `attach` is made from the state the HEAD left, and what
      `attach` returns is that PUT's reply, requested from the attachment URL. */
  lemma AttachReturnsPutReply<S>(serve: Transport<S>, s: S, dbUrl: string, data: seq<bv8>,
                                 docId: string, attachId: string)
    requires "ETag" in HeadRun(serve, s, dbUrl, docId).result
    ensures var head := HeadRun(serve, s, dbUrl, docId);
      var etag := head.result["ETag"];
      var put := Exchange(serve, head.state, PutAttachment(docId, attachId, etag, data),
                          AttachmentUrl(dbUrl, docId, attachId));
      AttachRun(serve, s, dbUrl, data, docId, attachId) ==
        Run(put.0, [HeadDoc(docId), PutAttachment(docId, attachId, etag, data)], Return(put.1))
  {
  }

  /** `attach_file`'s refusal of a file at or over the limit: a failure whose
      message starts with the file name. */
  function TooBig(filename: string, size: nat, limit: int): (r: Pair)
    ensures !r.ok && r.detail.JStr? && filename <= r.detail.s
  {
    Pair(false, JStr(filename + " is " + NatToString(size) + " > " + IntToString(limit)))
  }

  /** `Couchi.attach_file`; `file` is `None` when `filename` is not a regular
      file, otherwise its bytes, whose length is its size. */
  function AttachFileRun<S>(serve: Transport<S>, s: S, dbUrl: string, filename: string,
                            file: Option<seq<bv8>>, docId: string, attachId: string,
                            limit: int): (run: Run<S, Outcome<Option<Pair>>>)
    ensures run.result == Return(None) <==> file.None?
  {
    match file
    case None => Run(s, [], Return(None))
    case Some(bytes) =>
      if |bytes| < limit then
        var a := AttachRun(serve, s, dbUrl, bytes, docId, attachId);
        match a.result
        case RaiseKeyError(k) => Run(a.state, a.sent, RaiseKeyError(k))
        case Return(res) => Run(a.state, a.sent, Return(Some(Check(res))))
      else Run(s, [], Return(Some(TooBig(filename, |bytes|, limit))))
  }

  /** Only an existing file strictly below the limit reaches the server; a
      missing file gives `None` and a big one the size message, both without
      any request and with the server untouched. */
  lemma AttachFileSizeGuard<S>(serve: Transport<S>, s: S, dbUrl: string, filename: string,
                               file: Option<seq<bv8>>, docId: string, attachId: string, limit: int)
    ensures var run := AttachFileRun(serve, s, dbUrl, filename, file, docId, attachId, limit);
      (run.sent != [] <==> file.Some? && |file.value| < limit) &&
      (run.sent != [] ==> run.sent[0] == HeadDoc(docId)) &&
      (file.None? ==> run == Run(s, [], Return(None))) &&
      (file.Some? && |file.value| >= limit ==>
         run == Run(s, [], Return(Some(TooBig(filename, |file.value|, limit)))))
  {
  }

  /** Below the limit `attach_file` is `attach` followed by `_check` of the
      PUT's reply; a `KeyError` of `attach` propagates. */
  lemma AttachFileChecksReply<S>(serve: Transport<S>, s: S, dbUrl: string, filename: string,
                                 bytes: seq<bv8>, docId: string, attachId: string, limit: int)
    requires |bytes| < limit
    ensures var a := AttachRun(serve, s, dbUrl, bytes, docId, attachId);
      var run := AttachFileRun(serve, s, dbUrl, filename, Some(bytes), docId, attachId, limit);
      run.state == a.state && run.sent == a.sent &&
      run.result == (if a.result.Return? then Return(Some(Check(a.result.value)))
                     else RaiseKeyError("ETag"))
  {
  }

  /** `Couchi.get_session_auth`: POST the credentials to `/_session`. */
  function SessionRun<S>(serve: Transport<S>, s: S, rootUrl: string, username: string,
                         password: string): (run: Run<S, Outcome<Pair>>)
    ensures run.sent == [PostSession(username, password)]
  {
    var (s1, res) := Exchange(serve, s, PostSession(username, password), SessionUrl(rootUrl));
    Run(s1, [PostSession(username, password)], SessionAuth(res))
  }
}
