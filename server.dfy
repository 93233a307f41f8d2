/** A CouchDB-style server for the one database the client names: whether
    the database exists, whether the client may create it, the registered
    users and the documents with their revision numbers. Status codes and
    error tags follow CouchDB's HTTP API. */
module CouchServer {
  import opened JsonValue
  import opened Decimal
  import opened Http

  datatype Doc = Doc(rev: nat, body: Json, attachments: map<string, seq<bv8>>)

  datatype ServerState = ServerState(
    dbExists: bool,
    canCreateDb: bool,
    users: map<string, string>,
    docs: map<string, Doc>)

  /** A revision tag as the `rev` field of a reply shows it. */
  function RevTag(rev: nat): string {
    NatToString(rev)
  }

  /** The `ETag` header of a document: its quoted revision tag. */
  function ETag(rev: nat): string {
    "\"" + RevTag(rev) + "\""
  }

  lemma ETagInjective(r1: nat, r2: nat)
    requires ETag(r1) == ETag(r2)
    ensures r1 == r2
  {
    var t1, t2 := RevTag(r1), RevTag(r2);
    assert t1 == ETag(r1)[1..|ETag(r1)| - 1];
    assert t2 == ETag(r2)[1..|ETag(r2)| - 1];
    NatToStringInjective(r1, r2);
  }

  function ErrorBody(error: string, reason: string): Json {
    JObj(map["error" := JStr(error), "reason" := JStr(reason)])
  }

  function Saved(docId: string, rev: nat): Json {
    JObj(map["ok" := JBool(true), "id" := JStr(docId), "rev" := JStr(RevTag(rev))])
  }

  function Created(): Json {
    JObj(map["ok" := JBool(true)])
  }

  const MissingDb := ErrorBody("not_found", "Database does not exist.")
  const MissingDoc := ErrorBody("not_found", "missing")
  const UpdateConflict := ErrorBody("conflict", "Document update conflict.")

  function SessionCookie(name: string): string {
    "AuthSession=" + name + "; Version=1; Path=/; HttpOnly"
  }

  /** The server's answer to one request and its state afterwards. A HEAD
      reply has no body; it is `JNull` here and never decoded. */
  function Serve(s: ServerState, req: Request): (ServerState, Reply) {
    match req
    case PutDb(_) =>
      if s.dbExists then
        (s, Reply(412, ErrorBody("file_exists", "The database could not be created, the file already exists."), map[]))
      else if !s.canCreateDb then
        (s, Reply(401, ErrorBody("unauthorized", "You are not a server admin."), map[]))
      else
        (s.(dbExists := true, docs := map[]), Reply(201, Created(), map[]))
    case PutDoc(id, body) =>
      if !s.dbExists then (s, Reply(404, MissingDb, map[]))
      else if id in s.docs then (s, Reply(409, UpdateConflict, map[]))
      else
        (s.(docs := s.docs[id := Doc(1, body, map[])]), Reply(201, Saved(id, 1), map["ETag" := ETag(1)]))
    case HeadDoc(id) =>
      if s.dbExists && id in s.docs then (s, Reply(200, JNull, map["ETag" := ETag(s.docs[id].rev)]))
      else (s, Reply(404, JNull, map[]))
    case PutAttachment(id, name, ifMatch, data) =>
      if !s.dbExists then (s, Reply(404, MissingDb, map[]))
      else if id !in s.docs then (s, Reply(404, MissingDoc, map[]))
      else if ifMatch != ETag(s.docs[id].rev) then (s, Reply(409, UpdateConflict, map[]))
      else
        var d := s.docs[id];
        var d1 := Doc(d.rev + 1, d.body, d.attachments[name := data]);
        (s.(docs := s.docs[id := d1]), Reply(201, Saved(id, d1.rev), map["ETag" := ETag(d1.rev)]))
    case PostSession(name, password) =>
      if name in s.users && s.users[name] == password then
        (s, Reply(200, JObj(map["ok" := JBool(true), "name" := JStr(name), "roles" := JArr([])]),
                  map["Set-Cookie" := SessionCookie(name)]))
      else
        (s, Reply(401, ErrorBody("unauthorized", "Name or password is incorrect."), map[]))
  }

  /** Every decoded reply is a JSON object, so the client's key tests never
      meet a scalar body. */
  lemma RepliesAreObjects(s: ServerState, req: Request)
    requires !req.HeadDoc?
    ensures Serve(s, req).1.body.JObj?
  {
  }

  /** Optimistic concurrency: a conditional attachment PUT succeeds with the
      `ETag` the HEAD just returned and bumps the revision; repeating it with
      that now stale `ETag` is refused with 409 and changes nothing, a reply
      the client's `_check` reads as success ("already exists"). */
  lemma StaleETagRejected(s: ServerState, id: string, name: string, data: seq<bv8>, url: string)
    requires s.dbExists && id in s.docs
    ensures var etag := Serve(s, HeadDoc(id)).1.headers["ETag"];
      var (s1, first) := Serve(s, PutAttachment(id, name, etag, data));
      var (s2, second) := Serve(s1, PutAttachment(id, name, etag, data));
      first.status == 201 && s1.docs[id].rev == s.docs[id].rev + 1 &&
      s1.docs[id].attachments[name] == data &&
      second.status == 409 && ErrorIs(second.body, "conflict") && s2 == s1 &&
      Check(Response(second.status, second.body, second.headers, url)) ==
        Pair(true, JStr(url + " already exists"))
  {
    var r := s.docs[id].rev;
    if ETag(r) == ETag(r + 1) {
      ETagInjective(r, r + 1);
    }
  }
}
