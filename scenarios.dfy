/** The client's coroutines against the CouchDB-style server: what each
    call sends, returns and leaves behind, case by case. */
module Scenarios {
  import opened Results
  import opened JsonValue
  import opened Http
  import opened ClientSpec
  import opened CouchServer

  /** `create_db`: neither outcome is a success under `_check`, because
      CouchDB answers 201 to a creation and 412 "file_exists" (not
      "conflict") when the database is already there. */
  lemma CreateDbOutcomes(s: ServerState, db: string, dbUrl: string)
    ensures var run := CreateDbRun(Serve, s, db, dbUrl);
      (s.dbExists ==>
         run.state == s && run.result == Pair(false, ErrorBody("file_exists", "The database could not be created, the file already exists."))) &&
      (!s.dbExists && s.canCreateDb ==>
         run.state == s.(dbExists := true, docs := map[]) && run.result == Pair(false, Created())) &&
      (!s.dbExists && !s.canCreateDb ==>
         run.state == s && run.result == Pair(false, ErrorBody("unauthorized", "You are not a server admin.")))
  {
  }

  /** A first write to a missing database: the PUT fails "not_found", the
      database is created, the retry stores the document, and `add` returns
      `None` all the same. */
  lemma AddToMissingDatabase(s: ServerState, db: string, dbUrl: string, docId: string, data: Json)
    requires !s.dbExists && s.canCreateDb
    ensures var run := AddRun(Serve, s, db, dbUrl, docId, data, 0);
      run.sent == [PutDoc(docId, data), PutDb(db), PutDoc(docId, data)] &&
      run.result == NoneResult &&
      run.state == s.(dbExists := true, docs := map[docId := Doc(1, data, map[])])
  {
  }

  /** A database the client may not create: both retries are spent, four
      requests go out, nothing changes and `add` returns `None`; the
      "recursed limit reached" tuple of the innermost call is lost. */
  lemma AddWithoutAdminRights(s: ServerState, db: string, dbUrl: string, docId: string, data: Json)
    requires !s.dbExists && !s.canCreateDb
    ensures var run := AddRun(Serve, s, db, dbUrl, docId, data, 0);
      run.sent == [PutDoc(docId, data), PutDb(db), PutDoc(docId, data), PutDb(db)] &&
      run.result == NoneResult && run.state == s &&
      AddRun(Serve, s, db, dbUrl, docId, data, 1).result == NoneResult
  {
  }

  /** A new document in an existing database is stored, yet `add` hands back
      a failure tuple: 201 Created is not 200. */
  lemma AddNewDocument(s: ServerState, db: string, dbUrl: string, docId: string, data: Json)
    requires s.dbExists && docId !in s.docs
    ensures var run := AddRun(Serve, s, db, dbUrl, docId, data, 0);
      run.sent == [PutDoc(docId, data)] &&
      run.result == Tuple(Pair(false, Saved(docId, 1))) &&
      run.state == s.(docs := s.docs[docId := Doc(1, data, map[])])
  {
  }

  /** Writing over an existing document without its revision conflicts; `add`
      unwraps the "already exists" message and the stored body is kept. */
  lemma AddExistingDocument(s: ServerState, db: string, dbUrl: string, docId: string, data: Json)
    requires s.dbExists && docId in s.docs
    ensures var run := AddRun(Serve, s, db, dbUrl, docId, data, 0);
      run.sent == [PutDoc(docId, data)] && run.state == s &&
      run.result == Unwrapped(JStr(DocUrl(dbUrl, docId) + " already exists"))
  {
  }

  /** Uploading a file below the limit to an existing document: HEAD, then a
      PUT conditional on the current revision; the attachment is stored under
      the next revision, and `_check` reports the 201 as a failure tuple. */
  lemma AttachFileUploads(s: ServerState, dbUrl: string, filename: string, bytes: seq<bv8>,
                          docId: string, attachId: string, limit: int)
    requires s.dbExists && docId in s.docs && |bytes| < limit
    ensures var d := s.docs[docId];
      var run := AttachFileRun(Serve, s, dbUrl, filename, Some(bytes), docId, attachId, limit);
      run.sent == [HeadDoc(docId), PutAttachment(docId, attachId, ETag(d.rev), bytes)] &&
      run.state == s.(docs := s.docs[docId := Doc(d.rev + 1, d.body, d.attachments[attachId := bytes])]) &&
      run.result == Return(Some(Pair(false, Saved(docId, d.rev + 1))))
  {
  }

  /** A HEAD on a document that is not there has no `ETag`: `get_cur_rev`
      raises `KeyError` and no PUT is sent. */
  lemma AttachFileToMissingDocument(s: ServerState, dbUrl: string, filename: string, bytes: seq<bv8>,
                                    docId: string, attachId: string, limit: int)
    requires !(s.dbExists && docId in s.docs) && |bytes| < limit
    ensures var run := AttachFileRun(Serve, s, dbUrl, filename, Some(bytes), docId, attachId, limit);
      run.sent == [HeadDoc(docId)] && run.state == s && run.result == RaiseKeyError("ETag")
  {
  }

  /** Valid credentials give `(True, Set-Cookie)`; wrong ones `(False, body)`. */
  lemma SessionOutcomes(s: ServerState, rootUrl: string, username: string, password: string)
    ensures var run := SessionRun(Serve, s, rootUrl, username, password);
      run.state == s &&
      (username in s.users && s.users[username] == password ==>
         run.result == Return(Pair(true, JStr(SessionCookie(username))))) &&
      (!(username in s.users && s.users[username] == password) ==>
         run.result == Return(Pair(false, ErrorBody("unauthorized", "Name or password is incorrect."))))
  {
  }
}
