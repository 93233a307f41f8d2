/** The `Couchi` object: its configuration fields, the transport it talks
    through, the state of the server behind it and the requests it has sent.
    Each coroutine is a method proved to behave as its run in `ClientSpec`;
    every `await` is a plain sequential call. */
module Client {
  import opened Results
  import opened JsonValue
  import opened Http
  import opened ClientSpec

  class Couchi<!S> {
    const db: string
    const rootUrl: string
    const username: string
    const password: string
    const dbUrl: string
    /** `self.client` together with the server it reaches. */
    const serve: Transport<S>
    /** The server's state. */
    var server: S
    /** Every request sent so far, oldest first. */
    ghost var sent: seq<Request>

    constructor (db: string := "hello-there", rootUrl: string, username: string, password: string,
                 serve: Transport<S>, server: S)
      ensures this.db == db && this.rootUrl == rootUrl
      ensures this.username == username && this.password == password
      ensures dbUrl == "http://" + rootUrl + "/" + db
      ensures this.serve == serve && this.server == server && sent == []
    {
      this.db := db;
      this.rootUrl := rootUrl;
      this.username := username;
      this.password := password;
      this.dbUrl := DbUrl(rootUrl, db);
      this.serve := serve;
      this.server := server;
      this.sent := [];
    }

    /** One request through the transport. */
    method Send(req: Request, url: string) returns (res: Response)
      modifies this
      ensures (server, res) == Exchange(serve, old(server), req, url)
      ensures sent == old(sent) + [req]
    {
      var (s1, reply) := serve(server, req);
      server := s1;
      sent := sent + [req];
      res := Response(reply.status, reply.body, reply.headers, url);
    }

    method CreateDb() returns (r: Pair)
      modifies this
      ensures var run := CreateDbRun(serve, old(server), db, dbUrl);
        server == run.state && sent == old(sent) + run.sent && r == run.result
    {
      var res := Send(PutDb(db), CreateDbUrl(dbUrl, db));
      r := Check(res);
    }

    method Add(docId: string, docData: Json, recursed: int := 0) returns (r: AddResult)
      requires recursed <= 2
      modifies this
      ensures var run := AddRun(serve, old(server), db, dbUrl, docId, docData, recursed);
        server == run.state && sent == old(sent) + run.sent && r == run.result
      decreases 2 - recursed
    {
      if recursed == 2 {
        return Tuple(Pair(false, JStr("recursed limit reached")));
      }
      var res := Send(PutDoc(docId, docData), DocUrl(dbUrl, docId));
      var c := Check(res);
      if c.ok {
        r := Unwrapped(c.detail);
      } else if !c.ok && c.detail == JStr("not_found") {
        var cdb := CreateDb();
        if Truthy(cdb) {
          var dropped := Add(docId, docData, recursed + 1);
          r := NoneResult;
        } else {
          r := NotMade(db, cdb.detail);
        }
      } else {
        r := Tuple(c);
      }
    }

    method Head(docId: string) returns (headers: map<string, string>)
      modifies this
      ensures var run := HeadRun(serve, old(server), dbUrl, docId);
        server == run.state && sent == old(sent) + run.sent && headers == run.result
    {
      var res := Send(HeadDoc(docId), DocUrl(dbUrl, docId));
      headers := res.headers;
    }

    method GetCurRev(docId: string) returns (rev: Outcome<string>)
      modifies this
      ensures var run := CurRevRun(serve, old(server), dbUrl, docId);
        server == run.state && sent == old(sent) + run.sent && rev == run.result
    {
      var headers := Head(docId);
      rev := if "ETag" in headers then Return(headers["ETag"]) else RaiseKeyError("ETag");
    }

    method Attach(data: seq<bv8>, docId: string, attachId: string) returns (r: Outcome<Response>)
      modifies this
      ensures var run := AttachRun(serve, old(server), dbUrl, data, docId, attachId);
        server == run.state && sent == old(sent) + run.sent && r == run.result
    {
      var rev := GetCurRev(docId);
      match rev {
        case RaiseKeyError(k) =>
          r := RaiseKeyError(k);
        case Return(etag) =>
          var res := Send(PutAttachment(docId, attachId, etag, data), AttachmentUrl(dbUrl, docId, attachId));
          r := Return(res);
      }
    }

    /** `file` is what `os.path.isfile`, `getsize` and `read` would find. */
    method AttachFile(filename: string, file: Option<seq<bv8>>, docId: string, attachId: string,
                      fileSizeLimit: int := 500000000) returns (r: Outcome<Option<Pair>>)
      modifies this
      ensures var run := AttachFileRun(serve, old(server), dbUrl, filename, file, docId, attachId, fileSizeLimit);
        server == run.state && sent == old(sent) + run.sent && r == run.result
    {
      match file {
        case None =>
          r := Return(None);
        case Some(data) =>
          if |data| < fileSizeLimit {
            var res := Attach(data, docId, attachId);
            match res {
              case RaiseKeyError(k) =>
                r := RaiseKeyError(k);
              case Return(response) =>
                r := Return(Some(Check(response)));
            }
          } else {
            r := Return(Some(TooBig(filename, |data|, fileSizeLimit)));
          }
      }
    }

    method GetSessionAuth() returns (r: Outcome<Pair>)
      modifies this
      ensures var run := SessionRun(serve, old(server), rootUrl, username, password);
        server == run.state && sent == old(sent) + run.sent && r == run.result
    {
      var res := Send(PostSession(username, password), SessionUrl(rootUrl));
      r := SessionAuth(res);
    }
  }
}
