/** The HTTP vocabulary of the client: the requests `Couchi` issues, the
    replies it reads, the URLs it builds, and its two pure classifiers
    (`Couchi._check` and the result shaping of `Couchi.get_session_auth`). */
module Http {
  import opened Results
  import opened JsonValue

  /** The requests the client sends, one constructor per call site. */
  datatype Request =
    | PutDb(db: string)                                   // create_db: PUT db_url?db=<db>
    | PutDoc(docId: string, body: Json)                   // add: PUT db_url/doc_id, JSON body
    | HeadDoc(docId: string)                              // head: HEAD db_url/doc_id
    | PutAttachment(docId: string, attachId: string,
                    ifMatch: string, data: seq<bv8>)      // attach: PUT db_url/doc_id/attach_id, If-Match
    | PostSession(name: string, password: string)         // get_session_auth: POST /_session

  /** What the server answers: status, decoded JSON body and headers. */
  datatype Reply = Reply(status: int, body: Json, headers: map<string, string>)

  /** An `httpx.Response`: the reply together with the URL it was requested from. */
  datatype Response = Response(status: int, body: Json, headers: map<string, string>, url: string)

  /** The `(bool, value)` tuples the client returns. */
  datatype Pair = Pair(ok: bool, detail: Json)

  /** `httpx.codes.OK`. */
  const OK: int := 200

  /** `self.db_url`, fixed by the constructor. */
  function DbUrl(rootUrl: string, db: string): string {
    "http://" + rootUrl + "/" + db
  }

  /** The URL `httpx` requests for `put(db_url, params={"db": db})`. */
  function CreateDbUrl(dbUrl: string, db: string): string {
    dbUrl + "?db=" + db
  }

  function DocUrl(dbUrl: string, docId: string): string {
    dbUrl + "/" + docId
  }

  function AttachmentUrl(dbUrl: string, docId: string, attachId: string): (u: string)
    ensures u == DocUrl(dbUrl, docId) + "/" + attachId
  {
    dbUrl + "/" + docId + "/" + attachId
  }

  function SessionUrl(rootUrl: string): string {
    "http://" + rootUrl + "/_session"
  }

  /** Every document of the client's database lives below its URL, and two
      different document ids never share a URL. */
  lemma DocUrlInjective(rootUrl: string, db: string, d1: string, d2: string)
    ensures DocUrl(DbUrl(rootUrl, db), d1) == "http://" + rootUrl + "/" + db + "/" + d1
    ensures DocUrl(DbUrl(rootUrl, db), d1) == DocUrl(DbUrl(rootUrl, db), d2) ==> d1 == d2
  {
    var prefix := DbUrl(rootUrl, db) + "/";
    if DocUrl(DbUrl(rootUrl, db), d1) == DocUrl(DbUrl(rootUrl, db), d2) {
      assert d1 == (prefix + d1)[|prefix|..];
      assert d2 == (prefix + d2)[|prefix|..];
    }
  }

  /** `Couchi._check`: normalise a response into a `(bool, value)` tuple. */
  function Check(res: Response): (r: Pair)
    ensures r.ok <==> res.status == OK || ErrorIs(res.body, "conflict")
    ensures !r.ok ==> r.detail == res.body || r.detail == JStr("not_found")
  {
    if res.status == OK then Pair(true, res.body)
    else if ErrorIs(res.body, "conflict") then Pair(true, JStr(res.url + " already exists"))
    else if ErrorIs(res.body, "not_found") then Pair(false, res.body.fields["error"])
    else Pair(false, res.body)
  }

  /** `(True, body)` comes back exactly for status 200, whatever the body holds. */
  lemma CheckPassesBodyIff(res: Response)
    ensures Check(res) == Pair(true, res.body) <==> res.status == OK
    ensures res.status == OK ==> Check(res).ok
  {
  }

  /** A non-200 conflict is success, reported as "<url> already exists". */
  lemma CheckConflictIsSuccess(res: Response)
    requires res.status != OK && ErrorIs(res.body, "conflict")
    ensures Check(res) == Pair(true, JStr(res.url + " already exists"))
  {
  }

  /** A non-200 failure is the bare "not_found" tag or the body unchanged;
      nothing else can make the client see the tag. */
  lemma CheckFailures(res: Response)
    requires res.status != OK && !ErrorIs(res.body, "conflict")
    ensures ErrorIs(res.body, "not_found") ==> Check(res) == Pair(false, JStr("not_found"))
    ensures !ErrorIs(res.body, "not_found") ==> Check(res) == Pair(false, res.body)
    ensures Check(res).detail == JStr("not_found") <==>
              ErrorIs(res.body, "not_found") || res.body == JStr("not_found")
  {
  }

  /** Any status other than 200, 201 Created among them, is a failure unless
      the body is a conflict. */
  lemma CreatedIsNotSuccess(res: Response)
    requires res.status == 201 && !ErrorIs(res.body, "conflict")
    ensures !Check(res).ok
  {
  }

  /** The result shaping of `get_session_auth`. */
  function SessionAuth(res: Response): (r: Outcome<Pair>)
    ensures r.RaiseKeyError? ==> r.key == "Set-Cookie"
    ensures r.RaiseKeyError? <==> HasKey(res.body, "ok") && "Set-Cookie" !in res.headers
    ensures r.Return? && r.value.ok ==>
              "Set-Cookie" in res.headers && r.value.detail == JStr(res.headers["Set-Cookie"])
    ensures r.Return? && !r.value.ok ==> r.value.detail == res.body
  {
    if HasKey(res.body, "ok") then
      if "Set-Cookie" in res.headers then Return(Pair(true, JStr(res.headers["Set-Cookie"])))
      else RaiseKeyError("Set-Cookie")
    else Return(Pair(false, res.body))
  }

  /** Success iff the body has an "ok" key; the cookie header must then be present. */
  lemma SessionAuthOkIff(res: Response)
    ensures SessionAuth(res).Return? && SessionAuth(res).value.ok <==>
              HasKey(res.body, "ok") && "Set-Cookie" in res.headers
    ensures !HasKey(res.body, "ok") ==> SessionAuth(res) == Return(Pair(false, res.body))
  {
  }
}
