/** The price API (app/api/prices/route.ts): a single JSON document on disk,
    read by anyone, read behind Basic authentication with `?mode=auth`, and
    overwritten wholesale by an authorised POST.  The request body, the
    outcome of writing the file and the base64 decoder are parameters; the
    file is a field of a store object. */
module PriceStore {
  import opened Wrappers
  import opened PriceTable
  import opened Migration
  import opened BasicAuth

  /** What the data file holds: nothing, something that cannot be read or
      parsed, or a document (saved verbatim, so possibly partial). */
  datatype StoredFile = Missing | Unreadable | Stored(doc: Document)

  /** The environment variables the route reads. */
  datatype Env = Env(adminLogin: Option<string>, adminPassword: Option<string>, vercel: Option<string>)

  /** The responses of the route: a price document, the `{ ok: true }` of a
      save, or an error status. */
  datatype Response = PricesJson(doc: Document) | Saved | Unauthorized | BadRequest | NotImplemented

  function Status(r: Response): int {
    match r
    case PricesJson(_) => 200
    case Saved => 200
    case Unauthorized => 401
    case BadRequest => 400
    case NotImplemented => 501
  }

  /** The JSON body of a 2xx response read as a price document: the
      document itself, or (for `{ ok: true }`) an object holding none of the
      price sections. */
  function Body(r: Response): (d: Document)
    requires Status(r) == 200
    ensures r.PricesJson? ==> d == r.doc
    ensures !r.PricesJson? ==> d == EmptyDocument
  {
    if r.PricesJson? then r.doc else EmptyDocument
  }

  /** `readPrices` never fails: the stored document when there is one that
      parses, the defaults otherwise. */
  function ReadPrices(f: StoredFile): (d: Document)
    ensures f.Stored? ==> d == f.doc
    ensures !f.Stored? ==> d == ToDocument(InitialPrices)
  {
    match f
    case Stored(doc) => doc
    case _ => ToDocument(InitialPrices)
  }

  function Authed(env: Env, header: Option<string>, decode: string -> string): bool {
    IsAuthed(header, env.adminLogin, env.adminPassword, decode)
  }

  /** `GET`: 501 when `VERCEL` is `"1"`, before anything else; with
      `mode=auth`, 401 unless authorised; otherwise the document. */
  function GetResponse(f: StoredFile, env: Env, mode: Option<string>, header: Option<string>,
                       decode: string -> string): (r: Response)
    ensures env.vercel == Some("1") ==> r == NotImplemented
    ensures env.vercel != Some("1") && mode == Some("auth") && !Authed(env, header, decode)
            ==> r == Unauthorized
    ensures env.vercel != Some("1") && (mode != Some("auth") || Authed(env, header, decode))
            ==> r == PricesJson(ReadPrices(f))
    ensures r.PricesJson? || r == Unauthorized || r == NotImplemented
  {
    if env.vercel == Some("1") then NotImplemented
    else if mode == Some("auth") && !Authed(env, header, decode) then Unauthorized
    else PricesJson(ReadPrices(f))
  }

  /** `POST`: 401 unless authorised; 400 when the body is not JSON or the
      write fails; otherwise the body replaces the file, as it is.  Returns
      the response and the new content of the file. */
  function PostOutcome(f: StoredFile, authed: bool, body: Option<Document>, writeOk: bool)
    : (o: (Response, StoredFile))
    ensures o.0 == Saved <==> authed && body.Some? && writeOk
    ensures o.0 == Saved ==> o.1 == Stored(body.value)
    ensures o.0 != Saved ==> o.1 == f
    ensures !authed ==> o.0 == Unauthorized
    ensures authed && o.0 != Saved ==> o.0 == BadRequest
    ensures o.0 == Saved || o.0 == Unauthorized || o.0 == BadRequest
  {
    if !authed then (Unauthorized, f)
    else if body.None? || !writeOk then (BadRequest, f)
    else (Saved, Stored(body.value))
  }

  /** The store: the content of `data/prices.json`. */
  class Store {
    var file: StoredFile

    constructor(f: StoredFile)
      ensures file == f
    {
      file := f;
    }

    /** Handles a GET; the file is only read. */
    method Get(env: Env, mode: Option<string>, header: Option<string>, decode: string -> string)
      returns (r: Response)
      ensures r == GetResponse(file, env, mode, header, decode)
    {
      if env.vercel == Some("1") {
        return NotImplemented;
      }
      if mode == Some("auth") && !Authed(env, header, decode) {
        return Unauthorized;
      }
      r := PricesJson(ReadPrices(file));
    }

    /** Handles a POST, replacing the file on success. */
    method Post(env: Env, header: Option<string>, body: Option<Document>, writeOk: bool,
                decode: string -> string)
      returns (r: Response)
      modifies this
      ensures (r, file) == PostOutcome(old(file), Authed(env, header, decode), body, writeOk)
    {
      if !Authed(env, header, decode) {
        return Unauthorized;
      }
      if body.None? || !writeOk {
        return BadRequest;
      }
      file := Stored(body.value);
      r := Saved;
    }
  }

  /** When `VERCEL` is `"1"` every GET is refused with 501, public or not,
      whatever is stored. */
  lemma VercelRefusesEveryGet(f: StoredFile, env: Env, mode: Option<string>, header: Option<string>,
                              decode: string -> string)
    requires env.vercel == Some("1")
    ensures Status(GetResponse(f, env, mode, header, decode)) == 501
  {
  }

  /** A public GET does not look at the credentials at all. */
  lemma PublicGetIgnoresHeader(f: StoredFile, env: Env, mode: Option<string>,
                               h1: Option<string>, h2: Option<string>, decode: string -> string)
    requires mode != Some("auth")
    ensures GetResponse(f, env, mode, h1, decode) == GetResponse(f, env, mode, h2, decode)
  {
  }

  /** With `mode=auth`, an unauthorised request gets 401 and no document
      (outside Vercel). */
  lemma AuthModeNeedsCredentials(f: StoredFile, env: Env, header: Option<string>, decode: string -> string)
    requires env.vercel != Some("1")
    ensures GetResponse(f, env, Some("auth"), header, decode).PricesJson?
        <==> Authed(env, header, decode)
  {
  }

  /** The `VERCEL` guard only protects GET: on Vercel an authorised POST
      with a body still writes the file, while every GET is refused. */
  lemma VercelStillWrites(f: StoredFile, env: Env, header: Option<string>, doc: Document,
                          decode: string -> string, mode: Option<string>, h: Option<string>)
    requires env.vercel == Some("1") && Authed(env, header, decode)
    ensures PostOutcome(f, Authed(env, header, decode), Some(doc), true) == (Saved, Stored(doc))
    ensures GetResponse(Stored(doc), env, mode, h, decode) == NotImplemented
  {
  }

  /** An unauthorised or failed POST leaves the stored document as it was,
      so every later read is unchanged. */
  lemma FailedPostChangesNothing(f: StoredFile, authed: bool, body: Option<Document>, writeOk: bool,
                                 env: Env, mode: Option<string>, h: Option<string>, decode: string -> string)
    requires !authed || body.None? || !writeOk
    ensures var o := PostOutcome(f, authed, body, writeOk);
      o.0 != Saved && GetResponse(o.1, env, mode, h, decode) == GetResponse(f, env, mode, h, decode)
  {
  }

  /** After a successful POST a read returns exactly the body: no merge with
      what was stored and no validation. */
  lemma ReadAfterWrite(f: StoredFile, doc: Document)
    ensures var o := PostOutcome(f, true, Some(doc), true);
      o.0 == Saved && ReadPrices(o.1) == doc
  {
  }

  /** ... and so does a following public GET outside Vercel, whatever was
      stored before. */
  lemma GetAfterPost(f: StoredFile, g: StoredFile, doc: Document, env: Env,
                     mode: Option<string>, h: Option<string>, decode: string -> string)
    requires env.vercel != Some("1") && mode != Some("auth")
    ensures GetResponse(PostOutcome(f, true, Some(doc), true).1, env, mode, h, decode)
         == GetResponse(PostOutcome(g, true, Some(doc), true).1, env, mode, h, decode)
         == PricesJson(doc)
  {
  }

  /** A missing or unreadable file serves the defaults, which the client
      migrates to exactly `initialPrices`. */
  lemma FallbackMigratesToDefaults(f: StoredFile)
    requires !f.Stored?
    ensures Migrate(ReadPrices(f)) == InitialPrices
  {
    MigrateComplete(InitialPrices);
  }

  /** Whatever is stored, the client sees a table that agrees with the
      stored document wherever it has a value and with the defaults
      elsewhere. */
  lemma ServedTableKeyByKey(f: StoredFile, k: Key)
    ensures Get(Migrate(ReadPrices(f)), k)
         == (if f.Stored? then DocGet(f.doc, k).GetOr(Get(InitialPrices, k)) else Get(InitialPrices, k))
  {
    MigrateKeyByKey(ReadPrices(f), k);
    if !f.Stored? {
      DocGetToDocument(InitialPrices, k);
    }
  }
}
