/** The frontend's per-user session storage: `assign_uuid_if_missing`, which
    gives a session its chat job id, PDF job id and PDF flags, and the
    authentication middleware's redirect decision. */
module Session {

  /** The values the session storage holds for these keys. */
  datatype Value =
    | VNone
    | VBool(b: bool)
    | VStr(s: string)
    | VUuid(id: string)
    | VFlags(flags: map<string, bool>)

  type Storage = map<string, Value>

  /** Python's truthiness of a stored value. A UUID is always truthy. */
  predicate Truthy(v: Value) {
    match v
    case VNone => false
    case VBool(b) => b
    case VStr(s) => s != ""
    case VUuid(_) => true
    case VFlags(f) => f != map[]
  }

  /** `storage.get(key)`, `None` when absent, tested for truthiness. */
  predicate Has(storage: Storage, key: string) {
    key in storage && Truthy(storage[key])
  }

  const ChatJobKey := "chat_job"
  const PdfJobKey := "pdf_job"
  const PdfReadyKey := "pdf_ready"

  /** A fresh `PDFReady`: not ready, not answered, ready to upload. */
  const DefaultPdfReady: map<string, bool> :=
    map["ready" := false, "answered" := false, "ready_to_upload" := true]

  /** `key` keeps a truthy value, otherwise gets `newValue`. */
  function Default(storage: Storage, key: string, newValue: Value): (r: Storage)
    ensures key in r
    ensures Has(storage, key) ==> r[key] == storage[key]
    ensures !Has(storage, key) ==> r[key] == newValue
    ensures forall k :: k != key ==> (k in r <==> k in storage) && (k in storage ==> r[k] == storage[k])
  {
    if Has(storage, key) then storage else storage[key := newValue]
  }

  /** `assign_uuid_if_missing` with the two freshly drawn UUIDs as
      parameters. Afterwards all three keys hold truthy values; a key that
      was already truthy keeps its value, a missing or falsy one gets its
      default; every other key is untouched. */
  function AssignIfMissing(storage: Storage, chatId: string, pdfId: string): (r: Storage)
    ensures Has(r, ChatJobKey) && Has(r, PdfJobKey) && Has(r, PdfReadyKey)
    ensures Has(storage, ChatJobKey) ==> r[ChatJobKey] == storage[ChatJobKey]
    ensures !Has(storage, ChatJobKey) ==> r[ChatJobKey] == VUuid(chatId)
    ensures Has(storage, PdfJobKey) ==> r[PdfJobKey] == storage[PdfJobKey]
    ensures !Has(storage, PdfJobKey) ==> r[PdfJobKey] == VUuid(pdfId)
    ensures Has(storage, PdfReadyKey) ==> r[PdfReadyKey] == storage[PdfReadyKey]
    ensures !Has(storage, PdfReadyKey) ==> r[PdfReadyKey] == VFlags(DefaultPdfReady)
    ensures forall k :: k != ChatJobKey && k != PdfJobKey && k != PdfReadyKey ==>
              (k in r <==> k in storage) && (k in storage ==> r[k] == storage[k])
  {
    var s1 := Default(storage, ChatJobKey, VUuid(chatId));
    var s2 := Default(s1, PdfJobKey, VUuid(pdfId));
    assert DefaultPdfReady != map[] by {
      assert "ready" in DefaultPdfReady;
    }
    Default(s2, PdfReadyKey, VFlags(DefaultPdfReady))
  }

  /** A second call changes nothing, whatever UUIDs it draws. */
  lemma AssignIfMissingIdempotent(storage: Storage, chatId: string, pdfId: string, chatId': string, pdfId': string)
    ensures var once := AssignIfMissing(storage, chatId, pdfId);
            AssignIfMissing(once, chatId', pdfId') == once
  {
    var once := AssignIfMissing(storage, chatId, pdfId);
    var twice := AssignIfMissing(once, chatId', pdfId');
    assert forall k :: k in twice <==> k in once;
    assert forall k :: k in twice ==> twice[k] == once[k];
  }

  /** A session that already has all three keys is left exactly as it is. */
  lemma AssignIfMissingKeepsComplete(storage: Storage, chatId: string, pdfId: string)
    requires Has(storage, ChatJobKey) && Has(storage, PdfJobKey) && Has(storage, PdfReadyKey)
    ensures AssignIfMissing(storage, chatId, pdfId) == storage
  {
    var r := AssignIfMissing(storage, chatId, pdfId);
    assert forall k :: k in r <==> k in storage;
  }

  /** The page routes open to everyone. */
  const UnrestrictedPageRoutes: set<string> := {"/login", "/", "/chat", "/pdf"}

  /** The page routes `init` registers. */
  const RegisteredPageRoutes: set<string> :=
    {"/chat", "/", "/management", "/login", "/statistic", "/pdf"}

  datatype Response = Redirect(location: string) | PassThrough

  /** `AuthMiddleware.dispatch`: an unauthenticated request for a page route
      outside the unrestricted ones is redirected to the login page, and the
      path it asked for is remembered as `referrer_path`; every other request
      is passed on with the storage unchanged. A missing `authenticated` key
      counts as not authenticated. `pageRoutes` is the set of registered
      page paths. */
  function Dispatch(storage: Storage, path: string, pageRoutes: set<string>): (r: (Response, Storage))
    ensures r.0.Redirect? <==> !Has(storage, "authenticated") && path in pageRoutes && path !in UnrestrictedPageRoutes
    ensures r.0.Redirect? ==> r.0.location == "/login" && r.1 == storage["referrer_path" := VStr(path)]
    ensures r.0.PassThrough? ==> r.1 == storage
  {
    if !Has(storage, "authenticated") && path in pageRoutes && path !in UnrestrictedPageRoutes then
      (Redirect("/login"), storage["referrer_path" := VStr(path)])
    else (PassThrough, storage)
  }

  /** Of the registered pages, exactly the management and statistics pages
      need a login. */
  lemma GuardedPages(storage: Storage, path: string)
    requires !Has(storage, "authenticated")
    ensures Dispatch(storage, path, RegisteredPageRoutes).0.Redirect? <==>
              path == "/management" || path == "/statistic"
  {
  }

  /** The login page itself never redirects, so a redirect cannot loop. */
  lemma LoginPageNeverRedirects(storage: Storage, pageRoutes: set<string>)
    ensures Dispatch(storage, "/login", pageRoutes).0 == PassThrough
  {
  }

  /** Once the redirected user has logged in, the remembered request passes
      and the referrer is still stored. */
  lemma RedirectThenLoginPasses(storage: Storage, path: string, pageRoutes: set<string>)
    requires Dispatch(storage, path, pageRoutes).0.Redirect?
    ensures var after := Dispatch(storage, path, pageRoutes).1["authenticated" := VBool(true)];
            Dispatch(after, path, pageRoutes) == (PassThrough, after) &&
            after["referrer_path"] == VStr(path)
  {
  }
}
