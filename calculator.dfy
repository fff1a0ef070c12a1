/** The calculator page's state (app/page.tsx:136-174) and its transitions:
    loading the published prices, the admin panel with its draft table,
    logging in, saving, logging out, and the helper's "apply" button.  The
    replies of the price API arrive as parameters (the network is not
    modelled); the lemmas at the end relate them to what the route
    answers.  The browser's base64 encoder is a parameter, and the token
    kept in `localStorage` is a field. */
module Calculator {
  import opened Wrappers
  import opened Rounding
  import opened PriceTable
  import opened Migration
  import opened Pricing
  import opened LineHelper
  import opened BasicAuth
  import opened PriceStore

  class Calculator {
    /** The published table the quote uses. */
    var prices: Prices
    /** The table the admin panel edits. */
    var draft: Prices
    var adminOpen: bool
    var isAdmin: bool
    /** `localStorage.adminToken`, the empty string when absent. */
    var token: string
    var selection: Selection
    var helper: HelperInputs

    /** The page as it opens: default prices in both tables, panel closed,
        not logged in, default selection and helper, and whatever token a
        previous visit left in storage. */
    constructor(storedToken: string)
      ensures prices == InitialPrices && draft == InitialPrices
      ensures !adminOpen && !isAdmin && token == storedToken
      ensures selection == InitialSelection && helper == InitialHelper
    {
      prices := InitialPrices;
      draft := InitialPrices;
      adminOpen := false;
      isAdmin := false;
      token := storedToken;
      selection := InitialSelection;
      helper := InitialHelper;
    }

    /** The quote on screen. */
    function CurrentQuote(): Quote
      reads this
    {
      ComputeQuote(prices, selection)
    }

    /** The loading effect (app/page.tsx:190-211): a successful reply to
        the public GET is migrated into both tables, anything else puts the
        defaults in both.  `res` is the route's reply. */
    method LoadPrices(res: Response)
      modifies this
      ensures res.PricesJson? ==> prices == Migrate(res.doc)
      ensures !res.PricesJson? ==> prices == InitialPrices
      ensures draft == prices
      ensures adminOpen == old(adminOpen) && isAdmin == old(isAdmin) && token == old(token)
      ensures selection == old(selection) && helper == old(helper)
    {
      if res.PricesJson? {
        prices := Migrate(res.doc);
      } else {
        prices := InitialPrices;
      }
      draft := prices;
    }

    /** `openAdmin`: the draft restarts from the published table. */
    method OpenAdmin()
      modifies this
      ensures draft == prices && adminOpen
      ensures prices == old(prices) && isAdmin == old(isAdmin) && token == old(token)
      ensures selection == old(selection) && helper == old(helper)
    {
      draft := prices;
      adminOpen := true;
    }

    /** `closeAdmin`: unsaved edits are dropped.  The page defines it but
        never calls it: the panel's own button is `HidePanel`, which keeps
        the draft. */
    method CloseAdmin()
      modifies this
      ensures draft == prices && !adminOpen
      ensures prices == old(prices) && isAdmin == old(isAdmin) && token == old(token)
      ensures selection == old(selection) && helper == old(helper)
    {
      draft := prices;
      adminOpen := false;
    }

    /** The panel's own close button (app/page.tsx:803) only hides it: the
        draft keeps its edits. */
    method HidePanel()
      modifies this
      ensures !adminOpen
      ensures prices == old(prices) && draft == old(draft) && isAdmin == old(isAdmin) && token == old(token)
      ensures selection == old(selection) && helper == old(helper)
    {
      adminOpen := false;
    }

    /** An edit in the admin panel (app/page.tsx:828-865): one entry of the
        draft is replaced. */
    method EditDraft(k: Key, v: real)
      modifies this
      ensures draft == Set(old(draft), k, v)
      ensures Get(draft, k) == v && forall j :: j != k ==> Get(draft, j) == Get(old(draft), j)
      ensures prices == old(prices) && adminOpen == old(adminOpen) && isAdmin == old(isAdmin)
      ensures token == old(token) && selection == old(selection) && helper == old(helper)
    {
      draft := Set(draft, k, v);
      forall j ensures Get(draft, j) == if j == k then v else Get(old(draft), j) {
        GetSet(old(draft), k, v, j);
      }
    }

    /** `adminLogin` (app/page.tsx:289-311): the form's login and password
        become a Basic token sent to `?mode=auth`; on a 2xx reply the page is
        in admin mode, remembers the token and edits the reply's table
        (migrated); on any other reply nothing changes.  `res` is the
        route's reply. */
    method AdminLogin(login: string, password: string, encode: string -> string, res: Response)
      modifies this
      ensures Status(res) == 200 ==>
        isAdmin && token == BasicPrefix + encode(login + ":" + password) && draft == Migrate(Body(res))
      ensures Status(res) != 200 ==> isAdmin == old(isAdmin) && token == old(token) && draft == old(draft)
      ensures prices == old(prices) && adminOpen == old(adminOpen)
      ensures selection == old(selection) && helper == old(helper)
    {
      if Status(res) == 200 {
        isAdmin := true;
        token := BasicPrefix + encode(login + ":" + password);
        draft := Migrate(Body(res));
      }
    }

    /** `savePrices` (app/page.tsx:313-330): without a stored token nothing
        is sent; otherwise the draft is posted with the token and, on a 2xx
        reply, becomes the published table and the panel closes.  The token
        decides, not `isAdmin`.  `res` is the route's reply to the POST. */
    method SavePrices(res: Response)
      modifies this
      ensures old(token) != "" && Status(res) == 200 ==> prices == old(draft) && !adminOpen
      ensures old(token) == "" || Status(res) != 200 ==> prices == old(prices) && adminOpen == old(adminOpen)
      ensures draft == old(draft) && isAdmin == old(isAdmin) && token == old(token)
      ensures selection == old(selection) && helper == old(helper)
    {
      if token == "" {
        return;
      }
      if Status(res) == 200 {
        prices := draft;
        adminOpen := false;
      }
    }

    /** `logout`: out of admin mode, token forgotten, draft reset, panel
        closed; the published table stays. */
    method Logout()
      modifies this
      ensures !isAdmin && token == "" && draft == prices && !adminOpen
      ensures prices == old(prices) && selection == old(selection) && helper == old(helper)
    {
      isAdmin := false;
      token := "";
      draft := prices;
      adminOpen := false;
    }

    /** `applyHelper`: the helper's silicone and miter estimates, rounded to
        hundredths, replace the two linear quantities; nothing else
        changes. */
    method ApplyHelper()
      modifies this
      ensures selection == old(selection).(siliconeLm := RoundToCents(SiliconeFromHelper(helper)),
                                           miterLm := RoundToCents(MiterFromHelper(helper)))
      ensures selection.siliconeLm >= 0.0 && selection.miterLm >= 0.0
      ensures SiliconeFromHelper(helper) - 0.005 < selection.siliconeLm <= SiliconeFromHelper(helper) + 0.005
      ensures MiterFromHelper(helper) - 0.005 < selection.miterLm <= MiterFromHelper(helper) + 0.005
      ensures prices == old(prices) && draft == old(draft) && adminOpen == old(adminOpen)
      ensures isAdmin == old(isAdmin) && token == old(token) && helper == old(helper)
    {
      RoundToCentsNonNegative(SiliconeFromHelper(helper));
      RoundToCentsNonNegative(MiterFromHelper(helper));
      selection := selection.(siliconeLm := RoundToCents(SiliconeFromHelper(helper)),
                              miterLm := RoundToCents(MiterFromHelper(helper)));
    }

    /** The effect that copies the area into the waterproofing area while
        they are linked (app/page.tsx:214-216).  The quote does not move. */
    method SyncWaterproofingArea()
      modifies this
      ensures old(selection).linkWpToArea ==> selection == old(selection).(waterproofingArea := old(selection).area)
      ensures !old(selection).linkWpToArea ==> selection == old(selection)
      ensures CurrentQuote() == old(CurrentQuote())
      ensures prices == old(prices) && draft == old(draft) && adminOpen == old(adminOpen)
      ensures isAdmin == old(isAdmin) && token == old(token) && helper == old(helper)
    {
      if selection.linkWpToArea {
        LinkedWaterproofingIgnoresOwnArea(prices, selection, selection.area);
        selection := selection.(waterproofingArea := selection.area);
      }
    }
  }

  /** The page tests `res.ok`: a GET reply is 2xx exactly when it carries a
      document, and a POST reply exactly when the file was saved. */
  lemma OkReplies(f: StoredFile, env: Env, mode: Option<string>, header: Option<string>,
                  decode: string -> string, authed: bool, body: Option<Document>, writeOk: bool)
    ensures Status(GetResponse(f, env, mode, header, decode)) == 200
        <==> GetResponse(f, env, mode, header, decode).PricesJson?
    ensures Status(PostOutcome(f, authed, body, writeOk).0) == 200
        <==> PostOutcome(f, authed, body, writeOk).0 == Saved
  {
  }

  /** Logging in from the page's form succeeds exactly when the trimmed
      login and password are the configured ones (for a login and password
      without `:`, and outside Vercel), provided the server's decoder undoes
      the browser's encoder. */
  lemma LoginSucceedsIff(f: StoredFile, env: Env, login: string, password: string,
                         encode: string -> string, decode: string -> string)
    requires ':' !in login && ':' !in password && env.vercel != Some("1")
    requires decode(encode(login + ":" + password)) == login + ":" + password
    ensures GetResponse(f, env, Some("auth"), Some(BasicPrefix + encode(login + ":" + password)), decode).PricesJson?
        <==> Trim(login) == EnvValue(env.adminLogin, "admin") && Trim(password) == EnvValue(env.adminPassword, "admin123")
  {
    ClientTokenAuthorised(login, password, env.adminLogin, env.adminPassword, encode, decode);
  }

  /** A saved draft is what every later visitor loads: the posted document
      is complete, so the migration gives back exactly the draft. */
  lemma SavedDraftIsPublished(f: StoredFile, env: Env, token: string, draft: Prices,
                              decode: string -> string)
    requires env.vercel != Some("1")
    requires Authed(env, Some(token), decode)
    ensures var g := PostOutcome(f, Authed(env, Some(token), decode), Some(ToDocument(draft)), true).1;
      GetResponse(g, env, None, None, decode) == PricesJson(ToDocument(draft))
      && Migrate(ToDocument(draft)) == draft
  {
    MigrateComplete(draft);
  }

  /** On Vercel the page always shows the defaults, whatever is stored. */
  lemma VercelShowsDefaults(f: StoredFile, env: Env, decode: string -> string)
    requires env.vercel == Some("1")
    ensures !GetResponse(f, env, None, None, decode).PricesJson?
  {
  }
}
