/**
 * End-to-end request sequences against a fresh application state,
 * proved from the handlers' contracts alone.
 */
module Scenarios {
  import opened Wrappers
  import Inference
  import opened Knowledge
  import opened App

  /**
   * Register, log in, open the scan home page, log out: the page renders
   * while logged in, and after logging out (twice) the guard redirects.
   */
  method RegisterLoginLogout(kdf: (string, string) -> string, salt: string, now: int)
    returns (registered: Reply, welcomed: Reply, home: Reply, afterLogout: Reply)
    ensures registered == Redirect(LoginUrl, Flash("Registration successful! Login now.", "success"))
    ensures welcomed == Redirect(ScanHomeUrl, Flash("Welcome A", "success"))
    ensures home == Render(ScanHomePage)
    ensures afterLogout == LoginFirst
  {
    var app := new AppState(kdf, false, false, None);
    registered := app.Register(Some("A"), Some("a@x.com"), Some("pw1234"), Some("pw1234"), salt, now);
    Credentials.VerifiesHash(kdf, salt, "pw1234", "pw1234");
    welcomed := app.Login("a@x.com", "pw1234");
    home := app.ScanPage(ScanHomePage);
    var _ := app.Logout();
    var _ := app.Logout();
    afterLogout := app.ScanPage(ScanHomePage);
  }

  /**
   * A second registration of the same email is refused, and a login whose
   * password does not verify leaves nobody logged in.
   */
  method DuplicateAndWrongPassword(kdf: (string, string) -> string, salt: string, now: int)
    returns (again: Reply, rejected: Reply, page: Reply)
    requires kdf(salt, "wrong") != kdf(salt, "pw1234")
    ensures again == Redirect(RegisterUrl, Flash("Email already registered", "warning"))
    ensures rejected == Redirect(LoginUrl, Flash("Invalid credentials", "danger"))
    ensures page == LoginFirst
  {
    var app := new AppState(kdf, false, false, None);
    var _ := app.Register(Some("A"), Some("a@x.com"), Some("pw1234"), Some("pw1234"), salt, now);
    again := app.Register(Some("B"), Some("a@x.com"), Some("other"), Some("other"), salt, now);
    rejected := app.Login("a@x.com", "wrong");
    page := app.ScanPage(ScanLeafPage);
  }

  /** A fresh state with "a@x.com" registered and logged in, and no models loaded. */
  method LoggedIn(kdf: (string, string) -> string, salt: string, now: int) returns (app: AppState)
    ensures fresh(app) && app.Valid()
    ensures !app.leafModelLoaded && app.session.Some? && app.scans == []
  {
    app := new AppState(kdf, false, false, None);
    var _ := app.Register(Some("A"), Some("a@x.com"), Some("pw1234"), Some("pw1234"), salt, now);
    Credentials.VerifiesHash(kdf, salt, "pw1234", "pw1234");
    var _ := app.Login("a@x.com", "pw1234");
  }

  /** Logged in, a "leaf.txt" upload is refused and nothing is logged. */
  method LeafTextFileRefused(kdf: (string, string) -> string, salt: string, now: int, millis: nat, output: Option<seq<real>>)
    returns (refused: Reply, logged: seq<ScanRecord>)
    ensures refused == BadRequest("invalid file")
    ensures logged == []
  {
    var app := LoggedIn(kdf, salt, now);
    Upload.RejectedNames();
    refused := app.PredictLeaf(Some(UploadedFile("leaf.txt")), millis, true, output, now);
    logged := app.scans;
  }

  /**
   * Logged in, an image sent while no leaf model is loaded is answered
   * ("Unknown", 0) and still logged, once.
   */
  method LeafWithoutModelLogged(kdf: (string, string) -> string, salt: string, now: int, millis: nat, output: Option<seq<real>>)
    returns (answered: Reply, logged: seq<ScanRecord>)
    ensures answered == LeafJson("Unknown", "No info", [], 0.0)
    ensures |logged| == 1 && logged[0].LeafScan? && logged[0].leafName == "Unknown"
    ensures logged[0].savedName == Upload.SavedName(millis, "leaf.png")
  {
    var app := LoggedIn(kdf, salt, now);
    Upload.AcceptedNames();
    Inference.LeafWithoutModel(output);
    LeafAdviceDefaults();
    answered := app.PredictLeaf(Some(UploadedFile("leaf.png")), millis, true, output, now);
    logged := app.scans;
  }
}
