/**
 * The request handlers of the web application as operations on its
 * state: the user collection, the session of the current browser and the
 * scan log. Routing, templates and JSON encoding become the `Reply`
 * datatype; the clock, the upload stamp, the password salt, whether the
 * upload could be saved and the model output are parameters.
 */
module App {
  import opened Wrappers
  import opened Upload
  import opened ClassList
  import opened Inference
  import opened Knowledge
  import opened Credentials

  /** A user document; the collection is keyed by its email. */
  datatype User = User(fullname: string, email: string, password: PasswordHash, registeredAt: int)

  /** What the session cookie holds under "user". */
  datatype SessionUser = SessionUser(email: string, fullname: string)

  /** A scan-log document, one per prediction. */
  datatype ScanRecord =
    | LeafScan(leafName: string, uses: string, diseases: seq<string>, confidence: real,
               filename: string, savedName: string, timestamp: int)
    | SkinScan(predictedClass: string, confidence: real,
               filename: string, savedName: string, timestamp: int)

  /** The uploaded part named "image" of a multipart request. */
  datatype UploadedFile = UploadedFile(filename: string)

  /** Targets of `redirect(url_for(...))`. */
  datatype Route = HomeUrl | LoginUrl | RegisterUrl | ScanHomeUrl

  /** The page shells behind the session guard. */
  datatype Page = ScanHomePage | ScanLeafPage | ScanSkinPage

  /** A `flash` message and its category. */
  datatype Flash = Flash(message: string, category: string)

  /** What a handler answers. */
  datatype Reply =
    | Redirect(to: Route, flash: Flash)
    | Render(page: Page)
    | LeafJson(leafName: string, uses: string, diseases: seq<string>, confidence: real)
    | SkinJson(predictedClass: string, confidence: real, recommendation: string)
    | BadRequest(error: string)   // a JSON {"error": ...} body with status 400
    | ServerError                 // an exception the handler does not catch

  /** The guard's answer to a request without a logged-in user. */
  const LoginFirst: Reply := Redirect(LoginUrl, Flash("Please login first", "warning"))

  /** A form field that is present and not empty (Python's truthiness of `request.form.get`). */
  predicate Filled(field: Option<string>)
  {
    field.Some? && field.value != ""
  }

  /** The greeting after login: the stored full name, or the email when that is empty. */
  function WelcomeName(email: string, fullname: string): string
  {
    if fullname != "" then fullname else email
  }

  class AppState {
    /** The password key derivation; unknown to the model. */
    const kdf: (string, string) -> string
    /** Whether `load_model` produced a leaf model at startup. */
    const leafModelLoaded: bool
    /** Whether `load_model` produced a skin model at startup. */
    const skinModelLoaded: bool
    /** The skin model's class names, from the class file. */
    const diseaseClasses: seq<string>

    var users: map<string, User>
    var session: Option<SessionUser>
    var scans: seq<ScanRecord>

    /**
     * Each user is filed under its own email, so emails are unique, and a
     * logged-in session names a registered user with its stored name.
     */
    ghost predicate Valid()
      reads this
    {
      && (forall e :: e in users ==> users[e].email == e)
      && (session.Some? ==> session.value.email in users
                            && users[session.value.email].fullname == session.value.fullname)
    }

    /**
     * Startup: the models that loaded, and the lines of the class file
     * when it exists and could be read (None otherwise). The collections
     * start empty and nobody is logged in.
     */
    constructor (kdf: (string, string) -> string, leafModelLoaded: bool, skinModelLoaded: bool,
                 classFile: Option<seq<string>>)
      ensures Valid()
      ensures this.kdf == kdf
      ensures this.leafModelLoaded == leafModelLoaded && this.skinModelLoaded == skinModelLoaded
      ensures diseaseClasses == if classFile.Some? then ParseClassLines(classFile.value) else []
      ensures users == map[] && session == None && scans == []
    {
      this.kdf := kdf;
      this.leafModelLoaded := leafModelLoaded;
      this.skinModelLoaded := skinModelLoaded;
      diseaseClasses := if classFile.Some? then ParseClassLines(classFile.value) else [];
      users := map[];
      session := None;
      scans := [];
    }

    /**
     * `login_required`: a guarded handler runs exactly when the session
     * holds a user, and that user is a registered one.
     */
    method Admitted() returns (ok: bool)
      requires Valid()
      ensures ok <==> session.Some?
      ensures ok ==> session.value.email in users
    {
      ok := session.Some?;
    }

    /** The page shells `/scan_home`, `/scan_leaf` and `/scan_skin`. */
    method ScanPage(page: Page) returns (r: Reply)
      requires Valid()
      ensures session.None? ==> r == LoginFirst
      ensures session.Some? ==> r == Render(page)
    {
      var ok := Admitted();
      if !ok {
        return LoginFirst;
      }
      r := Render(page);
    }

    /** Whether registration would pass its three checks, in the order the handler makes them. */
    predicate CanRegister(fullname: Option<string>, email: Option<string>,
                          password: Option<string>, confirm: Option<string>)
      reads this
    {
      Filled(fullname) && Filled(email) && Filled(password) && password == confirm && email.value !in users
    }

    /**
     * POST `/register`. It rejects a missing field first, then a
     * confirmation that differs, then a taken email, and leaves the
     * users untouched when it does; otherwise it files exactly one new
     * user, with the password hashed, under the new email.
     */
    method Register(fullname: Option<string>, email: Option<string>, password: Option<string>,
                    confirm: Option<string>, salt: string, now: int) returns (r: Reply)
      requires Valid()
      modifies this`users
      ensures Valid()
      ensures !(Filled(fullname) && Filled(email) && Filled(password)) ==>
                r == Redirect(RegisterUrl, Flash("All fields required", "danger"))
      ensures Filled(fullname) && Filled(email) && Filled(password) && password != confirm ==>
                r == Redirect(RegisterUrl, Flash("Passwords do not match", "danger"))
      ensures Filled(fullname) && Filled(email) && Filled(password) && password == confirm
              && email.value in old(users) ==>
                r == Redirect(RegisterUrl, Flash("Email already registered", "warning"))
      ensures !old(CanRegister(fullname, email, password, confirm)) ==> users == old(users)
      ensures old(CanRegister(fullname, email, password, confirm)) ==>
                && r == Redirect(LoginUrl, Flash("Registration successful! Login now.", "success"))
                && users == old(users)[email.value := User(fullname.value, email.value,
                                                           Hash(kdf, salt, password.value), now)]
                && |users| == |old(users)| + 1
    {
      if !Filled(fullname) || !Filled(email) || !Filled(password) {
        return Redirect(RegisterUrl, Flash("All fields required", "danger"));
      }
      if password != confirm {
        return Redirect(RegisterUrl, Flash("Passwords do not match", "danger"));
      }
      if email.value in users {
        return Redirect(RegisterUrl, Flash("Email already registered", "warning"));
      }
      users := users[email.value := User(fullname.value, email.value, Hash(kdf, salt, password.value), now)];
      r := Redirect(LoginUrl, Flash("Registration successful! Login now.", "success"));
    }

    /** A user is filed under `email` and the password verifies against its stored hash. */
    predicate CredentialsMatch(email: string, password: string)
      reads this
    {
      email in users && Verifies(kdf, users[email].password, password)
    }

    /**
     * POST `/login`. The session is set to the user's email and stored
     * name exactly when the credentials match; otherwise the session is
     * left as it was and the answer is the same whether the email or the
     * password was wrong.
     */
    method Login(email: string, password: string) returns (r: Reply)
      requires Valid()
      modifies this`session
      ensures Valid()
      ensures CredentialsMatch(email, password) ==>
                && session == Some(SessionUser(email, users[email].fullname))
                && r == Redirect(ScanHomeUrl, Flash("Welcome " + WelcomeName(email, users[email].fullname), "success"))
      ensures !CredentialsMatch(email, password) ==>
                session == old(session) && r == Redirect(LoginUrl, Flash("Invalid credentials", "danger"))
    {
      if email in users && Verifies(kdf, users[email].password, password) {
        var user := users[email];
        session := Some(SessionUser(email, user.fullname));
        return Redirect(ScanHomeUrl, Flash("Welcome " + WelcomeName(email, user.fullname), "success"));
      }
      r := Redirect(LoginUrl, Flash("Invalid credentials", "danger"));
    }

    /** `/logout`: the session no longer holds a user, whether or not it did before. */
    method Logout() returns (r: Reply)
      requires Valid()
      modifies this`session
      ensures Valid()
      ensures session == None
      ensures r == Redirect(HomeUrl, Flash("Logged out", "info"))
    {
      session := None;
      r := Redirect(HomeUrl, Flash("Logged out", "info"));
    }

    /** Whether POST `/predict-leaf` gets as far as saving the upload. */
    predicate LeafUploadAccepted(upload: Option<UploadedFile>)
      reads this
    {
      session.Some? && upload.Some? && upload.value.filename != "" && AllowedFile(upload.value.filename)
    }

    /**
     * POST `/predict-leaf`. `saved` says whether `file.save` succeeded and
     * `output` is the leaf model's output for the saved file (None when it
     * is not a readable image). Without a user, without a file or with a
     * disallowed name it answers before saving and logs nothing; a failed
     * save or a classifier fault ends the request and logs nothing either.
     * Otherwise it logs exactly one record, with the stored name
     * `<millis>_<filename>`, the leaf label and confidence, and the uses
     * and diseases the leaf table gives for that label, and answers with
     * the same fields.
     */
    method PredictLeaf(upload: Option<UploadedFile>, millis: nat, saved: bool, output: Option<seq<real>>, now: int)
      returns (r: Reply)
      requires Valid()
      modifies this`scans
      ensures Valid()
      ensures session.None? ==> r == LoginFirst
      ensures session.Some? && upload.None? ==> r == BadRequest("no file")
      ensures session.Some? && upload.Some? && !LeafUploadAccepted(upload) ==> r == BadRequest("invalid file")
      ensures !LeafUploadAccepted(upload) || !saved || ClassifyLeaf(leafModelLoaded, output).ModelFault? ==>
                scans == old(scans)
      ensures LeafUploadAccepted(upload) && (!saved || ClassifyLeaf(leafModelLoaded, output).ModelFault?) ==>
                r == ServerError
      ensures LeafUploadAccepted(upload) && saved && ClassifyLeaf(leafModelLoaded, output).Classified? ==>
                var filename := upload.value.filename;
                var c := ClassifyLeaf(leafModelLoaded, output);
                var advice := LeafAdviceFor(c.name);
                && scans == old(scans) + [LeafScan(c.name, advice.uses, advice.diseases, c.confidence,
                                                   filename, SavedName(millis, filename), now)]
                && r == LeafJson(c.name, advice.uses, advice.diseases, c.confidence)
    {
      var ok := Admitted();
      if !ok {
        return LoginFirst;
      }
      if upload.None? {
        return BadRequest("no file");
      }
      var filename := upload.value.filename;
      if filename == "" || !AllowedFile(filename) {
        return BadRequest("invalid file");
      }
      if !saved {
        return ServerError;
      }
      var c := ClassifyLeaf(leafModelLoaded, output);
      if c.ModelFault? {
        return ServerError;
      }
      var advice := LeafAdviceFor(c.name);
      scans := scans + [LeafScan(c.name, advice.uses, advice.diseases, c.confidence, filename, SavedName(millis, filename), now)];
      r := LeafJson(c.name, advice.uses, advice.diseases, c.confidence);
    }

    /**
     * POST `/predict`, with `saved` and `output` as for `PredictLeaf`.
     * Without a user it redirects and without a file it answers
     * "No image", logging nothing; any file name is taken, with no
     * extension check. A failed save or a classifier fault logs nothing;
     * otherwise exactly one record is logged, with the stored name
     * `<millis>_<filename>` and the skin label and confidence, and the
     * answer adds the recommendation for that label.
     */
    method PredictSkin(upload: Option<UploadedFile>, millis: nat, saved: bool, output: Option<seq<real>>, now: int)
      returns (r: Reply)
      requires Valid()
      modifies this`scans
      ensures Valid()
      ensures session.None? ==> r == LoginFirst
      ensures session.Some? && upload.None? ==> r == SkinJson("No image", 0.0, "N/A")
      ensures session.None? || upload.None? || !saved || ClassifySkin(skinModelLoaded, diseaseClasses, output).ModelFault? ==>
                scans == old(scans)
      ensures session.Some? && upload.Some? && (!saved || ClassifySkin(skinModelLoaded, diseaseClasses, output).ModelFault?) ==>
                r == ServerError
      ensures session.Some? && upload.Some? && saved && ClassifySkin(skinModelLoaded, diseaseClasses, output).Classified? ==>
                var filename := upload.value.filename;
                var c := ClassifySkin(skinModelLoaded, diseaseClasses, output);
                && scans == old(scans) + [SkinScan(c.name, c.confidence, filename, SavedName(millis, filename), now)]
                && r == SkinJson(c.name, c.confidence, RecommendationFor(c.name))
    {
      var ok := Admitted();
      if !ok {
        return LoginFirst;
      }
      if upload.None? {
        return SkinJson("No image", 0.0, "N/A");
      }
      var filename := upload.value.filename;
      var savedName := SavedName(millis, filename);
      if !saved {
        return ServerError;
      }
      var c := ClassifySkin(skinModelLoaded, diseaseClasses, output);
      if c.ModelFault? {
        return ServerError;
      }
      var recommendation := RecommendationFor(c.name);
      scans := scans + [SkinScan(c.name, c.confidence, filename, savedName, now)];
      r := SkinJson(c.name, c.confidence, recommendation);
    }
  }
}
