/** The account forms of the frontend: the zod schemas of the sign-up,
    create-user and login pages, the department picker of the create-user
    pages, and what each page does once its request has settled. The
    schemas run through the same zod model as the backend's. */
module FrontendForms {
  import opened Wrappers
  import opened Strings
  import opened Http
  import opened Zod
  import Constants
  import AuthValidator
  import Seqs
  import ClientRouting
  import opened ClientRows

  /** `SignUpSchema` of the sign-up page. */
  const SignUpFields: seq<FieldSpec> := [
    StringField("email", [Email], false),
    StringField("password", [MinLen(6)], false),
    StringField("name", [MinLen(3)], false),
    EnumField("role", Constants.Roles, false)
  ]

  /** `SignUpSchema` of the create-user pages: the same fields and an
      optional department, followed by the coordinator rule. */
  const CreateUserFields: seq<FieldSpec> := SignUpFields + [StringField("department", [], true)]

  const LoginFields: seq<FieldSpec> := [
    StringField("email", [Email], false),
    StringField("password", [MinLen(6)], false)
  ]

  function SignUpSchema(body: Json, isEmail: string -> bool): FieldResult {
    ParseObject(body, SignUpFields, isEmail)
  }

  /** The superRefine is the backend's coordinator rule word for word. */
  function CreateUserSchema(body: Json, isEmail: string -> bool): FieldResult {
    AuthValidator.CoordinatorRule(body, ParseObject(body, CreateUserFields, isEmail))
  }

  function LoginSchema(body: Json, isEmail: string -> bool): FieldResult {
    ParseObject(body, LoginFields, isEmail)
  }

  predicate MinStr(body: Json, k: string, n: nat) {
    k in body && body[k].Str? && |body[k].s| >= n
  }

  /** A sign-up body: an e-mail, a password of at least 6 characters, a
      name of at least 3 and one of the three roles. */
  predicate ValidSignUp(body: Json, isEmail: string -> bool) {
    AuthValidator.EmailOk(body, isEmail) && MinStr(body, "password", 6) && MinStr(body, "name", 3) && AuthValidator.RoleOk(body)
  }

  /** A create-user body: a sign-up body, a department that is a string
      when present, and a non-empty department for a coordinator. */
  predicate ValidCreateUser(body: Json, isEmail: string -> bool) {
    && ValidSignUp(body, isEmail)
    && ("department" in body ==> body["department"].Str?)
    && (body["role"].s == "COORDINATOR" ==> Truthy(Lookup(body, "department")))
  }

  predicate ValidLogin(body: Json, isEmail: string -> bool) {
    AuthValidator.EmailOk(body, isEmail) && MinStr(body, "password", 6)
  }

  lemma {:induction false} SignUpSchemaAccepts(body: Json, isEmail: string -> bool)
    ensures Accepts(SignUpSchema(body, isEmail)) <==> ValidSignUp(body, isEmail)
  {
    var f := SignUpFields;
    EmailField(body, "email", isEmail);
    MinLengthField(body, "password", 6, isEmail);
    MinLengthField(body, "name", 3, isEmail);
    assert (forall i | 0 <= i < |f| :: FieldOk(body, f[i], isEmail)) <==>
      FieldOk(body, f[0], isEmail) && FieldOk(body, f[1], isEmail) && FieldOk(body, f[2], isEmail) && FieldOk(body, f[3], isEmail);
  }

  lemma {:induction false} CreateUserSchemaAccepts(body: Json, isEmail: string -> bool)
    ensures Accepts(CreateUserSchema(body, isEmail)) <==> ValidCreateUser(body, isEmail)
  {
    var f := CreateUserFields;
    EmailField(body, "email", isEmail);
    MinLengthField(body, "password", 6, isEmail);
    MinLengthField(body, "name", 3, isEmail);
    assert (forall i | 0 <= i < |f| :: FieldOk(body, f[i], isEmail)) <==>
      && FieldOk(body, f[0], isEmail) && FieldOk(body, f[1], isEmail) && FieldOk(body, f[2], isEmail)
      && FieldOk(body, f[3], isEmail) && FieldOk(body, f[4], isEmail);
    var base := ParseObject(body, f, isEmail);
    if Accepts(base) {
      assert !base.aborted;
    }
  }

  /** A coordinator without a department gets the custom issue on the
      `department` path, whenever the fields themselves parse. */
  lemma CoordinatorNeedsDepartment(body: Json, isEmail: string -> bool)
    requires !ParseObject(body, CreateUserFields, isEmail).aborted
    requires StrField(body, "role") == Some("COORDINATOR") && !Truthy(Lookup(body, "department"))
    ensures Issue("department", Custom) in CreateUserSchema(body, isEmail).issues
    ensures !Accepts(CreateUserSchema(body, isEmail))
  {
  }

  /** Technicians and administrators need no department. */
  lemma OtherRolesNeedNoDepartment(body: Json, isEmail: string -> bool)
    requires ValidSignUp(body, isEmail) && body["role"].s != "COORDINATOR" && "department" !in body
    ensures Accepts(CreateUserSchema(body, isEmail))
  {
    CreateUserSchemaAccepts(body, isEmail);
  }

  /** The sign-up page has no department rule: a coordinator without a
      department passes it, and the create-user pages refuse the same
      body. */
  lemma SignUpLetsCoordinatorWithoutDepartment(body: Json, isEmail: string -> bool)
    requires ValidSignUp(body, isEmail) && body["role"] == Str("COORDINATOR") && "department" !in body
    ensures Accepts(SignUpSchema(body, isEmail))
    ensures !Accepts(CreateUserSchema(body, isEmail))
  {
    SignUpSchemaAccepts(body, isEmail);
    CreateUserSchemaAccepts(body, isEmail);
  }

  /** Every body the backend's `createUserSchema` accepts, the create-user
      pages accept too. */
  lemma BackendCreateUserPassesForm(body: Json, isEmail: string -> bool)
    requires Accepts(AuthValidator.CreateUserSchema(body, isEmail))
    ensures Accepts(CreateUserSchema(body, isEmail))
  {
    AuthValidator.CreateUserSchemaAccepts(body, isEmail);
    CreateUserSchemaAccepts(body, isEmail);
    if body["role"].s == "COORDINATOR" {
      Constants.DepartmentsNonEmpty();
    }
  }

  lemma {:induction false} LoginSchemaAccepts(body: Json, isEmail: string -> bool)
    ensures Accepts(LoginSchema(body, isEmail)) <==> ValidLogin(body, isEmail)
  {
    var f := LoginFields;
    EmailField(body, "email", isEmail);
    MinLengthField(body, "password", 6, isEmail);
    assert (forall i | 0 <= i < |f| :: FieldOk(body, f[i], isEmail)) <==>
      FieldOk(body, f[0], isEmail) && FieldOk(body, f[1], isEmail);
  }

  /** The login form is looser than the server: every login the backend
      accepts passes the form, and a 6- or 7-character password passes
      the form and is refused by the backend. */
  lemma LoginPasswordGap(body: Json, isEmail: string -> bool)
    ensures Accepts(AuthValidator.LoginSchema(body, isEmail)) ==> Accepts(LoginSchema(body, isEmail))
    ensures (AuthValidator.EmailOk(body, isEmail) && "password" in body && body["password"].Str?
             && 6 <= |body["password"].s| < 8) ==>
        Accepts(LoginSchema(body, isEmail)) && !Accepts(AuthValidator.LoginSchema(body, isEmail))
  {
    LoginSchemaAccepts(body, isEmail);
    AuthValidator.LoginSchemaAccepts(body, isEmail);
  }

  /** The picker's options for a query: those whose caption contains it,
      ignoring letter case, in their original order. */
  function MatchingOptions(options: seq<Constants.DepartmentOption>, query: string): (r: seq<Constants.DepartmentOption>)
    ensures forall o | o in r :: o in options && Contains(ToLower(o.caption), ToLower(query))
    ensures forall o | o in options && Contains(ToLower(o.caption), ToLower(query)) :: o in r
  {
    Seqs.Filter(options, (o: Constants.DepartmentOption) => Contains(ToLower(o.caption), ToLower(query)))
  }

  /** An empty query shows every option. */
  lemma {:induction false} EmptyQueryShowsAll(options: seq<Constants.DepartmentOption>)
    ensures MatchingOptions(options, "") == options
  {
    if options != [] {
      EmptyQueryShowsAll(options[1..]);
      EmptyIsContained(ToLower(options[0].caption));
      assert options == [options[0]] + options[1..];
    }
  }

  /** The selected option shown in the picker: the option whose value is
      the form's department, if any. */
  function SelectedOption(options: seq<Constants.DepartmentOption>, department: Option<string>): (r: Option<Constants.DepartmentOption>)
    ensures r.Some? ==> r.value in options && department == Some(r.value.value)
    ensures r.None? ==> forall o | o in options :: department != Some(o.value)
  {
    if options == [] then None
    else if department == Some(options[0].value) then Some(options[0])
    else SelectedOption(options[1..], department)
  }

  /** Every known department has its option. */
  lemma EveryDepartmentSelectable(code: string)
    requires code in Constants.Departments
    ensures SelectedOption(Constants.DepartmentOptions, Some(code)).Some?
  {
    Constants.OptionsCoverDepartments();
    var i :| 0 <= i < |Constants.Departments| && Constants.Departments[i] == code;
    assert Constants.DepartmentOptions[i] in Constants.DepartmentOptions;
  }

  /** The create-user page of the admin area (`onSubmit` with its modal):
      the modal says how `createUser(data)` settled, and only a success
      clears the form. */
  class CreateUserForm {
    var values: Json
    var modalOpen: bool
    var modalTitle: string
    var modalMessage: string

    constructor ()
      ensures values == map[] && !modalOpen && modalTitle == "" && modalMessage == ""
    {
      values, modalOpen, modalTitle, modalMessage := map[], false, "", "";
    }

    /** The modal once the call has settled. */
    method Show(settled: ClientRouting.Settled)
      modifies this
      ensures modalOpen
      ensures settled == ClientRouting.Resolved ==>
        modalTitle == "User Created" && modalMessage == "The user was created successfully." && values == map[]
      ensures settled == ClientRouting.Rejected ==>
        modalTitle == "Error" && modalMessage == "Failed to create user. Please try again." && values == old(values)
    {
      if settled == ClientRouting.Resolved {
        modalTitle, modalMessage := "User Created", "The user was created successfully.";
        modalOpen := true;
        values := map[];
      } else {
        modalTitle, modalMessage := "Error", "Failed to create user. Please try again.";
        modalOpen := true;
      }
    }

    /** `onSubmit` as written: `createUser` is taken from the auth store,
        which defines no such action, so the call throws before any
        request is sent and the error modal opens, whatever the server
        would have answered (`request`). */
    method OnSubmitAsWritten(request: ClientRouting.Settled) returns (settled: ClientRouting.Settled)
      modifies this
      ensures settled == ClientRouting.Rejected
      ensures modalOpen && modalTitle == "Error" && values == old(values)
    {
      settled := ClientRouting.CallAction(ClientRouting.StoreActions, "createUser", request);
      Show(settled);
    }

    /** `onSubmit` with a store that defines `createUser` as a request to
        `/users/create-user` that rejects when the request fails. */
    method OnSubmit(request: ClientRouting.Settled) returns (settled: ClientRouting.Settled)
      modifies this
      ensures settled == request
      ensures modalOpen
      ensures request == ClientRouting.Resolved ==> modalTitle == "User Created" && values == map[]
      ensures request == ClientRouting.Rejected ==> modalTitle == "Error" && values == old(values)
    {
      settled := ClientRouting.CallAction(ClientRouting.StoreActions + {"createUser"}, "createUser", request);
      Show(settled);
    }
  }

  /** Where the login page goes once `login` has settled, and the toast
      it shows. */
  function LoginNavigation(resolved: bool): (r: (Option<string>, string))
    ensures r.0 == Some("/dashboard") <==> resolved
    ensures r.0.None? <==> !resolved
    ensures r.1 == (if resolved then "Welcome back!" else "Login failed. Please try again.")
  {
    if resolved then (Some("/dashboard"), "Welcome back!") else (None, "Login failed. Please try again.")
  }

  /** The login page's `onSubmit` as written, given how `POST /auth/login`
      ended. The store's `login` swallows a failure, so the page always
      says "Welcome back!" and goes to /dashboard; a visitor whose
      request failed arrives there signed out, and every protected page
      sends them back to /login. */
  method SubmitLoginAsWritten(store: ClientRouting.Session, response: Fetch<ClientRouting.AuthUser>)
    returns (nav: Option<string>, toast: string)
    modifies store
    ensures nav == Some("/dashboard") && toast == "Welcome back!"
    ensures store.authUser == (if response.Fetched? then response.value else old(store.authUser))
    ensures response.Failed? && old(store.authUser).None? ==>
      forall roles :: ClientRouting.Protect(store.authUser, roles) == ClientRouting.Redirect("/login")
  {
    var settled := store.Login(response);
    var r := LoginNavigation(settled == ClientRouting.Resolved);
    nav, toast := r.0, r.1;
  }

  /** `onSubmit` over a `login` that rethrows: the page navigates exactly
      when the request succeeded, and otherwise shows the failure toast
      with the signed-in user unchanged. */
  method SubmitLogin(store: ClientRouting.Session, response: Fetch<ClientRouting.AuthUser>)
    returns (nav: Option<string>, toast: string)
    modifies store
    ensures nav.Some? <==> response.Fetched?
    ensures nav.Some? ==> nav == Some("/dashboard") && toast == "Welcome back!"
    ensures nav.None? ==> toast == "Login failed. Please try again." && store.authUser == old(store.authUser)
    ensures store.authUser == (if response.Fetched? then response.value else old(store.authUser))
  {
    var settled := store.LoginRethrowing(response);
    var r := LoginNavigation(settled == ClientRouting.Resolved);
    nav, toast := r.0, r.1;
  }
}
