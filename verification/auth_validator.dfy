/** The zod schemas for account bodies: `registerSchema`,
    `createUserSchema` (with its coordinator rule), `loginSchema` and
    `updateProfileSchema`. */
module AuthValidator {
  import Constants
  import opened Wrappers
  import opened Http
  import opened Zod

  const RegisterFields: seq<FieldSpec> := [
    StringField("name", [MinLen(3), MaxLen(50)], false),
    StringField("email", [Email], false),
    StringField("password", PasswordChecks, false),
    EnumField("role", Constants.Roles, false)
  ]

  const CreateUserFields: seq<FieldSpec> := RegisterFields + [
    EnumField("department", Constants.Departments, true)
  ]

  const LoginFields: seq<FieldSpec> := [
    StringField("email", [Email], false),
    StringField("password", [MinLen(8), MaxLen(50)], false)
  ]

  const UpdateProfileFields: seq<FieldSpec> := [
    StringField("name", [MinLen(3), MaxLen(50)], true),
    StringField("image", [], true),
    EnumField("role", Constants.Roles, true),
    StringField("password", PasswordChecks, true)
  ]

  function RegisterSchema(body: Json, isEmail: string -> bool): FieldResult {
    ParseObject(body, RegisterFields, isEmail)
  }

  /** The coordinator rule, run by zod only when no field aborted: a
      COORDINATOR without a (truthy) department gets a custom issue on
      the `department` path. */
  function CoordinatorRule(body: Json, base: FieldResult): FieldResult {
    if base.aborted then base
    else if StrField(body, "role") == Some("COORDINATOR") && !Truthy(Lookup(body, "department")) then
      FieldResult(base.issues + [Issue("department", Custom)], false)
    else base
  }

  function CreateUserSchema(body: Json, isEmail: string -> bool): FieldResult {
    CoordinatorRule(body, ParseObject(body, CreateUserFields, isEmail))
  }

  function LoginSchema(body: Json, isEmail: string -> bool): FieldResult {
    ParseObject(body, LoginFields, isEmail)
  }

  function UpdateProfileSchema(body: Json): FieldResult {
    ParseObject(body, UpdateProfileFields, NoEmailField)
  }

  predicate StrBetween(body: Json, k: string, lo: nat, hi: nat) {
    k in body && body[k].Str? && lo <= |body[k].s| <= hi
  }

  predicate EmailOk(body: Json, isEmail: string -> bool) {
    "email" in body && body["email"].Str? && isEmail(body["email"].s)
  }

  predicate PasswordOk(body: Json) {
    "password" in body && body["password"].Str? && StrongPassword(body["password"].s)
  }

  predicate RoleOk(body: Json) {
    "role" in body && body["role"].Str? && body["role"].s in Constants.Roles
  }

  predicate DepartmentOk(body: Json) {
    "department" in body && body["department"].Str? && body["department"].s in Constants.Departments
  }

  predicate ValidRegister(body: Json, isEmail: string -> bool) {
    StrBetween(body, "name", 3, 50) && EmailOk(body, isEmail) && PasswordOk(body) && RoleOk(body)
  }

  /** A create-user body: a register body, an optional known department,
      and a department whenever the role is COORDINATOR. */
  predicate ValidCreateUser(body: Json, isEmail: string -> bool) {
    && ValidRegister(body, isEmail)
    && ("department" in body ==> DepartmentOk(body))
    && (body["role"].s == "COORDINATOR" ==> "department" in body)
  }

  /** Login checks only the e-mail and the password length. */
  predicate ValidLogin(body: Json, isEmail: string -> bool) {
    EmailOk(body, isEmail) && StrBetween(body, "password", 8, 50)
  }

  predicate ValidUpdateProfile(body: Json) {
    && ("name" in body ==> StrBetween(body, "name", 3, 50))
    && ("image" in body ==> body["image"].Str?)
    && ("role" in body ==> RoleOk(body))
    && ("password" in body ==> PasswordOk(body))
  }

  lemma {:induction false} RegisterSchemaAccepts(body: Json, isEmail: string -> bool)
    ensures Accepts(RegisterSchema(body, isEmail)) <==> ValidRegister(body, isEmail)
  {
    var f := RegisterFields;
    LengthField(body, "name", 3, 50, false, isEmail);
    EmailField(body, "email", isEmail);
    PasswordField(body, "password", false, isEmail);
    assert (forall i | 0 <= i < |f| :: FieldOk(body, f[i], isEmail)) <==>
      FieldOk(body, f[0], isEmail) && FieldOk(body, f[1], isEmail) && FieldOk(body, f[2], isEmail) && FieldOk(body, f[3], isEmail);
  }

  lemma {:induction false} CreateUserBaseAccepts(body: Json, isEmail: string -> bool)
    ensures Accepts(ParseObject(body, CreateUserFields, isEmail)) <==>
      ValidRegister(body, isEmail) && ("department" in body ==> DepartmentOk(body))
  {
    var f := CreateUserFields;
    LengthField(body, "name", 3, 50, false, isEmail);
    EmailField(body, "email", isEmail);
    PasswordField(body, "password", false, isEmail);
    assert (forall i | 0 <= i < |f| :: FieldOk(body, f[i], isEmail)) <==>
      FieldOk(body, f[0], isEmail) && FieldOk(body, f[1], isEmail) && FieldOk(body, f[2], isEmail)
      && FieldOk(body, f[3], isEmail) && FieldOk(body, f[4], isEmail);
  }

  lemma {:induction false} CreateUserSchemaAccepts(body: Json, isEmail: string -> bool)
    ensures Accepts(CreateUserSchema(body, isEmail)) <==> ValidCreateUser(body, isEmail)
  {
    CreateUserBaseAccepts(body, isEmail);
    var base := ParseObject(body, CreateUserFields, isEmail);
    var r := CreateUserSchema(body, isEmail);
    assert r == CoordinatorRule(body, base);
    if Accepts(base) {
      assert !base.aborted;
      Constants.DepartmentsNonEmpty();
      assert "department" in body ==> Truthy(Lookup(body, "department"));
    }
  }

  /** The refinement's issue appears exactly when no field aborted, the
      role is COORDINATOR and the department is missing or empty. */
  lemma CoordinatorIssue(body: Json, isEmail: string -> bool)
    ensures Issue("department", Custom) in CreateUserSchema(body, isEmail).issues <==>
      && !ParseObject(body, CreateUserFields, isEmail).aborted
      && StrField(body, "role") == Some("COORDINATOR")
      && !Truthy(Lookup(body, "department"))
  {
  }

  lemma {:induction false} LoginSchemaAccepts(body: Json, isEmail: string -> bool)
    ensures Accepts(LoginSchema(body, isEmail)) <==> ValidLogin(body, isEmail)
  {
    var f := LoginFields;
    EmailField(body, "email", isEmail);
    LengthField(body, "password", 8, 50, false, isEmail);
    assert (forall i | 0 <= i < |f| :: FieldOk(body, f[i], isEmail)) <==>
      FieldOk(body, f[0], isEmail) && FieldOk(body, f[1], isEmail);
  }

  lemma {:induction false} UpdateProfileSchemaAccepts(body: Json)
    ensures Accepts(UpdateProfileSchema(body)) <==> ValidUpdateProfile(body)
  {
    var f := UpdateProfileFields;
    LengthField(body, "name", 3, 50, true, NoEmailField);
    PasswordField(body, "password", true, NoEmailField);
    assert (forall i | 0 <= i < |f| :: FieldOk(body, f[i], NoEmailField)) <==>
      FieldOk(body, f[0], NoEmailField) && FieldOk(body, f[1], NoEmailField)
      && FieldOk(body, f[2], NoEmailField) && FieldOk(body, f[3], NoEmailField);
  }

  /** Login lets through passwords registration refuses: any 8..50
      characters, with no character-class rule. */
  lemma LoginWeakerThanRegister(body: Json, isEmail: string -> bool)
    requires EmailOk(body, isEmail)
    requires "password" in body && body["password"] == Str("abcdefgh")
    ensures Accepts(LoginSchema(body, isEmail)) && !Accepts(RegisterSchema(body, isEmail))
  {
    LoginSchemaAccepts(body, isEmail);
    RegisterSchemaAccepts(body, isEmail);
    assert !SomeUpper("abcdefgh");
  }
}
