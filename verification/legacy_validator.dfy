/** The second copy of the account schemas (`registerSchema`,
    `loginSchema`, `updateProfileSchema`), which the `validate*`
    wrappers of `auth.middlewares.js` use. */
module LegacyValidator {
  import Constants
  import opened Http
  import opened Zod
  import AuthValidator

  const RegisterFields: seq<FieldSpec> := [
    StringField("name", [MinLen(3), MaxLen(50)], false),
    StringField("email", [Email], false),
    StringField("password", [MinLen(8), MaxLen(50), HasUpper, HasLower, HasDigit, HasSpecial], false),
    EnumField("role", ["TECHNICIAN", "ADMIN", "COORDINATOR"], false)
  ]

  const LoginFields: seq<FieldSpec> := [
    StringField("email", [Email], false),
    StringField("password", [MinLen(8), MaxLen(50)], false)
  ]

  const UpdateProfileFields: seq<FieldSpec> := [
    StringField("name", [MinLen(3), MaxLen(50)], true),
    StringField("image", [], true),
    EnumField("role", ["TECHNICIAN", "ADMIN", "COORDINATOR"], true),
    StringField("password", [MinLen(8), MaxLen(50), HasUpper, HasLower, HasDigit, HasSpecial], true)
  ]

  function RegisterSchema(body: Json, isEmail: string -> bool): FieldResult {
    ParseObject(body, RegisterFields, isEmail)
  }

  function LoginSchema(body: Json, isEmail: string -> bool): FieldResult {
    ParseObject(body, LoginFields, isEmail)
  }

  function UpdateProfileSchema(body: Json): FieldResult {
    ParseObject(body, UpdateProfileFields, NoEmailField)
  }

  /** The two copies agree on every body, issue for issue. */
  lemma SameAsAuthValidator(body: Json, isEmail: string -> bool)
    ensures RegisterSchema(body, isEmail) == AuthValidator.RegisterSchema(body, isEmail)
    ensures LoginSchema(body, isEmail) == AuthValidator.LoginSchema(body, isEmail)
    ensures UpdateProfileSchema(body) == AuthValidator.UpdateProfileSchema(body)
  {
    assert RegisterFields == AuthValidator.RegisterFields;
    assert LoginFields == AuthValidator.LoginFields;
    assert UpdateProfileFields == AuthValidator.UpdateProfileFields;
  }

  /** Registration refuses every password outside 8..50 characters. */
  lemma RegisterPasswordBounds(body: Json, isEmail: string -> bool)
    requires Accepts(RegisterSchema(body, isEmail))
    ensures "password" in body && body["password"].Str? && 8 <= |body["password"].s| <= 50
  {
    SameAsAuthValidator(body, isEmail);
    AuthValidator.RegisterSchemaAccepts(body, isEmail);
  }

  /** Login needs an e-mail and a password of 8..50 characters, nothing more. */
  lemma LoginSchemaAccepts(body: Json, isEmail: string -> bool)
    ensures Accepts(LoginSchema(body, isEmail)) <==> AuthValidator.ValidLogin(body, isEmail)
  {
    SameAsAuthValidator(body, isEmail);
    AuthValidator.LoginSchemaAccepts(body, isEmail);
  }

  /** Every field is optional; a present password obeys the full rule. */
  lemma UpdateProfileSchemaAccepts(body: Json)
    ensures Accepts(UpdateProfileSchema(body)) <==> AuthValidator.ValidUpdateProfile(body)
    ensures Accepts(UpdateProfileSchema(map[]))
  {
    SameAsAuthValidator(body, NoEmailField);
    AuthValidator.UpdateProfileSchemaAccepts(body);
    SameAsAuthValidator(map[], NoEmailField);
    AuthValidator.UpdateProfileSchemaAccepts(map[]);
  }
}
