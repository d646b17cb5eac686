/** The part of zod's `safeParse` the schemas use: object schemas whose
    fields are strings with length, e-mail and character-class checks, or
    string enums, each possibly optional. zod checks every field and keeps
    every failed check as an issue; a field of the wrong type (or an enum
    miss) additionally aborts the object, which stops any refinement
    declared after it. */
module Zod {
  import opened Strings
  import opened Http

  datatype StrCheck = MinLen(n: nat) | MaxLen(n: nat) | Email | HasUpper | HasLower | HasDigit | HasSpecial

  /** `/[A-Z]/`, `/[a-z]/`, `/[0-9]/` and `/[^A-Za-z0-9]/` find a match. */
  predicate SomeUpper(s: string) { exists i | 0 <= i < |s| :: IsUpper(s[i]) }
  predicate SomeLower(s: string) { exists i | 0 <= i < |s| :: IsLower(s[i]) }
  predicate SomeDigit(s: string) { exists i | 0 <= i < |s| :: IsDigit(s[i]) }
  predicate SomeSpecial(s: string) { exists i | 0 <= i < |s| :: !IsAlnum(s[i]) }

  predicate Passes(c: StrCheck, s: string, isEmail: string -> bool) {
    match c
    case MinLen(n) => |s| >= n
    case MaxLen(n) => |s| <= n
    case Email => isEmail(s)
    case HasUpper => SomeUpper(s)
    case HasLower => SomeLower(s)
    case HasDigit => SomeDigit(s)
    case HasSpecial => SomeSpecial(s)
  }

  function CodeOf(c: StrCheck): Code {
    match c
    case MinLen(_) => TooSmall
    case MaxLen(_) => TooBig
    case _ => InvalidString
  }

  /** The issues the checks of one string field raise, one per failed check. */
  function CheckIssues(key: string, checks: seq<StrCheck>, s: string, isEmail: string -> bool): (r: seq<Issue>)
    ensures |r| <= |checks|
    ensures forall x | x in r :: x.path == key && x.code != Custom
    ensures r == [] <==> forall c | c in checks :: Passes(c, s, isEmail)
  {
    if checks == [] then []
    else
      (if Passes(checks[0], s, isEmail) then [] else [Issue(key, CodeOf(checks[0]))])
      + CheckIssues(key, checks[1..], s, isEmail)
  }

  datatype FieldSpec =
    | StringField(key: string, checks: seq<StrCheck>, optional: bool)
    | EnumField(key: string, allowed: seq<string>, optional: bool)

  /** What parsing one field produced. */
  datatype FieldResult = FieldResult(issues: seq<Issue>, aborted: bool)

  /** When a field is acceptable, stated without zod's machinery. */
  predicate FieldOk(body: Json, f: FieldSpec, isEmail: string -> bool) {
    if f.key !in body then f.optional
    else
      match f
      case StringField(k, checks, _) => body[k].Str? && forall c | c in checks :: Passes(c, body[k].s, isEmail)
      case EnumField(k, allowed, _) => body[k].Str? && body[k].s in allowed
  }

  /** An aborting failure: a missing required field, a value that is not a
      string, or a string outside the enum. */
  predicate FieldAborts(body: Json, f: FieldSpec) {
    if f.key !in body then !f.optional
    else !body[f.key].Str? || (f.EnumField? && body[f.key].s !in f.allowed)
  }

  function ParseField(body: Json, f: FieldSpec, isEmail: string -> bool): (r: FieldResult)
    ensures r.issues == [] <==> FieldOk(body, f, isEmail)
    ensures r.aborted <==> FieldAborts(body, f)
    ensures r.aborted ==> r.issues != []
    ensures forall x | x in r.issues :: x.path == f.key && x.code != Custom
  {
    if f.key !in body then
      if f.optional then FieldResult([], false) else FieldResult([Issue(f.key, InvalidType)], true)
    else if !body[f.key].Str? then
      FieldResult([Issue(f.key, InvalidType)], true)
    else
      match f
      case StringField(k, checks, _) => FieldResult(CheckIssues(k, checks, body[k].s, isEmail), false)
      case EnumField(k, allowed, _) =>
        if body[k].s in allowed then FieldResult([], false) else FieldResult([Issue(k, InvalidEnumValue)], true)
  }

  /** `z.object({...}).safeParse(body)` before any refinement: every field
      is parsed, issues are collected in field order. Keys the schema does
      not name are ignored. */
  function ParseObject(body: Json, fields: seq<FieldSpec>, isEmail: string -> bool): (r: FieldResult)
    ensures r.issues == [] <==> forall i | 0 <= i < |fields| :: FieldOk(body, fields[i], isEmail)
    ensures r.aborted <==> exists i | 0 <= i < |fields| :: FieldAborts(body, fields[i])
    ensures r.aborted ==> r.issues != []
    ensures forall x | x in r.issues :: x.code != Custom && exists i | 0 <= i < |fields| :: x.path == fields[i].key
  {
    if fields == [] then FieldResult([], false)
    else
      var head := ParseField(body, fields[0], isEmail);
      var rest := ParseObject(body, fields[1..], isEmail);
      assert forall i | 1 <= i < |fields| :: fields[i] == fields[1..][i - 1];
      FieldResult(head.issues + rest.issues, head.aborted || rest.aborted)
  }

  /** The e-mail predicate handed to schemas without an e-mail field;
      their outcome does not depend on it. */
  predicate NoEmailField(s: string) { true }

  /** A string field with a length window, as `z.string().min(lo).max(hi)`. */
  lemma LengthField(body: Json, k: string, lo: nat, hi: nat, optional: bool, isEmail: string -> bool)
    ensures FieldOk(body, StringField(k, [MinLen(lo), MaxLen(hi)], optional), isEmail) <==>
      if k in body then body[k].Str? && lo <= |body[k].s| <= hi else optional
  {
    var checks := [MinLen(lo), MaxLen(hi)];
    assert checks[0] in checks && checks[1] in checks;
    if k in body && body[k].Str? && lo <= |body[k].s| <= hi {
      forall c | c in checks ensures Passes(c, body[k].s, isEmail) {
      }
    }
  }

  /** `safeParse(...).success`. */
  predicate Accepts(r: FieldResult) { r.issues == [] }

  /** The full password rule shared by the register, create-user and
      update-profile schemas. */
  const PasswordChecks: seq<StrCheck> := [MinLen(8), MaxLen(50), HasUpper, HasLower, HasDigit, HasSpecial]

  predicate StrongPassword(s: string) {
    8 <= |s| <= 50 && SomeUpper(s) && SomeLower(s) && SomeDigit(s) && SomeSpecial(s)
  }

  lemma PasswordChecksMeanStrong(s: string, isEmail: string -> bool)
    ensures (forall c | c in PasswordChecks :: Passes(c, s, isEmail)) <==> StrongPassword(s)
  {
    if forall c | c in PasswordChecks :: Passes(c, s, isEmail) {
      assert Passes(MinLen(8), s, isEmail) && Passes(MaxLen(50), s, isEmail);
      assert Passes(HasUpper, s, isEmail) && Passes(HasLower, s, isEmail);
      assert Passes(HasDigit, s, isEmail) && Passes(HasSpecial, s, isEmail);
    }
    if StrongPassword(s) {
      forall c | c in PasswordChecks ensures Passes(c, s, isEmail) {
        var i :| 0 <= i < |PasswordChecks| && PasswordChecks[i] == c;
      }
    }
  }

  /** A password field, as the schemas spell out the full rule. */
  lemma PasswordField(body: Json, k: string, optional: bool, isEmail: string -> bool)
    ensures FieldOk(body, StringField(k, PasswordChecks, optional), isEmail) <==>
      if k in body then body[k].Str? && StrongPassword(body[k].s) else optional
  {
    if k in body && body[k].Str? {
      PasswordChecksMeanStrong(body[k].s, isEmail);
    }
  }

  /** A string field with a minimum length only, as `z.string().min(n)`. */
  lemma MinLengthField(body: Json, k: string, n: nat, isEmail: string -> bool)
    ensures FieldOk(body, StringField(k, [MinLen(n)], false), isEmail) <==>
      k in body && body[k].Str? && |body[k].s| >= n
  {
    assert MinLen(n) in [MinLen(n)];
  }

  /** An e-mail field, as `z.string().email()`. */
  lemma EmailField(body: Json, k: string, isEmail: string -> bool)
    ensures FieldOk(body, StringField(k, [Email], false), isEmail) <==>
      k in body && body[k].Str? && isEmail(body[k].s)
  {
    assert Email in [Email];
  }

  /** A `validate*` middleware: call `next` with the request untouched
      when the schema accepts, otherwise answer 400 with the issues. */
  function Gate(result: FieldResult, req: Request): (r: Step)
    ensures r.Next? <==> Accepts(result)
    ensures r.Next? ==> r.req == req
    ensures r.Stop? ==> r.reply == Reply(400, false, "", Issues(result.issues)) && r.reply.payload.issues != []
  {
    if Accepts(result) then Next(req) else Stop(Reply(400, false, "", Issues(result.issues)))
  }
}
