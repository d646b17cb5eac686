/** The four schema-gated middlewares over the account schemas. The one
    exported as `validateCreateTicketInputs` checks the create-user
    schema, and it is what the create-user route uses. */
module AuthValidatorMiddleware {
  import opened Http
  import opened Zod
  import AuthValidator

  function ValidateRegisterInputs(env: Env, req: Request): (r: Step)
    ensures r.Next? <==> AuthValidator.ValidRegister(req.body, env.isEmail)
    ensures r.Next? ==> r.req == req
    ensures r.Stop? ==> r.reply.status == 400 && !r.reply.success
  {
    AuthValidator.RegisterSchemaAccepts(req.body, env.isEmail);
    Gate(AuthValidator.RegisterSchema(req.body, env.isEmail), req)
  }

  function ValidateCreateTicketInputs(env: Env, req: Request): (r: Step)
    ensures r.Next? <==> AuthValidator.ValidCreateUser(req.body, env.isEmail)
    ensures r.Next? ==> r.req == req
    ensures r.Stop? ==> r.reply.status == 400 && !r.reply.success
  {
    AuthValidator.CreateUserSchemaAccepts(req.body, env.isEmail);
    Gate(AuthValidator.CreateUserSchema(req.body, env.isEmail), req)
  }

  function ValidateLoginInputs(env: Env, req: Request): (r: Step)
    ensures r.Next? <==> AuthValidator.ValidLogin(req.body, env.isEmail)
    ensures r.Next? ==> r.req == req
    ensures r.Stop? ==> r.reply.status == 400 && !r.reply.success
  {
    AuthValidator.LoginSchemaAccepts(req.body, env.isEmail);
    Gate(AuthValidator.LoginSchema(req.body, env.isEmail), req)
  }

  function ValidateUpdateProfileInputs(req: Request): (r: Step)
    ensures r.Next? <==> AuthValidator.ValidUpdateProfile(req.body)
    ensures r.Next? ==> r.req == req
    ensures r.Stop? ==> r.reply.status == 400 && !r.reply.success
  {
    AuthValidator.UpdateProfileSchemaAccepts(req.body);
    Gate(AuthValidator.UpdateProfileSchema(req.body), req)
  }
}
