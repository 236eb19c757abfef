/** The registration body, its password validator, and the login token body. */
module UserSchemas {
  import opened Wrappers

  const ShortPasswordMessage: string := "Hasło musi mieć co najmniej 6 znaków"
  const MinimumPasswordLength: nat := 6

  /** A registration request; the phone number is optional and absent by default. */
  datatype UserCreate = UserCreate(
    email: string, password: string, firstName: string, lastName: string, phone: Option<string>)

  /** The token returned on sign-in; its type is "bearer" unless stated otherwise. */
  datatype Token = Token(accessToken: string, tokenType: string)

  function NewToken(accessToken: string): (t: Token)
    ensures t.tokenType == "bearer" && t.accessToken == accessToken
  {
    Token(accessToken, "bearer")
  }

  /** The password validator: a password of fewer than six characters is rejected; any other
      passes unchanged. Python counts characters as code points, as `|password|` does. */
  function ValidatePassword(password: string): (r: Result<string, string>)
    ensures r.Ok? <==> |password| >= MinimumPasswordLength
    ensures r.Ok? ==> r.value == password
    ensures r.Err? ==> r.error == ShortPasswordMessage
  {
    if |password| < MinimumPasswordLength then Err(ShortPasswordMessage) else Ok(password)
  }

  /** "password123" is accepted and "123" rejected. */
  lemma PasswordExamples()
    ensures ValidatePassword("password123") == Ok("password123")
    ensures ValidatePassword("123").Err?
  {
  }
}
