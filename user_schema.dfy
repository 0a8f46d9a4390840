/** The registration request body and its length constraints. */
module UserSchema {
  import opened Errors
  import UsersRepository

  const UsernameMinLength: nat := 3
  const UsernameMaxLength: nat := 50
  const PasswordMinLength: nat := 6
  const PasswordMaxLength: nat := 128

  datatype RegisterRequest = RegisterRequest(username: string, password: string)

  /**
    Both fields are required; `username` has 3 to 50 characters and
    `password` 6 to 128. A missing or out-of-range field is a 422 naming it,
    `username` checked first.
  */
  function ValidateRegisterRequest(username: Option<string>, password: Option<string>): (r: Result<RegisterRequest>)
    ensures r.Ok? <==>
      username.Some? && UsernameMinLength <= |username.value| <= UsernameMaxLength &&
      password.Some? && PasswordMinLength <= |password.value| <= PasswordMaxLength
    ensures r.Ok? ==> r.value == RegisterRequest(username.value, password.value)
    ensures r.Err? ==> r.error.ValidationError?
  {
    if username.None? || !(UsernameMinLength <= |username.value| <= UsernameMaxLength) then
      Err(ValidationError("username"))
    else if password.None? || !(PasswordMinLength <= |password.value| <= PasswordMaxLength) then
      Err(ValidationError("password"))
    else
      Ok(RegisterRequest(username.value, password.value))
  }

  /** No accepted username is refused by the 50-character `username` column. */
  lemma AcceptedUsernameFitsColumn(username: Option<string>, password: Option<string>)
    requires ValidateRegisterRequest(username, password).Ok?
    ensures |ValidateRegisterRequest(username, password).value.username| <= UsersRepository.UsernameMaxLength
  {
  }
}
