/** The username validator of the `foodgram` application. */
module Validators {

  /** The one username the validator refuses: it would clash with the `/users/me/` route. */
  const ReservedUsername: string := "me"

  /** A validator either accepts its argument or raises; it never hands back a new value. */
  datatype Verdict = Accepted | Rejected(message: string)

  /** `validate_username`: raises a validation error for the exact value "me", accepts anything else. */
  function ValidateUsername(value: string): (r: Verdict)
    ensures r.Rejected? <==> value == ReservedUsername
    ensures r.Rejected? ==> r.message == "Username 'me' is not allowed."
  {
    if value == ReservedUsername then Rejected("Username 'me' is not allowed.") else Accepted
  }

  /** The comparison is exact: other spellings of "me" pass. */
  lemma CaseVariantsAccepted()
    ensures ValidateUsername("Me") == Accepted
    ensures ValidateUsername("ME") == Accepted
    ensures ValidateUsername("mE") == Accepted
    ensures ValidateUsername(" me") == Accepted
  {
    assert "Me" != ReservedUsername;
    assert "ME" != ReservedUsername;
    assert "mE" != ReservedUsername;
    assert " me" != ReservedUsername;
  }
}
