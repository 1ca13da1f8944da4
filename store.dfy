/** The session payload record, and the claims an access token decodes to.
    A field is `None` when the token carries no such claim: the code copies
    whatever the decoder returned, `undefined` included. */
module AuthStore {
  import opened Js

  /** The decoded session: user id, role, user type, issued-at and expiry
      (NumericDates, in seconds). `userType` is the claim named `type`. */
  datatype Payload = Payload(
    id: Option<string>,
    role: Option<string>,
    userType: Option<string>,
    iat: Option<int>,
    exp: Option<int>)

  /** What the JWT decoder returns for a well-formed token: the five claims
      the payload keeps, and every other claim of the token by name. */
  datatype Claims = Claims(
    id: Option<string>,
    role: Option<string>,
    userType: Option<string>,
    iat: Option<int>,
    exp: Option<int>,
    others: map<string, Json>)
}
