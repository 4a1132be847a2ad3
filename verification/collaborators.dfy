/** What the core calls but does not define: the `utils` package (password hashing and
    token issue), the JWT library's parse-and-verify, the request validator's `email`
    rule, and the process configuration. Each is an uninterpreted total function; any
    round trip between two of them is stated as an explicit assumption where it is used. */
module Collaborators {
  import opened Models

  /** `utils.HashPassword` returns a digest and an error; callers that discard the error
      still store the digest. */
  datatype HashOutcome = HashOutcome(digest: string, failed: bool)

  /** `utils.GenerateJWT`. */
  datatype Issue = Issued(token: string) | IssueFailed

  /** `jwt.ParseWithClaims` under the secret, folded into one verdict: the token did not
      parse, verify or was expired; its claims were not `TokenClaims`; or the claimed user id. */
  datatype TokenCheck = InvalidToken | ForeignClaims | Claims(userId: Id)

  datatype Services = Services(
    hashPassword: string -> HashOutcome,
    checkPasswordHash: (string, string) -> bool,
    generateJwt: (string, int, Id) -> Issue,
    parseJwt: (string, string) -> TokenCheck,
    isEmail: string -> bool)

  /** The two configuration values the core reads. */
  datatype Config = Config(jwtSecret: string, jwtHours: int)
}
