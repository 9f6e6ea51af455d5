/** The values the auth library hands back to the façade. */
module AuthTypes {

  /**
   * The session of a token response, reduced to the three fields the façade
   * reads: the bearer token, the token that obtains the next session, and
   * its lifetime in whole seconds.
   */
  datatype Session = Session(accessToken: string, refreshToken: string, expiresIn: int)

  /** The zero session that the wrappers return beside an error. */
  const EmptySession := Session("", "", 0)

  /** The answer of one call into the auth library: a token response, or an error. */
  datatype AuthReply = Granted(session: Session) | Refused(message: string)
}
