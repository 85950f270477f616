/** The pieces of the Spring web and security framework the backend controllers use. */
module Web {
  import opened Wrappers

  /** A `ResponseEntity`: status code and body. */
  datatype Response<B> = Response(status: int, body: B)

  /** What an `Authentication` holds as its principal. */
  datatype Principal =
    | UserDetailsImpl(id: string, username: string, authorities: set<string>)
    | OtherPrincipal(name: string)  // e.g. the anonymous user's name

  datatype Authentication = Authentication(principal: Principal)

  /** The current thread's security context (`SecurityContextHolder.getContext()`). */
  class SecurityContext {
    var authentication: Option<Authentication>

    constructor (authentication: Option<Authentication>)
      ensures this.authentication == authentication
    {
      this.authentication := authentication;
    }
  }
}
