/** middleware.js: `setCurrentUser` and the login guard `isLoggedIn`, over an
    exchange object that stands for one request and its response. */
module Middleware {
  import opened Base
  import opened Session

  const LOGIN_PATH: string := "/login"
  const LOGIN_REQUIRED: Flash := Flash(Error, "You must be logged in first!")

  /** The guard's decision. */
  datatype Decision = Proceed | Deny(notice: Flash, target: string)

  /** `isLoggedIn` as a function of `req.isAuthenticated()`: it proceeds
      exactly when authenticated, and otherwise queues the login notice and
      sends the client to the login page. */
  function Admit(authenticated: bool): (d: Decision)
    ensures d.Proceed? <==> authenticated
    ensures d.Deny? ==> d.notice == LOGIN_REQUIRED && d.target == LOGIN_PATH
  {
    if authenticated then Proceed else Deny(LOGIN_REQUIRED, LOGIN_PATH)
  }

  /** One request and its response: the session's stored reference
      (`req.session.passport.user`), the deserialized `req.user`, the view
      variable `res.locals.currUser`, the session's flash queue, and what
      has been sent. */
  class Exchange {
    var session: Option<SessionRef>
    var user: Option<Principal>
    var currUser: Option<Principal>
    var flashes: seq<Flash>
    var reply: Reply

    /** A request arriving with the given session reference and flash queue;
        passport has not run yet. */
    constructor (session: Option<SessionRef>, flashes: seq<Flash>)
      ensures this.session == session && this.flashes == flashes
      ensures user == None && currUser == None && reply == NoReply
    {
      this.session := session;
      this.flashes := flashes;
      user := None;
      currUser := None;
      reply := NoReply;
    }

    /** `req.isAuthenticated()`: a user is attached. */
    predicate IsAuthenticated()
      reads this
    {
      user.Some?
    }

    /** `setCurrentUser`: copies the request's user, possibly none, into
        `res.locals.currUser` and always continues. */
    method SetCurrentUser() returns (next: bool)
      modifies this`currUser
      ensures currUser == user
      ensures next
    {
      currUser := user;
      next := true;
    }

    /** `isLoggedIn`: continues, with nothing queued or sent, when
        authenticated; otherwise queues exactly one error notice, redirects
        to the login page and does not continue. It reads only whether a user
        is attached and changes neither the user nor the session. */
    method IsLoggedIn() returns (next: bool)
      modifies this`flashes, this`reply
      ensures next == Admit(old(IsAuthenticated())).Proceed?
      ensures next ==> flashes == old(flashes) && reply == old(reply)
      ensures !next ==> flashes == old(flashes) + [LOGIN_REQUIRED] && reply == Redirect(LOGIN_PATH)
    {
      match Admit(IsAuthenticated())
      case Proceed =>
        next := true;
      case Deny(notice, target) =>
        flashes := flashes + [notice];
        reply := Redirect(target);
        next := false;
    }
  }

  /** Running the guard twice in one request decides the same way both times:
      it never changes what it reads. */
  method GuardTwice(ex: Exchange) returns (first: bool, second: bool)
    modifies ex`flashes, ex`reply
    ensures first == second == ex.user.Some?
    ensures ex.user == old(ex.user) && ex.session == old(ex.session)
  {
    first := ex.IsLoggedIn();
    second := ex.IsLoggedIn();
  }
}
