/**
 * server/routes/auth.js: log-in and sign-up against an in-memory Map of
 * users keyed by email, with plaintext passwords.
 */
module AuthRoutes {
  import opened Json

  datatype ServerUser = ServerUser(email: string, password: string, username: string, character: Value)

  /** The response body for a user: email, username and character, never the password. */
  function PublicView(u: ServerUser): (r: Record)
    ensures r.Keys == {"email", "username", "character"}
    ensures "password" !in r
    ensures r["email"] == Str(u.email) && r["username"] == Str(u.username) && r["character"] == u.character
  {
    map["email" := Str(u.email), "username" := Str(u.username), "character" := u.character]
  }

  /** The view is faithful: two users with the same view agree on everything but the password. */
  lemma PublicViewDeterminesUser(u: ServerUser, v: ServerUser)
    requires PublicView(u) == PublicView(v)
    ensures u.(password := v.password) == v
  {
    assert PublicView(u)["email"] == PublicView(v)["email"];
    assert PublicView(u)["username"] == PublicView(v)["username"];
    assert PublicView(u)["character"] == PublicView(v)["character"];
  }

  class Router {
    var users: map<string, ServerUser>

    constructor ()
      ensures users == map[]
    {
      users := map[];
    }

    /** POST /login: 401 for an unknown email or a wrong password. */
    method Login(email: string, password: string) returns (response: Response)
      ensures (email in users && users[email].password == password) ==>
        response == Response(200, PublicView(users[email]))
      ensures !(email in users && users[email].password == password) ==>
        response == Response(401, ErrorBody("Invalid email or password"))
      ensures "password" !in response.body
    {
      if email !in users || users[email].password != password {
        return Response(401, ErrorBody("Invalid email or password"));
      }
      response := Response(200, PublicView(users[email]));
    }

    /** POST /signup: 400 for a taken email; otherwise store the user without a character. */
    method Signup(email: string, password: string, username: string) returns (response: Response)
      modifies this
      ensures email in old(users) ==>
        response == Response(400, ErrorBody("Email already exists")) && users == old(users)
      ensures email !in old(users) ==>
        var newUser := ServerUser(email, password, username, Null);
        users == old(users)[email := newUser] && response == Response(200, PublicView(newUser))
      ensures "password" !in response.body
    {
      if email in users {
        return Response(400, ErrorBody("Email already exists"));
      }
      var newUser := ServerUser(email, password, username, Null);
      users := users[email := newUser];
      response := Response(200, PublicView(newUser));
    }
  }

  /** Signing up with a new email and logging in with the same password succeeds with the same view. */
  method SignupThenLogin(router: Router, email: string, password: string, username: string)
    returns (signedUp: Response, loggedIn: Response)
    requires email !in router.users
    modifies router
    ensures signedUp.status == 200 && loggedIn.status == 200 && loggedIn.body == signedUp.body
    ensures loggedIn.body == PublicView(ServerUser(email, password, username, Null))
  {
    signedUp := router.Signup(email, password, username);
    loggedIn := router.Login(email, password);
  }
}
