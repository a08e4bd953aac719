/** The Next.js login page: a form whose two inputs each replace one field
    of the `credentials` record, and a submit handler that accepts one fixed
    pair of credentials locally. Navigation is the field `route`. */
module LoginPage {

  const ADMIN := "admin"
  const INVALID := "Invalid credentials. Please try again."

  /** The `credentials` state record. */
  datatype Credentials = Credentials(username: string, password: string)

  /** The local rule: exactly the name 'admin' with the password 'admin'. */
  predicate Accepted(c: Credentials)
  {
    c.username == ADMIN && c.password == ADMIN
  }

  /** Only one pair of credentials is ever accepted. */
  lemma OnlyAdminAccepted(c: Credentials, d: Credentials)
    requires Accepted(c) && Accepted(d)
    ensures c == d == Credentials("admin", "admin")
  {
  }

  class Page {
    var credentials: Credentials
    var loading: bool
    var error: string
    var route: string

    /** A freshly mounted page at `path` with empty fields. */
    constructor(path: string)
      ensures credentials == Credentials("", "") && !loading && error == "" && route == path
    {
      credentials := Credentials("", "");
      loading := false;
      error := "";
      route := path;
    }

    /** The username input, which is disabled while `loading`: replaces the
        username and nothing else. */
    method SetUsername(value: string)
      requires !loading
      modifies this
      ensures credentials == old(credentials).(username := value)
      ensures loading == old(loading) && error == old(error) && route == old(route)
    {
      credentials := credentials.(username := value);
    }

    /** The password input, also disabled while `loading`: replaces the
        password and nothing else. */
    method SetPassword(value: string)
      requires !loading
      modifies this
      ensures credentials == old(credentials).(password := value)
      ensures loading == old(loading) && error == old(error) && route == old(route)
    {
      credentials := credentials.(password := value);
    }

    /** `handleLogin`: sets `loading` and clears the error first. The
        accepted pair navigates to /scanner with `loading` left on; any
        other pair shows the message and turns `loading` off. The submit
        button is disabled while `loading` and both inputs are required. */
    method HandleLogin()
      requires !loading && credentials.username != "" && credentials.password != ""
      modifies this
      ensures credentials == old(credentials)
      ensures Accepted(credentials) ==> route == "/scanner" && loading && error == ""
      ensures !Accepted(credentials) ==> route == old(route) && !loading && error == INVALID
    {
      loading := true;
      error := "";
      if credentials.username == ADMIN && credentials.password == ADMIN {
        route := "/scanner";
      } else {
        error := INVALID;
        loading := false;
      }
    }
  }

  /** Typing the two fields and submitting: 'admin'/'admin' reaches the
      scanner, while 'Admin' does not, the comparison being exact; after a
      refusal the form can be edited and submitted again. */
  method SignInSession()
  {
    var page := new Page("/login");
    page.SetUsername("Admin");
    page.SetPassword(ADMIN);
    page.HandleLogin();
    assert page.route == "/login" && !page.loading && page.error == INVALID;
    page.SetUsername(ADMIN);
    page.HandleLogin();
    assert page.route == "/scanner" && page.loading && page.error == "";
  }
}
