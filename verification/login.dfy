/** The login page (frontend/src/app/login/page.tsx): its form state, the redirect
    when a token is already stored, and handleSubmit, split at its one `await`
    into the part before the request and the part after it settles. */
module LoginForm {
  import opened Wrappers
  import opened Text
  import opened Records
  import opened Browser

  const MissingFields := "Please enter both email and password."
  const LoginFailed := "Login failed"

  /** The fields of the JSON body the page reads from /login. */
  datatype LoginJson = LoginJson(accessToken: Option<string>, detail: Option<string>)

  /** The check made before any request: `!email || !password`. */
  function Problem(email: string, password: string): (r: Option<string>)
    ensures r.None? <==> email != "" && password != ""
    ensures r.Some? ==> r.value == MissingFields
  {
    if email == "" || password == "" then Some(MissingFields) else None
  }

  /** The form body: `username` (the email), then `password`. */
  function Body(email: string, password: string): (q: Query)
    ensures Keys(q) == ["username", "password"]
    ensures Param(q, "username") == Some(email) && Param(q, "password") == Some(password)
  {
    [("username", email), ("password", password)]
  }

  /** What the request ends in: a message for the error line, or a token to store. */
  datatype Outcome = Failed(message: string) | SignedIn(token: string)

  /** The try block after the response: a non-ok response fails with the server's
      detail (or "Login failed"), an ok one without a truthy access_token fails with
      "Login failed", and anything thrown fails with its own message. */
  function Classify(answer: Answer<LoginJson>): (o: Outcome)
    ensures o.SignedIn? <==> answer.Responded? && answer.ok && Truthy(answer.body.accessToken)
    ensures o.SignedIn? ==> o.token == answer.body.accessToken.value && o.token != ""
    ensures answer.Responded? && !o.SignedIn? ==> o.message != ""
    ensures answer.Responded? && !answer.ok ==> o == Failed(DetailOr(answer.body.detail, LoginFailed))
    ensures answer.Responded? && answer.ok && !Truthy(answer.body.accessToken) ==> o == Failed(LoginFailed)
    ensures answer.Threw? ==> o == Failed(answer.message)
  {
    match answer
    case Threw(message) => Failed(message)
    case Responded(ok, body) =>
      if !ok then Failed(DetailOr(body.detail, LoginFailed))
      else if !Truthy(body.accessToken) then Failed(LoginFailed)
      else SignedIn(body.accessToken.value)
  }

  class LoginPage {
    var email: string
    var password: string
    var error: string
    var loading: bool
    /** sessionStorage */
    var storage: Storage
    /** The path the router shows. */
    var location: string

    constructor (storage: Storage, location: string)
      ensures email == "" && password == "" && error == "" && !loading
      ensures this.storage == storage && this.location == location
    {
      email := "";
      password := "";
      error := "";
      loading := false;
      this.storage := storage;
      this.location := location;
    }

    /** The mount effect: with a truthy stored token the page goes to "/". */
    method Mount()
      modifies this`location
      ensures Truthy(GetItem(storage, TokenKey)) ==> location == "/"
      ensures !Truthy(GetItem(storage, TokenKey)) ==> location == old(location)
    {
      if Truthy(GetItem(storage, TokenKey)) {
        location := "/";
      }
    }

    /** handleSubmit up to the request: returns the form body it sends, or None when
        validation stopped it, in which case only the error line changed. */
    method BeginSubmit() returns (request: Option<Query>)
      modifies this`error, this`loading
      ensures request.None? <==> Problem(email, password).Some?
      ensures request.None? ==> error == Problem(email, password).value && loading == old(loading)
      ensures request.Some? ==> request.value == Body(email, password) && error == "" && loading
    {
      var problem := Problem(email, password);
      if problem.Some? {
        error := problem.value;
        return None;
      }
      error := "";
      loading := true;
      request := Some(Body(email, password));
    }

    /** handleSubmit after the request settles: the catch sets the error line, the
        success path stores the token and goes to "/", and `finally` clears loading. */
    method FinishSubmit(answer: Answer<LoginJson>)
      modifies this`error, this`loading, this`storage, this`location
      ensures !loading
      ensures match Classify(answer)
              case Failed(message) =>
                error == message && storage == old(storage) && location == old(location)
              case SignedIn(token) =>
                error == old(error) && storage == old(storage)[TokenKey := token] && location == "/"
    {
      match Classify(answer) {
        case Failed(message) =>
          error := message;
        case SignedIn(token) =>
          storage := storage[TokenKey := token];
          location := "/";
      }
      loading := false;
    }

    /** The whole of handleSubmit, with answer standing for what the request would
        settle with. */
    method HandleSubmit(answer: Answer<LoginJson>) returns (request: Option<Query>)
      modifies this`error, this`loading, this`storage, this`location
      ensures request.None? <==> Problem(old(email), old(password)).Some?
      ensures request.None? ==>
        error == MissingFields && loading == old(loading) && storage == old(storage) && location == old(location)
      ensures request.Some? ==> request.value == Body(email, password) && !loading
      ensures request.Some? ==> match Classify(answer)
                                case Failed(message) => error == message && storage == old(storage) && location == old(location)
                                case SignedIn(token) => error == "" && storage == old(storage)[TokenKey := token] && location == "/"
    {
      request := BeginSubmit();
      if request.Some? {
        FinishSubmit(answer);
      }
    }
  }
}
