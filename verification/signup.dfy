/** The signup page (frontend/src/app/signup/page.tsx): its form state and
    handleSubmit, split at its one `await` into the part before the request and the
    part after it settles. */
module SignupForm {
  import opened Wrappers
  import opened Records
  import opened Browser

  const MissingFields := "Please fill in all fields."
  const Mismatch := "Passwords do not match."
  const SignupFailed := "Signup failed"

  /** The fields of the JSON body the page reads from /register. */
  datatype SignupJson = SignupJson(detail: Option<string>)

  /** The checks made before any request, in their order: a missing field is
      reported before a mismatch. */
  function Problem(email: string, password: string, confirm: string): (r: Option<string>)
    ensures r.None? <==> email != "" && password != "" && confirm != "" && password == confirm
    ensures (email == "" || password == "" || confirm == "") ==> r == Some(MissingFields)
    ensures email != "" && password != "" && confirm != "" && password != confirm ==> r == Some(Mismatch)
  {
    if email == "" || password == "" || confirm == "" then Some(MissingFields)
    else if password != confirm then Some(Mismatch)
    else None
  }

  /** The form body: `email`, then `password`; the confirmation is not sent. */
  function Body(email: string, password: string): (q: Query)
    ensures Keys(q) == ["email", "password"]
    ensures Param(q, "email") == Some(email) && Param(q, "password") == Some(password)
  {
    [("email", email), ("password", password)]
  }

  /** What the request ends in: a message for the error line, or the account made. */
  datatype Outcome = Failed(message: string) | Registered

  /** The try block after the response: a non-ok response fails with the server's
      detail (or "Signup failed"), anything thrown fails with its own message, and
      an ok response registers. */
  function Classify(answer: Answer<SignupJson>): (o: Outcome)
    ensures o.Registered? <==> answer.Responded? && answer.ok
    ensures answer.Responded? && !answer.ok ==> o == Failed(DetailOr(answer.body.detail, SignupFailed)) && o.message != ""
    ensures answer.Threw? ==> o == Failed(answer.message)
  {
    match answer
    case Threw(message) => Failed(message)
    case Responded(ok, body) => if ok then Registered else Failed(DetailOr(body.detail, SignupFailed))
  }

  class SignupPage {
    var email: string
    var password: string
    var confirmPassword: string
    var error: string
    var loading: bool
    /** The path the router shows. */
    var location: string

    constructor (location: string)
      ensures email == "" && password == "" && confirmPassword == "" && error == "" && !loading
      ensures this.location == location
    {
      email := "";
      password := "";
      confirmPassword := "";
      error := "";
      loading := false;
      this.location := location;
    }

    /** handleSubmit up to the request: returns the form body it sends, or None when
        validation stopped it, in which case only the error line changed. */
    method BeginSubmit() returns (request: Option<Query>)
      modifies this`error, this`loading
      ensures request.None? <==> Problem(email, password, confirmPassword).Some?
      ensures request.None? ==> error == Problem(email, password, confirmPassword).value && loading == old(loading)
      ensures request.Some? ==> request.value == Body(email, password) && error == "" && loading
    {
      var problem := Problem(email, password, confirmPassword);
      if problem.Some? {
        error := problem.value;
        return None;
      }
      error := "";
      loading := true;
      request := Some(Body(email, password));
    }

    /** handleSubmit after the request settles: the catch sets the error line, the
        success path (after its alert) goes to "/login", and `finally` clears loading. */
    method FinishSubmit(answer: Answer<SignupJson>)
      modifies this`error, this`loading, this`location
      ensures !loading
      ensures match Classify(answer)
              case Failed(message) => error == message && location == old(location)
              case Registered => error == old(error) && location == "/login"
    {
      match Classify(answer) {
        case Failed(message) =>
          error := message;
        case Registered =>
          location := "/login";
      }
      loading := false;
    }

    /** The whole of handleSubmit, with answer standing for what the request would
        settle with. */
    method HandleSubmit(answer: Answer<SignupJson>) returns (request: Option<Query>)
      modifies this`error, this`loading, this`location
      ensures request.None? <==> Problem(old(email), old(password), old(confirmPassword)).Some?
      ensures request.None? ==>
        error == Problem(email, password, confirmPassword).value && loading == old(loading) && location == old(location)
      ensures request.Some? ==> request.value == Body(email, password) && !loading
      ensures request.Some? ==> match Classify(answer)
                                case Failed(message) => error == message && location == old(location)
                                case Registered => error == "" && location == "/login"
    {
      request := BeginSubmit();
      if request.Some? {
        FinishSubmit(answer);
      }
    }
  }
}
