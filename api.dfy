/** The decisions `services/api.ts` takes around its `fetch` calls: a reply
    that is not ok becomes an error with a fixed message (register picks its
    message from the error body), and projects coming from the server get
    `creatorId` and `requiredSkills` filled in. The requests themselves (URLs,
    headers, request bodies) are not modelled; a call is given its reply. */
module Api {
  import opened Wrappers
  import opened Text
  import opened Types

  /** The JSON body of a reply that is not ok. */
  datatype ErrorBody = ErrorBody(error: Option<string>)

  /** What a call gets back from `fetch` and `response.json()`. */
  datatype Reply<T> =
    | Unreachable(message: string)                       // the request or the body threw
    | NotOk(status: nat, errorBody: Option<ErrorBody>)   // None: the body was not JSON
    | Ok(body: T)

  /** The body of a successful login or registration. */
  datatype AuthPayload = AuthPayload(user: User, token: string)

  /** The body of a successful availability toggle. */
  datatype Availability = Availability(available: bool)

  /** A project as the server sends it, with the optional fields of the
      `Project` interface of `services/api.ts`. */
  datatype ApiProject = ApiProject(
    id: int,
    title: string,
    description: string,
    requiredSkills: Option<seq<string>>,
    creatorId: Option<int>,
    members: seq<int>,
    creator_id: Option<int>,
    created_at: Option<string>,
    updated_at: Option<string>,
    creator: Option<User>)

  const LoginFailed := "Login failed"
  const FetchUsersFailed := "Failed to fetch users"
  const FetchUserFailed := "Failed to fetch user"
  const ToggleFailed := "Failed to toggle availability"
  const FetchProjectsFailed := "Failed to fetch projects"
  const FetchProjectFailed := "Failed to fetch project"
  const CreateProjectFailed := "Failed to create project"
  const JoinProjectFailed := "Failed to join project"
  const RegistrationFailed := "Registration failed"

  /** A reply that is not ok throws the call's fixed message; an ok reply
      gives its body. */
  function Checked<T>(reply: Reply<T>, notOkMessage: string): (r: Result<T, string>)
    ensures r.Success? <==> reply.Ok?
    ensures reply.Ok? ==> r.value == reply.body
    ensures reply.NotOk? ==> r.error == notOkMessage
    ensures reply.Unreachable? ==> r.error == reply.message
  {
    match reply
    case Unreachable(m) => Failure(m)
    case NotOk(_, _) => Failure(notOkMessage)
    case Ok(body) => Success(body)
  }

  /** The message register throws for a reply that is not ok: the body's
      `error` when it is a non-empty string, `Registration failed: <status>`
      when it is not, and `Registration failed` when the body is not JSON. */
  function RegisterMessage(status: nat, errorBody: Option<ErrorBody>): (m: string)
    ensures m != []
    ensures errorBody.Some? && errorBody.value.error.Some? && errorBody.value.error.value != [] ==>
              m == errorBody.value.error.value
    ensures errorBody.None? ==> m == RegistrationFailed
    ensures errorBody.Some? && (errorBody.value.error.None? || errorBody.value.error.value == []) ==>
              m == RegistrationFailed + ": " + NatToString(status)
  {
    var data := errorBody.GetOr(ErrorBody(Some(RegistrationFailed)));
    if data.error.Some? && data.error.value != [] then data.error.value
    else RegistrationFailed + ": " + NatToString(status)
  }

  function Register(reply: Reply<AuthPayload>): (r: Result<AuthPayload, string>)
    ensures reply.NotOk? ==> r == Failure(RegisterMessage(reply.status, reply.errorBody))
    ensures reply.Ok? <==> r.Success?
  {
    match reply
    case Unreachable(m) => Failure(m)
    case NotOk(status, body) => Failure(RegisterMessage(status, body))
    case Ok(body) => Success(body)
  }

  function Login(reply: Reply<AuthPayload>): (r: Result<AuthPayload, string>)
    ensures r.Success? <==> reply.Ok?
    ensures reply.Ok? ==> r.value == reply.body
    ensures reply.NotOk? ==> r == Failure(LoginFailed)
    ensures reply.Unreachable? ==> r == Failure(reply.message)
  {
    Checked(reply, LoginFailed)
  }

  function GetUsers(reply: Reply<seq<User>>): (r: Result<seq<User>, string>)
    ensures r.Success? <==> reply.Ok?
    ensures reply.Ok? ==> r.value == reply.body
    ensures reply.NotOk? ==> r == Failure(FetchUsersFailed)
    ensures reply.Unreachable? ==> r == Failure(reply.message)
  {
    Checked(reply, FetchUsersFailed)
  }

  function GetUserById(reply: Reply<User>): (r: Result<User, string>)
    ensures r.Success? <==> reply.Ok?
    ensures reply.Ok? ==> r.value == reply.body
    ensures reply.NotOk? ==> r == Failure(FetchUserFailed)
    ensures reply.Unreachable? ==> r == Failure(reply.message)
  {
    Checked(reply, FetchUserFailed)
  }

  function ToggleUserAvailability(reply: Reply<Availability>): (r: Result<Availability, string>)
    ensures r.Success? <==> reply.Ok?
    ensures reply.Ok? ==> r.value == reply.body
    ensures reply.NotOk? ==> r == Failure(ToggleFailed)
    ensures reply.Unreachable? ==> r == Failure(reply.message)
  {
    Checked(reply, ToggleFailed)
  }

  function JoinProject(reply: Reply<()>): (r: Result<(), string>)
    ensures r.Success? <==> reply.Ok?
    ensures reply.Ok? ==> r.value == reply.body
    ensures reply.NotOk? ==> r == Failure(JoinProjectFailed)
    ensures reply.Unreachable? ==> r == Failure(reply.message)
  {
    Checked(reply, JoinProjectFailed)
  }

  /** JavaScript's `a || b` on two optional numbers. */
  function OrNumber(a: Option<int>, b: Option<int>): (r: Option<int>)
    ensures IsTruthy(a) ==> r == a
    ensures !IsTruthy(a) ==> r == b
  {
    if IsTruthy(a) then a else b
  }

  /** A project from the server with its creator taken from `creator_id`
      when that is truthy, else from `creatorId`, and a missing skills list
      made empty; every other field as sent. */
  function NormaliseProject(p: ApiProject): (r: ApiProject)
    ensures IsTruthy(p.creator_id) ==> r.creatorId == p.creator_id
    ensures !IsTruthy(p.creator_id) ==> r.creatorId == p.creatorId
    ensures r.requiredSkills == Some(p.requiredSkills.GetOr([]))
    ensures r.(creatorId := p.creatorId, requiredSkills := p.requiredSkills) == p
  {
    p.(creatorId := OrNumber(p.creator_id, p.creatorId), requiredSkills := Some(p.requiredSkills.GetOr([])))
  }

  /** Normalising twice is normalising once. */
  lemma NormaliseIdempotent(p: ApiProject)
    ensures NormaliseProject(NormaliseProject(p)) == NormaliseProject(p)
  {
  }

  function NormaliseAll(ps: seq<ApiProject>): (r: seq<ApiProject>)
    ensures |r| == |ps|
    ensures forall i :: 0 <= i < |ps| ==> r[i] == NormaliseProject(ps[i])
  {
    seq(|ps|, i requires 0 <= i < |ps| => NormaliseProject(ps[i]))
  }

  lemma NormaliseAllIdempotent(ps: seq<ApiProject>)
    ensures NormaliseAll(NormaliseAll(ps)) == NormaliseAll(ps)
  {
  }

  function GetProjects(reply: Reply<seq<ApiProject>>): (r: Result<seq<ApiProject>, string>)
    ensures r.Success? <==> reply.Ok?
    ensures reply.Ok? ==> r.value == NormaliseAll(reply.body)
  {
    match Checked(reply, FetchProjectsFailed)
    case Success(ps) => Success(NormaliseAll(ps))
    case Failure(e) => Failure(e)
  }

  function GetProjectById(reply: Reply<ApiProject>): (r: Result<ApiProject, string>)
    ensures r.Success? <==> reply.Ok?
    ensures reply.Ok? ==> r.value == NormaliseProject(reply.body)
  {
    match Checked(reply, FetchProjectFailed)
    case Success(p) => Success(NormaliseProject(p))
    case Failure(e) => Failure(e)
  }

  function CreateProject(reply: Reply<ApiProject>): (r: Result<ApiProject, string>)
    ensures r.Success? <==> reply.Ok?
    ensures reply.Ok? ==> r.value == NormaliseProject(reply.body)
  {
    match Checked(reply, CreateProjectFailed)
    case Success(p) => Success(NormaliseProject(p))
    case Failure(e) => Failure(e)
  }

  /** Every call turns a reply that is not ok into its own error, never into data. */
  lemma NotOkIsError(status: nat, body: Option<ErrorBody>)
    ensures Register(NotOk(status, body)) == Failure(RegisterMessage(status, body))
    ensures Login(NotOk(status, body)) == Failure(LoginFailed)
    ensures GetUsers(NotOk(status, body)) == Failure(FetchUsersFailed)
    ensures GetUserById(NotOk(status, body)) == Failure(FetchUserFailed)
    ensures ToggleUserAvailability(NotOk(status, body)) == Failure(ToggleFailed)
    ensures GetProjects(NotOk(status, body)) == Failure(FetchProjectsFailed)
    ensures GetProjectById(NotOk(status, body)) == Failure(FetchProjectFailed)
    ensures CreateProject(NotOk(status, body)) == Failure(CreateProjectFailed)
    ensures JoinProject(NotOk(status, body)) == Failure(JoinProjectFailed)
  {
  }

  /** The three normalising calls apply one and the same rule: every project
      of a fetched list is the project fetching or creating it alone gives. */
  lemma SameNormalisation(ps: seq<ApiProject>)
    ensures GetProjects(Ok(ps)).Success? && |GetProjects(Ok(ps)).value| == |ps|
    ensures forall i :: 0 <= i < |ps| ==>
              GetProjects(Ok(ps)).value[i] == GetProjectById(Ok(ps[i])).value &&
              GetProjects(Ok(ps)).value[i] == CreateProject(Ok(ps[i])).value
  {
  }
}
