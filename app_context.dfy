/** The client-side store of `context/AppContext.tsx`: the cached users,
    projects and skill swaps, the session (current user and token) and the
    last error. Each operation tries the server first and, where the source
    has one, falls back to a local update when the call fails. The server's
    answer is a parameter of each method. The per-element updates the store
    applies are pure functions with their properties proved as lemmas. */
module AppContext {
  import opened Wrappers
  import opened Seqs
  import opened Types
  import opened Constants
  import Api

  const InvalidLogin := "Invalid email or password."
  const SignupFailed := "Signup failed"

  // ------------------------------------------------------------ lookups

  /** The first cached user with this id. */
  function FindUser(users: seq<User>, id: int): (r: Option<User>)
    ensures r.Some? ==> r.value in users && r.value.id == id
    ensures r.None? <==> forall i :: 0 <= i < |users| ==> users[i].id != id
  {
    First(users, (u: User) => u.id == id)
  }

  /** The first cached project with this id. */
  function FindProject(projects: seq<Project>, id: int): (r: Option<Project>)
    ensures r.Some? ==> r.value in projects && r.value.id == id
    ensures r.None? <==> forall i :: 0 <= i < |projects| ==> projects[i].id != id
  {
    First(projects, (p: Project) => p.id == id)
  }

  /** The first cached user with this e-mail, the login fallback. */
  function FindByEmail(users: seq<User>, email: string): (r: Option<User>)
    ensures r.Some? ==> r.value in users && r.value.email == email
    ensures r.None? <==> forall i :: 0 <= i < |users| ==> users[i].email != email
    ensures r.Some? ==> exists i :: 0 <= i < |users| && users[i] == r.value &&
                                    forall j :: 0 <= j < i ==> users[j].email != email
  {
    First(users, (u: User) => u.email == email)
  }

  predicate DistinctEmails(users: seq<User>) {
    forall i, j :: 0 <= i < |users| && 0 <= j < |users| && users[i].email == users[j].email ==> i == j
  }

  /** With distinct e-mails the login fallback finds the one user with that
      address, whatever password was typed. */
  lemma FindByEmailUnique(users: seq<User>, k: nat)
    requires DistinctEmails(users) && k < |users|
    ensures FindByEmail(users, users[k].email) == Some(users[k])
  {
    var r := FindByEmail(users, users[k].email);
    var i :| 0 <= i < |users| && users[i] == r.value && forall j :: 0 <= j < i ==> users[j].email != users[k].email;
  }

  // ------------------------------------------------------- fallback ids

  /** The largest of the numbers, or 0 when there are none or all are below 0. */
  function MaxOrZero(xs: seq<int>): (m: int)
    ensures m >= 0
    ensures forall i :: 0 <= i < |xs| ==> xs[i] <= m
    ensures m == 0 || exists i :: 0 <= i < |xs| && xs[i] == m
  {
    if xs == [] then 0
    else
      var m := MaxOrZero(xs[1..]);
      assert forall i :: 1 <= i < |xs| ==> xs[i] == xs[1..][i - 1];
      if xs[0] > m then xs[0] else m
  }

  /** The id a locally created record gets: one more than the largest id, or 1 when there is none above 0. */
  function NextId(ids: seq<int>): (n: int)
    ensures n >= 1
    ensures forall i :: 0 <= i < |ids| ==> ids[i] < n
  {
    MaxOrZero(ids) + 1
  }

  function ProjectIds(ps: seq<Project>): seq<int> {
    Map(ps, (p: Project) => p.id)
  }

  function SwapIds(ss: seq<SkillSwap>): seq<int> {
    Map(ss, (s: SkillSwap) => s.id)
  }

  predicate Distinct(ids: seq<int>) {
    forall i, j :: 0 <= i < j < |ids| ==> ids[i] != ids[j]
  }

  /** Appending the next id keeps a list of ids duplicate-free. */
  lemma NextIdKeepsDistinct(ids: seq<int>)
    requires Distinct(ids)
    ensures Distinct(ids + [NextId(ids)])
  {
  }

  // ------------------------------------------------------------ joining

  function WithMember(p: Project, projectId: int, uid: int): Project {
    if p.id == projectId && uid !in p.members then p.(members := p.members + [uid]) else p
  }

  /** Joining: the project with that id gets the user appended to its
      members unless the user is already one; every other project is kept. */
  function AddMember(ps: seq<Project>, projectId: int, uid: int): (r: seq<Project>)
    ensures |r| == |ps|
    ensures forall i :: 0 <= i < |ps| && ps[i].id != projectId ==> r[i] == ps[i]
    ensures forall i :: 0 <= i < |ps| && ps[i].id == projectId ==>
              uid in r[i].members && r[i].(members := ps[i].members) == ps[i] &&
              (r[i].members == ps[i].members || r[i].members == ps[i].members + [uid])
  {
    seq(|ps|, i requires 0 <= i < |ps| => WithMember(ps[i], projectId, uid))
  }

  /** Joining twice is joining once. */
  lemma AddMemberIdempotent(ps: seq<Project>, projectId: int, uid: int)
    ensures AddMember(AddMember(ps, projectId, uid), projectId, uid) == AddMember(ps, projectId, uid)
  {
  }

  /** A user who was not yet a member occurs exactly once after joining, and
      an existing member is not added again. */
  lemma AddMemberOccurrences(ps: seq<Project>, projectId: int, uid: int, k: nat)
    requires k < |ps| && ps[k].id == projectId
    ensures multiset(AddMember(ps, projectId, uid)[k].members)[uid] ==
            if uid in ps[k].members then multiset(ps[k].members)[uid] else 1
  {
    if uid !in ps[k].members {
      assert multiset(ps[k].members)[uid] == 0;
    }
  }

  // ------------------------------------------------------ availability

  function Flipped(u: User): (r: User)
    ensures r.available == !u.available && r.(available := u.available) == u
  {
    u.(available := !u.available)
  }

  /** Every cached user with the updated user's id becomes the updated user. */
  function ReplaceUser(us: seq<User>, updated: User): (r: seq<User>)
    ensures |r| == |us|
    ensures forall i :: 0 <= i < |us| ==> r[i] == if us[i].id == updated.id then updated else us[i]
  {
    seq(|us|, i requires 0 <= i < |us| => if us[i].id == updated.id then updated else us[i])
  }

  /** Every cached copy of the current user equals the session's copy. */
  predicate InSync(us: seq<User>, u: User) {
    forall i :: 0 <= i < |us| && us[i].id == u.id ==> us[i] == u
  }

  lemma ReplaceUserInSync(us: seq<User>, u: User)
    ensures InSync(ReplaceUser(us, u), u)
  {
  }

  /** Toggling twice restores the session user and, while the cache is in
      sync with it, the cached users. */
  lemma ToggleTwice(us: seq<User>, u: User)
    requires InSync(us, u)
    ensures Flipped(Flipped(u)) == u
    ensures ReplaceUser(ReplaceUser(us, Flipped(u)), Flipped(Flipped(u))) == us
  {
    assert Flipped(Flipped(u)) == u;
  }

  // ------------------------------------------------------------ swaps

  /** Every swap with that id takes the new status; nothing else changes. */
  function WithStatus(ss: seq<SkillSwap>, swapId: int, status: SkillSwapStatus): (r: seq<SkillSwap>)
    ensures |r| == |ss|
    ensures forall i :: 0 <= i < |ss| ==> r[i].(status := ss[i].status) == ss[i]
    ensures forall i :: 0 <= i < |ss| ==> r[i].status == if ss[i].id == swapId then status else ss[i].status
  {
    seq(|ss|, i requires 0 <= i < |ss| => if ss[i].id == swapId then ss[i].(status := status) else ss[i])
  }

  /** Setting a status again changes nothing, and the last status set wins:
      the store keeps no memory of earlier decisions. */
  lemma WithStatusLastWins(ss: seq<SkillSwap>, swapId: int, first: SkillSwapStatus, second: SkillSwapStatus)
    ensures WithStatus(WithStatus(ss, swapId, first), swapId, second) == WithStatus(ss, swapId, second)
  {
  }

  /** The swap a failed proposal records locally. */
  function FallbackSwap(d: SwapDraft, id: int, fromUserId: int): (s: SkillSwap)
    ensures s.id == id && s.fromUserId == fromUserId && s.status == Pending
    ensures s.toUserId == d.toUserId && s.offeredSkill == d.offeredSkill &&
            s.requestedSkill == d.requestedSkill && s.message == d.message
  {
    SkillSwap(id, fromUserId, d.toUserId, d.offeredSkill, d.requestedSkill, Pending, d.message)
  }

  /** A locally recorded proposal takes an id above every existing one, so
      swap ids stay distinct. */
  lemma FallbackSwapFresh(ss: seq<SkillSwap>, d: SwapDraft, uid: int)
    requires Distinct(SwapIds(ss))
    ensures var s := FallbackSwap(d, NextId(SwapIds(ss)), uid);
            (forall i :: 0 <= i < |ss| ==> ss[i].id < s.id) && Distinct(SwapIds(ss + [s]))
  {
    var s := FallbackSwap(d, NextId(SwapIds(ss)), uid);
    NextIdKeepsDistinct(SwapIds(ss));
    assert SwapIds(ss + [s]) == SwapIds(ss) + [s.id];
  }

  // --------------------------------------------------------- projects

  /** The project a failed creation records locally. */
  function FallbackProject(ps: seq<Project>, title: string, description: string,
                           requiredSkills: seq<string>, uid: int): (p: Project)
    ensures forall i :: 0 <= i < |ps| ==> ps[i].id < p.id
    ensures p.creatorId == uid && p.members == [uid]
    ensures p.title == title && p.description == description && p.requiredSkills == requiredSkills
  {
    Project(NextId(ProjectIds(ps)), title, description, requiredSkills, uid, [uid])
  }

  lemma FallbackProjectFresh(ps: seq<Project>, title: string, description: string,
                             requiredSkills: seq<string>, uid: int)
    requires Distinct(ProjectIds(ps))
    ensures Distinct(ProjectIds(ps + [FallbackProject(ps, title, description, requiredSkills, uid)]))
  {
    var p := FallbackProject(ps, title, description, requiredSkills, uid);
    NextIdKeepsDistinct(ProjectIds(ps));
    assert ProjectIds(ps + [p]) == ProjectIds(ps) + [p.id];
  }

  /** A project the server created, as the store keeps it: the creator is
      the first truthy of `creatorId`, `creator_id` and the current user's id,
      and the skills are the server's, or the submitted ones when it sent none. */
  function ServerProject(np: Api.ApiProject, requiredSkills: seq<string>, uid: int): (p: Project)
    ensures IsTruthy(np.creatorId) ==> p.creatorId == np.creatorId.value
    ensures !IsTruthy(np.creatorId) && IsTruthy(np.creator_id) ==> p.creatorId == np.creator_id.value
    ensures !IsTruthy(np.creatorId) && !IsTruthy(np.creator_id) ==> p.creatorId == uid
    ensures p.requiredSkills == np.requiredSkills.GetOr(requiredSkills)
    ensures p.id == np.id && p.title == np.title && p.description == np.description && p.members == np.members
  {
    var creator := Api.OrNumber(Api.OrNumber(np.creatorId, np.creator_id), Some(uid));
    Project(np.id, np.title, np.description, np.requiredSkills.GetOr(requiredSkills), creator.GetOr(uid), np.members)
  }

  /** After the API layer has normalised a created project its skills are
      always present, so the store's fallback to the submitted skills never
      applies: a server reply without skills leaves the project with none. */
  lemma ServerSkillsNeverFallBack(np: Api.ApiProject, requiredSkills: seq<string>, uid: int)
    ensures ServerProject(Api.NormaliseProject(np), requiredSkills, uid).requiredSkills == np.requiredSkills.GetOr([])
  {
  }

  /** A project from `getProjects` as the store holds it: the cast keeps
      the normalised fields; a missing creator id reads as 0. */
  function AsStoreProject(p: Api.ApiProject): (r: Project)
    ensures r.id == p.id && r.title == p.title && r.description == p.description && r.members == p.members
    ensures r.requiredSkills == p.requiredSkills.GetOr([]) && r.creatorId == p.creatorId.GetOr(0)
  {
    Project(p.id, p.title, p.description, p.requiredSkills.GetOr([]), p.creatorId.GetOr(0), p.members)
  }

  function AsStoreProjects(ps: seq<Api.ApiProject>): (r: seq<Project>)
    ensures |r| == |ps| && forall i :: 0 <= i < |ps| ==> r[i] == AsStoreProject(ps[i])
  {
    seq(|ps|, i requires 0 <= i < |ps| => AsStoreProject(ps[i]))
  }

  // ------------------------------------------------------------ login

  /** The cache after a login: unchanged when a user with that id is
      already cached, else with the user appended. */
  function WithUser(us: seq<User>, user: User): (r: seq<User>)
    ensures FindUser(us, user.id).Some? ==> r == us
    ensures FindUser(us, user.id).None? ==> r == us + [user]
    ensures FindUser(r, user.id).Some?
  {
    if FindUser(us, user.id).None? then
      assert (us + [user])[|us|].id == user.id;
      us + [user]
    else us
  }

  // ------------------------------------------------------ outcomes

  /** Whether `login` answers true: the server accepted the credentials, or
      some cached user has the e-mail. */
  function LoginSucceeds(users: seq<User>, email: string, reply: Api.Reply<Api.AuthPayload>): (b: bool)
    ensures reply.Ok? ==> b
    ensures !reply.Ok? ==> (b <==> exists i :: 0 <= i < |users| && users[i].email == email)
  {
    Api.Login(reply).Success? || FindByEmail(users, email).Some?
  }

  /** Signed in with a non-empty token: the guard of every write to the server. */
  function SignedIn(currentUser: Option<User>, token: Option<string>): (b: bool)
    ensures currentUser.None? || token.None? || token == Some("") ==> !b
    ensures currentUser.Some? && token.Some? && |token.value| > 0 ==> b
  {
    currentUser.Some? && HasText(token)
  }

  /** The swap list after `proposeSkillSwap`: unchanged when signed out,
      otherwise exactly one swap longer, the new swap being the server's or
      the local fallback. */
  function AfterProposal(ss: seq<SkillSwap>, currentUser: Option<User>, token: Option<string>,
                         d: SwapDraft, remote: Result<SkillSwap, string>): (r: seq<SkillSwap>)
    ensures !SignedIn(currentUser, token) ==> r == ss
    ensures SignedIn(currentUser, token) ==> |r| == |ss| + 1 && r[..|ss|] == ss
    ensures SignedIn(currentUser, token) && remote.Success? ==> r[|ss|] == remote.value
    ensures SignedIn(currentUser, token) && remote.Failure? ==>
              r[|ss|] == FallbackSwap(d, NextId(SwapIds(ss)), currentUser.value.id)
  {
    if !SignedIn(currentUser, token) then ss
    else match remote
      case Success(s) => ss + [s]
      case Failure(_) => ss + [FallbackSwap(d, NextId(SwapIds(ss)), currentUser.value.id)]
  }

  /** The project list after `createProject`: unchanged when signed out,
      otherwise exactly one project longer, the new project being the
      server's with its creator filled in or the local fallback. */
  function AfterCreate(ps: seq<Project>, currentUser: Option<User>, token: Option<string>,
                       title: string, description: string, requiredSkills: seq<string>,
                       reply: Api.Reply<Api.ApiProject>): (r: seq<Project>)
    ensures !SignedIn(currentUser, token) ==> r == ps
    ensures SignedIn(currentUser, token) ==> |r| == |ps| + 1 && r[..|ps|] == ps
    ensures SignedIn(currentUser, token) && Api.CreateProject(reply).Success? ==>
              r[|ps|] == ServerProject(Api.CreateProject(reply).value, requiredSkills, currentUser.value.id)
    ensures SignedIn(currentUser, token) && Api.CreateProject(reply).Failure? ==>
              r[|ps|] == FallbackProject(ps, title, description, requiredSkills, currentUser.value.id)
  {
    if !SignedIn(currentUser, token) then ps
    else match Api.CreateProject(reply)
      case Success(np) => ps + [ServerProject(np, requiredSkills, currentUser.value.id)]
      case Failure(_) => ps + [FallbackProject(ps, title, description, requiredSkills, currentUser.value.id)]
  }

  /** A local proposal never reuses an id, so swap ids stay distinct across
      any proposal made while the server is unreachable. */
  lemma AfterProposalKeepsDistinct(ss: seq<SkillSwap>, currentUser: Option<User>, token: Option<string>, d: SwapDraft, m: string)
    requires Distinct(SwapIds(ss))
    ensures Distinct(SwapIds(AfterProposal(ss, currentUser, token, d, Failure(m))))
  {
    if SignedIn(currentUser, token) {
      FallbackSwapFresh(ss, d, currentUser.value.id);
    }
  }

  /** The same for a project created while the server is unreachable. */
  lemma AfterCreateKeepsDistinct(ps: seq<Project>, currentUser: Option<User>, token: Option<string>,
                                 title: string, description: string, requiredSkills: seq<string>,
                                 reply: Api.Reply<Api.ApiProject>)
    requires Distinct(ProjectIds(ps)) && Api.CreateProject(reply).Failure?
    ensures Distinct(ProjectIds(AfterCreate(ps, currentUser, token, title, description, requiredSkills, reply)))
  {
    if SignedIn(currentUser, token) {
      FallbackProjectFresh(ps, title, description, requiredSkills, currentUser.value.id);
    }
  }

  // ------------------------------------------------------------- store

  class Store {
    var users: seq<User>
    var projects: seq<Project>
    var skillSwaps: seq<SkillSwap>
    var currentUser: Option<User>
    var token: Option<string>
    var error: Option<string>

    /** The provider's initial state: the seed lists, nobody logged in, and
        whatever token local storage holds. */
    constructor (storedToken: Option<string>)
      ensures users == MockUsers && projects == MockProjects && skillSwaps == MockSkillSwaps
      ensures currentUser == None && token == storedToken && error == None
    {
      users := MockUsers;
      projects := MockProjects;
      skillSwaps := MockSkillSwaps;
      currentUser := None;
      token := storedToken;
      error := None;
    }

    function FindUserById(id: int): (r: Option<User>)
      reads this
      ensures r.Some? ==> r.value in users && r.value.id == id
      ensures r.None? <==> forall i :: 0 <= i < |users| ==> users[i].id != id
    {
      FindUser(users, id)
    }

    function FindProjectById(id: int): (r: Option<Project>)
      reads this
      ensures r.Some? ==> r.value in projects && r.value.id == id
      ensures r.None? <==> forall i :: 0 <= i < |projects| ==> projects[i].id != id
    {
      FindProject(projects, id)
    }

    /** The initial refresh: each list comes from the server, or is the seed
        list when that call fails. */
    method FetchData(usersReply: Api.Reply<seq<User>>, projectsReply: Api.Reply<seq<Api.ApiProject>>)
      modifies this
      ensures users == match Api.GetUsers(usersReply)
                       case Success(us) => us
                       case Failure(_) => MockUsers
      ensures projects == match Api.GetProjects(projectsReply)
                          case Success(ps) => AsStoreProjects(ps)
                          case Failure(_) => MockProjects
      ensures skillSwaps == old(skillSwaps) && currentUser == old(currentUser)
      ensures token == old(token) && error == old(error)
    {
      match Api.GetUsers(usersReply) {
        case Success(us) => users := us;
        case Failure(_) => users := MockUsers;
      }
      match Api.GetProjects(projectsReply) {
        case Success(ps) => projects := AsStoreProjects(ps);
        case Failure(_) => projects := MockProjects;
      }
    }

    /** Without a token nothing happens; otherwise the swaps come from the
        server, or are the seed swaps when that call fails. */
    method FetchSkillSwaps(remote: Result<seq<SkillSwap>, string>)
      modifies this
      ensures !HasText(old(token)) ==> skillSwaps == old(skillSwaps)
      ensures HasText(old(token)) && remote.Success? ==> skillSwaps == remote.value
      ensures HasText(old(token)) && remote.Failure? ==> skillSwaps == MockSkillSwaps
      ensures users == old(users) && projects == old(projects) && currentUser == old(currentUser)
      ensures token == old(token) && error == old(error)
    {
      if !HasText(token) {
        return;
      }
      match remote {
        case Success(ss) => skillSwaps := ss;
        case Failure(_) => skillSwaps := MockSkillSwaps;
      }
    }

    /** `refreshData`: the initial refresh again, and the swaps when there is
        a token. */
    method RefreshData(usersReply: Api.Reply<seq<User>>, projectsReply: Api.Reply<seq<Api.ApiProject>>,
                       swapsRemote: Result<seq<SkillSwap>, string>)
      modifies this
      ensures users == (if Api.GetUsers(usersReply).Success? then Api.GetUsers(usersReply).value else MockUsers)
      ensures projects == (if Api.GetProjects(projectsReply).Success? then AsStoreProjects(Api.GetProjects(projectsReply).value)
                           else MockProjects)
      ensures !HasText(old(token)) ==> skillSwaps == old(skillSwaps)
      ensures HasText(old(token)) ==> skillSwaps == (if swapsRemote.Success? then swapsRemote.value else MockSkillSwaps)
      ensures currentUser == old(currentUser) && token == old(token) && error == old(error)
    {
      FetchData(usersReply, projectsReply);
      if HasText(token) {
        FetchSkillSwaps(swapsRemote);
      }
    }

    /** On a successful login the session is the server's user and token and
        the user is cached unless a user with that id already is; otherwise
        the first cached user with that e-mail is signed in without a token
        and without looking at the password, and when there is none the error
        is set and the result is false. */
    method Login(email: string, password: string, reply: Api.Reply<Api.AuthPayload>) returns (ok: bool)
      modifies this
      ensures ok == LoginSucceeds(old(users), email, reply)
      ensures Api.Login(reply).Success? ==>
                var a := Api.Login(reply).value;
                ok && currentUser == Some(a.user) && token == Some(a.token) &&
                users == WithUser(old(users), a.user) && error == old(error)
      ensures Api.Login(reply).Failure? ==> users == old(users) && token == old(token)
      ensures Api.Login(reply).Failure? && FindByEmail(old(users), email).Some? ==>
                ok && currentUser == FindByEmail(old(users), email) && error == old(error)
      ensures Api.Login(reply).Failure? && FindByEmail(old(users), email).None? ==>
                !ok && currentUser == old(currentUser) && error == Some(InvalidLogin)
      ensures projects == old(projects) && skillSwaps == old(skillSwaps)
    {
      match Api.Login(reply) {
        case Success(a) =>
          currentUser := Some(a.user);
          token := Some(a.token);
          users := WithUser(users, a.user);
          ok := true;
        case Failure(_) =>
          var user := FindByEmail(users, email);
          if user.Some? {
            currentUser := user;
            ok := true;
          } else {
            error := Some(InvalidLogin);
            ok := false;
          }
      }
    }

    method Logout()
      modifies this
      ensures currentUser == None && token == None
      ensures users == old(users) && projects == old(projects) && skillSwaps == old(skillSwaps)
      ensures error == old(error)
    {
      currentUser := None;
      token := None;
    }

    /** Registration: the error is cleared first; on success the session is
        the new user and token and the user is appended to the cache (with
        no duplicate check); on failure the error is the call's message, or
        `Signup failed` when that is empty. */
    method Signup(reply: Api.Reply<Api.AuthPayload>) returns (ok: bool)
      modifies this
      ensures ok <==> Api.Register(reply).Success?
      ensures ok ==> var a := Api.Register(reply).value;
                     currentUser == Some(a.user) && token == Some(a.token) &&
                     users == old(users) + [a.user] && error == None
      ensures !ok ==> var m := Api.Register(reply).error;
                      error == Some(if m == [] then SignupFailed else m) &&
                      currentUser == old(currentUser) && token == old(token) && users == old(users)
      ensures projects == old(projects) && skillSwaps == old(skillSwaps)
    {
      error := None;
      match Api.Register(reply) {
        case Success(a) =>
          currentUser := Some(a.user);
          token := Some(a.token);
          users := users + [a.user];
          ok := true;
        case Failure(m) =>
          error := Some(if m == [] then SignupFailed else m);
          ok := false;
      }
    }

    method ClearError()
      modifies this
      ensures error == None
      ensures users == old(users) && projects == old(projects) && skillSwaps == old(skillSwaps)
      ensures currentUser == old(currentUser) && token == old(token)
    {
      error := None;
    }

    /** Signed in, the current user is added to the project's members when
        not already there, whether or not the server accepted the join. */
    method JoinProject(projectId: int, reply: Api.Reply<()>)
      modifies this
      ensures projects == if SignedIn(old(currentUser), old(token)) then AddMember(old(projects), projectId, old(currentUser).value.id)
                          else old(projects)
      ensures users == old(users) && skillSwaps == old(skillSwaps) && currentUser == old(currentUser)
      ensures token == old(token) && error == old(error)
    {
      if currentUser.None? || !HasText(token) {
        return;
      }
      var uid := currentUser.value.id;
      match Api.JoinProject(reply) {
        case Success(_) => projects := AddMember(projects, projectId, uid);
        case Failure(_) => projects := AddMember(projects, projectId, uid);
      }
    }

    /** Signed out: false and nothing changes. Signed in: true, and one
        project is appended, the server's (with its creator and skills
        filled in) or, when the call fails, a local one with a fresh id,
        the current user as creator and only member. */
    method CreateProject(title: string, description: string, requiredSkills: seq<string>,
                         reply: Api.Reply<Api.ApiProject>) returns (ok: bool)
      modifies this
      ensures ok == SignedIn(old(currentUser), old(token))
      ensures projects == AfterCreate(old(projects), old(currentUser), old(token), title, description, requiredSkills, reply)
      ensures users == old(users) && skillSwaps == old(skillSwaps) && currentUser == old(currentUser)
      ensures token == old(token) && error == old(error)
    {
      if currentUser.None? || !HasText(token) {
        return false;
      }
      var uid := currentUser.value.id;
      match Api.CreateProject(reply) {
        case Success(np) =>
          projects := projects + [ServerProject(np, requiredSkills, uid)];
        case Failure(_) =>
          projects := projects + [FallbackProject(projects, title, description, requiredSkills, uid)];
      }
      ok := true;
    }

    /** With a current user (a token is not needed), its availability flips
        in the session and in every cached copy, whatever the server says. */
    method ToggleAvailability(reply: Api.Reply<Api.Availability>)
      modifies this
      ensures old(currentUser).None? ==> currentUser == None && users == old(users)
      ensures old(currentUser).Some? ==>
                currentUser == Some(Flipped(old(currentUser).value)) &&
                users == ReplaceUser(old(users), Flipped(old(currentUser).value))
      ensures projects == old(projects) && skillSwaps == old(skillSwaps)
      ensures token == old(token) && error == old(error)
    {
      if currentUser.None? {
        return;
      }
      var updated := Flipped(currentUser.value);
      if HasText(token) && Api.ToggleUserAvailability(reply).Failure? {
        currentUser := Some(updated);
        users := ReplaceUser(users, updated);
      } else {
        currentUser := Some(updated);
        users := ReplaceUser(users, updated);
      }
    }

    /** With a token, the swaps with that id take the new status, whatever
        their current status and whether or not the server accepted it. */
    method UpdateSkillSwapStatus(swapId: int, status: Decision, remoteOk: bool)
      modifies this
      ensures skillSwaps == if HasText(old(token)) then WithStatus(old(skillSwaps), swapId, status)
                            else old(skillSwaps)
      ensures users == old(users) && projects == old(projects) && currentUser == old(currentUser)
      ensures token == old(token) && error == old(error)
    {
      if !HasText(token) {
        return;
      }
      if remoteOk {
        skillSwaps := WithStatus(skillSwaps, swapId, status);
      } else {
        skillSwaps := WithStatus(skillSwaps, swapId, status);
      }
    }

    /** Signed in, one swap is appended: the server's, or when the call fails
        a pending one from the current user with the next free id. The
        recipient is not checked against the proposer. */
    method ProposeSkillSwap(draft: SwapDraft, remote: Result<SkillSwap, string>)
      modifies this
      ensures skillSwaps == AfterProposal(old(skillSwaps), old(currentUser), old(token), draft, remote)
      ensures users == old(users) && projects == old(projects) && currentUser == old(currentUser)
      ensures token == old(token) && error == old(error)
    {
      if currentUser.None? || !HasText(token) {
        return;
      }
      match remote {
        case Success(s) => skillSwaps := skillSwaps + [s];
        case Failure(_) =>
          var s := FallbackSwap(draft, NextId(SwapIds(skillSwaps)), currentUser.value.id);
          skillSwaps := skillSwaps + [s];
      }
    }
  }

  // ------------------------------------------------------- seed state

  /** The first local proposal from the seed state gets id 3 and the first
      local project id 4. */
  lemma SeedNextIds()
    ensures NextId(SwapIds(MockSkillSwaps)) == 3
    ensures NextId(ProjectIds(MockProjects)) == 4
  {
    assert SwapIds(MockSkillSwaps) == [1, 2];
    assert ProjectIds(MockProjects) == [1, 2, 3];
    assert MaxOrZero([2]) == 2;
    assert MaxOrZero([3]) == 3;
    assert MaxOrZero([2, 3]) == 3;
  }

  /** The e-mail fallback of login matches at most one seed user. */
  lemma SeedUsersEmailFallback(k: nat)
    requires k < |MockUsers|
    ensures FindByEmail(MockUsers, MockUsers[k].email) == Some(MockUsers[k])
  {
    SeedUsersDistinctEmails();
    FindByEmailUnique(MockUsers, k);
  }
}
