/** `pages/ProjectDetailPage.tsx`: who the current user is with respect to a
    project (member, creator), the team list, the proposal form sent to the
    project's creator, the application form, and the creator's handling of
    applications. The page is shown for a project the store found; the
    server's answers are parameters. */
module ProjectDetailPage {
  import opened Wrappers
  import opened Seqs
  import opened Types
  import AppContext
  import Api

  /** A signed-in user whose id is in the project's member list. */
  function IsMember(currentUser: Option<User>, p: Project): (b: bool)
    ensures currentUser.None? ==> !b
    ensures currentUser.Some? ==> (b <==> exists i :: 0 <= i < |p.members| && p.members[i] == currentUser.value.id)
  {
    currentUser.Some? && currentUser.value.id in p.members
  }

  /** A signed-in user whose id is the project's creator id. */
  function IsCreator(currentUser: Option<User>, p: Project): (b: bool)
    ensures currentUser.None? ==> !b
    ensures currentUser.Some? ==> (b <==> currentUser.value.id == p.creatorId)
  {
    currentUser.Some? && currentUser.value.id == p.creatorId
  }

  /** Joining makes the user a member of that project; for a member, whose
      join button is disabled, joining would change nothing anyway. */
  lemma JoinMakesMember(ps: seq<Project>, projectId: int, u: User, k: nat)
    requires k < |ps| && ps[k].id == projectId
    ensures IsMember(Some(u), AppContext.AddMember(ps, projectId, u.id)[k])
    ensures IsMember(Some(u), ps[k]) ==> AppContext.AddMember(ps, projectId, u.id)[k] == ps[k]
  {
  }

  function UserIds(us: seq<User>): seq<int> {
    Map(us, (u: User) => u.id)
  }

  /** The team panel: each member id that is a cached user, as that user, in member order. */
  function TeamMembers(users: seq<User>, memberIds: seq<int>): (r: seq<User>)
    ensures |r| <= |memberIds|
    ensures forall u :: u in r ==> u in users && u.id in memberIds
  {
    if memberIds == [] then []
    else
      var rest := TeamMembers(users, memberIds[1..]);
      match AppContext.FindUser(users, memberIds[0])
      case Some(u) => [u] + rest
      case None => rest
  }

  /** Whether an id names a cached user. */
  function KnownId(users: seq<User>): int -> bool {
    (id: int) => AppContext.FindUser(users, id).Some?
  }

  /** The team's ids are the member ids that name a cached user, each as
      often as it is listed, in member order. */
  lemma {:induction false} TeamMembersExact(users: seq<User>, memberIds: seq<int>)
    ensures UserIds(TeamMembers(users, memberIds)) == Filter(memberIds, KnownId(users))
  {
    if memberIds != [] {
      var rest := TeamMembers(users, memberIds[1..]);
      var known := KnownId(users);
      TeamMembersExact(users, memberIds[1..]);
      assert Filter(memberIds, known) ==
             if known(memberIds[0]) then [memberIds[0]] + Filter(memberIds[1..], known) else Filter(memberIds[1..], known);
      match AppContext.FindUser(users, memberIds[0]) {
        case Some(u) =>
          assert UserIds([u] + rest) == [u.id] + UserIds(rest);
        case None =>
      }
    }
  }

  /** Each entry of the team is the user the lookup finds for its id. */
  lemma {:induction false} TeamMembersLookedUp(users: seq<User>, memberIds: seq<int>)
    ensures forall i :: 0 <= i < |TeamMembers(users, memberIds)| ==>
              AppContext.FindUser(users, TeamMembers(users, memberIds)[i].id) == Some(TeamMembers(users, memberIds)[i])
  {
    if memberIds != [] {
      TeamMembersLookedUp(users, memberIds[1..]);
    }
  }

  /** Every member id that names a known user puts that user on the team;
      when all ids are known the team is as long as the member list. */
  lemma {:induction false} TeamMembersComplete(users: seq<User>, memberIds: seq<int>)
    ensures forall i :: 0 <= i < |memberIds| && AppContext.FindUser(users, memberIds[i]).Some? ==>
              AppContext.FindUser(users, memberIds[i]).value in TeamMembers(users, memberIds)
    ensures (forall i :: 0 <= i < |memberIds| ==> AppContext.FindUser(users, memberIds[i]).Some?) ==>
              |TeamMembers(users, memberIds)| == |memberIds|
  {
    if memberIds != [] {
      TeamMembersComplete(users, memberIds[1..]);
      assert forall i :: 1 <= i < |memberIds| ==> memberIds[i] == memberIds[1..][i - 1];
    }
  }

  /** The team keeps the order of the member list. */
  lemma {:induction false} TeamMembersInOrder(users: seq<User>, memberIds: seq<int>)
    ensures IsSubsequence(UserIds(TeamMembers(users, memberIds)), memberIds)
  {
    if memberIds != [] {
      var rest := TeamMembers(users, memberIds[1..]);
      TeamMembersInOrder(users, memberIds[1..]);
      match AppContext.FindUser(users, memberIds[0]) {
        case Some(u) =>
          assert UserIds([u] + rest) == [u.id] + UserIds(rest);
        case None =>
          SubsequenceOfTail(UserIds(rest), memberIds);
      }
    }
  }

  /** The proposal form's fields. */
  datatype SwapForm = SwapForm(offeredSkill: string, requestedSkill: string, message: string)

  const EmptySwapForm := SwapForm("", "", "")
  const FillAllFields := "Please fill out all fields."
  const ProposalSent := "Proposal sent successfully!"

  /** The proposal the form submits: refused unless the creator is known and
      every field is filled in, and then always addressed to the creator. */
  function ProposalDraft(creator: Option<User>, f: SwapForm): (r: Result<SwapDraft, string>)
    ensures r.Failure? <==> creator.None? || f.offeredSkill == "" || f.requestedSkill == "" || f.message == ""
    ensures r.Failure? ==> r.error == FillAllFields
    ensures r.Success? ==> r.value.toUserId == creator.value.id && r.value.offeredSkill == f.offeredSkill &&
                           r.value.requestedSkill == f.requestedSkill && r.value.message == f.message
  {
    if creator.None? || f.offeredSkill == "" || f.requestedSkill == "" || f.message == "" then Failure(FillAllFields)
    else Success(SwapDraft(creator.value.id, f.offeredSkill, f.requestedSkill, f.message))
  }

  /** The proposal form is toggled by a button the creator cannot press and
      is never rendered for the creator. */
  function SwapFormVisible(showSwapForm: bool, currentUser: Option<User>, p: Project): (b: bool)
    ensures !showSwapForm ==> !b
    ensures IsCreator(currentUser, p) ==> !b
    ensures showSwapForm && currentUser.None? ==> b
    ensures currentUser.Some? ==> (b <==> showSwapForm && currentUser.value.id != p.creatorId)
  {
    showSwapForm && !IsCreator(currentUser, p)
  }

  /** The application form is for users who are neither creator nor member. */
  function ApplyFormVisible(currentUser: Option<User>, p: Project): (b: bool)
    ensures IsCreator(currentUser, p) || IsMember(currentUser, p) ==> !b
    ensures currentUser.None? ==> b
    ensures currentUser.Some? ==> (b <==> currentUser.value.id != p.creatorId && currentUser.value.id !in p.members)
  {
    !IsCreator(currentUser, p) && !IsMember(currentUser, p)
  }

  /** A proposal submitted from a visible form is never addressed to its
      sender, even though the store would accept a self-swap. */
  lemma NoSelfSwapFromThisPage(showSwapForm: bool, currentUser: Option<User>, users: seq<User>, p: Project, f: SwapForm)
    requires currentUser.Some? && SwapFormVisible(showSwapForm, currentUser, p)
    ensures var r := ProposalDraft(AppContext.FindUser(users, p.creatorId), f);
            r.Success? ==> r.value.toUserId != currentUser.value.id
  {
  }

  /** An application to the project (`ProjectApplication`). */
  datatype Application = Application(id: int, userId: int, message: string, status: SkillSwapStatus)

  /** Every application with that id becomes the server's updated record. */
  function ReplaceById(apps: seq<Application>, applicationId: int, updated: Application): (r: seq<Application>)
    ensures |r| == |apps|
    ensures forall i :: 0 <= i < |apps| && apps[i].id != applicationId ==> r[i] == apps[i]
    ensures forall i :: 0 <= i < |apps| && apps[i].id == applicationId ==> r[i] == updated
  {
    seq(|apps|, i requires 0 <= i < |apps| => if apps[i].id == applicationId then updated else apps[i])
  }

  /** Acting on an application that is not in the list changes nothing, and
      when the server keeps the id only its last answer is kept. */
  lemma ReplaceByIdLastWins(apps: seq<Application>, applicationId: int, first: Application, second: Application)
    requires first.id == applicationId
    ensures ReplaceById(ReplaceById(apps, applicationId, first), applicationId, second) == ReplaceById(apps, applicationId, second)
    ensures (forall i :: 0 <= i < |apps| ==> apps[i].id != applicationId) ==> ReplaceById(apps, applicationId, first) == apps
  {
  }

  /** The creator is offered accept and decline on pending applications only. */
  function ShowsDecisionButtons(a: Application): (b: bool)
    ensures a.status != Pending ==> !b
    ensures b <==> StatusName(a.status) == "pending"
  {
    a.status == Pending
  }

  const LoginToApply := "Please login to apply."
  const ApplicationSubmitted := "Application submitted!"
  const ApplyFailed := "Failed to apply"

  /** The page's own state. */
  class DetailPage {
    var showSwapForm: bool
    var swapData: SwapForm
    var formError: string
    var successMessage: string
    var applyMessage: string
    var applyStatus: string
    var applications: seq<Application>

    constructor ()
      ensures !showSwapForm && swapData == EmptySwapForm && formError == "" && successMessage == ""
      ensures applyMessage == "" && applyStatus == "" && applications == []
    {
      showSwapForm := false;
      swapData := EmptySwapForm;
      formError := "";
      successMessage := "";
      applyMessage := "";
      applyStatus := "";
      applications := [];
    }

    /** The join button: a project with id 0 is not joined. */
    method HandleJoin(store: AppContext.Store, project: Project, reply: Api.Reply<()>)
      modifies store
      ensures store.projects ==
                if project.id != 0 && AppContext.SignedIn(old(store.currentUser), old(store.token))
                then AppContext.AddMember(old(store.projects), project.id, old(store.currentUser).value.id)
                else old(store.projects)
      ensures store.users == old(store.users) && store.skillSwaps == old(store.skillSwaps)
      ensures store.currentUser == old(store.currentUser) && store.token == old(store.token) && store.error == old(store.error)
    {
      if project.id != 0 {
        store.JoinProject(project.id, reply);
      }
    }

    /** An incomplete form sets the error and sends nothing; a complete one
        is proposed to the creator, then the form is reset and closed and
        the success message set, whatever the store did with it. */
    method HandleProposeSwap(store: AppContext.Store, project: Project, remote: Result<SkillSwap, string>)
      modifies this, store
      ensures var draft := ProposalDraft(AppContext.FindUser(old(store.users), project.creatorId), old(swapData));
              if draft.Failure? then
                formError == FillAllFields && store.skillSwaps == old(store.skillSwaps) &&
                swapData == old(swapData) && showSwapForm == old(showSwapForm) && successMessage == old(successMessage)
              else
                formError == "" &&
                store.skillSwaps == AppContext.AfterProposal(old(store.skillSwaps), old(store.currentUser), old(store.token), draft.value, remote) &&
                swapData == EmptySwapForm && !showSwapForm && successMessage == ProposalSent
      ensures store.users == old(store.users) && store.projects == old(store.projects)
      ensures store.currentUser == old(store.currentUser) && store.token == old(store.token) && store.error == old(store.error)
      ensures applyMessage == old(applyMessage) && applyStatus == old(applyStatus) && applications == old(applications)
    {
      formError := "";
      var draft := ProposalDraft(store.FindUserById(project.creatorId), swapData);
      if draft.Failure? {
        formError := draft.error;
        return;
      }
      store.ProposeSkillSwap(draft.value, remote);
      successMessage := ProposalSent;
      swapData := EmptySwapForm;
      showSwapForm := false;
    }

    /** Applying needs a session and a project id; otherwise the status asks
        to log in. A failed application shows the error's message, or a
        generic one when it has none. */
    method HandleApply(store: AppContext.Store, project: Project, remote: Result<(), string>)
      modifies this
      ensures !AppContext.SignedIn(store.currentUser, store.token) || project.id == 0 ==>
                applyStatus == LoginToApply && applyMessage == old(applyMessage)
      ensures AppContext.SignedIn(store.currentUser, store.token) && project.id != 0 && remote.Success? ==>
                applyStatus == ApplicationSubmitted && applyMessage == ""
      ensures AppContext.SignedIn(store.currentUser, store.token) && project.id != 0 && remote.Failure? ==>
                applyStatus == (if remote.error == "" then ApplyFailed else remote.error) && applyMessage == old(applyMessage)
      ensures showSwapForm == old(showSwapForm) && swapData == old(swapData) && formError == old(formError)
      ensures successMessage == old(successMessage) && applications == old(applications)
    {
      if store.currentUser.None? || !HasText(store.token) || project.id == 0 {
        applyStatus := LoginToApply;
        return;
      }
      match remote {
        case Success(_) =>
          applyStatus := ApplicationSubmitted;
          applyMessage := "";
        case Failure(m) =>
          applyStatus := if m == "" then ApplyFailed else m;
      }
    }

    /** The creator's view loads the applications; a failed load empties
        the list and nobody else's view loads anything. */
    method LoadApplications(store: AppContext.Store, project: Project, remote: Result<seq<Application>, string>)
      modifies this
      ensures !(IsCreator(store.currentUser, project) && HasText(store.token) && project.id != 0) ==>
                applications == old(applications)
      ensures IsCreator(store.currentUser, project) && HasText(store.token) && project.id != 0 ==>
                applications == (if remote.Success? then remote.value else [])
      ensures showSwapForm == old(showSwapForm) && swapData == old(swapData) && formError == old(formError)
      ensures successMessage == old(successMessage) && applyMessage == old(applyMessage) && applyStatus == old(applyStatus)
    {
      if IsCreator(store.currentUser, project) && HasText(store.token) && project.id != 0 {
        match remote {
          case Success(apps) => applications := apps;
          case Failure(_) => applications := [];
        }
      }
    }

    /** Accepting or declining: with a token, the server's version of the
        application replaces the one with that id; on failure nothing
        changes. */
    method HandleApplicationAction(store: AppContext.Store, applicationId: int, status: Decision,
                                   remote: Result<Application, string>)
      modifies this
      ensures HasText(store.token) && remote.Success? ==>
                applications == ReplaceById(old(applications), applicationId, remote.value)
      ensures !HasText(store.token) || remote.Failure? ==> applications == old(applications)
      ensures showSwapForm == old(showSwapForm) && swapData == old(swapData) && formError == old(formError)
      ensures successMessage == old(successMessage) && applyMessage == old(applyMessage) && applyStatus == old(applyStatus)
    {
      if !HasText(store.token) {
        return;
      }
      match remote {
        case Success(updated) => applications := ReplaceById(applications, applicationId, updated);
        case Failure(_) =>
      }
    }
  }
}
