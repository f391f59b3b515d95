/** `pages/DashboardPage.tsx`: the current user's projects, the users they
    can propose a swap to, and the proposal form. */
module DashboardPage {
  import opened Wrappers
  import opened Seqs
  import opened Text
  import opened Types
  import AppContext

  /** The projects the user created or is a member of, in store order. */
  function UserProjects(ps: seq<Project>, uid: int): (r: seq<Project>)
    ensures forall p :: p in r <==> p in ps && (p.creatorId == uid || uid in p.members)
    ensures forall p: Project :: p.creatorId == uid || uid in p.members ==> multiset(r)[p] == multiset(ps)[p]
    ensures IsSubsequence(r, ps)
  {
    Filter(ps, (p: Project) => p.creatorId == uid || uid in p.members)
  }

  /** A project the user joins, or creates while the server is unreachable,
      is listed among their projects. */
  lemma JoinedAndCreatedAreListed(ps: seq<Project>, projectId: int, uid: int, k: nat,
                                  title: string, description: string, skills: seq<string>)
    requires k < |ps| && ps[k].id == projectId
    ensures AppContext.AddMember(ps, projectId, uid)[k] in UserProjects(AppContext.AddMember(ps, projectId, uid), uid)
    ensures AppContext.FallbackProject(ps, title, description, skills, uid) in
            UserProjects(ps + [AppContext.FallbackProject(ps, title, description, skills, uid)], uid)
  {
    var np := AppContext.FallbackProject(ps, title, description, skills, uid);
    assert (ps + [np])[|ps|] == np;
  }

  /** Every cached user except the current one, in order. */
  function OtherUsers(users: seq<User>, uid: int): (r: seq<User>)
    ensures forall u :: u in r <==> u in users && u.id != uid
    ensures forall u: User :: u.id != uid ==> multiset(r)[u] == multiset(users)[u]
    ensures IsSubsequence(r, users)
  {
    Filter(users, (u: User) => u.id != uid)
  }

  /** The value of each recipient option: the user's id as decimal text. */
  function OptionValues(us: seq<User>): (r: seq<string>)
    requires forall i :: 0 <= i < |us| ==> us[i].id >= 0
    ensures |r| == |us|
    ensures forall i :: 0 <= i < |us| ==> ParseInt(r[i]) == us[i].id
  {
    var r := seq(|us|, i requires 0 <= i < |us| => NatToString(us[i].id));
    assert forall i :: 0 <= i < |us| ==> ParseInt(r[i]) == us[i].id by {
      forall i | 0 <= i < |us| {
        ParseIntOfNatToString(us[i].id);
      }
    }
    r
  }

  /** Every option of the recipient selector parses back to a user other than
      the current one: the form cannot address a swap to its sender. */
  lemma OptionsNeverSelf(users: seq<User>, uid: int, k: nat)
    requires forall i :: 0 <= i < |users| ==> users[i].id >= 0
    requires k < |OtherUsers(users, uid)|
    ensures ParseInt(OptionValues(OtherUsers(users, uid))[k]) == OtherUsers(users, uid)[k].id
    ensures ParseInt(OptionValues(OtherUsers(users, uid))[k]) != uid
  {
    var others := OtherUsers(users, uid);
    assert others[k] in others;
    ParseIntOfNatToString(others[k].id);
  }

  /** The proposal form's fields, the recipient being the selected option's text. */
  datatype SwapForm = SwapForm(toUserId: string, offeredSkill: string, requestedSkill: string, message: string)

  const EmptySwapForm := SwapForm("", "", "", "")
  const FillAllFields := "Please fill out all fields."
  const ProposalSent := "Skill swap proposal sent successfully!"

  /** The proposal the form submits: refused while any field is empty,
      otherwise the recipient read as a decimal number and the other fields
      as typed. */
  function ProposalDraft(f: SwapForm): (r: Result<SwapDraft, string>)
    ensures r.Failure? <==> f.toUserId == "" || f.offeredSkill == "" || f.requestedSkill == "" || f.message == ""
    ensures r.Failure? ==> r.error == FillAllFields
    ensures r.Success? ==> r.value.toUserId == ParseInt(f.toUserId) && r.value.offeredSkill == f.offeredSkill &&
                           r.value.requestedSkill == f.requestedSkill && r.value.message == f.message
  {
    if f.toUserId == "" || f.offeredSkill == "" || f.requestedSkill == "" || f.message == "" then Failure(FillAllFields)
    else Success(SwapDraft(ParseInt(f.toUserId), f.offeredSkill, f.requestedSkill, f.message))
  }

  /** A form filled from a recipient option reaches that user. */
  lemma SelectedRecipientReached(u: User, offered: string, requested: string, message: string)
    requires u.id >= 0 && offered != "" && requested != "" && message != ""
    ensures var r := ProposalDraft(SwapForm(NatToString(u.id), offered, requested, message));
            r.Success? && r.value.toUserId == u.id
  {
    ParseIntOfNatToString(u.id);
  }

  /** The dashboard's own state. */
  class Dashboard {
    var swapData: SwapForm
    var swapMessage: string

    constructor ()
      ensures swapData == EmptySwapForm && swapMessage == ""
    {
      swapData := EmptySwapForm;
      swapMessage := "";
    }

    /** An incomplete form sets the error message and proposes nothing; a
        complete one is proposed, then the message says so and every field
        is emptied. */
    method HandleProposeSwap(store: AppContext.Store, remote: Result<SkillSwap, string>)
      modifies this, store
      ensures var draft := ProposalDraft(old(swapData));
              if draft.Failure? then
                swapMessage == FillAllFields && swapData == old(swapData) && store.skillSwaps == old(store.skillSwaps)
              else
                swapMessage == ProposalSent && swapData == EmptySwapForm &&
                store.skillSwaps == AppContext.AfterProposal(old(store.skillSwaps), old(store.currentUser), old(store.token), draft.value, remote)
      ensures store.users == old(store.users) && store.projects == old(store.projects)
      ensures store.currentUser == old(store.currentUser) && store.token == old(store.token) && store.error == old(store.error)
    {
      var draft := ProposalDraft(swapData);
      if draft.Failure? {
        swapMessage := draft.error;
        return;
      }
      store.ProposeSkillSwap(draft.value, remote);
      swapMessage := ProposalSent;
      swapData := EmptySwapForm;
    }
  }
}
