/** `pages/CreateProjectPage.tsx`: the new-project form, its skills field
    read as a comma-separated list, and the check before submitting. */
module CreateProjectPage {
  import opened Wrappers
  import opened Text
  import opened CommaList
  import AppContext
  import Api

  datatype ProjectForm = ProjectForm(title: string, description: string, skills: string)

  const FillAllFields := "Please fill in all fields with at least one required skill."
  const Created := "Project created successfully!"
  const CreateFailed := "Failed to create project."

  /** The skills to submit, or the error: a title, a description and at
      least one skill are needed, and a skills field of nothing but commas
      and whitespace holds no skill. */
  function Validate(f: ProjectForm): (r: Result<seq<string>, string>)
    ensures r.Success? <==> f.title != "" && f.description != "" && !CommasAndBlanks(f.skills)
    ensures r.Success? ==> r.value == ParseList(f.skills) && |r.value| >= 1
    ensures r.Failure? ==> r.error == FillAllFields
  {
    ParseListEmptyIff(f.skills);
    var skills := ParseList(f.skills);
    if f.title == "" || f.description == "" || |skills| == 0 then Failure(FillAllFields)
    else Success(skills)
  }

  /** Each submitted skill is non-empty, trimmed and free of commas. */
  lemma SubmittedSkillsClean(f: ProjectForm)
    requires Validate(f).Success?
    ensures forall i :: 0 <= i < |Validate(f).value| ==>
              Validate(f).value[i] != "" && IsTrimmed(Validate(f).value[i]) && ',' !in Validate(f).value[i]
  {
  }

  /** The page's own state. */
  class CreatePage {
    var form: ProjectForm
    var error: string
    var success: string
    var submitting: bool

    constructor ()
      ensures form == ProjectForm("", "", "") && error == "" && success == "" && !submitting
    {
      form := ProjectForm("", "", "");
      error := "";
      success := "";
      submitting := false;
    }

    /** Submitting checked fields: the store creates the project and the
        page shows success or failure by the store's answer; the submitting
        flag is off again afterwards. */
    method Submit(store: AppContext.Store, title: string, description: string, skills: seq<string>,
                  reply: Api.Reply<Api.ApiProject>)
      modifies this, store
      ensures store.projects == AppContext.AfterCreate(old(store.projects), old(store.currentUser), old(store.token),
                                                      title, description, skills, reply)
      ensures AppContext.SignedIn(old(store.currentUser), old(store.token)) ==> success == Created && error == old(error)
      ensures !AppContext.SignedIn(old(store.currentUser), old(store.token)) ==> error == CreateFailed && success == old(success)
      ensures !submitting && form == old(form)
      ensures store.users == old(store.users) && store.skillSwaps == old(store.skillSwaps)
      ensures store.currentUser == old(store.currentUser) && store.token == old(store.token) && store.error == old(store.error)
    {
      submitting := true;
      var ok := store.CreateProject(title, description, skills, reply);
      if ok {
        success := Created;
      } else {
        error := CreateFailed;
      }
      submitting := false;
    }

    /** A refused form shows the error and creates nothing; otherwise its
        title, description and parsed skills are submitted. */
    method HandleSubmit(store: AppContext.Store, reply: Api.Reply<Api.ApiProject>)
      modifies this, store
      ensures Validate(old(form)).Failure? ==>
                error == FillAllFields && success == "" && submitting == old(submitting) &&
                store.projects == old(store.projects)
      ensures Validate(old(form)).Success? ==>
                store.projects == AppContext.AfterCreate(old(store.projects), old(store.currentUser), old(store.token),
                                                        old(form).title, old(form).description, Validate(old(form)).value, reply) &&
                !submitting &&
                (if AppContext.SignedIn(old(store.currentUser), old(store.token))
                 then success == Created && error == ""
                 else error == CreateFailed && success == "")
      ensures form == old(form)
      ensures store.users == old(store.users) && store.skillSwaps == old(store.skillSwaps)
      ensures store.currentUser == old(store.currentUser) && store.token == old(store.token) && store.error == old(store.error)
    {
      error := "";
      success := "";
      var f := form;
      var v := Validate(f);
      if v.Failure? {
        error := v.error;
        return;
      }
      Submit(store, f.title, f.description, v.value, reply);
    }
  }
}
