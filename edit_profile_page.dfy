/** `pages/EditProfilePage.tsx`: the profile form filled from the current
    user, with the links list shown as comma-separated text and read back
    from it on submit. */
module EditProfilePage {
  import opened Wrappers
  import opened Seqs
  import opened Text
  import opened Types
  import opened CommaList
  import AppContext

  /** The fields the form reads from the current user, as the server may
      send them: bio, avatar and links can be missing; links is `None` also
      when it is not an array. */
  datatype ProfileSource = ProfileSource(name: string, bio: Option<string>, avatar: Option<string>, links: Option<seq<string>>)

  datatype ProfileForm = ProfileForm(name: string, bio: string, avatar: string, links: string)

  /** What a submit sends to the server. */
  datatype ProfileUpdate = ProfileUpdate(name: string, bio: string, avatar: string, links: seq<string>)

  const EmptyForm := ProfileForm("", "", "", "")
  const Updated := "Profile updated"
  const UpdateFailed := "Failed to update profile"

  /** The form for a user: the name as is, a missing bio or avatar as empty
      text, links joined with comma and blank, and no links as empty text. */
  function InitialForm(u: ProfileSource): (f: ProfileForm)
    ensures f.name == u.name
    ensures f.bio == (if u.bio.Some? then u.bio.value else "")
    ensures f.avatar == (if u.avatar.Some? then u.avatar.value else "")
    ensures u.links.None? ==> f.links == ""
  {
    ProfileForm(u.name, u.bio.GetOr(""), u.avatar.GetOr(""),
                if u.links.Some? then JoinList(u.links.value) else "")
  }

  /** The inputs of the form, named as their `name` attributes. */
  datatype ProfileField = NameInput | BioInput | AvatarInput | LinksInput

  function FieldValue(f: ProfileForm, field: ProfileField): string {
    match field
    case NameInput => f.name
    case BioInput => f.bio
    case AvatarInput => f.avatar
    case LinksInput => f.links
  }

  /** Typing into an input: that input takes the typed text and
      every other input keeps its own. */
  function WithField(f: ProfileForm, field: ProfileField, value: string): (r: ProfileForm)
    ensures FieldValue(r, field) == value
    ensures forall other: ProfileField :: other != field ==> FieldValue(r, other) == FieldValue(f, other)
  {
    match field
    case NameInput => f.(name := value)
    case BioInput => f.(bio := value)
    case AvatarInput => f.(avatar := value)
    case LinksInput => f.(links := value)
  }

  /** Typing into an input twice keeps only the second text, and typing the
      text it already holds changes nothing. */
  lemma WithFieldLastWins(f: ProfileForm, field: ProfileField, v: string, w: string)
    ensures WithField(WithField(f, field, v), field, w) == WithField(f, field, w)
    ensures WithField(f, field, FieldValue(f, field)) == f
  {
  }

  /** The update a form submits: its text fields as typed and its links
      field as a list of non-empty, trimmed entries. */
  function UpdateOf(f: ProfileForm): (r: ProfileUpdate)
    ensures r.name == f.name && r.bio == f.bio && r.avatar == f.avatar
    ensures forall i :: 0 <= i < |r.links| ==> r.links[i] != "" && IsTrimmed(r.links[i]) && ',' !in r.links[i]
    ensures forall t :: t in r.links <==> t in TrimAll(Split(f.links, ',')) && t != []
    ensures forall t :: t != [] ==> multiset(r.links)[t] == multiset(TrimAll(Split(f.links, ',')))[t]
    ensures IsSubsequence(r.links, TrimAll(Split(f.links, ',')))
  {
    ProfileUpdate(f.name, f.bio, f.avatar, ParseList(f.links))
  }

  /** Saving the form untouched gives the user's profile back: the links
      survive the round trip through the text field when each is non-empty,
      trimmed and free of commas, and no links stay no links. */
  lemma UntouchedFormRoundTrip(u: ProfileSource)
    requires u.links.Some? ==> forall i :: 0 <= i < |u.links.value| ==>
               u.links.value[i] != "" && IsTrimmed(u.links.value[i]) && ',' !in u.links.value[i]
    ensures UpdateOf(InitialForm(u)).name == u.name
    ensures UpdateOf(InitialForm(u)).links == u.links.GetOr([])
  {
    if u.links.Some? {
      ParseJoinList(u.links.value);
    } else {
      ParseListEmptyIff("");
    }
  }

  /** The form is drawn only for a signed-in user with a token: exactly when
      the store would let that user write to the server. */
  function FormAvailable(currentUser: Option<User>, token: Option<string>): (b: bool)
    ensures currentUser.None? || !HasText(token) ==> !b
    ensures b <==> AppContext.SignedIn(currentUser, token)
  {
    currentUser.Some? && HasText(token)
  }

  /** The error shown: the failure's message, or the generic text when it is empty. */
  function FailureMessage(message: string): (m: string)
    ensures m != ""
    ensures message != "" ==> m == message
    ensures message == "" ==> m == UpdateFailed
  {
    if message == "" then UpdateFailed else message
  }

  /** The page's own state. */
  class EditProfile {
    var form: ProfileForm
    var error: string
    var success: string

    constructor ()
      ensures form == EmptyForm && error == "" && success == ""
    {
      form := EmptyForm;
      error := "";
      success := "";
    }

    /** Whenever the current user changes and is present, the form is
        refilled from it. */
    method Init(currentUser: Option<ProfileSource>)
      modifies this
      ensures form == if currentUser.Some? then InitialForm(currentUser.value) else old(form)
      ensures error == old(error) && success == old(success)
    {
      if currentUser.Some? {
        form := InitialForm(currentUser.value);
      }
    }

    /** Typing into one of the inputs. */
    method HandleChange(field: ProfileField, value: string)
      modifies this
      ensures form == WithField(old(form), field, value)
      ensures error == old(error) && success == old(success)
    {
      form := WithField(form, field, value);
    }

    /** After the reply: the profile was updated, or the error's message,
        or a generic one when it has none. */
    method ShowOutcome(remote: Result<(), string>)
      modifies this
      ensures remote.Success? ==> success == Updated && error == ""
      ensures remote.Failure? ==> error == FailureMessage(remote.error) && success == ""
      ensures form == old(form)
    {
      if remote.Success? {
        error := "";
        success := Updated;
      } else {
        error := FailureMessage(remote.error);
        success := "";
      }
    }

    /** Submitting sends `request`, the form read back, then shows the
        outcome of the call. */
    method HandleSubmit(remote: Result<(), string>) returns (request: ProfileUpdate)
      modifies this
      ensures request == UpdateOf(old(form))
      ensures remote.Success? ==> success == Updated && error == ""
      ensures remote.Failure? ==> error == FailureMessage(remote.error) && success == ""
      ensures form == old(form)
    {
      ShowOutcome(remote);
      request := UpdateOf(form);
    }
  }
}
