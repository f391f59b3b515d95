/** The record shapes of `types.ts`, plus the two JavaScript truthiness tests
    the store and the pages apply to them. */
module Types {
  import opened Wrappers

  datatype User = User(
    id: int,
    name: string,
    email: string,
    password: Option<string>,
    skills: seq<string>,
    bio: string,
    avatar: string,
    available: bool)

  datatype Project = Project(
    id: int,
    title: string,
    description: string,
    requiredSkills: seq<string>,
    creatorId: int,
    members: seq<int>)

  /** The three-valued `SkillSwapStatus`. */
  datatype SkillSwapStatus = Pending | Accepted | Declined

  /** The two values `updateSkillSwapStatus` accepts. */
  type Decision = s: SkillSwapStatus | s != Pending witness Accepted

  datatype SkillSwap = SkillSwap(
    id: int,
    fromUserId: int,
    toUserId: int,
    offeredSkill: string,
    requestedSkill: string,
    status: SkillSwapStatus,
    message: string)

  /** What a caller hands to `proposeSkillSwap`: a swap without its id,
      status and proposer. */
  datatype SwapDraft = SwapDraft(
    toUserId: int,
    offeredSkill: string,
    requestedSkill: string,
    message: string)

  /** The status as the JSON string the server and the pages use. */
  function StatusName(s: SkillSwapStatus): string {
    match s
    case Pending => "pending"
    case Accepted => "accepted"
    case Declined => "declined"
  }

  function ParseStatus(t: string): (r: Option<SkillSwapStatus>)
    ensures r.Some? ==> StatusName(r.value) == t
  {
    if t == "pending" then Some(Pending)
    else if t == "accepted" then Some(Accepted)
    else if t == "declined" then Some(Declined)
    else None
  }

  /** Exactly the three names are statuses, and each names one status. */
  lemma ParseStatusName(s: SkillSwapStatus)
    ensures ParseStatus(StatusName(s)) == Some(s)
  {
  }

  /** `!!x` for a `string` that may be missing or null: the empty string is
      falsy too. Used for the session token, error texts and timestamps. */
  predicate HasText(s: Option<string>) {
    s.Some? && s.value != ""
  }

  /** `!!x` for a `number` that may be missing: 0 is falsy. */
  predicate IsTruthy(x: Option<int>) {
    x.Some? && x.value != 0
  }
}
