/** `pages/SkillSwapPage.tsx`: the split of the store's swaps into those
    addressed to the current user and those sent by them, the card's choice
    of the other party, the accept/decline gate, the status colours, and the
    chat panel of the selected swap. */
module SkillSwapPage {
  import opened Wrappers
  import opened Seqs
  import opened Text
  import opened Types
  import AppContext

  /** A chat message of a swap (`SkillSwapMessage`). */
  datatype SwapMessage = SwapMessage(id: int, swapId: int, senderId: int, message: string)

  /** An entry of a swap's status history (`SkillSwapStatus` in the API layer). */
  datatype StatusChange = StatusChange(id: int, swapId: int, status: SkillSwapStatus, changedBy: int)

  const PendingClasses := "bg-yellow-100 text-yellow-800"
  const AcceptedClasses := "bg-green-100 text-green-800"
  const DeclinedClasses := "bg-red-100 text-red-800"
  const DefaultClasses := "bg-gray-100 text-gray-800"

  /** The badge colours of a status name; a name that is no status (the
      server sent something unexpected) gets the grey default. */
  function StatusClasses(name: string): (c: string)
    ensures ParseStatus(name).None? <==> c == DefaultClasses
  {
    match ParseStatus(name)
    case Some(Pending) => PendingClasses
    case Some(Accepted) => AcceptedClasses
    case Some(Declined) => DeclinedClasses
    case None => DefaultClasses
  }

  /** The three statuses get three different colours. */
  lemma StatusClassesDistinct(s: SkillSwapStatus, t: SkillSwapStatus)
    ensures StatusClasses(StatusName(s)) == StatusClasses(StatusName(t)) <==> s == t
  {
    ParseStatusName(s);
    ParseStatusName(t);
  }

  /** The swaps addressed to the user, in store order. */
  function Incoming(swaps: seq<SkillSwap>, uid: int): (r: seq<SkillSwap>)
    ensures forall s :: s in r <==> s in swaps && s.toUserId == uid
    ensures forall s: SkillSwap :: s.toUserId == uid ==> multiset(r)[s] == multiset(swaps)[s]
    ensures IsSubsequence(r, swaps)
  {
    Filter(swaps, (s: SkillSwap) => s.toUserId == uid)
  }

  /** The swaps the user sent, in store order. */
  function Outgoing(swaps: seq<SkillSwap>, uid: int): (r: seq<SkillSwap>)
    ensures forall s :: s in r <==> s in swaps && s.fromUserId == uid
    ensures forall s: SkillSwap :: s.fromUserId == uid ==> multiset(r)[s] == multiset(swaps)[s]
    ensures IsSubsequence(r, swaps)
  {
    Filter(swaps, (s: SkillSwap) => s.fromUserId == uid)
  }

  /** A swap shows up in both lists only when it is a self-swap, which the
      store does not prevent. */
  lemma BothListsOnlyForSelfSwaps(swaps: seq<SkillSwap>, uid: int, s: SkillSwap)
    ensures s in Incoming(swaps, uid) && s in Outgoing(swaps, uid) <==>
            s in swaps && s.fromUserId == uid && s.toUserId == uid
  {
  }

  /** The user a card shows: the proposer of an incoming swap, the
      recipient of an outgoing one. */
  function Counterpart(s: SkillSwap, incoming: bool): int {
    if incoming then s.fromUserId else s.toUserId
  }

  /** For any swap that is not a self-swap, the card names the other party,
      never the current user, in either list. */
  lemma CounterpartIsOtherParty(swaps: seq<SkillSwap>, uid: int, s: SkillSwap)
    requires s.fromUserId != s.toUserId
    ensures s in Incoming(swaps, uid) ==> Counterpart(s, true) != uid && Counterpart(s, true) == s.fromUserId
    ensures s in Outgoing(swaps, uid) ==> Counterpart(s, false) != uid && Counterpart(s, false) == s.toUserId
  {
  }

  /** A card is drawn only when the other party is a known user. */
  function CardShown(users: seq<User>, s: SkillSwap, incoming: bool): (b: bool)
    ensures b <==> exists i :: 0 <= i < |users| && users[i].id == Counterpart(s, incoming)
  {
    AppContext.FindUser(users, Counterpart(s, incoming)).Some?
  }

  /** Accept and decline are offered on the drawn card of an incoming,
      pending swap only. */
  function ShowsActions(users: seq<User>, s: SkillSwap, incoming: bool): (b: bool)
    ensures !incoming || s.status != Pending ==> !b
    ensures incoming && s.status == Pending ==> (b <==> exists i :: 0 <= i < |users| && users[i].id == s.fromUserId)
  {
    CardShown(users, s, incoming) && incoming && s.status == Pending
  }

  /** On the page the gate holds exactly for pending swaps addressed to the
      current user whose proposer is a known user; a swap the user sent to
      someone else never offers it. It is the only place the lifecycle pending
      to accepted or declined is enforced. */
  lemma ActionsOnlyOnPendingIncoming(users: seq<User>, swaps: seq<SkillSwap>, uid: int, k: nat)
    requires k < |swaps|
    ensures ShowsActions(users, swaps[k], swaps[k] in Incoming(swaps, uid)) <==>
            swaps[k].toUserId == uid && swaps[k].status == Pending &&
            exists i :: 0 <= i < |users| && users[i].id == swaps[k].fromUserId
    ensures swaps[k].fromUserId == uid && swaps[k].toUserId != uid ==>
            !ShowsActions(users, swaps[k], swaps[k] in Incoming(swaps, uid))
  {
  }

  /** The text `sendMessage` posts, if it posts anything: only with a token,
      a selected swap (id 0 counts as none) and a message that is not blank;
      then the message without its surrounding whitespace. */
  function TextToSend(token: Option<string>, activeSwapId: Option<int>, newMessage: string): (r: Option<string>)
    ensures r.Some? <==> HasText(token) && IsTruthy(activeSwapId) && !AllSpace(newMessage)
    ensures r.Some? ==> r.value != [] && IsTrimmed(r.value) && r.value == Trim(newMessage)
  {
    TrimEmptyIff(newMessage);
    if !HasText(token) || !IsTruthy(activeSwapId) || Trim(newMessage) == [] then None
    else Some(Trim(newMessage))
  }

  /** The chat panel's state. */
  class ChatPanel {
    var activeSwapId: Option<int>
    var messages: seq<SwapMessage>
    var history: seq<StatusChange>
    var newMessage: string

    constructor ()
      ensures activeSwapId == None && messages == [] && history == [] && newMessage == ""
    {
      activeSwapId := None;
      messages := [];
      history := [];
      newMessage := "";
    }

    /** Clicking a card selects its swap. */
    method Select(swapId: int)
      modifies this
      ensures activeSwapId == Some(swapId)
      ensures messages == old(messages) && history == old(history) && newMessage == old(newMessage)
    {
      activeSwapId := Some(swapId);
    }

    /** Loading the selected swap's messages and history: nothing without a
        token or a selection; both lists from the server; both emptied when
        either request fails. */
    method Load(token: Option<string>, remote: Result<(seq<SwapMessage>, seq<StatusChange>), string>)
      modifies this
      ensures !HasText(token) || !IsTruthy(old(activeSwapId)) ==> messages == old(messages) && history == old(history)
      ensures HasText(token) && IsTruthy(old(activeSwapId)) && remote.Success? ==>
                messages == remote.value.0 && history == remote.value.1
      ensures HasText(token) && IsTruthy(old(activeSwapId)) && remote.Failure? ==> messages == [] && history == []
      ensures activeSwapId == old(activeSwapId) && newMessage == old(newMessage)
    {
      if !HasText(token) || !IsTruthy(activeSwapId) {
        return;
      }
      match remote {
        case Success(lists) =>
          messages := lists.0;
          history := lists.1;
        case Failure(_) =>
          messages := [];
          history := [];
      }
    }

    /** Sending the typed message: `sent` is the text posted, if any. When the
        server stores it, its message is appended after the earlier ones and
        the input is cleared; a failed post changes nothing. */
    method SendMessage(token: Option<string>, remote: Result<SwapMessage, string>) returns (sent: Option<string>)
      modifies this
      ensures sent == TextToSend(token, old(activeSwapId), old(newMessage))
      ensures sent.Some? && remote.Success? ==> messages == old(messages) + [remote.value] && newMessage == ""
      ensures sent.None? || remote.Failure? ==> messages == old(messages) && newMessage == old(newMessage)
      ensures activeSwapId == old(activeSwapId) && history == old(history)
    {
      sent := TextToSend(token, activeSwapId, newMessage);
      if sent.None? {
        return;
      }
      match remote {
        case Success(msg) =>
          messages := messages + [msg];
          newMessage := "";
        case Failure(_) =>
      }
    }
  }
}
