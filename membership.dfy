/**
 * Classification of channel membership updates (vestnik.py:31-35, 79-88):
 * a before/after status pair becomes "was a member, is a member", or
 * nothing when the status did not change.
 */
module Membership {
  import opened Optional

  /** Telegram's chat member statuses (OWNER is "creator", BANNED is "kicked"). */
  datatype ChatStatus = Owner | Administrator | Member | Restricted | Left | Banned

  /** MEMBER_STATUSES: the statuses that count as being in the channel. */
  const MemberStatuses: set<ChatStatus> := {Member, Owner, Administrator}

  /** A chat_member update for one user: the status before and after. */
  datatype ChatMemberUpdate = ChatMemberUpdate(userId: int, oldStatus: ChatStatus, newStatus: ChatStatus)

  /**
   * `update.difference().get('status')` of the Telegram library: the
   * (old, new) pair when the status changed, nothing when it did not.
   */
  function StatusDifference(update: ChatMemberUpdate): (diff: Option<(ChatStatus, ChatStatus)>)
    ensures diff.None? <==> update.oldStatus == update.newStatus
    ensures diff.Some? ==> diff.value.0 == update.oldStatus && diff.value.1 == update.newStatus
  {
    if update.oldStatus == update.newStatus then None
    else Some((update.oldStatus, update.newStatus))
  }

  /** extract_status_change: (was_member, is_member), or nothing without a status delta. */
  function ExtractStatusChange(update: ChatMemberUpdate): (result: Option<(bool, bool)>)
    ensures result.None? <==> update.oldStatus == update.newStatus
    ensures result.Some? ==>
              (result.value.0 <==> update.oldStatus in MemberStatuses) &&
              (result.value.1 <==> update.newStatus in MemberStatuses)
  {
    match StatusDifference(update)
    case None => None
    case Some((oldStatus, newStatus)) => Some((oldStatus in MemberStatuses, newStatus in MemberStatuses))
  }

  /** What track_channel_members does with an update. */
  datatype Transition = Joined | LeftChannel | NoTransition

  /** The if/elif of track_channel_members (vestnik.py:209-221) over extract_status_change. */
  function Classify(change: Option<(bool, bool)>): (t: Transition)
    ensures t == Joined <==> change == Some((false, true))
    ensures t == LeftChannel <==> change == Some((true, false))
  {
    match change
    case None => NoTransition
    case Some((wasMember, isMember)) =>
      if !wasMember && isMember then Joined
      else if wasMember && !isMember then LeftChannel
      else NoTransition
  }

  /**
   * The transition of an update, characterised by the statuses alone:
   * joining is non-member to member, leaving is member to non-member,
   * and every other update (no change, member to member, non-member to
   * non-member) is no transition.
   */
  function TransitionOf(update: ChatMemberUpdate): (t: Transition)
    ensures t == Joined <==> update.oldStatus !in MemberStatuses && update.newStatus in MemberStatuses
    ensures t == LeftChannel <==> update.oldStatus in MemberStatuses && update.newStatus !in MemberStatuses
    ensures t == NoTransition <==> (update.oldStatus in MemberStatuses <==> update.newStatus in MemberStatuses)
  {
    Classify(ExtractStatusChange(update))
  }

  /** A promotion (member to administrator) has a status delta but is no transition. */
  lemma PromotionIsNoTransition(userId: int)
    ensures ExtractStatusChange(ChatMemberUpdate(userId, Member, Administrator)) == Some((true, true))
    ensures TransitionOf(ChatMemberUpdate(userId, Member, Administrator)) == NoTransition
  {
  }
}
