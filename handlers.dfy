/**
 * The update handlers that change the subscriber list: the "subscribe"
 * button (subscribe_daily), channel membership updates
 * (track_channel_members) and the bot being blocked or unblocked
 * (block_unblock_handler).
 */
module Handlers {
  import opened Subscribers
  import opened Membership

  /** The two replies of subscribe_daily. */
  datatype Reply = AlreadySubscribed | SubscriptionDone

  /** The list after subscribe_daily: unchanged when the id is present, the id appended otherwise. */
  function AfterSubscribe(s: seq<int>, id: int): (r: seq<int>)
    ensures id in r
    ensures id in s ==> r == s
    ensures multiset(r)[id] == if id in s then multiset(s)[id] else 1
    ensures |s| <= |r| <= |s| + 1 && r[..|s|] == s
  {
    if id in s then s else s + [id]
  }

  /** Subscribing is idempotent: a second subscribe is a pure query. */
  lemma SubscribeIdempotent(s: seq<int>, id: int)
    ensures AfterSubscribe(AfterSubscribe(s, id), id) == AfterSubscribe(s, id)
  {
  }

  /** Two subscribes of an id that was absent leave it in the list exactly once. */
  lemma SubscribeTwiceOnce(s: seq<int>, id: int)
    requires id !in s
    ensures multiset(AfterSubscribe(AfterSubscribe(s, id), id))[id] == 1
  {
    SubscribeIdempotent(s, id);
  }

  /**
   * The list after track_channel_members handles `update`: only the
   * updated user's entries change, by one more on a join and one fewer
   * (if any) on a leave.
   */
  function AfterTrack(s: seq<int>, update: ChatMemberUpdate): (r: seq<int>)
    ensures forall y :: y != update.userId ==> multiset(r)[y] == multiset(s)[y]
    ensures TransitionOf(update) == Joined ==> multiset(r)[update.userId] == multiset(s)[update.userId] + 1
    ensures TransitionOf(update) == LeftChannel ==>
              multiset(r)[update.userId] == if update.userId in s then multiset(s)[update.userId] - 1 else 0
    ensures TransitionOf(update) == NoTransition ==> r == s
  {
    match TransitionOf(update)
    case Joined => s + [update.userId]
    case LeftChannel =>
      RemoveFirstMultiset(s, update.userId);
      RemoveFirst(s, update.userId)
    case NoTransition => s
  }

  /** A user's channel status; a user never seen is not in the channel. */
  function StatusOf(status: map<int, ChatStatus>, id: int): ChatStatus
  {
    if id in status then status[id] else Left
  }

  /** The list agrees with the channel: no id twice, and every listed id is a member now. */
  ghost predicate Consistent(s: seq<int>, status: map<int, ChatStatus>)
  {
    NoDuplicates(s) && forall k :: 0 <= k < |s| ==> StatusOf(status, s[k]) in MemberStatuses
  }

  /** Appending a member who is not listed yet keeps the list consistent. */
  lemma AppendKeepsConsistent(s: seq<int>, status: map<int, ChatStatus>, id: int)
    requires Consistent(s, status)
    requires id !in s && StatusOf(status, id) in MemberStatuses
    ensures Consistent(s + [id], status)
  {
    var r := s + [id];
    assert forall k :: 0 <= k < |s| ==> r[k] == s[k] && s[k] != id;
  }

  /** A status change of a listed user that keeps them a member, or of an unlisted user, keeps consistency. */
  lemma StatusChangeKeepsConsistent(s: seq<int>, status: map<int, ChatStatus>, id: int, newStatus: ChatStatus)
    requires Consistent(s, status)
    requires id in s ==> newStatus in MemberStatuses
    ensures Consistent(s, status[id := newStatus])
  {
    forall k | 0 <= k < |s|
      ensures StatusOf(status[id := newStatus], s[k]) in MemberStatuses
    {
      if s[k] == id {
        assert id in s;
      }
    }
  }

  /** Removing a user keeps the list consistent. */
  lemma RemovalKeepsConsistent(s: seq<int>, status: map<int, ChatStatus>, id: int)
    requires Consistent(s, status)
    ensures Consistent(RemoveFirst(s, id), status)
    ensures id !in RemoveFirst(s, id)
  {
    RemoveFirstNoDuplicates(s, id);
    RemoveFirstMembers(s, id);
    var r := RemoveFirst(s, id);
    forall k | 0 <= k < |r|
      ensures StatusOf(status, r[k]) in MemberStatuses
    {
      assert r[k] in RemoveFirst(s, id);
    }
  }

  /**
   * As long as every chat_member update comes from the channel and every
   * one reaches the bot, handling one keeps the list consistent with the
   * channel. In particular a join never
   * finds the user already listed, so the unchecked append of add_user
   * never duplicates an id.
   */
  lemma TrackKeepsConsistent(s: seq<int>, status: map<int, ChatStatus>, update: ChatMemberUpdate)
    requires Consistent(s, status)
    requires StatusOf(status, update.userId) == update.oldStatus
    ensures Consistent(AfterTrack(s, update), status[update.userId := update.newStatus])
  {
    var id := update.userId;
    match TransitionOf(update)
    case Joined =>
      assert id !in s;
      StatusChangeKeepsConsistent(s, status, id, update.newStatus);
      AppendKeepsConsistent(s, status[id := update.newStatus], id);
    case LeftChannel =>
      RemovalKeepsConsistent(s, status, id);
      StatusChangeKeepsConsistent(RemoveFirst(s, id), status, id, update.newStatus);
    case NoTransition =>
      StatusChangeKeepsConsistent(s, status, id, update.newStatus);
  }

  /**
   * subscribe_daily keeps the list consistent when its caller has checked
   * that the user is a member of the channel.
   */
  lemma SubscribeKeepsConsistent(s: seq<int>, status: map<int, ChatStatus>, id: int)
    requires Consistent(s, status)
    requires StatusOf(status, id) in MemberStatuses
    ensures Consistent(AfterSubscribe(s, id), status)
  {
    if id !in s {
      AppendKeepsConsistent(s, status, id);
    }
  }

  /** subscribe_daily: the reply and the list effect. */
  method SubscribeDaily(store: SubscriberStore, id: int) returns (reply: Reply)
    modifies store
    ensures store.dailyList == AfterSubscribe(old(store.dailyList), id)
    ensures id in old(store.dailyList) ==>
              reply == AlreadySubscribed && store.persisted == old(store.persisted)
    ensures id !in old(store.dailyList) ==> reply == SubscriptionDone && store.Synced()
  {
    if id in store.dailyList {
      reply := AlreadySubscribed;
    } else {
      store.AddUser(id);
      reply := SubscriptionDone;
    }
  }

  /**
   * track_channel_members, list effects only: a join appends the user
   * (without a duplicate check), a leave removes it, anything else leaves
   * list and file alone. The greeting after a join and the farewell
   * message after a leave are not modelled.
   */
  method TrackChannelMembers(store: SubscriberStore, update: ChatMemberUpdate) returns (transition: Transition)
    modifies store
    ensures transition == TransitionOf(update)
    ensures store.dailyList == AfterTrack(old(store.dailyList), update)
    ensures transition == Joined ==>
              store.dailyList == old(store.dailyList) + [update.userId] && store.Synced()
    ensures transition == LeftChannel ==>
              store.dailyList == RemoveFirst(old(store.dailyList), update.userId) &&
              (update.userId in old(store.dailyList) ==> store.Synced()) &&
              (update.userId !in old(store.dailyList) ==> store.persisted == old(store.persisted))
    ensures transition == NoTransition ==>
              store.dailyList == old(store.dailyList) && store.persisted == old(store.persisted)
  {
    var result := ExtractStatusChange(update);
    transition := NoTransition;
    if result.None? {
      return;
    }
    var (wasMember, isMember) := result.value;
    if !wasMember && isMember {
      store.AddUser(update.userId);
      transition := Joined;
    } else if wasMember && !isMember {
      store.RemoveUser(update.userId);
      transition := LeftChannel;
    }
  }

  /**
   * block_unblock_handler on a my_chat_member update, which reports the
   * bot's own new status in some chat: BANNED removes the user who caused
   * the update (in a private chat, the user who blocked the bot; in a
   * group, the admin who removed it, since the chat type is not checked),
   * any other status changes nothing.
   */
  method BlockUnblockHandler(store: SubscriberStore, id: int, newStatus: ChatStatus) returns (blocked: bool)
    modifies store
    ensures blocked <==> newStatus == Banned
    ensures blocked ==> store.dailyList == RemoveFirst(old(store.dailyList), id)
    ensures blocked && id in old(store.dailyList) ==> store.Synced()
    ensures !blocked || id !in old(store.dailyList) ==>
              store.dailyList == old(store.dailyList) && store.persisted == old(store.persisted)
  {
    blocked := newStatus == Banned;
    if blocked {
      store.RemoveBlockedUser(id);
    }
  }
}
