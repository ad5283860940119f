# vestnik: subscriber list and daily broadcast, modelled in Dafny

vestnik is a Telegram bot that sends a daily tarot card to every
subscriber of a channel. This project models the bot's small core:

- the subscriber store (`daily_list`, changed by `add_user`, `remove_user`
  and `remove_blocked_user`, each followed by a full save of the list);
- the classification of channel membership updates (`extract_status_change`)
  and the handlers that add or remove subscribers (`subscribe_daily`,
  `track_channel_members`, `block_unblock_handler`);
- the `retry_on_network_error` wrapper around a Telegram call;
- the naming of a drawn card in `send_daily_card`;
- the broadcast `send_daily_message`, which walks the live list while
  deliveries that Telegram answers with Forbidden remove recipients from it.

Modules, one file each:

| file | module | contents |
|---|---|---|
| `optional.dfy` | `Optional` | `Option` |
| `subscribers.dfy` | `Subscribers` | `RemoveFirst` (Python's `list.remove`), the `SubscriberStore` class: `dailyList` and a ghost `persisted` file snapshot |
| `membership.dfy` | `Membership` | chat statuses, `MEMBER_STATUSES`, `ExtractStatusChange`, `TransitionOf` |
| `handlers.dfy` | `Handlers` | the three handlers as methods on the store, consistency of the list with the channel |
| `retry.dfy` | `Retry` | the reference `RetryFrom` and the `while` loop `RetryOnNetworkError` |
| `cards.dfy` | `Cards` | card data tables, rank/suit arithmetic, rank and suit name overrides, the caption fields |
| `broadcast.dfy` | `Broadcast` | `SendDailyCard`, the live-list loop `SendDailyMessage`, the loop over a copy `SendDailyMessageSnapshot` |

Telegram's answers are parameters. `attempt(j)` is the outcome of the
j-th call inside one retry wrapper. `transport(k)(j)` is that outcome for
the k-th delivery of a broadcast. The random card and deck draws are
parameters too: `cardIds(k)` and `deckIds(k)`. The subscription file is
the ghost field `persisted`, where `None` means the file does not exist.

Behaviour of the code worth knowing, which the model keeps:

- A join appends the user with no duplicate check (`add_user`, vestnik.py:59-62);
  only `subscribe_daily` looks first. `Handlers.TrackKeepsConsistent`
  shows that no duplicate arises as long as every chat_member update
  comes from the channel and every one reaches the bot.
  `track_channel_members` does not look at the update's chat, and its
  handler has no chat filter (vestnik.py:314-317). So a subscriber who
  joins another chat the bot administers gets a second entry.
- `retry_on_network_error` catches `NetworkError` together with its
  library subclasses (`TimedOut`, `BadRequest`). These are retried and, on
  the sixth failure, swallowed, and the broadcast goes on. An error that is
  neither a `NetworkError` nor `Forbidden` (`RetryAfter`, `ChatMigrated`,
  `InvalidToken`, ...) leaves `send_daily_card` and ends the whole pass;
  the model's `OtherError` outcome does the same (`aborted`).
- `send_daily_message` is meant to reach every subscriber; the loop at
  vestnik.py:252 does not (see Findings).

## Model

| member | source | states |
|---|---|---|
| Subscribers.FirstIndex | vestnik.py:69 | the position where `list.remove` strikes holds the id and no earlier position does |
| Subscribers.RemoveFirst | vestnik.py:69 | removing a present id shortens the list by exactly one; removing an absent id leaves it as it is |
| Subscribers.RemoveFirstMultiset | vestnik.py:69 | removal takes exactly one occurrence of the id away and touches no other id |
| Subscribers.RemoveFirstSplices | vestnik.py:69 | removal cuts out the first occurrence and keeps the rest in order |
| Subscribers.AddThenRemove | vestnik.py:59-71 | round trip: removing an id just appended to a list without it gives the list back |
| Subscribers.RemoveFirstMembers | vestnik.py:69 | removal brings in no id and keeps every id other than the removed one |
| Subscribers.RemoveFirstNoDuplicates | vestnik.py:69 | on a list without duplicates the removed id is gone altogether and no duplicate appears |
| Subscribers.SubscriberStore.Load | vestnik.py:48-51 | start-up: the stored list when the file exists, and, as main's FileNotFoundError branch at vestnik.py:278-284 leaves it, an empty list and no file when it does not |
| Subscribers.SubscriberStore.Save | vestnik.py:54-56 | the file becomes a full snapshot of the list; the list is unchanged |
| Subscribers.SubscriberStore.AddUser | vestnik.py:59-62 | the id is appended: length grows by one, earlier entries unchanged, no duplicate check; file equals the list |
| Subscribers.SubscriberStore.RemoveUser | vestnik.py:65-71 | absent id: list and file unchanged; present id: first occurrence cut out, order kept, file equals the list |
| Subscribers.SubscriberStore.RemoveBlockedUser | vestnik.py:74-76 | the same list and file effect as remove_user |
| Membership.StatusDifference | vestnik.py:80 | the library's status difference: nothing exactly when the status did not change, otherwise the (old, new) pair |
| Membership.ExtractStatusChange | vestnik.py:79-88 | nothing exactly when the status did not change; otherwise (old is a member status, new is a member status) |
| Membership.Classify | vestnik.py:215-221 | join exactly on (false, true), leave exactly on (true, false); no change, (true, true) and (false, false) are no transition |
| Membership.TransitionOf | vestnik.py:208-221 | join exactly for non-member to member, leave exactly for member to non-member, nothing otherwise |
| Membership.PromotionIsNoTransition | vestnik.py:79-88 | member to administrator has a status delta (true, true) but is no transition |
| Handlers.AfterSubscribe | vestnik.py:119-129 | afterwards the id is listed; a listed id leaves the list unchanged, an absent one is appended once; the old list is a prefix |
| Handlers.SubscribeIdempotent | vestnik.py:119-129 | a second subscribe changes nothing |
| Handlers.SubscribeTwiceOnce | vestnik.py:119-129 | two subscribes of an absent id leave exactly one occurrence |
| Handlers.AfterTrack | vestnik.py:206-221 | only the updated user's entries change: one more on a join, one fewer (if any) on a leave, the list unchanged otherwise |
| Handlers.AppendKeepsConsistent | vestnik.py:59-62 | appending an unlisted channel member keeps the list duplicate-free and members-only |
| Handlers.StatusChangeKeepsConsistent | vestnik.py:206-221 | a status change that keeps listed users members keeps the list consistent |
| Handlers.RemovalKeepsConsistent | vestnik.py:65-71 | removing a user keeps the list consistent and leaves the user unlisted |
| Handlers.TrackKeepsConsistent | vestnik.py:206-221 | for updates that all come from the channel (one status map), handling one keeps the list duplicate-free and members-only, so a join never duplicates |
| Handlers.SubscribeKeepsConsistent | vestnik.py:199-201 | subscribing a user who passed the channel-member gate keeps the list consistent |
| Handlers.SubscribeDaily | vestnik.py:119-129 | listed id: "already subscribed", list and file unchanged; otherwise "subscribed", id appended, file saved |
| Handlers.TrackChannelMembers | vestnik.py:206-221 | join appends and saves, leave removes like remove_user, anything else touches neither list nor file |
| Handlers.BlockUnblockHandler | vestnik.py:232-238 | removes the user exactly when the new status is BANNED; any other status changes nothing |
| Retry.RetryFrom | vestnik.py:91-103 | at most 6 calls, all but the last a network error; a success is returned, a sixth network error gives no result, any other error is raised |
| Retry.AllNetworkErrorsExhaust | vestnik.py:97-100 | six network errors end in no result after exactly six calls |
| Retry.FirstDecisiveCallDecides | vestnik.py:94-97 | the first call within six that is not a network error decides the result, and no later call is made |
| Retry.RetryOnNetworkError | vestnik.py:91-103 | the while loop's result and number of calls are those of RetryFrom; between 1 and 6 calls |
| Cards.SuitCard | vestnik.py:144-146 | for 22 <= card < 78: rank < 14, suit < 4 and 22 + 14 * suit + rank == card |
| Cards.SuitCardUnique | vestnik.py:144-146 | every rank and suit pair names exactly one suit card |
| Cards.RankNames | vestnik.py:148-150 | the override replaces only the names from index 10 on; without one the base names are kept |
| Cards.SuitNames | vestnik.py:151 | exactly the deck's suit names when present and non-empty, exactly the base names otherwise; at least four |
| Cards.Meanings | vestnik.py:142 | exactly the deck's meanings when present and non-empty, exactly the "normal" table otherwise; one per card |
| Cards.CardName | vestnik.py:144-155 | a major card (index up to 21) is named "numeral name" from the two fixed tables; suit cards by Cards.SuitCardName and the face-rank lemmas below |
| Cards.Caption | vestnik.py:162 | the caption gets the card's name, the deck's display name, and the card's meaning from the deck's own table when present and non-empty, from "normal" otherwise |
| Cards.SuitCardName | vestnik.py:144-153 | a suit card is "rank suit", with the rank looked up in the deck's rank names and the suit in the deck's suit names |
| Cards.FaceRankUsesOverride | vestnik.py:149-153 | a face card (rank 10 and up) of a deck with a rank override takes its rank name from the override, at rank - 10 |
| Cards.FaceRankWithoutOverride | vestnik.py:148-153 | a suit card of a deck without a rank override takes the base rank name |
| Cards.PlainDeckSuitCardName | vestnik.py:144-153 | a suit card of a deck without overrides is "rank suit" from the base tables at (card - 22) % 14 and (card - 22) / 14 |
| Cards.MajorNameIgnoresDeck | vestnik.py:154-155 | a major card is named by numeral and name alone, the same in every deck |
| Cards.NumeralRanksIgnoreOverrides | vestnik.py:144-153 | a suit card of rank below 10 takes the base rank name whatever the deck |
| Cards.Card25 | vestnik.py:144-153 | card 25 is rank 3 of suit 0 |
| Broadcast.AfterDelivery | vestnik.py:165-168 | a delivery not answered Forbidden leaves the list as it is; a Forbidden one shortens a list holding the recipient by one |
| Broadcast.AfterDeliveryMultiset | vestnik.py:165-168 | a delivery takes away exactly one entry of its recipient when answered Forbidden, and nothing otherwise |
| Broadcast.PassEndsOnUncaughtError | vestnik.py:165-168 | a delivery ends the pass exactly when its last call failed with an error other than a network error or Forbidden; it removes the recipient exactly when that call was Forbidden |
| Broadcast.LivePass | vestnik.py:251-253 | the pass never grows the list; it visits the entry at its position first; past the end it visits nothing |
| Broadcast.SnapshotPassVisitsAll | vestnik.py:251-253 | the reference pass over a copy (SnapshotPass) attempts every id of the copy in order, or a non-empty prefix when an error ends it |
| Broadcast.LivePassWithoutBlocksVisitsAll | vestnik.py:251-253 | with no raised error every subscriber is attempted and the list is unchanged |
| Broadcast.LivePassOnlyRemoves | vestnik.py:165-168 | a pass only removes subscribers: no id gains an occurrence |
| Broadcast.LivePassVisitsSuffix | vestnik.py:251-253 | the live pass attempts only ids found at its starting position or later |
| Broadcast.LivePassKeepsUnvisited | vestnik.py:251-253 | a subscriber the pass does not attempt keeps every one of its entries |
| Broadcast.LivePassFirstRemoval | vestnik.py:165-168 | on a duplicate-free list the first recipient stays listed exactly when Telegram did not answer Forbidden |
| Broadcast.LivePassRemovesExactlyForbidden | vestnik.py:165-168 | on a duplicate-free list every attempted recipient stays listed exactly when its delivery was not answered Forbidden |
| Broadcast.RemovalShiftsTail | vestnik.py:252 | removing the id at position i moves every entry after position i + 1 one place forward |
| Broadcast.NextNeverVisited | vestnik.py:251-253 | on a duplicate-free list, the recipient right after one answered Forbidden is not attempted at all in that pass |
| Broadcast.LivePassKeepsConsistent | vestnik.py:165-168 | a pass keeps the list consistent with the channel |
| Broadcast.LivePassSkipsNextAfterBlocked | vestnik.py:251-253 | after a Forbidden recipient at position i the next one attempted is the old i + 2, also when the blocked id occurs earlier in the list |
| Broadcast.LivePassBlockedSecond | vestnik.py:251-253 | [A, B, C] with only B blocked: B is removed and C is never attempted |
| Broadcast.SnapshotPassBlockedSecond | vestnik.py:251-253 | over a copy, the same run attempts A, B and C and removes B |
| Broadcast.SendDailyCard | vestnik.py:132-168 | caption fields of the drawn card; the retry result; only Forbidden removes the recipient, exhausted retries change nothing |
| Broadcast.SendDailyMessage | vestnik.py:251-253 | the loop's final list, attempted recipients and abort flag are those of LivePass; the file is saved or untouched |
| Broadcast.SendDailyMessageSnapshot | vestnik.py:251-253 | corrected loop over a copy: result is that of SnapshotPass, and without an abort every starting subscriber is attempted |

## Left out

- Telegram calls (`send_photo`, `send_message`, `get_chat_member`, `get_chat`, `reply_text`, `query.answer`) are foreign I/O. They appear only as `Outcome` values. `get_chat(user_id)` is taken to return that same user.
- File I/O, JSON and `configparser` are external resources. Saving is the ghost `persisted` snapshot; the card data is a `CardData` value.
- A subscription file that exists but fails to parse is not modelled: it is JSON parsing.
- `random.randrange` and `random.choice` are randomness. They are the parameters `cardId`/`deckId` (and `cardIds`/`deckIds`) with range preconditions.
- `caption.format`, the photo path and the caption template are template text. Only the three substituted values are modelled (`Cards.Caption`).
- Cards.RankNames: the slice assignment `rank_names[10:] = ...` writes in place into a list decoded afresh on every call, so it is modelled as the value it produces.
- `start`, `stranger_reply`, `request_greet`, `unknown_command_handler`, `error_callback`, and `list_subscriber_names` send replies or log, and change no list.
- `send_test_card` (vestnik.py:256-257) is `Broadcast.SendDailyCard` on the caller's id, so a Forbidden answer removes the caller; the operator-only filter on its command is handler wiring.
- Handlers.TrackKeepsConsistent: the chat of a chat_member update is not checked by the code, so the lemma assumes every update comes from the channel; updates from other chats the bot administers can add duplicate entries.
- `button_handler` and `is_channel_member` are a transport query. The channel-member gate appears only as a precondition of `Handlers.SubscribeKeepsConsistent`.
- `main` is handler registration, scheduling and polling.
- Handlers.TrackChannelMembers: the greeting sent after a join (`start`) and the farewell sent after a leave are transport calls, so only the list effects are modelled.
- async/await and logging: update handlers run one at a time, so they are sequential methods and log calls are dropped.
- Broadcast.SendDailyMessage: the daily job (started by `run_daily`, vestnik.py:336-340) can interleave with update handlers at each await of a pass (`send_photo`, `get_chat`, the next `send_daily_card`); the model assumes no update is handled during a pass, so a join or removal made mid-pass by another handler is not captured.
- A `get_chat` that fails after a Forbidden delivery is not modelled: it is a transport error.

## Findings

| source | as written | input that shows it | evidently intended | confidence | as-written member | corrected member |
|---|---|---|---|---|---|---|
| vestnik.py:252 | `for user_id in daily_list` walks the live list while `send_daily_card` removes blocked recipients from it (vestnik.py:168) | subscribers [A, B, C], only B has blocked the bot: B is removed, then the loop reads position 2 of [A, C] and C is never attempted | every subscriber present at the start of the pass is attempted once (iterate a copy) | high; not executed | Broadcast.LivePassBlockedSecond | Broadcast.SendDailyMessageSnapshot |
