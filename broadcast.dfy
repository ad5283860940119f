/**
 * The daily broadcast: send_daily_card (vestnik.py:132-168) to one
 * recipient, and send_daily_message (vestnik.py:251-253), the scheduled
 * loop over the live subscriber list. The k-th delivery of a pass draws
 * card `cardIds(k)` from deck `deckIds(k)`, and its j-th Telegram call
 * ends in `transport(k)(j)`.
 */
module Broadcast {
  import opened Subscribers
  import opened Retry
  import opened Cards
  import opened Membership
  import opened Handlers

  /** The list after a pass, the recipients attempted in order, and whether an error ended the pass. */
  datatype PassResult = PassResult(list: seq<int>, visited: seq<int>, aborted: bool)

  /** The list after one send_daily_card to `id`: only a Forbidden delivery removes the recipient. */
  function AfterDelivery(s: seq<int>, id: int, result: RetryResult): (r: seq<int>)
    ensures result != Raised(Forbidden) ==> r == s
    ensures result == Raised(Forbidden) && id in s ==> |r| == |s| - 1
  {
    if result == Raised(Forbidden) then RemoveFirst(s, id) else s
  }

  /** A delivery takes away at most the one entry of its recipient, and only when answered Forbidden. */
  lemma AfterDeliveryMultiset(s: seq<int>, id: int, result: RetryResult)
    ensures multiset(AfterDelivery(s, id, result))
            == if result == Raised(Forbidden) then multiset(s) - multiset{id} else multiset(s)
  {
    RemoveFirstMultiset(s, id);
  }

  /** An error that send_daily_card does not catch ends the whole pass. */
  predicate EndsPass(result: RetryResult)
  {
    result.Raised? && result.error != Forbidden
  }

  /** A pass result with `done` attempted before it. */
  function After(done: seq<int>, p: PassResult): PassResult
  {
    PassResult(p.list, done + p.visited, p.aborted)
  }

  /**
   * Reference definition of `for user_id in daily_list` from position
   * `i`: the k-th visit reads the live list at position k, so a removal
   * shifts the next recipient into the position just visited.
   */
  function LivePass(s: seq<int>, i: nat, results: nat -> RetryResult): (p: PassResult)
    ensures |p.list| <= |s|
    ensures i < |s| ==> |p.visited| >= 1 && p.visited[0] == s[i]
    ensures i >= |s| ==> p.visited == [] && p.list == s
    decreases |s| - i
  {
    if i >= |s| then PassResult(s, [], false)
    else
      if EndsPass(results(i)) then PassResult(s, [s[i]], true)
      else
        var s' := AfterDelivery(s, s[i], results(i));
        var rest := LivePass(s', i + 1, results);
        After([s[i]], rest)
  }

  /**
   * Reference definition of a pass over a copy `ids` of the list taken
   * before the loop: the k-th visit goes to ids[k] whatever was removed.
   */
  function SnapshotPass(ids: seq<int>, s: seq<int>, i: nat, results: nat -> RetryResult): (p: PassResult)
    requires i <= |ids|
    decreases |ids| - i
  {
    if i == |ids| then PassResult(s, [], false)
    else if EndsPass(results(i)) then PassResult(s, [ids[i]], true)
    else After([ids[i]], SnapshotPass(ids, AfterDelivery(s, ids[i], results(i)), i + 1, results))
  }

  /**
   * The pass over a copy attempts every id of the copy from position `i`
   * on, in order, or, when an error ends it, a non-empty prefix of them.
   */
  lemma {:induction false} SnapshotPassVisitsAll(ids: seq<int>, s: seq<int>, i: nat, results: nat -> RetryResult)
    requires i <= |ids|
    ensures var p := SnapshotPass(ids, s, i, results);
            (!p.aborted ==> p.visited == ids[i..]) &&
            (p.aborted ==> 0 < |p.visited| <= |ids| - i && p.visited == ids[i..i + |p.visited|])
    decreases |ids| - i
  {
    if i < |ids| && !EndsPass(results(i)) {
      SnapshotPassVisitsAll(ids, AfterDelivery(s, ids[i], results(i)), i + 1, results);
      assert ids[i..] == [ids[i]] + ids[i + 1..];
    }
  }

  /**
   * Of the errors a delivery can end in, only those outside NetworkError
   * and Forbidden end the pass; a Forbidden answer is the only one that
   * removes the recipient.
   */
  lemma PassEndsOnUncaughtError(attempt: nat -> Outcome)
    ensures var run := RetryFrom(attempt, 0);
            (EndsPass(run.result) <==> attempt(run.calls - 1) == OtherError) &&
            (run.result == Raised(Forbidden) <==> attempt(run.calls - 1) == Forbidden)
  {
  }

  /** The result of the retry wrapper on each visit of a pass. */
  function Deliveries(transport: nat -> nat -> Outcome): nat -> RetryResult
  {
    (k: nat) => RetryFrom(transport(k), 0).result
  }

  /** With no blocked recipient and no other error, the live pass attempts everyone and changes nothing. */
  lemma {:induction false} LivePassWithoutBlocksVisitsAll(s: seq<int>, i: nat, results: nat -> RetryResult)
    requires i <= |s|
    requires forall k :: !results(k).Raised?
    ensures LivePass(s, i, results) == PassResult(s, s[i..], false)
    decreases |s| - i
  {
    if i < |s| {
      LivePassWithoutBlocksVisitsAll(s, i + 1, results);
      assert s[i..] == [s[i]] + s[i + 1..];
    }
  }

  /** A pass only ever removes subscribers: nothing is added and no id gains an occurrence. */
  lemma {:induction false} LivePassOnlyRemoves(s: seq<int>, i: nat, results: nat -> RetryResult)
    ensures multiset(LivePass(s, i, results).list) <= multiset(s)
    decreases |s| - i
  {
    if i < |s| && !EndsPass(results(i)) {
      RemoveFirstMultiset(s, s[i]);
      LivePassOnlyRemoves(AfterDelivery(s, s[i], results(i)), i + 1, results);
    }
  }

  /** The removals of a pass keep the list consistent with the channel. */
  lemma {:induction false} LivePassKeepsConsistent(s: seq<int>, i: nat, results: nat -> RetryResult,
                                                   status: map<int, ChatStatus>)
    requires Consistent(s, status)
    ensures Consistent(LivePass(s, i, results).list, status)
    decreases |s| - i
  {
    if i < |s| && !EndsPass(results(i)) {
      if results(i) == Raised(Forbidden) {
        RemovalKeepsConsistent(s, status, s[i]);
      }
      LivePassKeepsConsistent(AfterDelivery(s, s[i], results(i)), i + 1, results, status);
    }
  }

  /** Cutting position f out of a list moves every entry after position i + 1, f <= i, one place forward. */
  lemma CutTail(s: seq<int>, f: nat, i: nat)
    requires f <= i && i + 2 <= |s|
    ensures (s[..f] + s[f + 1..])[i + 1..] == s[i + 2..]
  {
    var tail := (s[..f] + s[f + 1..])[i + 1..];
    assert forall k :: 0 <= k < |tail| ==> tail[k] == s[i + 2 + k];
  }

  /** Removing the id at position i leaves the entries after position i + 1 in place, one step forward. */
  lemma RemovalShiftsTail(s: seq<int>, i: nat)
    requires i + 2 <= |s|
    ensures RemoveFirst(s, s[i])[i + 1..] == s[i + 2..]
  {
    RemoveFirstSplices(s, s[i]);
    assert FirstIndex(s, s[i]) <= i;
    CutTail(s, FirstIndex(s, s[i]), i);
  }

  /** The live pass attempts only ids found at its position or later. */
  lemma {:induction false} LivePassVisitsSuffix(s: seq<int>, i: nat, results: nat -> RetryResult)
    ensures i <= |s| ==> forall y :: y in LivePass(s, i, results).visited ==> y in s[i..]
    decreases |s| - i
  {
    if i < |s| && !EndsPass(results(i)) {
      var s' := AfterDelivery(s, s[i], results(i));
      LivePassVisitsSuffix(s', i + 1, results);
      LivePassStep(s, i, results);
      if results(i) != Raised(Forbidden) {
        assert s[i..] == [s[i]] + s[i + 1..];
      } else if i + 2 <= |s| {
        RemovalShiftsTail(s, i);
        assert s[i..] == [s[i], s[i + 1]] + s[i + 2..];
      }
    }
  }

  /** A subscriber the live pass does not attempt keeps every one of its entries. */
  lemma {:induction false} LivePassKeepsUnvisited(s: seq<int>, i: nat, results: nat -> RetryResult)
    ensures forall y :: y !in LivePass(s, i, results).visited ==>
              multiset(LivePass(s, i, results).list)[y] == multiset(s)[y]
    decreases |s| - i
  {
    if i < |s| && !EndsPass(results(i)) {
      LivePassKeepsUnvisited(AfterDelivery(s, s[i], results(i)), i + 1, results);
      LivePassStep(s, i, results);
      AfterDeliveryMultiset(s, s[i], results(i));
    }
  }

  /** In a list without duplicates, the entry at position i is not found later. */
  lemma NotFoundLater(s: seq<int>, i: nat)
    requires NoDuplicates(s) && i < |s|
    ensures s[i] !in s[i + 1..]
  {
    var later := s[i + 1..];
    assert forall j :: 0 <= j < |later| ==> later[j] == s[i + 1 + j];
  }

  /** The first recipient of the live pass stays listed exactly when Telegram did not answer Forbidden. */
  lemma LivePassFirstRemoval(s: seq<int>, i: nat, results: nat -> RetryResult)
    requires NoDuplicates(s) && i < |s|
    ensures s[i] in LivePass(s, i, results).list <==> results(i) != Raised(Forbidden)
  {
    if EndsPass(results(i)) {
    } else if results(i) == Raised(Forbidden) {
      var s' := AfterDelivery(s, s[i], results(i));
      RemoveFirstNoDuplicates(s, s[i]);
      LivePassOnlyRemoves(s', i + 1, results);
      LivePassStep(s, i, results);
      assert multiset(s')[s[i]] == 0;
    } else {
      LivePassStep(s, i, results);
      LivePassVisitsSuffix(s, i + 1, results);
      NotFoundLater(s, i);
      LivePassKeepsUnvisited(s, i + 1, results);
      assert multiset(s)[s[i]] > 0;
    }
  }

  /** The k-th recipient of a pass starting at position i is still listed exactly when results(i + k) is not Forbidden. */
  predicate RemovedExactlyForbidden(p: PassResult, i: nat, results: nat -> RetryResult)
  {
    forall k :: 0 <= k < |p.visited| ==> (p.visited[k] in p.list <==> results(i + k) != Raised(Forbidden))
  }

  /** The removal property carried from the rest of a pass to the pass with one more recipient in front. */
  lemma RemovedExactlyForbiddenCons(x: int, rest: PassResult, i: nat, results: nat -> RetryResult)
    requires RemovedExactlyForbidden(rest, i + 1, results)
    requires x in rest.list <==> results(i) != Raised(Forbidden)
    ensures RemovedExactlyForbidden(After([x], rest), i, results)
  {
    var p := After([x], rest);
    forall k | 1 <= k < |p.visited|
      ensures p.visited[k] in p.list <==> results(i + k) != Raised(Forbidden)
    {
      assert p.visited[k] == rest.visited[k - 1] && i + k == (i + 1) + (k - 1);
    }
  }

  /**
   * On a list without duplicates, the k-th recipient attempted by the live
   * pass leaves the list exactly when its delivery was answered Forbidden.
   */
  lemma {:induction false} LivePassRemovesExactlyForbidden(s: seq<int>, i: nat, results: nat -> RetryResult)
    requires NoDuplicates(s)
    ensures RemovedExactlyForbidden(LivePass(s, i, results), i, results)
    decreases |s| - i
  {
    if i < |s| {
      LivePassFirstRemoval(s, i, results);
      if !EndsPass(results(i)) {
        var s' := AfterDelivery(s, s[i], results(i));
        if results(i) == Raised(Forbidden) {
          RemoveFirstNoDuplicates(s, s[i]);
        }
        LivePassStep(s, i, results);
        LivePassRemovesExactlyForbidden(s', i + 1, results);
        RemovedExactlyForbiddenCons(s[i], LivePass(s', i + 1, results), i, results);
      }
    }
  }

  /**
   * As written, the live pass never attempts the recipient right after a
   * blocked one: removing position i moves position i + 1 into it, and
   * the next visit reads position i + 1, the old i + 2.
   */
  lemma {:induction false} LivePassSkipsNextAfterBlocked(s: seq<int>, i: nat, results: nat -> RetryResult)
    requires i + 2 < |s|
    requires results(i) == Raised(Forbidden)
    ensures |LivePass(s, i, results).visited| >= 2
    ensures LivePass(s, i, results).visited[..2] == [s[i], s[i + 2]]
  {
    RemovalShiftsTail(s, i);
    LivePassStep(s, i, results);
  }

  /** On a list without duplicates, the recipient right after a blocked one is not attempted at all in that pass. */
  lemma NextNeverVisited(s: seq<int>, i: nat, results: nat -> RetryResult)
    requires NoDuplicates(s) && i + 1 < |s|
    requires results(i) == Raised(Forbidden)
    ensures s[i + 1] !in LivePass(s, i, results).visited
  {
    var s' := RemoveFirst(s, s[i]);
    LivePassStep(s, i, results);
    LivePassVisitsSuffix(s', i + 1, results);
    if i + 2 < |s| {
      RemovalShiftsTail(s, i);
      NotFoundLater(s, i + 1);
    }
    assert s[i + 1] != s[i];
  }

  /** One visit of the live pass that does not end it. */
  lemma LivePassStep(s: seq<int>, i: nat, results: nat -> RetryResult)
    requires i < |s| && !EndsPass(results(i))
    ensures LivePass(s, i, results) == After([s[i]], LivePass(AfterDelivery(s, s[i], results(i)), i + 1, results))
  {
  }

  /** One visit of the pass over a copy that does not end it. */
  lemma SnapshotPassStep(ids: seq<int>, s: seq<int>, i: nat, results: nat -> RetryResult)
    requires i < |ids| && !EndsPass(results(i))
    ensures SnapshotPass(ids, s, i, results)
            == After([ids[i]], SnapshotPass(ids, AfterDelivery(s, ids[i], results(i)), i + 1, results))
  {
  }

  /** The loop invariant of send_daily_message carried over one visit that does not end the pass. */
  lemma LiveLoopStep(orig: seq<int>, done: seq<int>, s: seq<int>, i: nat, results: nat -> RetryResult)
    requires LivePass(orig, 0, results) == After(done, LivePass(s, i, results))
    requires i < |s|
    ensures EndsPass(results(i)) ==> LivePass(orig, 0, results) == PassResult(s, done + [s[i]], true)
    ensures !EndsPass(results(i)) ==>
              LivePass(orig, 0, results)
              == After(done + [s[i]], LivePass(AfterDelivery(s, s[i], results(i)), i + 1, results))
  {
    if !EndsPass(results(i)) {
      LivePassStep(s, i, results);
      var rest := LivePass(AfterDelivery(s, s[i], results(i)), i + 1, results);
      assert done + ([s[i]] + rest.visited) == (done + [s[i]]) + rest.visited;
    }
  }

  /** The loop invariant of the pass over a copy carried over one visit that does not end the pass. */
  lemma SnapshotLoopStep(ids: seq<int>, done: seq<int>, s: seq<int>, i: nat, results: nat -> RetryResult)
    requires i < |ids|
    requires SnapshotPass(ids, ids, 0, results) == After(done, SnapshotPass(ids, s, i, results))
    ensures EndsPass(results(i)) ==> SnapshotPass(ids, ids, 0, results) == PassResult(s, done + [ids[i]], true)
    ensures !EndsPass(results(i)) ==>
              SnapshotPass(ids, ids, 0, results)
              == After(done + [ids[i]], SnapshotPass(ids, AfterDelivery(s, ids[i], results(i)), i + 1, results))
  {
    if !EndsPass(results(i)) {
      SnapshotPassStep(ids, s, i, results);
      var rest := SnapshotPass(ids, AfterDelivery(s, ids[i], results(i)), i + 1, results);
      assert done + ([ids[i]] + rest.visited) == (done + [ids[i]]) + rest.visited;
    }
  }

  /** The loop over a copy, run to the end without an abort, has attempted the whole copy. */
  lemma SnapshotLoopEnd(ids: seq<int>, done: seq<int>, s: seq<int>, results: nat -> RetryResult)
    requires SnapshotPass(ids, ids, 0, results) == After(done, SnapshotPass(ids, s, |ids|, results))
    ensures SnapshotPass(ids, ids, 0, results) == PassResult(s, done, false)
    ensures done == ids
  {
    assert done + [] == done;
    SnapshotPassVisitsAll(ids, ids, 0, results);
    assert ids[0..] == ids;
  }

  /** Removing the middle one of three distinct ids. */
  lemma RemoveMiddle(a: int, b: int, c: int)
    requires a != b && b != c && a != c
    ensures RemoveFirst([a, b, c], b) == [a, c]
  {
    assert [a, b, c][1..] == [b, c];
  }

  /**
   * Subscribers [A, B, C] where only B has blocked the bot: the live pass
   * removes B and never attempts C.
   */
  lemma LivePassBlockedSecond(a: int, b: int, c: int, results: nat -> RetryResult)
    requires a != b && b != c && a != c
    requires results(0) == Returned && results(1) == Raised(Forbidden) && results(2) == Returned
    ensures LivePass([a, b, c], 0, results) == PassResult([a, c], [a, b], false)
  {
    RemoveMiddle(a, b, c);
    LivePassStep([a, b, c], 0, results);
    LivePassStep([a, b, c], 1, results);
  }

  /** The same subscribers and deliveries, passed over a copy: all three are attempted and B is removed. */
  lemma SnapshotPassBlockedSecond(a: int, b: int, c: int, results: nat -> RetryResult)
    requires a != b && b != c && a != c
    requires results(0) == Returned && results(1) == Raised(Forbidden) && results(2) == Returned
    ensures SnapshotPass([a, b, c], [a, b, c], 0, results) == PassResult([a, c], [a, b, c], false)
  {
    RemoveMiddle(a, b, c);
    SnapshotPassStep([a, b, c], [a, b, c], 0, results);
    SnapshotPassStep([a, b, c], [a, b, c], 1, results);
    SnapshotPassStep([a, b, c], [a, c], 2, results);
  }

  /**
   * send_daily_card: name the drawn card, deliver it through the retry
   * wrapper, and remove the recipient when Telegram answers Forbidden.
   * Any other raised error is handed back to the caller.
   */
  method SendDailyCard(store: SubscriberStore, data: CardData, id: int, cardId: nat, deckId: string,
                       attempt: nat -> Outcome)
    returns (caption: CaptionFields, result: RetryResult)
    requires ValidData(data) && cardId < CardCount && deckId in data.decks && HasMeanings(data, deckId)
    modifies store
    ensures caption == Caption(data, cardId, deckId)
    ensures result == RetryFrom(attempt, 0).result
    ensures store.dailyList == AfterDelivery(old(store.dailyList), id, result)
    ensures result == Raised(Forbidden) && id in old(store.dailyList) ==> store.Synced()
    ensures result != Raised(Forbidden) || id !in old(store.dailyList) ==>
              store.dailyList == old(store.dailyList) && store.persisted == old(store.persisted)
  {
    caption := Caption(data, cardId, deckId);
    var calls;
    result, calls := RetryOnNetworkError(attempt);
    if result == Raised(Forbidden) {
      store.RemoveBlockedUser(id);
    }
  }

  /**
   * send_daily_message as written: a for loop over the live list, whose
   * iterator reads position i of the list as it is at that moment.
   */
  method SendDailyMessage(store: SubscriberStore, data: CardData, cardIds: nat -> nat, deckIds: nat -> string,
                          transport: nat -> nat -> Outcome)
    returns (visited: seq<int>, aborted: bool)
    requires ValidData(data)
    requires forall k :: cardIds(k) < CardCount
    requires forall k :: deckIds(k) in data.decks && HasMeanings(data, deckIds(k))
    modifies store
    ensures LivePass(old(store.dailyList), 0, Deliveries(transport)) == PassResult(store.dailyList, visited, aborted)
    ensures store.Synced() || (store.dailyList == old(store.dailyList) && store.persisted == old(store.persisted))
  {
    var i := 0;
    visited, aborted := [], false;
    while i < |store.dailyList|
      invariant LivePass(old(store.dailyList), 0, Deliveries(transport)) == After(visited, LivePass(store.dailyList, i, Deliveries(transport)))
      invariant store.Synced() || (store.dailyList == old(store.dailyList) && store.persisted == old(store.persisted))
      decreases |store.dailyList| - i
    {
      ghost var before, done := store.dailyList, visited;
      var id := store.dailyList[i];
      LiveLoopStep(old(store.dailyList), done, before, i, Deliveries(transport));
      var caption, result := SendDailyCard(store, data, id, cardIds(i), deckIds(i), transport(i));
      assert result == Deliveries(transport)(i);
      visited := visited + [id];
      if EndsPass(result) {
        aborted := true;
        return;
      }
      i := i + 1;
    }
  }

  /** send_daily_message over a copy of the list: every subscriber present at the start is attempted once. */
  method SendDailyMessageSnapshot(store: SubscriberStore, data: CardData, cardIds: nat -> nat,
                                  deckIds: nat -> string, transport: nat -> nat -> Outcome)
    returns (visited: seq<int>, aborted: bool)
    requires ValidData(data)
    requires forall k :: cardIds(k) < CardCount
    requires forall k :: deckIds(k) in data.decks && HasMeanings(data, deckIds(k))
    modifies store
    ensures SnapshotPass(old(store.dailyList), old(store.dailyList), 0, Deliveries(transport))
            == PassResult(store.dailyList, visited, aborted)
    ensures !aborted ==> visited == old(store.dailyList)
    ensures store.Synced() || (store.dailyList == old(store.dailyList) && store.persisted == old(store.persisted))
  {
    var ids := store.dailyList;
    var i := 0;
    visited, aborted := [], false;
    while i < |ids|
      invariant i <= |ids|
      invariant SnapshotPass(ids, ids, 0, Deliveries(transport)) == After(visited, SnapshotPass(ids, store.dailyList, i, Deliveries(transport)))
      invariant store.Synced() || (store.dailyList == ids && store.persisted == old(store.persisted))
    {
      ghost var before, done := store.dailyList, visited;
      SnapshotLoopStep(ids, done, before, i, Deliveries(transport));
      var caption, result := SendDailyCard(store, data, ids[i], cardIds(i), deckIds(i), transport(i));
      assert result == Deliveries(transport)(i);
      visited := visited + [ids[i]];
      if EndsPass(result) {
        aborted := true;
        return;
      }
      i := i + 1;
    }
    SnapshotLoopEnd(ids, visited, store.dailyList, Deliveries(transport));
  }
}
