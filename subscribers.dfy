/**
 * The subscriber store: the bot's one process-wide list of chat ids that
 * receive the daily card (vestnik.py:36), changed only by add_user,
 * remove_user and remove_blocked_user, each of which rewrites the whole
 * list to the subscription file afterwards.
 */
module Subscribers {
  import opened Optional

  /** Position of the first occurrence of `x` in `s`, where Python's `list.remove` strikes. */
  function FirstIndex(s: seq<int>, x: int): (i: nat)
    requires x in s
    ensures i < |s| && s[i] == x
    ensures x !in s[..i]
  {
    if s[0] == x then 0
    else
      var i := FirstIndex(s[1..], x);
      assert s[..i + 1] == [s[0]] + s[1..][..i];
      i + 1
  }

  /**
   * Python's `list.remove(x)` scanning from the front: drops the first
   * occurrence of `x` (the caller only calls it when `x` is present) and
   * leaves a list without `x` as it is.
   */
  function RemoveFirst(s: seq<int>, x: int): (r: seq<int>)
    ensures x in s ==> |r| == |s| - 1
    ensures x !in s ==> r == s
  {
    if s == [] then []
    else if s[0] == x then s[1..]
    else [s[0]] + RemoveFirst(s[1..], x)
  }

  /** Removing `x` takes exactly one occurrence of `x` away when there is one, and nothing else. */
  lemma {:induction false} RemoveFirstMultiset(s: seq<int>, x: int)
    ensures multiset(RemoveFirst(s, x)) == multiset(s) - multiset{x}
  {
    if s != [] {
      assert s == [s[0]] + s[1..];
      if s[0] != x {
        RemoveFirstMultiset(s[1..], x);
      }
    }
  }

  /** Putting the head back in front of a list with position `i` of its tail cut out. */
  lemma ConsCut(s: seq<int>, i: nat)
    requires i + 1 < |s|
    ensures [s[0]] + (s[1..][..i] + s[1..][i + 1..]) == s[..i + 1] + s[i + 2..]
  {
    assert s[1..][..i] == s[1..i + 1] && s[1..][i + 1..] == s[i + 2..];
    assert [s[0]] + s[1..i + 1] == s[..i + 1];
  }

  /** Removing a present id cuts out exactly its first occurrence and keeps the rest in order. */
  lemma {:induction false} RemoveFirstSplices(s: seq<int>, x: int)
    requires x in s
    ensures RemoveFirst(s, x) == s[..FirstIndex(s, x)] + s[FirstIndex(s, x) + 1..]
  {
    if s[0] == x {
      assert s[..0] + s[1..] == s[1..];
    } else {
      RemoveFirstSplices(s[1..], x);
      ConsCut(s, FirstIndex(s[1..], x));
    }
  }

  /** Removing an id just appended to a list that did not hold it gives the list back. */
  lemma {:induction false} AddThenRemove(s: seq<int>, x: int)
    requires x !in s
    ensures RemoveFirst(s + [x], x) == s
  {
    if s != [] {
      assert (s + [x])[1..] == s[1..] + [x];
      AddThenRemove(s[1..], x);
    }
  }

  /** No id occurs twice. */
  predicate NoDuplicates(s: seq<int>)
  {
    forall j, k :: 0 <= j < k < |s| ==> s[j] != s[k]
  }

  /** Removing `x` keeps every other id and brings in none. */
  lemma RemoveFirstMembers(s: seq<int>, x: int)
    ensures forall y :: y in RemoveFirst(s, x) ==> y in s
    ensures forall y :: y != x ==> (y in RemoveFirst(s, x) <==> y in s)
  {
    RemoveFirstMultiset(s, x);
    var r := RemoveFirst(s, x);
    forall y
      ensures y in r ==> y in s
      ensures y != x ==> (y in r <==> y in s)
    {
      assert y in r <==> multiset(r)[y] > 0;
      assert y in s <==> multiset(s)[y] > 0;
    }
  }

  /** Cutting position `i` out of a list without duplicates leaves no trace of `s[i]` and no duplicate. */
  lemma CutNoDuplicates(s: seq<int>, i: nat)
    requires NoDuplicates(s) && i < |s|
    ensures s[i] !in s[..i] + s[i + 1..]
    ensures NoDuplicates(s[..i] + s[i + 1..])
  {
    var r := s[..i] + s[i + 1..];
    assert forall k :: 0 <= k < |r| ==> r[k] == s[if k < i then k else k + 1];
  }

  /** On a list without duplicates, removing an id removes it altogether and adds no duplicate. */
  lemma RemoveFirstNoDuplicates(s: seq<int>, x: int)
    requires NoDuplicates(s)
    ensures x !in RemoveFirst(s, x)
    ensures NoDuplicates(RemoveFirst(s, x))
  {
    if x in s {
      RemoveFirstSplices(s, x);
      CutNoDuplicates(s, FirstIndex(s, x));
    }
  }

  /**
   * The store. `dailyList` is `daily_list`; the ghost `persisted` is the
   * content of the subscription file: `None` while the file does not exist.
   */
  class SubscriberStore {
    var dailyList: seq<int>
    ghost var persisted: Option<seq<int>>

    /** The file holds exactly the in-memory list. */
    ghost predicate Synced()
      reads this
    {
      persisted == Some(dailyList)
    }

    /**
     * load_daily_list as main calls it: the stored list when the file
     * exists, an empty list (and no file) when it does not.
     */
    constructor Load(stored: Option<seq<int>>)
      ensures dailyList == (if stored.Some? then stored.value else [])
      ensures persisted == stored
      ensures stored.Some? ==> Synced()
    {
      dailyList := if stored.Some? then stored.value else [];
      persisted := stored;
    }

    /** save_daily_list: a full-snapshot overwrite of the file with the list. */
    method Save()
      modifies this
      ensures dailyList == old(dailyList)
      ensures Synced()
    {
      persisted := Some(dailyList);
    }

    /** add_user: appends without looking for a duplicate, then saves. */
    method AddUser(id: int)
      modifies this
      ensures dailyList == old(dailyList) + [id]
      ensures |dailyList| == |old(dailyList)| + 1
      ensures dailyList[..|old(dailyList)|] == old(dailyList)
      ensures Synced()
    {
      dailyList := dailyList + [id];
      Save();
    }

    /**
     * remove_user: nothing at all happens for an absent id; a present id
     * loses its first occurrence and the list is saved.
     */
    method RemoveUser(id: int)
      modifies this
      ensures id !in old(dailyList) ==> dailyList == old(dailyList) && persisted == old(persisted)
      ensures id in old(dailyList) ==>
                dailyList == old(dailyList)[..FirstIndex(old(dailyList), id)]
                             + old(dailyList)[FirstIndex(old(dailyList), id) + 1..]
                && Synced()
      ensures dailyList == RemoveFirst(old(dailyList), id)
    {
      if id !in dailyList {
        return;
      }
      RemoveFirstSplices(dailyList, id);
      dailyList := RemoveFirst(dailyList, id);
      Save();
    }

    /** remove_blocked_user: the same list effect as remove_user (it only logs first). */
    method RemoveBlockedUser(id: int)
      modifies this
      ensures dailyList == RemoveFirst(old(dailyList), id)
      ensures id !in old(dailyList) ==> persisted == old(persisted)
      ensures id in old(dailyList) ==> Synced()
    {
      RemoveUser(id);
    }
  }
}
