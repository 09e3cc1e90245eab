/**
 * The read-notice bookkeeping kept in the browser's local storage: one list
 * of read notice ids per user (a shared fallback list when no user is known),
 * marking one or many notices read, unread counts and filters, clearing and
 * pruning.
 */
module NoticeStorage {
  import Basics
  import opened JsValues

  /** A stored item as JSON.parse sees it. */
  datatype Entry = Unparseable | Json(value: JsValue)

  /** A stored read list: the id array, or text JSON.parse rejects. */
  datatype ReadList = Corrupt | Ids(ids: seq<int>)

  /** The part of local storage the utilities use. */
  class LocalStorage {
    /** 'user-info'; None when missing or empty. */
    var userInfo: Basics.Option<Entry>
    /** The read lists, by storage key. */
    var readLists: map<string, ReadList>

    constructor (userInfo: Basics.Option<Entry>, readLists: map<string, ReadList>)
      ensures this.userInfo == userInfo && this.readLists == readLists
    {
      this.userInfo := userInfo;
      this.readLists := readLists;
    }
  }

  const FallbackKey := "notice_read_list"

  /** `user?.user?.userId || user?.userId`. */
  function UserId(user: JsValue): JsValue {
    Or(Prop(Prop(user, "user"), "userId"), Prop(user, "userId"))
  }

  /** `getUserStorageKey`: a per-user key when user-info parses and carries a truthy id, else the shared one. */
  function StorageKey(userInfo: Basics.Option<Entry>): (key: string)
    ensures (userInfo.Some? && userInfo.value.Json? && Truthy(UserId(userInfo.value.value))) ==>
              key == FallbackKey + "_" + Text(UserId(userInfo.value.value))
    ensures !(userInfo.Some? && userInfo.value.Json? && Truthy(UserId(userInfo.value.value))) ==>
              key == FallbackKey
  {
    if userInfo.Some? && userInfo.value.Json? && Truthy(UserId(userInfo.value.value)) then
      "notice_read_list_" + Text(UserId(userInfo.value.value))
    else FallbackKey
  }

  /** A user-info record holding only a nested `user.userId`, or only a top-level `userId`, gives the same key. */
  lemma NestedIdFirst(id: JsValue, other: JsValue)
    requires Truthy(id)
    ensures var nested := JObj(map["user" := JObj(map["userId" := id]), "userId" := other]);
      StorageKey(Basics.Some(Json(nested))) == StorageKey(Basics.Some(Json(JObj(map["userId" := id]))))
  {
  }

  function Key(store: LocalStorage): string
    reads store
  {
    StorageKey(store.userInfo)
  }

  /** `getReadNoticeIds` on a given storage state: the stored list, or [] when missing or unparseable. */
  function StoredIds(userInfo: Basics.Option<Entry>, readLists: map<string, ReadList>): (ids: seq<int>)
    ensures StorageKey(userInfo) in readLists && readLists[StorageKey(userInfo)].Ids? ==>
              ids == readLists[StorageKey(userInfo)].ids
    ensures !(StorageKey(userInfo) in readLists && readLists[StorageKey(userInfo)].Ids?) ==> ids == []
  {
    var key := StorageKey(userInfo);
    if key in readLists && readLists[key].Ids? then readLists[key].ids else []
  }

  /** `getReadNoticeIds`. */
  function ReadNoticeIds(store: LocalStorage): seq<int>
    reads store
  {
    StoredIds(store.userInfo, store.readLists)
  }

  predicate NoDuplicates(s: seq<int>) {
    forall i, j :: 0 <= i < j < |s| ==> s[i] != s[j]
  }

  /** Every stored read list is duplicate-free. */
  ghost predicate Valid(store: LocalStorage)
    reads store
  {
    forall k :: k in store.readLists && store.readLists[k].Ids? ==> NoDuplicates(store.readLists[k].ids)
  }

  // ---------------------------------------------------------------- marking

  /** The list after marking `id` read: appended only when absent. */
  function WithRead(ids: seq<int>, id: int): (r: seq<int>)
    ensures id in r && (forall x :: x in r <==> x in ids || x == id)
    ensures id in ids ==> r == ids
    ensures id !in ids ==> r == ids + [id]
    ensures NoDuplicates(ids) ==> NoDuplicates(r)
  {
    if id in ids then ids else ids + [id]
  }

  /** Marking the same notice twice is the same as marking it once. */
  lemma MarkIdempotent(ids: seq<int>, id: int)
    ensures WithRead(WithRead(ids, id), id) == WithRead(ids, id)
  {
  }

  /** `markNoticeAsRead`: the notice is appended to the user's list unless already there. */
  method MarkNoticeAsRead(store: LocalStorage, noticeId: int)
    requires Valid(store)
    modifies store`readLists
    ensures Valid(store)
    ensures old(ReadNoticeIds(store)) == ReadNoticeIds(store) ==> noticeId in old(ReadNoticeIds(store))
    ensures noticeId in old(ReadNoticeIds(store)) ==> store.readLists == old(store.readLists)
    ensures noticeId !in old(ReadNoticeIds(store)) ==>
              store.readLists == old(store.readLists)[Key(store) := Ids(old(ReadNoticeIds(store)) + [noticeId])]
    ensures ReadNoticeIds(store) == WithRead(old(ReadNoticeIds(store)), noticeId)
  {
    var readIds := ReadNoticeIds(store);
    if noticeId !in readIds {
      readIds := readIds + [noticeId];
      var storageKey := Key(store);
      store.readLists := store.readLists[storageKey := Ids(readIds)];
    }
  }

  /** `[...new Set(s)]`: the distinct values of `s`, in order of first occurrence. */
  function Distinct(s: seq<int>): (r: seq<int>)
    ensures NoDuplicates(r)
    ensures forall x :: x in r <==> x in s
    ensures |r| <= |s|
  {
    if s == [] then [] else WithRead(Distinct(s[..|s| - 1]), s[|s| - 1])
  }

  /** The position of the first occurrence of `x`. */
  function FirstIndex(s: seq<int>, x: int): (i: nat)
    requires x in s
    ensures i < |s| && s[i] == x && x !in s[..i]
  {
    if s[0] == x then 0 else
      var k := FirstIndex(s[1..], x);
      assert s[1..][..k] == s[1..k + 1];
      k + 1
  }

  /** A prefix of `s` first shows `x` where `s` does. */
  lemma FirstIndexOfPrefix(s: seq<int>, n: nat, x: int)
    requires n <= |s| && x in s[..n]
    ensures FirstIndex(s[..n], x) == FirstIndex(s, x)
  {
    var i, j := FirstIndex(s[..n], x), FirstIndex(s, x);
    assert s[..n][..i] == s[..i];
    assert s[..n][i] == s[i];
  }

  /** `Distinct` lists the values in the order in which `s` first shows them. */
  lemma {:induction false} DistinctInFirstOccurrenceOrder(s: seq<int>, i: nat, j: nat)
    requires i < j < |Distinct(s)|
    ensures FirstIndex(s, Distinct(s)[i]) < FirstIndex(s, Distinct(s)[j])
  {
    var init := s[..|s| - 1];
    var last := s[|s| - 1];
    var d := Distinct(init);
    if last !in d && j == |d| {
      var x := Distinct(s)[i];
      assert x == d[i] && x in init;
      FirstIndexOfPrefix(s, |s| - 1, x);
      assert last !in init;
      assert s[..|s| - 1] == init;
    } else {
      assert Distinct(s)[i] == d[i] && Distinct(s)[j] == d[j];
      DistinctInFirstOccurrenceOrder(init, i, j);
      FirstIndexOfPrefix(s, |s| - 1, d[i]);
      FirstIndexOfPrefix(s, |s| - 1, d[j]);
    }
  }

  /** Marking ids one at a time: the fold of `WithRead`. */
  function MarkedOneByOne(ids: seq<int>, more: seq<int>): (r: seq<int>)
    decreases |more|
  {
    if more == [] then ids else WithRead(MarkedOneByOne(ids, more[..|more| - 1]), more[|more| - 1])
  }

  /** For a duplicate-free stored list, the batch mark equals marking each notice in turn. */
  lemma {:induction false} BatchIsOneByOne(ids: seq<int>, more: seq<int>)
    requires NoDuplicates(ids)
    ensures Distinct(ids + more) == MarkedOneByOne(ids, more)
    decreases |more|
  {
    if more == [] {
      assert ids + more == ids;
      DistinctOfDistinct(ids);
    } else {
      var init := more[..|more| - 1];
      assert (ids + more)[..|ids + more| - 1] == ids + init;
      BatchIsOneByOne(ids, init);
    }
  }

  /** A duplicate-free list is its own `Distinct`. */
  lemma {:induction false} DistinctOfDistinct(s: seq<int>)
    requires NoDuplicates(s)
    ensures Distinct(s) == s
  {
    if s != [] {
      var init := s[..|s| - 1];
      DistinctOfDistinct(init);
      assert forall k :: 0 <= k < |init| ==> init[k] == s[k];
      assert init + [s[|s| - 1]] == s;
    }
  }

  /** `markNoticesAsRead`: the stored list becomes the distinct union of old and new ids, old ones first. */
  method MarkNoticesAsRead(store: LocalStorage, noticeIds: seq<int>)
    requires Valid(store)
    modifies store`readLists
    ensures Valid(store)
    ensures store.readLists == old(store.readLists)[Key(store) := Ids(Distinct(old(ReadNoticeIds(store)) + noticeIds))]
    ensures ReadNoticeIds(store) == MarkedOneByOne(old(ReadNoticeIds(store)), noticeIds)
  {
    var readIds := ReadNoticeIds(store);
    assert NoDuplicates(readIds);
    BatchIsOneByOne(readIds, noticeIds);
    var newReadIds := Distinct(readIds + noticeIds);
    var storageKey := Key(store);
    store.readLists := store.readLists[storageKey := Ids(newReadIds)];
  }

  // ---------------------------------------------------------------- queries

  /** `isNoticeRead`. */
  predicate IsNoticeRead(store: LocalStorage, noticeId: int)
    reads store
  {
    noticeId in ReadNoticeIds(store)
  }

  /** A notice as the list passes it; `noticeId` may be missing. */
  datatype Notice = Notice(noticeId: Basics.Option<int>, title: string)

  predicate Unread(readIds: seq<int>, n: Notice) {
    !(n.noticeId.Some? && n.noticeId.value in readIds)
  }

  /** The notices whose id is not among `readIds`, in order. */
  function UnreadOf(readIds: seq<int>, notices: seq<Notice>): (r: seq<Notice>)
    ensures |r| <= |notices|
    ensures forall n :: n in r <==> n in notices && Unread(readIds, n)
  {
    if notices == [] then []
    else (if Unread(readIds, notices[0]) then [notices[0]] else []) + UnreadOf(readIds, notices[1..])
  }

  /** `getUnreadNotices`; None stands for an argument that is not an array. */
  function GetUnreadNotices(store: LocalStorage, notices: Basics.Option<seq<Notice>>): (r: seq<Notice>)
    reads store
    ensures notices.None? ==> r == []
    ensures notices.Some? ==> forall n :: n in r <==> n in notices.value && !(n.noticeId.Some? && IsNoticeRead(store, n.noticeId.value))
  {
    if notices.None? then [] else UnreadOf(ReadNoticeIds(store), notices.value)
  }

  /** The number of unread notices, counted one notice at a time as the filter's length. */
  function CountUnread(readIds: seq<int>, notices: seq<Notice>): nat {
    if notices == [] then 0 else (if Unread(readIds, notices[0]) then 1 else 0) + CountUnread(readIds, notices[1..])
  }

  /** `getUnreadCount`. */
  function GetUnreadCount(store: LocalStorage, notices: Basics.Option<seq<Notice>>): nat
    reads store
  {
    if notices.None? then 0 else CountUnread(ReadNoticeIds(store), notices.value)
  }

  lemma {:induction false} CountIsLength(readIds: seq<int>, notices: seq<Notice>)
    ensures CountUnread(readIds, notices) == |UnreadOf(readIds, notices)|
  {
    if notices != [] {
      CountIsLength(readIds, notices[1..]);
    }
  }

  /** The unread count is the length of the unread list, for every argument. */
  lemma UnreadCountMatchesList(store: LocalStorage, notices: Basics.Option<seq<Notice>>)
    ensures GetUnreadCount(store, notices) == |GetUnreadNotices(store, notices)|
  {
    if notices.Some? {
      CountIsLength(ReadNoticeIds(store), notices.value);
    }
  }

  // ---------------------------------------------------------------- clearing

  /** `clearReadHistory`: the user's list is removed, so reading it gives []. */
  method ClearReadHistory(store: LocalStorage)
    requires Valid(store)
    modifies store`readLists
    ensures Valid(store)
    ensures store.readLists == old(store.readLists) - {Key(store)}
    ensures ReadNoticeIds(store) == []
  {
    var storageKey := Key(store);
    store.readLists := store.readLists - {storageKey};
  }

  /** The read ids that are still current, in order. */
  function StillCurrent(readIds: seq<int>, current: seq<int>): (r: seq<int>)
    ensures forall x :: x in r <==> x in readIds && x in current
    ensures |r| <= |readIds|
    ensures NoDuplicates(readIds) ==> NoDuplicates(r)
  {
    if readIds == [] then []
    else
      var rest := StillCurrent(readIds[1..], current);
      assert forall k :: 0 <= k < |readIds[1..]| ==> readIds[1..][k] == readIds[k + 1];
      (if readIds[0] in current then [readIds[0]] else []) + rest
  }

  /** Pruning keeps an order-preserving sub-list: a read id survives exactly when it is current. */
  lemma {:induction false} StillCurrentIsSubsequence(readIds: seq<int>, current: seq<int>)
    ensures StillCurrent(readIds, current) == Basics.FilterSeq(readIds, x => x in current)
  {
    if readIds != [] {
      StillCurrentIsSubsequence(readIds[1..], current);
    }
  }

  /** `cleanupExpiredReads`: only the read ids still among `currentNoticeIds` are kept, order preserved. */
  method CleanupExpiredReads(store: LocalStorage, currentNoticeIds: seq<int>)
    requires Valid(store)
    modifies store`readLists
    ensures Valid(store)
    ensures store.readLists == old(store.readLists)[Key(store) := Ids(StillCurrent(old(ReadNoticeIds(store)), currentNoticeIds))]
    ensures forall x :: x in ReadNoticeIds(store) <==> x in old(ReadNoticeIds(store)) && x in currentNoticeIds
  {
    var readIds := ReadNoticeIds(store);
    var validReadIds := StillCurrent(readIds, currentNoticeIds);
    var storageKey := Key(store);
    store.readLists := store.readLists[storageKey := Ids(validReadIds)];
  }
}
