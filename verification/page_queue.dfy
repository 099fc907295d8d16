/** `filter_page_info_from_queue` (pyrobbot/app/app_utils.py and, verbatim, in
    pyrobbot/app/app_page_templates.py): the entries a page left on a queue shared by
    all pages are moved, in order, to a fresh queue, and the shared queue keeps the
    other pages' entries in their order. */
module PageQueue {

  /** A queued entry: the id of the page that queued it and what it carries. */
  datatype QueueEntry<T> = QueueEntry(pageId: string, data: T)

  /** A `queue.Queue`, seen through its underlying deque. */
  class SharedQueue<T> {
    var items: seq<QueueEntry<T>>

    constructor(items: seq<QueueEntry<T>>)
      ensures this.items == items
    {
      this.items := items;
    }

    /** `queue.put`. */
    method Put(e: QueueEntry<T>)
      modifies this
      ensures items == old(items) + [e]
    {
      items := items + [e];
    }

    /** `deque.popleft` on a non-empty queue. */
    method PopLeft() returns (e: QueueEntry<T>)
      requires items != []
      modifies this
      ensures e == old(items)[0] && items == old(items)[1..]
    {
      e := items[0];
      items := items[1..];
    }
  }

  /** The entries of `s` queued by page `pageId`, in their order. */
  function FromPage<T>(s: seq<QueueEntry<T>>, pageId: string): (r: seq<QueueEntry<T>>)
    ensures |r| <= |s|
    ensures forall k :: 0 <= k < |r| ==> r[k].pageId == pageId
  {
    if s == [] then []
    else
      var last := s[|s| - 1];
      FromPage(s[..|s| - 1], pageId) + (if last.pageId == pageId then [last] else [])
  }

  /** The entries of `s` queued by any other page, in their order. */
  function FromOtherPages<T>(s: seq<QueueEntry<T>>, pageId: string): (r: seq<QueueEntry<T>>)
    ensures |r| <= |s|
    ensures forall k :: 0 <= k < |r| ==> r[k].pageId != pageId
  {
    if s == [] then []
    else
      var last := s[|s| - 1];
      FromOtherPages(s[..|s| - 1], pageId) + (if last.pageId != pageId then [last] else [])
  }

  /** The popleft loop: every entry is taken once, from the front, and put on one of the
      two queues; the shared queue is then given the other pages' entries. */
  method FilterPageInfoFromQueue<T>(pageId: string, theQueue: SharedQueue<T>)
    returns (itemsFromPage: SharedQueue<T>)
    modifies theQueue
    ensures fresh(itemsFromPage)
    ensures itemsFromPage.items == FromPage(old(theQueue.items), pageId)
    ensures theQueue.items == FromOtherPages(old(theQueue.items), pageId)
  {
    var original := theQueue.items;
    var otherPages := new SharedQueue([]);
    itemsFromPage := new SharedQueue([]);
    var taken := 0;
    while theQueue.items != []
      invariant 0 <= taken <= |original|
      invariant theQueue.items == original[taken..]
      invariant itemsFromPage.items == FromPage(original[..taken], pageId)
      invariant otherPages.items == FromOtherPages(original[..taken], pageId)
      invariant fresh(otherPages) && fresh(itemsFromPage) && otherPages != itemsFromPage
      decreases |theQueue.items|
    {
      var entry := theQueue.PopLeft();
      assert original[..taken + 1][..taken] == original[..taken];
      assert original[..taken + 1][taken] == entry;
      if entry.pageId == pageId {
        itemsFromPage.Put(entry);
      } else {
        otherPages.Put(entry);
      }
      taken := taken + 1;
    }
    assert original[..taken] == original;
    theQueue.items := otherPages.items;
  }

  /** Nothing is lost or duplicated: the two results together are a permutation of the input. */
  lemma {:induction false} FilterIsPartition<T>(s: seq<QueueEntry<T>>, pageId: string)
    ensures multiset(FromPage(s, pageId)) + multiset(FromOtherPages(s, pageId)) == multiset(s)
    ensures |FromPage(s, pageId)| + |FromOtherPages(s, pageId)| == |s|
  {
    if s != [] {
      FilterIsPartition(s[..|s| - 1], pageId);
      PartitionStep(s, pageId);
    }
  }

  /** The induction step of `FilterIsPartition`: the last entry goes to exactly one side. */
  lemma PartitionStep<T>(s: seq<QueueEntry<T>>, pageId: string)
    requires s != []
    requires var init := s[..|s| - 1];
      multiset(FromPage(init, pageId)) + multiset(FromOtherPages(init, pageId)) == multiset(init)
    ensures multiset(FromPage(s, pageId)) + multiset(FromOtherPages(s, pageId)) == multiset(s)
  {
    var init := s[..|s| - 1];
    var last := s[|s| - 1];
    assert multiset(s) == multiset(init) + multiset{last} by {
      assert s == init + [last];
    }
    var p := FromPage(init, pageId);
    var o := FromOtherPages(init, pageId);
    if last.pageId == pageId {
      assert multiset(FromPage(s, pageId)) == multiset(p) + multiset{last} by {
        assert FromPage(s, pageId) == p + [last];
      }
      assert FromOtherPages(s, pageId) == o;
    } else {
      assert multiset(FromOtherPages(s, pageId)) == multiset(o) + multiset{last} by {
        assert FromOtherPages(s, pageId) == o + [last];
      }
      assert FromPage(s, pageId) == p;
    }
  }

  /** An entry of the page is kept by `FromPage`, any other entry by `FromOtherPages`. */
  lemma {:induction false} FilterKeepsMembers<T>(s: seq<QueueEntry<T>>, pageId: string, e: QueueEntry<T>)
    requires e in s
    ensures e.pageId == pageId ==> e in FromPage(s, pageId)
    ensures e.pageId != pageId ==> e in FromOtherPages(s, pageId)
  {
    var init := s[..|s| - 1];
    if e != s[|s| - 1] {
      assert s == init + [s[|s| - 1]];
      FilterKeepsMembers(init, pageId, e);
    }
  }

  /** When the page queued nothing, it gets nothing back and the shared queue is as it was. */
  lemma {:induction false} FilterWithoutPageEntries<T>(s: seq<QueueEntry<T>>, pageId: string)
    requires forall k :: 0 <= k < |s| ==> s[k].pageId != pageId
    ensures FromPage(s, pageId) == []
    ensures FromOtherPages(s, pageId) == s
  {
    if s != [] {
      FilterWithoutPageEntries(s[..|s| - 1], pageId);
      assert s == s[..|s| - 1] + [s[|s| - 1]];
    }
  }

  /** Filtering is stable: filtering the concatenation of two queues filters each in turn. */
  lemma {:induction false} FilterAppend<T>(a: seq<QueueEntry<T>>, b: seq<QueueEntry<T>>, pageId: string)
    ensures FromPage(a + b, pageId) == FromPage(a, pageId) + FromPage(b, pageId)
    ensures FromOtherPages(a + b, pageId) == FromOtherPages(a, pageId) + FromOtherPages(b, pageId)
    decreases |b|
  {
    if b == [] {
      assert a + b == a;
    } else {
      assert (a + b)[..|a + b| - 1] == a + b[..|b| - 1];
      FilterAppend(a, b[..|b| - 1], pageId);
    }
  }

  /** Running the filter again on what remains finds nothing more for the page. */
  lemma FilterAgainFindsNothing<T>(s: seq<QueueEntry<T>>, pageId: string)
    ensures FromPage(FromOtherPages(s, pageId), pageId) == []
    ensures FromOtherPages(FromOtherPages(s, pageId), pageId) == FromOtherPages(s, pageId)
  {
    FilterWithoutPageEntries(FromOtherPages(s, pageId), pageId);
  }
}
