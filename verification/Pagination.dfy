/**
 * Keyset pagination (paginate of easy_mcp/pagination.py) while the list changes between requests.  A cursor carries
 * the key of the last item served; its encoding is not part of this model.
 */
module Pagination {
  import opened Wrappers
  import opened Routing

  const PAGE_SIZE: nat := 100

  /** One entry of a list, under its key; version tells its contents apart. */
  datatype Item = Item(key: string, version: nat)
  datatype Cursor = Cursor(kind: string, after: string)
  datatype Reply = Page(items: seq<Item>, next: Option<Cursor>) | InvalidCursor

  /** Lists are sorted by key, and no two items share one. */
  ghost predicate Sorted(items: seq<Item>) {
    forall i, j :: 0 <= i < j < |items| ==> TextBefore(items[i].key, items[j].key)
  }

  /** bisect_right. */
  function Bisect(items: seq<Item>, after: string): (start: nat)
    ensures start <= |items|
  {
    if items == [] || TextBefore(after, items[0].key) then 0 else 1 + Bisect(items[1..], after)
  }

  function PageFrom(items: seq<Item>, kind: string, start: nat): Reply
    requires start <= |items|
  {
    if start + PAGE_SIZE < |items|
        then Page(items[start..start + PAGE_SIZE], Some(Cursor(kind, items[start + PAGE_SIZE - 1].key)))
    else Page(items[start..], None)
  }

  /** paginate. */
  function Paginate(items: seq<Item>, kind: string, cursor: Option<Cursor>): Reply {
    match cursor
    case None => PageFrom(items, kind, 0)
    case Some(c) => if c.kind != kind then InvalidCursor else PageFrom(items, kind, Bisect(items, c.after))
  }

  // ------------------------------------------------------------ order on text

  lemma {:induction false} TextBeforeTransitive(a: string, b: string, c: string)
    requires TextBefore(a, b) && TextBefore(b, c)
    ensures TextBefore(a, c)
  {
    if a != "" && a[0] == b[0] == c[0] { TextBeforeTransitive(a[1..], b[1..], c[1..]); }
  }

  lemma {:induction false} TextBeforeTotal(a: string, b: string)
    ensures a == b || TextBefore(a, b) || TextBefore(b, a)
  {
    if a != "" && b != "" && a[0] == b[0] {
      TextBeforeTotal(a[1..], b[1..]);
      if a[1..] == b[1..] { assert a == [a[0]] + a[1..] && b == [b[0]] + b[1..]; }
    }
  }

  /** What comes before the start was served, or is the last that was; everything from it on comes after. */
  lemma {:induction false} BisectSplits(items: seq<Item>, after: string)
    requires Sorted(items)
    ensures forall i :: 0 <= i < Bisect(items, after) ==> !TextBefore(after, items[i].key)
    ensures forall i :: Bisect(items, after) <= i < |items| ==> TextBefore(after, items[i].key)
  {
    if items != [] {
      if TextBefore(after, items[0].key) {
        forall i | 0 < i < |items| ensures TextBefore(after,
            items[i].key) { TextBeforeTransitive(after, items[0].key, items[i].key); }
      } else {
        assert forall i :: 0 <= i < |items[1..]| ==> items[1..][i] == items[i + 1];
        BisectSplits(items[1..], after);
      }
    }
  }

  // ------------------------------------------------------------------- a walk

  /** One client following cursors: one snapshot of the list a request, and the items of every page so far. */
  function Walk(snapshots: seq<seq<Item>>, kind: string, cursor: Option<Cursor>): (r: (seq<Item>, bool))
    requires cursor.Some? ==> cursor.value.kind == kind
    decreases |snapshots|
  {
    if snapshots == [] then ([], false)
    else
      var page := Paginate(snapshots[0], kind, cursor);
      if page.next.None? then (page.items, true)
      else var rest := Walk(snapshots[1..], kind, page.next); (page.items + rest.0, rest.1)
  }

  ghost predicate After(cursor: Option<Cursor>, key: string) {
    cursor.Some? ==> TextBefore(cursor.value.after, key)
  }

  ghost predicate AllSorted(snapshots: seq<seq<Item>>) {
    forall i :: 0 <= i < |snapshots| ==> Sorted(snapshots[i])
  }

  /** Where a page starts: at the first item after the cursor. */
  function StartOf(items: seq<Item>, cursor: Option<Cursor>): (start: nat)
    ensures start <= |items|
  {
    if cursor.Some? then Bisect(items, cursor.value.after) else 0
  }

  lemma StartSplits(items: seq<Item>, cursor: Option<Cursor>)
    requires Sorted(items)
    ensures forall i :: 0 <= i < |items| ==> (StartOf(items, cursor) <= i <==> After(cursor, items[i].key))
  {
    if cursor.Some? { BisectSplits(items, cursor.value.after); }
  }

  /**
   * A cursor is refused exactly where it is one of another list; else the page is sorted, comes after the cursor, and
   * says where the next one starts.
   */
  lemma PageIs(items: seq<Item>, kind: string, cursor: Option<Cursor>)
    requires Sorted(items)
    ensures var page := Paginate(items, kind, cursor);
      if cursor.Some? && cursor.value.kind != kind then page.InvalidCursor?
      else
        && page.Page? && |page.items| <= PAGE_SIZE && Sorted(page.items)
        && (forall i :: 0 <= i < |page.items| ==> page.items[i] in items && After(cursor, page.items[i].key))
        && (page.next.Some? ==>
            page.next.value.kind == kind && page.items != [] &&
            page.next.value.after == page.items[|page.items| - 1].key)
  {
    StartSplits(items, cursor);
    hide Bisect, After;
    var page, start := Paginate(items, kind, cursor), StartOf(items, cursor);
    if page.Page? { assert forall i :: 0 <= i < |page.items| ==> page.items[i] == items[start + i]; }
  }

  /** A page that is not the last is full, and the last one is the end of the list. */
  lemma PagesAreFull(items: seq<Item>, kind: string, cursor: Option<Cursor>)
    requires Sorted(items) && (cursor.Some? ==> cursor.value.kind == kind)
    ensures var page := Paginate(items, kind, cursor);
      && (page.next.Some? ==> |page.items| == 100)
      && (page.next.None? <==> forall i :: 0 <= i < |items| && After(cursor, items[i].key) ==> items[i] in page.items)
  {
    StartSplits(items, cursor);
    hide Bisect, After;
    var page, start := Paginate(items, kind, cursor), StartOf(items, cursor);
    if page.next.None? {
      forall i | start <= i < |items| ensures items[i] in page.items { assert page.items[i - start] == items[i]; }
    } else {
      var last := |items| - 1;
      if items[last] in page.items {
        var i :| 0 <= i < |page.items| && page.items[i] == items[last];
        assert page.items[i] == items[start + i];
        DistinctKeys(items, start + i, last);
      }
    }
  }

  lemma DistinctKeys(items: seq<Item>, i: nat, j: nat)
    requires Sorted(items) && i < j < |items|
    ensures items[i] != items[j]
  {
    NotBeforeItself(items[i].key);
  }

  /** A page holds all of the list from the cursor up to where the next one starts. */
  lemma PageHas(items: seq<Item>, kind: string, cursor: Option<Cursor>, k: nat)
    requires Sorted(items) && (cursor.Some? ==> cursor.value.kind == kind) && k < |items| && After(cursor, items[k].key)
    ensures var page := Paginate(items, kind, cursor);
      (page.next.Some? && After(page.next, items[k].key)) || items[k] in page.items
  {
    var page, start := Paginate(items, kind, cursor), StartOf(items, cursor);
    StartSplits(items, cursor);
    hide Bisect, TextBefore;
    if page.next.None? || k < start + PAGE_SIZE { assert page.items[k - start] == items[k]; }
  }

  lemma SortedAppend(a: seq<Item>, b: seq<Item>)
    requires Sorted(a) && Sorted(b) && (a != [] ==> forall j :: 0 <= j < |b| ==> TextBefore(a[|a| - 1].key, b[j].key))
    ensures Sorted(a + b)
  {
    forall i, j | 0 <= i < j < |a + b| ensures TextBefore((a + b)[i].key, (a + b)[j].key) {
      if i < |a| <= j && i < |a| - 1 { TextBeforeTransitive(a[i].key, a[|a| - 1].key, b[j - |a|].key); }
    }
  }

  /** Whatever happens to the list between requests, the keys served strictly increase: none is served twice. */
  lemma {:induction false} ServedKeysIncrease(snapshots: seq<seq<Item>>, kind: string, cursor: Option<Cursor>)
    requires AllSorted(snapshots) && (cursor.Some? ==> cursor.value.kind == kind)
    ensures var served := Walk(snapshots, kind, cursor).0;
      Sorted(served) && forall i :: 0 <= i < |served| ==> After(cursor, served[i].key)
    decreases |snapshots|
  {
    if snapshots != [] {
      var page := Paginate(snapshots[0], kind, cursor);
      PageIs(snapshots[0], kind, cursor);
      if page.next.Some? {
        ServedKeysIncrease(snapshots[1..], kind, page.next);
        var rest := Walk(snapshots[1..], kind, page.next).0;
        SortedAppend(page.items, rest);
        if cursor.Some? {
          forall i | 0 <= i < |rest| ensures After(cursor, rest[i].key) {
            TextBeforeTransitive(cursor.value.after, page.next.value.after, rest[i].key);
          }
        }
      }
    }
  }

  predicate Lists(items: seq<Item>, key: string) {
    exists i :: 0 <= i < |items| && items[i].key == key
  }

  /** A walk that came to its end served every key that was in the list all along, and by the lemma above once. */
  lemma {:induction false} NothingIsSkipped(snapshots: seq<seq<Item>>, kind: string, cursor: Option<Cursor>,
      key: string)
    requires AllSorted(snapshots) && (cursor.Some? ==> cursor.value.kind == kind) && After(cursor, key)
    requires Walk(snapshots, kind, cursor).1 && forall i :: 0 <= i < |snapshots| ==> Lists(snapshots[i], key)
    ensures Lists(Walk(snapshots, kind, cursor).0, key)
    decreases |snapshots|
  {
    var page := Paginate(snapshots[0], kind, cursor);
    PageIs(snapshots[0], kind, cursor);
    assert Lists(snapshots[0], key);
    var k :| 0 <= k < |snapshots[0]| && snapshots[0][k].key == key;
    var item := snapshots[0][k];
    PageHas(snapshots[0], kind, cursor, k);
    if page.next.None? {
      assert item in page.items;
    } else {
      var rest := Walk(snapshots[1..], kind, page.next).0;
      if After(page.next, key) {
        NothingIsSkipped(snapshots[1..], kind, page.next, key);
        var i :| 0 <= i < |rest| && rest[i].key == key;
        assert (page.items + rest)[|page.items| + i].key == key;
      } else {
        assert item in page.items;
        var i :| 0 <= i < |page.items| && page.items[i] == item;
        assert (page.items + rest)[i].key == key;
      }
    }
  }

  /** Where the next page starts on a list that did not change. */
  lemma BisectAt(items: seq<Item>, at: nat)
    requires Sorted(items) && at < |items|
    ensures Bisect(items, items[at].key) == at + 1
  {
    var start := Bisect(items, items[at].key);
    BisectSplits(items, items[at].key);
    NotBeforeItself(items[at].key);
    assert start <= at + 1;
  }

  lemma {:induction false} NotBeforeItself(key: string)
    ensures !TextBefore(key, key)
  {
    if key != "" { NotBeforeItself(key[1..]); }
  }

  /** What the next page of an unchanged list is. */
  lemma PageAt(items: seq<Item>, kind: string, start: nat)
    requires Sorted(items) && start <= |items|
    ensures Paginate(items, kind, CursorAt(items, kind, start)) == PageFrom(items, kind, start)
  {
    hide Bisect;
    if start > 0 { BisectAt(items, start - 1); }
  }

  /** The cursor of the page before. */
  function CursorAt(items: seq<Item>, kind: string, start: nat): Option<Cursor>
    requires start <= |items|
  {
    if start == 0 then None else Some(Cursor(kind, items[start - 1].key))
  }

  /** On an unchanged list the pages put together are the list, and the walk ends by the last of them. */
  lemma {:induction false} UnchangedListIsWhole(items: seq<Item>, kind: string, start: nat, requests: nat)
    requires Sorted(items) && start <= |items| && requests * PAGE_SIZE >= |items| - start && requests > 0
    ensures Walk(seq(requests, i => items), kind, CursorAt(items, kind, start)) == (items[start..], true)
    decreases requests
  {
    hide Sorted, Bisect, Paginate;
    var snapshots := seq(requests, i => items);
    PageAt(items, kind, start);
    assert snapshots[0] == items;
    if start + PAGE_SIZE < |items| {
      assert snapshots[1..] == seq(requests - 1, i => items);
      UnchangedListIsWhole(items, kind, start + PAGE_SIZE, requests - 1);
      assert items[start..start + PAGE_SIZE] + items[start + PAGE_SIZE..] == items[start..];
    }
  }
}
