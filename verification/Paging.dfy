/**
 Keyset pagination of a wallet's ledger, in (createdAt, id) descending order, read page
 by page while entries are appended (internal/application/wallet_service.go, postgres/store.go).
 */
module Paging {
  import opened Base
  import opened MoneyValue
  import opened Domain
  import opened Database
  import opened Invariants
  import opened Storage

  /** The position of the last entry of a page; its text form is not modelled. */
  datatype Cursor = Cursor(createdAt: Time, id: Uuid)

  function KeyOf(e: LedgerEntry): Cursor {
    Cursor(e.createdAt, e.id)
  }

  /** The row comparison of the query. */
  predicate Less(a: Cursor, b: Cursor) {
    a.createdAt < b.createdAt || (a.createdAt == b.createdAt && a.id < b.id)
  }

  predicate Descending(s: seq<LedgerEntry>) {
    forall i, j :: 0 <= i < j < |s| ==> Less(KeyOf(s[j]), KeyOf(s[i]))
  }

  predicate UniqueIds(s: seq<LedgerEntry>) {
    forall i, j :: 0 <= i < j < |s| ==> s[i].id != s[j].id
  }

  // --- the query ----------------------------------------------------------

  function Place(e: LedgerEntry, sorted: seq<LedgerEntry>): (r: seq<LedgerEntry>)
    ensures forall x :: x in r <==> x == e || x in sorted
  {
    if sorted == [] then [e]
    else if Less(KeyOf(sorted[0]), KeyOf(e)) then [e] + sorted
    else [sorted[0]] + Place(e, sorted[1..])
  }

  /** The entries of a wallet, ORDER BY created_at DESC, id DESC. */
  function Listing(ledger: seq<LedgerEntry>, wallet: Uuid): (r: seq<LedgerEntry>)
    ensures forall x :: x in r <==> x in ledger && x.walletId == wallet
  {
    if ledger == [] then []
    else
      var last := ledger[|ledger| - 1];
      assert forall x :: x in ledger <==> x in ledger[..|ledger| - 1] || x == last;
      var earlier := Listing(ledger[..|ledger| - 1], wallet);
      if last.walletId == wallet then Place(last, earlier) else earlier
  }

  /** What lies strictly below a cursor. */
  function Below(s: seq<LedgerEntry>, cursor: Option<Cursor>): seq<LedgerEntry> {
    if s == [] || cursor.None? || Less(KeyOf(s[0]), cursor.value) then s else Below(s[1..], cursor)
  }

  function Take(s: seq<LedgerEntry>, n: nat): seq<LedgerEntry> {
    if |s| <= n then s else s[..n]
  }

  function ListLedger(ledger: seq<LedgerEntry>, wallet: Uuid, cursor: Option<Cursor>, limit: nat): seq<LedgerEntry> {
    Take(Below(Listing(ledger, wallet), cursor), limit)
  }

  // --- pages --------------------------------------------------------------

  datatype Page = Page(items: seq<LedgerEntry>, next: Option<Cursor>)

  function Clamp(limit: int): (n: nat)
    ensures 1 <= n <= 100
  {
    if limit <= 0 then 50 else if limit > 100 then 100 else limit
  }

  function PageOf(ledger: seq<LedgerEntry>, wallet: Uuid, cursor: Option<Cursor>, limit: nat): Page
    requires limit >= 1
  {
    var rest := Below(Listing(ledger, wallet), cursor);
    Page(Take(rest, limit), if |rest| > limit then Some(KeyOf(rest[limit - 1])) else None)
  }

  /** One record more than a page shows whether there is a next one. */
  lemma OneMore(rest: seq<LedgerEntry>, size: nat)
    requires size >= 1
    ensures var records := Take(rest, size + 1);
            && |records| <= size + 1 && (|records| > size <==> |rest| > size)
            && Take(rest, size) == (if |records| > size then records[..size] else records)
            && (|rest| > size ==> records[size - 1] == rest[size - 1])
  {
  }

  /** The records shown, and a cursor when one was read too many. */
  method Show(records: seq<LedgerEntry>, size: nat) returns (page: Page)
    requires size >= 1 && |records| <= size + 1
    ensures page == if |records| > size then Page(records[..size], Some(KeyOf(records[size - 1]))) else Page(records, None)
  {
    page := Page([], None);
    var index := 0;
    while index < |records|
      invariant 0 <= index <= |records| && index <= size
      invariant page == Page(records[..index], None)
    {
      if index == size {
        var last := records[index - 1];
        page := page.(next := Some(Cursor(last.createdAt, last.id)));
        return;
      }
      page := page.(items := page.items + [records[index]]);
      index := index + 1;
    }
  }

  /** Ledger: one record more than the limit is read, to know whether there is a next page. */
  method Ledger(store: Store, wallet: Uuid, cursor: Option<Cursor>, limit: int) returns (r: Result<Page>)
    ensures r == if wallet in store.db.wallets then Ok(PageOf(store.db.ledger, wallet, cursor, Clamp(limit))) else Err(NotFound)
  {
    if wallet !in store.db.wallets {
      return Err(NotFound);
    }
    var size := limit;
    if size <= 0 { size := 50; }
    if size > 100 { size := 100; }
    var records := ListLedger(store.db.ledger, wallet, cursor, size + 1);
    OneMore(Below(Listing(store.db.ledger, wallet), cursor), size);
    var page := Show(records, size);
    return Ok(page);
  }

  // --- sorted sequences ---------------------------------------------------

  lemma {:induction false} PlaceKeepsOrder(e: LedgerEntry, sorted: seq<LedgerEntry>)
    requires Descending(sorted) && forall x :: x in sorted ==> x.id != e.id
    ensures Descending(Place(e, sorted))
  {
    if sorted != [] && !Less(KeyOf(sorted[0]), KeyOf(e)) {
      PlaceKeepsOrder(e, sorted[1..]);
      assert forall x :: x in Place(e, sorted[1..]) ==> Less(KeyOf(x), KeyOf(sorted[0]));
    }
  }

  lemma {:induction false} ListingDescends(ledger: seq<LedgerEntry>, wallet: Uuid)
    requires UniqueIds(ledger)
    ensures Descending(Listing(ledger, wallet))
  {
    if ledger != [] {
      ListingDescends(ledger[..|ledger| - 1], wallet);
      PlaceKeepsOrder(ledger[|ledger| - 1], Listing(ledger[..|ledger| - 1], wallet));
    }
  }

  lemma FirstIsElement(s: seq<LedgerEntry>)
    ensures s != [] ==> s[0] in s
  {
  }

  /** A descending sequence is determined by its elements. */
  lemma {:induction false} OrderIsUnique(a: seq<LedgerEntry>, b: seq<LedgerEntry>)
    requires Descending(a) && Descending(b) && forall x :: x in a <==> x in b
    ensures a == b
  {
    if a == [] {
      FirstIsElement(b);
    } else {
      assert a[0] in b && b[0] in a;
      assert a[0] == b[0];
      forall x
        ensures x in a[1..] <==> x in b[1..]
      {
        assert x in a <==> x == a[0] || x in a[1..];
        assert x in b <==> x == b[0] || x in b[1..];
      }
      OrderIsUnique(a[1..], b[1..]);
    }
  }

  /** The elements that were there at the first page. */
  ghost function Keep(s: seq<LedgerEntry>, initial: seq<LedgerEntry>): (r: seq<LedgerEntry>)
    ensures forall x :: x in r <==> x in s && x in initial
  {
    if s == [] then []
    else (if s[0] in initial then [s[0]] else []) + Keep(s[1..], initial)
  }

  lemma {:induction false} KeepDescends(s: seq<LedgerEntry>, initial: seq<LedgerEntry>)
    requires Descending(s)
    ensures Descending(Keep(s, initial))
  {
    if s != [] {
      KeepDescends(s[1..], initial);
      assert forall x :: x in Keep(s[1..], initial) ==> Less(KeyOf(x), KeyOf(s[0]));
    }
  }

  lemma {:induction false} KeepConcat(a: seq<LedgerEntry>, b: seq<LedgerEntry>, initial: seq<LedgerEntry>)
    ensures Keep(a + b, initial) == Keep(a, initial) + Keep(b, initial)
  {
    if a == [] {
      assert a + b == b;
    } else {
      assert (a + b)[1..] == a[1..] + b;
      KeepConcat(a[1..], b, initial);
    }
  }

  lemma {:induction false} BelowIs(s: seq<LedgerEntry>, cursor: Option<Cursor>)
    requires Descending(s)
    ensures Descending(Below(s, cursor))
    ensures forall x :: x in Below(s, cursor) <==> x in s && (cursor.Some? ==> Less(KeyOf(x), cursor.value))
  {
    if s == [] || cursor.None? {
    } else if Less(KeyOf(s[0]), cursor.value) {
    } else {
      BelowIs(s[1..], cursor);
    }
  }

  /** Below the last element of the first n lies the rest. */
  lemma BelowRest(s: seq<LedgerEntry>, cursor: Option<Cursor>, n: nat)
    requires Descending(s) && 1 <= n < |Below(s, cursor)|
    ensures Below(s, Some(KeyOf(Below(s, cursor)[n - 1]))) == Below(s, cursor)[n..]
  {
    var rest := Below(s, cursor);
    BelowIs(s, cursor);
    var next := Some(KeyOf(rest[n - 1]));
    BelowIs(s, next);
    forall x
      ensures x in Below(s, next) <==> x in rest[n..]
    {
      if x in Below(s, next) {
        assert x in rest;
        var i :| 0 <= i < |rest| && rest[i] == x;
        assert i >= n;
        assert rest[n..][i - n] == x;
      }
    }
    OrderIsUnique(Below(s, next), rest[n..]);
  }

  /** What was there at the first page is listed the same later, apart from newer entries. */
  lemma KeepBelow(initial: seq<LedgerEntry>, later: seq<LedgerEntry>, wallet: Uuid, cursor: Option<Cursor>)
    requires UniqueIds(later) && initial <= later
    ensures Keep(Below(Listing(later, wallet), cursor), initial) == Below(Listing(initial, wallet), cursor)
  {
    ListingDescends(later, wallet);
    ListingDescends(initial, wallet);
    BelowIs(Listing(later, wallet), cursor);
    BelowIs(Listing(initial, wallet), cursor);
    KeepDescends(Below(Listing(later, wallet), cursor), initial);
    OrderIsUnique(Keep(Below(Listing(later, wallet), cursor), initial), Below(Listing(initial, wallet), cursor));
  }

  /** The entry comes after the cursor in the listing. */
  predicate After(e: LedgerEntry, cursor: Option<Cursor>) {
    cursor.Some? ==>
      e.createdAt < cursor.value.createdAt || (e.createdAt == cursor.value.createdAt && e.id < cursor.value.id)
  }

  /**
   A page holds the latest entries of the wallet after the cursor, the latest first: 50 of
   them unless another number up to 100 is asked for. Its cursor is its last entry, unless nothing is left.
   */
  lemma PageIsExact(ledger: seq<LedgerEntry>, wallet: Uuid, cursor: Option<Cursor>, limit: int)
    requires UniqueIds(ledger)
    ensures var page, size := PageOf(ledger, wallet, cursor, Clamp(limit)),
                              if limit <= 0 then 50 else if limit <= 100 then limit else 100;
            && |page.items| <= size
            && (forall i, j :: 0 <= i < j < |page.items| ==> After(page.items[j], Some(KeyOf(page.items[i]))))
            && (forall e :: e in page.items ==> e in ledger && e.walletId == wallet && After(e, cursor))
            && (forall e :: e in ledger && e.walletId == wallet && After(e, cursor) && e !in page.items ==>
                  && |page.items| == size && page.next.Some? && After(e, page.next))
            && (page.next.Some? ==>
                  && |page.items| == size
                  && page.next.value.createdAt == page.items[size - 1].createdAt && page.next.value.id == page.items[size - 1].id
                  && exists e :: e in ledger && e.walletId == wallet && After(e, page.next))
  {
    var size := Clamp(limit);
    var rest := Below(Listing(ledger, wallet), cursor);
    ListingDescends(ledger, wallet);
    BelowIs(Listing(ledger, wallet), cursor);
    RestPage(rest, ledger, wallet, cursor, size);
  }

  lemma RestPage(rest: seq<LedgerEntry>, ledger: seq<LedgerEntry>, wallet: Uuid, cursor: Option<Cursor>, size: nat)
    requires Descending(rest) && size >= 1
    requires forall e :: e in rest <==> e in ledger && e.walletId == wallet && After(e, cursor)
    ensures var items, next := Take(rest, size), if |rest| > size then Some(KeyOf(rest[size - 1])) else None;
            && |items| <= size
            && (forall i, j :: 0 <= i < j < |items| ==> After(items[j], Some(KeyOf(items[i]))))
            && (forall e :: e in items ==> e in ledger && e.walletId == wallet && After(e, cursor))
            && (forall e :: e in ledger && e.walletId == wallet && After(e, cursor) && e !in items ==>
                  |items| == size && next.Some? && After(e, next))
            && (next.Some? ==>
                  && |items| == size
                  && next.value.createdAt == items[size - 1].createdAt && next.value.id == items[size - 1].id
                  && exists e :: e in ledger && e.walletId == wallet && After(e, next))
  {
    PageOfRest(rest, size);
    if |rest| > size { assert rest[size] in rest; }
  }

  /** The first entries of a descending listing, and where they end. */
  lemma PageOfRest(rest: seq<LedgerEntry>, size: nat)
    requires Descending(rest) && size >= 1
    ensures var items := Take(rest, size);
            && |items| <= size
            && (forall i, j :: 0 <= i < j < |items| ==> After(items[j], Some(KeyOf(items[i]))))
            && (forall e :: e in items ==> e in rest)
            && (forall e :: e in rest && e !in items ==> |rest| > size && |items| == size && After(e, Some(KeyOf(items[size - 1]))))
            && (|rest| > size ==> items[size - 1] == rest[size - 1] && After(rest[size], Some(KeyOf(rest[size - 1]))))
  {
    var items := Take(rest, size);
    forall j | 0 <= j < |items|
      ensures rest[j] in items
    {
      assert items[j] == rest[j];
    }
    forall e | e in rest && e !in items
      ensures |rest| > size && |items| == size && After(e, Some(KeyOf(items[size - 1])))
    {
      var i :| 0 <= i < |rest| && rest[i] == e;
      assert i >= |items|;
    }
  }

  // --- following the cursor -----------------------------------------------

  /**
   The items of successive pages, each read with its own limit from the ledger as it is by then,
   up to the end or the last read.
   */
  function Follow(ledgers: seq<seq<LedgerEntry>>, wallet: Uuid, cursor: Option<Cursor>, limits: seq<nat>): Page
    requires |limits| == |ledgers| && forall k :: 0 <= k < |limits| ==> limits[k] >= 1
    decreases |ledgers|
  {
    if ledgers == [] then Page([], cursor)
    else
      var page := PageOf(ledgers[0], wallet, cursor, limits[0]);
      if page.next.None? then page
      else
        var rest := Follow(ledgers[1..], wallet, page.next, limits[1..]);
        Page(page.items + rest.items, rest.next)
  }

  lemma KeepSplit(s: seq<LedgerEntry>, n: nat, initial: seq<LedgerEntry>)
    requires n <= |s|
    ensures Keep(s, initial) == Keep(s[..n], initial) + Keep(s[n..], initial)
  {
    KeepConcat(s[..n], s[n..], initial);
    assert s[..n] + s[n..] == s;
  }

  lemma PageSplits(initial: seq<LedgerEntry>, ledger: seq<LedgerEntry>, wallet: Uuid, cursor: Option<Cursor>, limit: nat)
    requires UniqueIds(ledger) && initial <= ledger && limit >= 1
    ensures var page := PageOf(ledger, wallet, cursor, limit);
            Below(Listing(initial, wallet), cursor) ==
            Keep(page.items, initial) + (if page.next.None? then [] else Below(Listing(initial, wallet), page.next))
  {
    var rest := Below(Listing(ledger, wallet), cursor);
    KeepBelow(initial, ledger, wallet, cursor);
    if |rest| > limit {
      ListingDescends(ledger, wallet);
      BelowRest(Listing(ledger, wallet), cursor, limit);
      KeepBelow(initial, ledger, wallet, Some(KeyOf(rest[limit - 1])));
      KeepSplit(rest, limit, initial);
    }
  }

  lemma Regroup(a: seq<LedgerEntry>, b: seq<LedgerEntry>, c: seq<LedgerEntry>)
    ensures (a + b) + c == a + (b + c)
  {
  }

  /**
   Whatever is appended between reads, the entries present at the first page are delivered in
   order and once: those delivered so far, followed by those below the cursor, are all of them.
   */
  lemma {:induction false} NothingSkipped(
      initial: seq<LedgerEntry>, ledgers: seq<seq<LedgerEntry>>, wallet: Uuid, cursor: Option<Cursor>, limits: seq<nat>)
    requires |limits| == |ledgers| && (forall k :: 0 <= k < |limits| ==> limits[k] >= 1) && ledgers != []
    requires forall k :: 0 <= k < |ledgers| ==> UniqueIds(ledgers[k]) && initial <= ledgers[k]
    ensures var pages := Follow(ledgers, wallet, cursor, limits);
            Below(Listing(initial, wallet), cursor) ==
            Keep(pages.items, initial) + (if pages.next.None? then [] else Below(Listing(initial, wallet), pages.next))
    decreases |ledgers|
  {
    var page := PageOf(ledgers[0], wallet, cursor, limits[0]);
    PageSplits(initial, ledgers[0], wallet, cursor, limits[0]);
    if page.next.Some? {
      if |ledgers| > 1 {
        var rest := Follow(ledgers[1..], wallet, page.next, limits[1..]);
        NothingSkipped(initial, ledgers[1..], wallet, page.next, limits[1..]);
        KeepConcat(page.items, rest.items, initial);
        Regroup(Keep(page.items, initial), Keep(rest.items, initial),
                if rest.next.None? then [] else Below(Listing(initial, wallet), rest.next));
      } else {
        assert page.items + [] == page.items;
      }
    }
  }

  /** Following the cursor to the end delivers every entry of the first page's ledger exactly once, in descending order. */
  lemma EveryEntryOnce(ledgers: seq<seq<LedgerEntry>>, wallet: Uuid, limits: seq<nat>)
    requires |limits| == |ledgers| && (forall k :: 0 <= k < |limits| ==> limits[k] >= 1) && ledgers != []
    requires forall k :: 0 <= k < |ledgers| ==> UniqueIds(ledgers[k]) && ledgers[0] <= ledgers[k]
    requires Follow(ledgers, wallet, None, limits).next.None?
    ensures Keep(Follow(ledgers, wallet, None, limits).items, ledgers[0]) == Listing(ledgers[0], wallet)
  {
    NothingSkipped(ledgers[0], ledgers, wallet, None, limits);
  }

  lemma PageDescends(ledger: seq<LedgerEntry>, wallet: Uuid, cursor: Option<Cursor>, limit: nat)
    requires UniqueIds(ledger) && limit >= 1
    ensures var page := PageOf(ledger, wallet, cursor, limit);
            && Descending(page.items)
            && (forall x :: x in page.items ==>
                  && x in ledger && x.walletId == wallet
                  && (cursor.Some? ==> Less(KeyOf(x), cursor.value))
                  && (page.next.Some? ==> x == page.items[|page.items| - 1] || Less(page.next.value, KeyOf(x))))
            && (page.next.Some? ==> page.items != [] && page.next.value == KeyOf(page.items[|page.items| - 1]))
  {
    ListingDescends(ledger, wallet);
    BelowIs(Listing(ledger, wallet), cursor);
  }

  lemma Joins(a: seq<LedgerEntry>, b: seq<LedgerEntry>)
    requires Descending(a) && Descending(b) && a != [] && forall x :: x in b ==> Less(KeyOf(x), KeyOf(a[|a| - 1]))
    ensures Descending(a + b)
  {
  }

  /** All pages together descend strictly, so nothing is delivered twice, whatever is appended between reads. */
  lemma {:induction false} PagesDescend(ledgers: seq<seq<LedgerEntry>>, wallet: Uuid, cursor: Option<Cursor>, limits: seq<nat>)
    requires |limits| == |ledgers| && forall k :: 0 <= k < |limits| ==> limits[k] >= 1
    requires forall k :: 0 <= k < |ledgers| ==> UniqueIds(ledgers[k])
    ensures Descending(Follow(ledgers, wallet, cursor, limits).items)
    ensures cursor.Some? ==> forall x :: x in Follow(ledgers, wallet, cursor, limits).items ==> Less(KeyOf(x), cursor.value)
    decreases |ledgers|
  {
    if ledgers != [] {
      var page := PageOf(ledgers[0], wallet, cursor, limits[0]);
      PageDescends(ledgers[0], wallet, cursor, limits[0]);
      if page.next.Some? {
        PagesDescend(ledgers[1..], wallet, page.next, limits[1..]);
        Joins(page.items, Follow(ledgers[1..], wallet, page.next, limits[1..]).items);
        assert page.items[|page.items| - 1] in page.items;
      }
    }
  }
}
