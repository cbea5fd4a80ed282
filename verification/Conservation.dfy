/**
 Conservation of money. Every ledger entry belongs to the chain of one root: an
 opening, a bet or a win, with the refunds and rollbacks that undo it. The chain of
 a bet nets to minus the stake or to nothing, and a balance is the sum of its roots.
 */
module Conservation {
  import opened Base
  import opened MoneyValue
  import opened Domain
  import opened Contracts
  import opened Database
  import opened Decisions
  import opened Invariants

  type Wagers = map<Uuid, WagerState>

  /** The ledger facts that conservation rests on, for any prefix of the ledger. */
  ghost predicate Books(wagers: Wagers, log: seq<LedgerEntry>) {
    && (forall i :: 0 <= i < |log| ==>
          && EntryMatches(wagers, log[i])
          && var w := wagers[log[i].transactionId];
          && w.id == log[i].transactionId
          && ReferenceHonoured(wagers, w)
          && (w.kind.Opening? || w.kind.External())
          && (w.kind.Reversing() ==> w.referenceId != NO_ID)
          && (w.referenceId != NO_ID ==> HasEntry(log[..i], w.referenceId)))
    && (forall i, j :: 0 <= i < j < |log| ==> log[i].transactionId != log[j].transactionId)
    && (forall i, j ::
          0 <= i < j < |log| && Reverses(wagers, log[i].transactionId) && Reverses(wagers, log[j].transactionId) ==>
          wagers[log[i].transactionId].referenceId != wagers[log[j].transactionId].referenceId)
  }

  ghost predicate Reverses(wagers: Wagers, id: Uuid) {
    id in wagers && wagers[id].kind.Reversing()
  }

  ghost predicate Undoes(wagers: Wagers, id: Uuid, undone: Uuid) {
    Reverses(wagers, id) && wagers[id].referenceId == undone
  }

  /** Some entry of the log undoes the transaction. */
  ghost predicate Undone(wagers: Wagers, log: seq<LedgerEntry>, id: Uuid) {
    exists j :: 0 <= j < |log| && Undoes(wagers, log[j].transactionId, id)
  }

  /** A stake is back with the player: its bet was rolled back, or refunded by a refund that still stands. */
  ghost predicate Returned(wagers: Wagers, log: seq<LedgerEntry>, bet: Uuid) {
    exists j :: 0 <= j < |log| && Undoes(wagers, log[j].transactionId, bet) &&
                !(wagers[log[j].transactionId].kind.Refund? && Undone(wagers, log, log[j].transactionId))
  }

  /** A rollback takes back the refund of a bet. */
  ghost predicate Restores(wagers: Wagers, id: Uuid, bet: Uuid) {
    && Reverses(wagers, id) && wagers[id].referenceId in wagers
    && wagers[wagers[id].referenceId].kind.Refund? && Undoes(wagers, wagers[id].referenceId, bet)
  }

  /** What a root is worth to its wallet. */
  ghost function Worth(wagers: Wagers, log: seq<LedgerEntry>, root: Uuid): int
    requires root in wagers
  {
    var w := wagers[root];
    match w.kind
    case Opening => w.money.minor
    case Win => if Undone(wagers, log, root) then 0 else w.money.minor
    case Bet => if Returned(wagers, log, root) then 0 else Debit.Signed(w.money.minor)
    case _ => 0
  }

  /** The transaction at the start of a chain. */
  ghost function RootOf(wagers: Wagers, id: Uuid): Uuid {
    if !Reverses(wagers, id) then id
    else
      var r := wagers[id].referenceId;
      if r in wagers && wagers[r].kind.Refund? then wagers[r].referenceId else r
  }

  /** The net movement of all entries of a chain. */
  ghost function Chain(wagers: Wagers, log: seq<LedgerEntry>, root: Uuid): int {
    if log == [] then 0
    else
      var last := log[|log| - 1];
      Chain(wagers, log[..|log| - 1], root) + (if RootOf(wagers, last.transactionId) == root then last.Delta() else 0)
  }

  /** What an entry contributes to the total: the worth of its transaction, if it is on the wallet. */
  ghost function Share(wagers: Wagers, log: seq<LedgerEntry>, x: LedgerEntry, wallet: Uuid): int {
    if x.walletId == wallet && x.transactionId in wagers then Worth(wagers, log, x.transactionId) else 0
  }

  /** The total worth of the roots among some entries, as the log stands. */
  ghost function Total(wagers: Wagers, log: seq<LedgerEntry>, entries: seq<LedgerEntry>, wallet: Uuid): int {
    if entries == [] then 0
    else
      Total(wagers, log, entries[..|entries| - 1], wallet) + Share(wagers, log, entries[|entries| - 1], wallet)
  }

  // --- one more entry -----------------------------------------------------

  lemma BooksPrefix(wagers: Wagers, log: seq<LedgerEntry>, e: LedgerEntry)
    requires Books(wagers, log + [e])
    ensures Books(wagers, log)
    ensures EntryMatches(wagers, e) && !HasEntry(log, e.transactionId)
    ensures wagers[e.transactionId].referenceId != NO_ID ==> HasEntry(log, wagers[e.transactionId].referenceId)
  {
    var longer := log + [e];
    assert longer[|log|] == e && longer[..|log|] == log;
    forall i | 0 <= i < |log|
      ensures longer[i] == log[i] && longer[..i] == log[..i]
    {
    }
  }

  /** Nothing in the log undoes what is ledgered last: reversals come after what they reverse. */
  lemma LastIsNotUndone(wagers: Wagers, log: seq<LedgerEntry>, e: LedgerEntry)
    requires Books(wagers, log + [e])
    ensures !Undone(wagers, log, e.transactionId) && !Undone(wagers, log + [e], e.transactionId)
  {
    BooksPrefix(wagers, log, e);
    forall j | 0 <= j < |log|
      ensures !Undoes(wagers, log[j].transactionId, e.transactionId)
    {
    }
  }

  lemma UndoneAppend(wagers: Wagers, log: seq<LedgerEntry>, e: LedgerEntry, id: Uuid)
    ensures Undone(wagers, log + [e], id) <==> Undone(wagers, log, id) || Undoes(wagers, e.transactionId, id)
  {
    assert (log + [e])[|log|] == e;
    if Undone(wagers, log, id) {
      var j :| 0 <= j < |log| && Undoes(wagers, log[j].transactionId, id);
      assert (log + [e])[j] == log[j];
    }
  }

  /** At most one entry undoes a transaction. */
  lemma OneReversal(wagers: Wagers, log: seq<LedgerEntry>, i: nat, j: nat, id: Uuid)
    requires Books(wagers, log) && i < |log| && j < |log|
    requires Undoes(wagers, log[i].transactionId, id) && Undoes(wagers, log[j].transactionId, id)
    ensures i == j
  {
  }

  /** What Returned comes to, given the one entry that undoes the bet. */
  lemma ReturnedBy(wagers: Wagers, log: seq<LedgerEntry>, j: nat, bet: Uuid)
    requires Books(wagers, log) && j < |log| && Undoes(wagers, log[j].transactionId, bet)
    ensures Returned(wagers, log, bet) <==>
            !(wagers[log[j].transactionId].kind.Refund? && Undone(wagers, log, log[j].transactionId))
  {
    if Returned(wagers, log, bet) {
      var i :| 0 <= i < |log| && Undoes(wagers, log[i].transactionId, bet) &&
               !(wagers[log[i].transactionId].kind.Refund? && Undone(wagers, log, log[i].transactionId));
      OneReversal(wagers, log, i, j, bet);
    }
  }

  lemma ReturnedAppend(wagers: Wagers, log: seq<LedgerEntry>, e: LedgerEntry, bet: Uuid)
    requires Books(wagers, log + [e]) && HasEntry(log, bet)
    ensures Returned(wagers, log + [e], bet) <==>
            if Undoes(wagers, e.transactionId, bet) then true
            else Returned(wagers, log, bet) && !Restores(wagers, e.transactionId, bet)
  {
    var longer := log + [e];
    BooksPrefix(wagers, log, e);
    assert longer[|log|] == e;
    if Undoes(wagers, e.transactionId, bet) {
      ReturnedBy(wagers, longer, |log|, bet);
      LastIsNotUndone(wagers, log, e);
    } else if Undone(wagers, log, bet) {
      var j :| 0 <= j < |log| && Undoes(wagers, log[j].transactionId, bet);
      assert longer[j] == log[j];
      ReturnedBy(wagers, log, j, bet);
      ReturnedBy(wagers, longer, j, bet);
      UndoneAppend(wagers, log, e, log[j].transactionId);
      if Reverses(wagers, e.transactionId) && HasEntry(log, wagers[e.transactionId].referenceId) &&
         Undoes(wagers, wagers[e.transactionId].referenceId, bet) {
        var i :| 0 <= i < |log| && log[i].transactionId == wagers[e.transactionId].referenceId;
        OneReversal(wagers, log, i, j, bet);
      }
    } else {
      UndoneAppend(wagers, log, e, bet);
    }
  }

  ghost predicate IsRoot(wagers: Wagers, id: Uuid) {
    id in wagers && (wagers[id].kind.Opening? || wagers[id].kind.Bet? || wagers[id].kind.Win?)
  }

  /** What a reversal and its root have in common. */
  lemma RootExact(wagers: Wagers, log: seq<LedgerEntry>, e: LedgerEntry)
    requires Books(wagers, log + [e])
    ensures var t, root := e.transactionId, RootOf(wagers, e.transactionId);
            && t in wagers && IsRoot(wagers, root)
            && wagers[root].walletId == e.walletId
            && wagers[root].money == e.money
            && (if IsRoot(wagers, t) then root == t
                else Reverses(wagers, t) && HasEntry(log, root) && root != t && HasEntry(log, wagers[t].referenceId))
  {
    BooksPrefix(wagers, log, e);
    var t := e.transactionId;
    assert (log + [e])[|log|] == e;
    assert ReferenceHonoured(wagers, wagers[t]);
    if Reverses(wagers, t) {
      var r := wagers[t].referenceId;
      var i :| 0 <= i < |log| && log[i].transactionId == r;
      assert ReferenceHonoured(wagers, wagers[r]);
      if wagers[r].kind.Refund? {
        var k :| 0 <= k < |log[..i]| && log[..i][k].transactionId == wagers[r].referenceId;
        assert log[k].transactionId == wagers[r].referenceId;
      }
    }
  }

  /** An entry changes the worth of its own root by its movement, and of no other root. */
  lemma WorthStep(wagers: Wagers, log: seq<LedgerEntry>, e: LedgerEntry, x: Uuid)
    requires Books(wagers, log + [e]) && IsRoot(wagers, x) && (HasEntry(log, x) || x == e.transactionId)
    ensures Worth(wagers, log + [e], x) ==
            (if x == e.transactionId then 0 else Worth(wagers, log, x)) +
            (if RootOf(wagers, e.transactionId) == x then e.Delta() else 0)
  {
    BooksPrefix(wagers, log, e);
    RootExact(wagers, log, e);
    if x == e.transactionId {
      LastIsNotUndone(wagers, log, e);
      assert !Returned(wagers, log + [e], x);
    } else {
      UndoneAppend(wagers, log, e, x);
      ReturnedAppend(wagers, log, e, x);
      OldRootStep(wagers, log, e, x);
    }
  }

  lemma OldRootStep(wagers: Wagers, log: seq<LedgerEntry>, e: LedgerEntry, x: Uuid)
    requires Books(wagers, log + [e]) && IsRoot(wagers, x) && HasEntry(log, x) && x != e.transactionId
    requires Undone(wagers, log + [e], x) <==> Undone(wagers, log, x) || Undoes(wagers, e.transactionId, x)
    requires Returned(wagers, log + [e], x) <==>
             if Undoes(wagers, e.transactionId, x) then true
             else Returned(wagers, log, x) && !Restores(wagers, e.transactionId, x)
    ensures Worth(wagers, log + [e], x) ==
            Worth(wagers, log, x) + (if RootOf(wagers, e.transactionId) == x then e.Delta() else 0)
  {
    var t := e.transactionId;
    if Undoes(wagers, t, x) {
      UndoneStep(wagers, log, e, x);
    } else if RootOf(wagers, t) == x {
      RestoredStep(wagers, log, e, x);
    } else {
      WorthStays(wagers, log, log + [e], x);
    }
  }

  /** The entry undoes the root itself. */
  lemma UndoneStep(wagers: Wagers, log: seq<LedgerEntry>, e: LedgerEntry, x: Uuid)
    requires Books(wagers, log + [e]) && IsRoot(wagers, x) && Undoes(wagers, e.transactionId, x)
    requires Undone(wagers, log + [e], x) && Returned(wagers, log + [e], x)
    ensures RootOf(wagers, e.transactionId) == x
    ensures Worth(wagers, log + [e], x) == Worth(wagers, log, x) + e.Delta()
  {
    RootExact(wagers, log, e);
    ReversalMoves(wagers, log, e);
    FirstReversal(wagers, log, e, x);
    WorthUndone(wagers, log, log + [e], x);
  }

  /** The entry rolls back the refund that had undone the root. */
  lemma RestoredStep(wagers: Wagers, log: seq<LedgerEntry>, e: LedgerEntry, x: Uuid)
    requires Books(wagers, log + [e]) && IsRoot(wagers, x) && x != e.transactionId
    requires RootOf(wagers, e.transactionId) == x && !Undoes(wagers, e.transactionId, x)
    requires Restores(wagers, e.transactionId, x) ==> !Returned(wagers, log + [e], x)
    ensures Worth(wagers, log + [e], x) == Worth(wagers, log, x) + e.Delta()
  {
    RootExact(wagers, log, e);
    ReversalMoves(wagers, log, e);
    UndoneRefund(wagers, log, e, x);
    RefundedIsBet(wagers, log, e);
    WorthRestored(wagers, log, log + [e], x);
  }

  /** A refund in the books refers to a bet. */
  lemma RefundedIsBet(wagers: Wagers, log: seq<LedgerEntry>, e: LedgerEntry)
    requires Books(wagers, log + [e]) && Reverses(wagers, e.transactionId)
    requires wagers[e.transactionId].referenceId in wagers && wagers[wagers[e.transactionId].referenceId].kind.Refund?
    requires HasEntry(log, wagers[e.transactionId].referenceId)
    ensures var bet := wagers[wagers[e.transactionId].referenceId].referenceId;
            bet in wagers && wagers[bet].kind.Bet?
  {
    var r := wagers[e.transactionId].referenceId;
    var i :| 0 <= i < |log| && log[i].transactionId == r;
    assert (log + [e])[i] == log[i];
    assert ReferenceHonoured(wagers, wagers[r]);
  }

  /** A reversal moves the amount of what it undoes, back to the player only for a bet. */
  lemma ReversalMoves(wagers: Wagers, log: seq<LedgerEntry>, e: LedgerEntry)
    requires Books(wagers, log + [e]) && Reverses(wagers, e.transactionId)
    ensures var w := wagers[e.transactionId];
            && w.referenceId in wagers && KindAllows(w.kind, wagers[w.referenceId].kind)
            && HasEntry(log, w.referenceId)
            && e.Delta() == (if wagers[w.referenceId].kind.Bet? then Credit else Debit).Signed(e.money.minor)
  {
    BooksPrefix(wagers, log, e);
    var t := e.transactionId;
    assert (log + [e])[|log|] == e;
    assert ReferenceHonoured(wagers, wagers[t]);
    assert DirectionFor(wagers[t], Lookup(wagers, wagers[t].referenceId)) == Some(e.direction);
  }

  lemma WorthUndone(wagers: Wagers, log: seq<LedgerEntry>, longer: seq<LedgerEntry>, x: Uuid)
    requires x in wagers && (wagers[x].kind.Bet? || wagers[x].kind.Win?)
    requires !Undone(wagers, log, x) && !Returned(wagers, log, x) && Undone(wagers, longer, x) && Returned(wagers, longer, x)
    ensures Worth(wagers, longer, x) == 0
    ensures Worth(wagers, log, x) == (if wagers[x].kind.Bet? then Debit else Credit).Signed(wagers[x].money.minor)
  {
  }

  lemma WorthRestored(wagers: Wagers, log: seq<LedgerEntry>, longer: seq<LedgerEntry>, bet: Uuid)
    requires bet in wagers && wagers[bet].kind.Bet? && Returned(wagers, log, bet) && !Returned(wagers, longer, bet)
    ensures Worth(wagers, longer, bet) == Worth(wagers, log, bet) + Debit.Signed(wagers[bet].money.minor)
  {
  }

  lemma WorthStays(wagers: Wagers, log: seq<LedgerEntry>, longer: seq<LedgerEntry>, x: Uuid)
    requires x in wagers
    requires Undone(wagers, log, x) <==> Undone(wagers, longer, x)
    requires Returned(wagers, log, x) <==> Returned(wagers, longer, x)
    ensures Worth(wagers, longer, x) == Worth(wagers, log, x)
  {
  }

  /** Before its one reversal, a transaction stands. */
  lemma FirstReversal(wagers: Wagers, log: seq<LedgerEntry>, e: LedgerEntry, x: Uuid)
    requires Books(wagers, log + [e]) && Undoes(wagers, e.transactionId, x)
    ensures !Undone(wagers, log, x) && !Returned(wagers, log, x)
  {
    forall j | 0 <= j < |log|
      ensures !Undoes(wagers, log[j].transactionId, x)
    {
      assert (log + [e])[j] == log[j] && (log + [e])[|log|] == e;
    }
  }

  /** A rollback of a refund takes back a stake that had been returned. */
  lemma UndoneRefund(wagers: Wagers, log: seq<LedgerEntry>, e: LedgerEntry, bet: Uuid)
    requires Books(wagers, log + [e]) && Reverses(wagers, e.transactionId)
    requires var r := wagers[e.transactionId].referenceId;
             HasEntry(log, r) && r in wagers && wagers[r].kind.Refund? && wagers[r].referenceId == bet
    ensures Returned(wagers, log, bet)
  {
    var r := wagers[e.transactionId].referenceId;
    BooksPrefix(wagers, log, e);
    FirstReversal(wagers, log, e, r);
    var j :| 0 <= j < |log| && log[j].transactionId == r;
    assert Undoes(wagers, log[j].transactionId, bet);
  }

  // --- conservation -------------------------------------------------------

  lemma ChainAppend(wagers: Wagers, log: seq<LedgerEntry>, e: LedgerEntry, root: Uuid)
    ensures Chain(wagers, log + [e], root) ==
            Chain(wagers, log, root) + (if RootOf(wagers, e.transactionId) == root then e.Delta() else 0)
  {
    assert (log + [e])[..|log|] == log;
  }

  lemma ChainStep(wagers: Wagers, log: seq<LedgerEntry>, e: LedgerEntry, root: Uuid)
    requires Books(wagers, log + [e]) && IsRoot(wagers, root)
    requires Chain(wagers, log, root) == if HasEntry(log, root) then Worth(wagers, log, root) else 0
    ensures Chain(wagers, log + [e], root) == if HasEntry(log + [e], root) then Worth(wagers, log + [e], root) else 0
  {
    ChainAppend(wagers, log, e, root);
    RootExact(wagers, log, e);
    EntryAppend(log, e, root);
    BooksPrefix(wagers, log, e);
    if HasEntry(log, root) || root == e.transactionId {
      WorthStep(wagers, log, e, root);
    }
  }

  /** The chain of a root nets to its worth: a bet to minus its stake or to nothing, never more. */
  lemma {:induction false} ChainNets(wagers: Wagers, log: seq<LedgerEntry>, root: Uuid)
    requires Books(wagers, log) && IsRoot(wagers, root)
    ensures Chain(wagers, log, root) == if HasEntry(log, root) then Worth(wagers, log, root) else 0
    decreases |log|
  {
    if log != [] {
      var init, e := log[..|log| - 1], log[|log| - 1];
      assert log == init + [e];
      BooksPrefix(wagers, init, e);
      ChainNets(wagers, init, root);
      ChainStep(wagers, init, e, root);
    }
  }

  lemma EntryAppend(log: seq<LedgerEntry>, e: LedgerEntry, id: Uuid)
    ensures HasEntry(log + [e], id) <==> HasEntry(log, id) || e.transactionId == id
  {
    assert (log + [e])[|log|] == e;
    if HasEntry(log, id) {
      var i :| 0 <= i < |log| && log[i].transactionId == id;
      assert (log + [e])[i].transactionId == id;
    }
  }

  /** One more entry moves the total of the earlier roots by its movement, if its root is among them. */
  lemma {:induction false} TotalStep(wagers: Wagers, log: seq<LedgerEntry>, e: LedgerEntry, k: nat, wallet: Uuid)
    requires Books(wagers, log + [e]) && k <= |log|
    ensures Total(wagers, log + [e], log[..k], wallet) ==
            Total(wagers, log, log[..k], wallet) +
            (if e.walletId == wallet && HasEntry(log[..k], RootOf(wagers, e.transactionId)) then e.Delta() else 0)
    decreases k
  {
    if k > 0 {
      var x, root := log[k - 1], RootOf(wagers, e.transactionId);
      TotalStep(wagers, log, e, k - 1, wallet);
      assert log[..k] == log[..k - 1] + [x];
      TotalAppend(wagers, log + [e], log[..k - 1], x, wallet);
      TotalAppend(wagers, log, log[..k - 1], x, wallet);
      EntryAppend(log[..k - 1], x, root);
      EntryIsNew(wagers, log, e, k - 1);
      ShareStep(wagers, log, e, k - 1, wallet);
    }
  }

  lemma EntryIsNew(wagers: Wagers, log: seq<LedgerEntry>, e: LedgerEntry, i: nat)
    requires Books(wagers, log + [e]) && i < |log|
    ensures !HasEntry(log[..i], log[i].transactionId)
  {
    BooksPrefix(wagers, log, e);
  }

  /** One more entry changes the share of an earlier one by its movement, if that is its root. */
  lemma ShareStep(wagers: Wagers, log: seq<LedgerEntry>, e: LedgerEntry, i: nat, wallet: Uuid)
    requires Books(wagers, log + [e]) && i < |log|
    ensures Share(wagers, log + [e], log[i], wallet) ==
            Share(wagers, log, log[i], wallet) +
            (if e.walletId == wallet && RootOf(wagers, e.transactionId) == log[i].transactionId then e.Delta() else 0)
  {
    var x := log[i].transactionId;
    OnOwnWallet(wagers, log, e, i);
    RootExact(wagers, log, e);
    if IsRoot(wagers, x) {
      WorthStep(wagers, log, e, x);
    }
  }

  lemma OnOwnWallet(wagers: Wagers, log: seq<LedgerEntry>, e: LedgerEntry, i: nat)
    requires Books(wagers, log + [e]) && i < |log|
    ensures log[i].transactionId in wagers && wagers[log[i].transactionId].walletId == log[i].walletId
    ensures HasEntry(log, log[i].transactionId) && log[i].transactionId != e.transactionId
  {
    BooksPrefix(wagers, log, e);
    assert EntryMatches(wagers, log[i]);
  }

  lemma TotalAppend(wagers: Wagers, log: seq<LedgerEntry>, entries: seq<LedgerEntry>, e: LedgerEntry, wallet: Uuid)
    ensures Total(wagers, log, entries + [e], wallet) ==
            Total(wagers, log, entries, wallet) + Share(wagers, log, e, wallet)
  {
    assert (entries + [e])[..|entries|] == entries;
  }

  lemma SumStep(wagers: Wagers, log: seq<LedgerEntry>, e: LedgerEntry, wallet: Uuid)
    requires Books(wagers, log + [e]) && Sum(log, wallet) == Total(wagers, log, log, wallet)
    ensures Sum(log + [e], wallet) == Total(wagers, log + [e], log + [e], wallet)
  {
    SumAppend(log, e, wallet);
    TotalAppend(wagers, log + [e], log, e, wallet);
    assert log[..|log|] == log;
    TotalStep(wagers, log, e, |log|, wallet);
    RootExact(wagers, log, e);
    BooksPrefix(wagers, log, e);
    if IsRoot(wagers, e.transactionId) {
      WorthStep(wagers, log, e, e.transactionId);
    }
  }

  /** A balance is what its openings, unreturned bets and standing wins are worth. */
  lemma {:induction false} SumIsWorth(wagers: Wagers, log: seq<LedgerEntry>, wallet: Uuid)
    requires Books(wagers, log)
    ensures Sum(log, wallet) == Total(wagers, log, log, wallet)
    decreases |log|
  {
    if log != [] {
      var init, e := log[..|log| - 1], log[|log| - 1];
      assert log == init + [e];
      BooksPrefix(wagers, init, e);
      SumIsWorth(wagers, init, wallet);
      SumStep(wagers, init, e, wallet);
    }
  }

  lemma EntryInBooks(db: Db, i: nat)
    requires WagersOk(db) && ReferencesOk(db) && EntriesOk(db) && i < |db.ledger|
    ensures EntryMatches(db.wagers, db.ledger[i])
    ensures var w := db.wagers[db.ledger[i].transactionId];
            && w.id == db.ledger[i].transactionId
            && ReferenceHonoured(db.wagers, w) && (w.kind.Opening? || w.kind.External())
            && (w.kind.Reversing() ==> w.referenceId != NO_ID)
  {
    assert EntryMatches(db.wagers, db.ledger[i]);
    assert WagerOk(db.wallets, db.wagers[db.ledger[i].transactionId]);
  }

  lemma ReversalsDiffer(db: Db, i: nat, j: nat)
    requires WagersOk(db) && KeysOk(db) && ReferencesOk(db) && EntriesOk(db) && i < j < |db.ledger|
    requires Reverses(db.wagers, db.ledger[i].transactionId) && Reverses(db.wagers, db.ledger[j].transactionId)
    ensures db.wagers[db.ledger[i].transactionId].referenceId != db.wagers[db.ledger[j].transactionId].referenceId
  {
    EntryInBooks(db, i);
    EntryInBooks(db, j);
    assert NoClash(db.wagers[db.ledger[i].transactionId], db.wagers[db.ledger[j].transactionId]);
  }

  /** The invariant of the database includes the books. */
  lemma ValidKeepsBooks(db: Db)
    requires WagersOk(db) && KeysOk(db) && ReferencesOk(db) && EntriesOk(db) && OrderOk(db)
    ensures Books(db.wagers, db.ledger)
  {
    forall i | 0 <= i < |db.ledger|
      ensures EntryMatches(db.wagers, db.ledger[i])
      ensures var w := db.wagers[db.ledger[i].transactionId];
              && w.id == db.ledger[i].transactionId
              && ReferenceHonoured(db.wagers, w) && (w.kind.Opening? || w.kind.External())
              && (w.kind.Reversing() ==> w.referenceId != NO_ID)
    {
      EntryInBooks(db, i);
    }
    forall i, j | 0 <= i < j < |db.ledger| && Reverses(db.wagers, db.ledger[i].transactionId)
                  && Reverses(db.wagers, db.ledger[j].transactionId)
      ensures db.wagers[db.ledger[i].transactionId].referenceId != db.wagers[db.ledger[j].transactionId].referenceId
    {
      ReversalsDiffer(db, i, j);
    }
  }

  lemma ReversedIsUndone(db: Db, r: Uuid, id: Uuid)
    requires ProcessedOk(db) && r in db.wagers && IsReversalOf(db.wagers[r], id)
    ensures Undone(db.wagers, db.ledger, id)
  {
    assert ProcessedHasEntry(db, r);
    var j :| 0 <= j < |db.ledger| && db.ledger[j].transactionId == r;
    assert Undoes(db.wagers, db.ledger[j].transactionId, id);
  }

  /** The reversal query and the ledger agree on what has been undone. */
  lemma UndoneIsReversed(db: Db, id: Uuid)
    requires ProcessedOk(db) && EntriesOk(db)
    ensures Undone(db.wagers, db.ledger, id) <==> ReversalExists(db.wagers, id)
  {
    if ReversalExists(db.wagers, id) {
      var r :| r in db.wagers && IsReversalOf(db.wagers[r], id);
      ReversedIsUndone(db, r, id);
    }
    if Undone(db.wagers, db.ledger, id) {
      var j :| 0 <= j < |db.ledger| && Undoes(db.wagers, db.ledger[j].transactionId, id);
      assert EntryMatches(db.wagers, db.ledger[j]);
      assert IsReversalOf(db.wagers[db.ledger[j].transactionId], id);
    }
  }

  /** In every valid database a wallet holds its opening, plus standing wins, minus stakes not returned. */
  lemma BalanceConserved(db: Db, wallet: Uuid)
    requires Valid(db) && wallet in db.wallets
    ensures db.wallets[wallet].balance.minor == Total(db.wagers, db.ledger, db.ledger, wallet)
  {
    ValidMeans(db);
    ValidKeepsBooks(db);
    SumIsWorth(db.wagers, db.ledger, wallet);
  }

  /** A processed bet costs exactly its stake or nothing, over its whole chain of reversals. */
  lemma StakeReturnedAtMostOnce(db: Db, bet: Uuid)
    requires Valid(db) && bet in db.wagers && db.wagers[bet].status.Processed? && db.wagers[bet].kind.Bet?
    ensures Chain(db.wagers, db.ledger, bet) ==
            if Returned(db.wagers, db.ledger, bet) then 0 else Debit.Signed(db.wagers[bet].money.minor)
  {
    ValidMeans(db);
    ValidKeepsBooks(db);
    assert ProcessedHasEntry(db, bet);
    ChainNets(db.wagers, db.ledger, bet);
  }
}
