/**
 Every legal commit keeps the invariant of the database. A commit is first described
 as a change of one row with at most one movement of its wallet; the parts of the
 invariant are then kept by any such change.
 */
module Preservation {
  import opened Base
  import opened MoneyValue
  import opened Domain
  import opened Contracts
  import opened Database
  import opened Decisions
  import opened Invariants

  // --- what a commit changes ----------------------------------------------

  /** What a transaction that is still to be decided looks like, new or waiting. */
  ghost predicate Undecided(w: WagerState) {
    && w.kind.External() && w.id != NO_ID && w.walletId != NO_ID && w.playerId != NO_ID
    && w.providerId != "" && w.externalId != "" && w.idempotencyKey != "" && w.payloadHash.Some?
    && w.roundId != "" && w.gameId != ""
    && ValidateAmountForKind(w.kind, w.money) == None
    && (w.kind.Reversing() ==> w.referenceExternalId != "")
    && (!w.kind.Win? && !w.kind.Reversing() ==> w.referenceExternalId == "")
    && w.referenceId == NO_ID && w.failureCode.NoFailure? && w.result == None
    && w.createdAt != ZERO_TIME && w.updatedAt != ZERO_TIME
  }

  lemma AdmissibleIsUndecided(db: Db, w: WagerState, insert: bool)
    requires WagersOk(db) && Admissible(db, w, insert)
    ensures Undecided(w)
    ensures insert ==> w.attempts == 0
    ensures !insert ==> w.attempts >= 1 && IdentityMatches(w, db.wallets[w.walletId])
  {
    if !insert { assert WagerOk(db.wallets, db.wagers[w.id]); }
  }

  ghost predicate SameIdentity(w: WagerState, final: WagerState) {
    final == w.(referenceId := final.referenceId, status := final.status, failureCode := final.failureCode,
                result := final.result, attempts := final.attempts, nextAttempt := final.nextAttempt,
                updatedAt := final.updatedAt)
  }

  /** One undecided row, new or waiting, becomes `final`, whose reference is in order. */
  ghost predicate RowEvolves(wagers: map<Uuid, WagerState>, after: map<Uuid, WagerState>, w: WagerState, final: WagerState) {
    && Undecided(w)
    && (if w.id in wagers then wagers[w.id] == w && w.status.PendingReference? else KeysFree(wagers, w))
    && SameIdentity(w, final) && !final.status.Pending?
    && after == wagers[w.id := final]
    && NamesTerminal(wagers, final)
    && (final.status.Processed? ==> ReferenceHonoured(wagers, final))
    && (IsReversal(final) ==> !ReversalExists(wagers, final.referenceId))
  }

  /** The wallet and the ledger move together, exactly when the row is processed and not a loss. */
  ghost predicate MoneyEvolves(db: Db, after: Db, w: WagerState, final: WagerState, m: Option<Movement>) {
    && w.walletId in db.wallets
    && (m.Some? <==> final.status.Processed? && !final.kind.Loss?)
    && (m.None? ==> after.wallets == db.wallets && after.ledger == db.ledger)
    && (m.Some? ==>
          && var prior, wallet, e := db.wallets[w.walletId], m.value.wallet, m.value.entry;
          && after.wallets == db.wallets[w.walletId := wallet] && after.ledger == db.ledger + [e]
          && wallet.id == prior.id && wallet.playerId == prior.playerId && wallet.createdAt == prior.createdAt
          && wallet.updatedAt != ZERO_TIME && wallet.balance == e.after && wallet.version == prior.version + 1
          && e.walletId == w.walletId && e.transactionId == w.id && e.money == w.money && e.money.minor > 0
          && e.before == prior.balance && prior.balance.currency == w.money.currency == e.after.currency
          && 0 <= e.after.minor && e.after.minor == e.before.minor + e.Delta()
          && final.result == Some(e.after)
          && DirectionFor(final, Lookup(db.wagers, final.referenceId)) == Some(e.direction)
          && e.id != NO_ID && (forall i :: 0 <= i < |db.ledger| ==> db.ledger[i].id != e.id))
  }

  lemma CommitRow(db: Db, w: WagerState, d: Decision, meta: Meta)
    requires WagersOk(db) && LegalRow(db, w, d, meta)
    ensures RowEvolves(db.wagers, Commit(db, w, d, meta).wagers, w, Final(w, db.wallets[w.walletId], d, meta.now))
  {
    AdmissibleIsUndecided(db, w, meta.insert);
    FinalIdentity(w, db.wallets[w.walletId], d, meta.now);
    FinalReference(db, w, d, meta);
  }

  lemma FinalIdentity(w: WagerState, wallet: WalletState, d: Decision, now: Time)
    requires Feasible(w, wallet, d)
    ensures SameIdentity(w, Final(w, wallet, d, now)) && !Final(w, wallet, d, now).status.Pending?
  {
  }

  /** Whatever reference a decision links is in order. */
  lemma FinalReference(db: Db, w: WagerState, d: Decision, meta: Meta)
    requires w.walletId in db.wallets && w.referenceId == NO_ID && Justified(db, w, d, meta)
    ensures var final := Final(w, db.wallets[w.walletId], d, meta.now);
            && NamesTerminal(db.wagers, final)
            && (final.status.Processed? ==> ReferenceHonoured(db.wagers, final))
            && (IsReversal(final) ==> !ReversalExists(db.wagers, final.referenceId))
  {
  }

  lemma CommitMoney(db: Db, w: WagerState, d: Decision, meta: Meta)
    requires WalletsOk(db) && WagersOk(db) && Legal(db, w, d, meta)
    ensures var wallet := db.wallets[w.walletId];
            MoneyEvolves(db, Commit(db, w, d, meta), w, Final(w, wallet, d, meta.now), MovementOf(w, wallet, d, meta))
  {
    if d.Settle? && d.direction.Some? {
      SettlementFacts(db, w, d, meta);
      SettleMoves(db, w, d, meta);
    } else {
      StillCommit(db, w, d, meta);
    }
  }

  lemma SettlementFacts(db: Db, w: WagerState, d: Decision, meta: Meta)
    requires WagersOk(db) && LegalRow(db, w, d, meta) && d.Settle? && d.direction.Some?
    ensures Undecided(w) && IdentityMatches(w, db.wallets[w.walletId])
    ensures d.direction == DirectionFor(w, Lookup(db.wagers, d.referenceId))
    ensures 0 <= Target(w, db.wallets[w.walletId], d.direction) <= MAX_INT64
  {
    AdmissibleIsUndecided(db, w, meta.insert);
  }

  lemma StillCommit(db: Db, w: WagerState, d: Decision, meta: Meta)
    requires WagersOk(db) && LegalRow(db, w, d, meta) && (d.Settle? ==> d.direction.None?)
    ensures var wallet := db.wallets[w.walletId];
            MoneyEvolves(db, Commit(db, w, d, meta), w, Final(w, wallet, d, meta.now), MovementOf(w, wallet, d, meta))
  {
    if d.Settle? {
      AdmissibleIsUndecided(db, w, meta.insert);
      StillIsLoss(db, w, d, meta);
    }
    OthersStay(db, w, d, meta);
  }

  /** Only a loss is settled without a movement. */
  lemma StillIsLoss(db: Db, w: WagerState, d: Decision, meta: Meta)
    requires Undecided(w) && w.walletId in db.wallets && d.Settle? && d.direction.None? && Justified(db, w, d, meta)
    ensures w.kind.Loss?
  {
  }

  lemma OthersStay(db: Db, w: WagerState, d: Decision, meta: Meta)
    requires w.walletId in db.wallets && Feasible(w, db.wallets[w.walletId], d)
    requires d.Settle? ==> d.direction.None? && w.kind.Loss?
    ensures var wallet := db.wallets[w.walletId];
            MoneyEvolves(db, Commit(db, w, d, meta), w, Final(w, wallet, d, meta.now), MovementOf(w, wallet, d, meta))
  {
  }

  /** A settlement with a direction moves the wallet and the ledger by the amount of the transaction. */
  lemma SettleMoves(db: Db, w: WagerState, d: Decision, meta: Meta)
    requires Undecided(w) && w.walletId in db.wallets
    requires db.wallets[w.walletId].id == w.walletId && db.wallets[w.walletId].balance.minor >= 0
    requires IdentityMatches(w, db.wallets[w.walletId]) && db.wallets[w.walletId].version < MAX_INT64
    requires d.Settle? && d.direction.Some? && d.direction == DirectionFor(w, Lookup(db.wagers, d.referenceId))
    requires 0 <= Target(w, db.wallets[w.walletId], d.direction) <= MAX_INT64
    requires meta.now != ZERO_TIME && meta.entryId != NO_ID
    requires forall i :: 0 <= i < |db.ledger| ==> db.ledger[i].id != meta.entryId
    ensures var wallet := db.wallets[w.walletId];
            MoneyEvolves(db, Commit(db, w, d, meta), w, Final(w, wallet, d, meta.now), MovementOf(w, wallet, d, meta))
  {
  }

  // --- wallets and rows ---------------------------------------------------

  lemma KeepWallets(db: Db, after: Db, w: WagerState, final: WagerState, m: Option<Movement>)
    requires WalletsOk(db) && MoneyEvolves(db, after, w, final, m)
    ensures WalletsOk(after)
  {
  }

  /** The committed row meets every CHECK and can be read back. */
  lemma KeepRow(db: Db, w: WagerState, d: Decision, meta: Meta)
    requires WalletsOk(db) && WagersOk(db) && LegalRow(db, w, d, meta)
    ensures WagerOk(db.wallets, Final(w, db.wallets[w.walletId], d, meta.now))
  {
    AdmissibleIsUndecided(db, w, meta.insert);
    FinalRowOk(db.wallets, w, d, meta);
  }

  lemma FinalRowOk(wallets: map<Uuid, WalletState>, w: WagerState, d: Decision, meta: Meta)
    requires Undecided(w) && w.walletId in wallets && SoundWallet(wallets[w.walletId]) && meta.now != ZERO_TIME
    requires Feasible(w, wallets[w.walletId], d)
    requires d.Hold? ==> w.referenceExternalId != ""
    requires d.Refuse? ==> !d.code.NoFailure? && (d.referenceId != NO_ID ==> w.referenceExternalId != "")
    requires d.Settle? ==> d.referenceId != NO_ID ==> w.referenceExternalId != ""
    requires d.Exhaust? ==> w.attempts >= 1
    requires !d.Refuse? ==> IdentityMatches(w, wallets[w.walletId])
    ensures WagerOk(wallets, Final(w, wallets[w.walletId], d, meta.now))
  {
  }

  lemma AdmissibleIsHashed(db: Db, w: WagerState, insert: bool)
    requires HashesOk(db) && Admissible(db, w, insert) && w.kind.External()
    ensures SelfHashed(w)
  {
  }

  /** No decision touches what the hash covers. */
  lemma KeepHashes(db: Db, after: Db, w: WagerState, final: WagerState)
    requires HashesOk(db) && SelfHashed(w) && SameIdentity(w, final) && after.wagers == db.wagers[w.id := final]
    ensures HashesOk(after)
  {
  }

  lemma KeepWagers(db: Db, after: Db, w: WagerState, final: WagerState, m: Option<Movement>)
    requires WagersOk(db) && WagerOk(db.wallets, final)
    requires RowEvolves(db.wagers, after.wagers, w, final) && MoneyEvolves(db, after, w, final, m)
    ensures WagersOk(after)
  {
    OwnersStay(db, after, w, final, m);
    forall id | id in after.wagers
      ensures after.wagers[id].id == id && WagerOk(after.wallets, after.wagers[id])
    {
      SameOwners(db.wallets, after.wallets, after.wagers[id]);
    }
  }

  lemma OwnersStay(db: Db, after: Db, w: WagerState, final: WagerState, m: Option<Movement>)
    requires MoneyEvolves(db, after, w, final, m)
    ensures forall id :: id in db.wallets ==>
               && id in after.wallets && after.wallets[id].playerId == db.wallets[id].playerId
               && after.wallets[id].balance.currency == db.wallets[id].balance.currency
  {
  }

  lemma SameOwners(wallets: map<Uuid, WalletState>, after: map<Uuid, WalletState>, w: WagerState)
    requires WagerOk(wallets, w)
    requires forall id :: id in wallets ==>
               && id in after && after[id].playerId == wallets[id].playerId
               && after[id].balance.currency == wallets[id].balance.currency
    ensures WagerOk(after, w)
  {
  }

  lemma KeepKeys(wagers: map<Uuid, WagerState>, after: map<Uuid, WagerState>, w: WagerState, final: WagerState)
    requires forall a, b :: a in wagers && b in wagers && a != b ==> NoClash(wagers[a], wagers[b])
    requires RowEvolves(wagers, after, w, final)
    ensures forall a, b :: a in after && b in after && a != b ==> NoClash(after[a], after[b])
  {
    forall id | id in wagers && id != w.id
      ensures NoClash(final, wagers[id]) && NoClash(wagers[id], final)
    {
      if w.id in wagers { assert NoClash(wagers[w.id], wagers[id]) && NoClash(wagers[id], wagers[w.id]); }
    }
  }

  /** Terminal rows do not change, so what a row says about them stays true. */
  lemma KeepReference(wagers: map<Uuid, WagerState>, after: map<Uuid, WagerState>, changed: Uuid, w: WagerState)
    requires NamesTerminal(wagers, w) && (w.status.Processed? ==> ReferenceHonoured(wagers, w))
    requires changed in wagers ==> !wagers[changed].status.Terminal()
    requires forall id :: id in wagers && id != changed ==> id in after && after[id] == wagers[id]
    ensures NamesTerminal(after, w) && (w.status.Processed? ==> ReferenceHonoured(after, w))
  {
  }

  lemma KeepReferences(db: Db, after: Db, w: WagerState, final: WagerState)
    requires ReferencesOk(db) && RowEvolves(db.wagers, after.wagers, w, final)
    ensures ReferencesOk(after)
  {
    forall id | id in after.wagers
      ensures NamesTerminal(after.wagers, after.wagers[id])
      ensures after.wagers[id].status.Processed? ==> ReferenceHonoured(after.wagers, after.wagers[id])
    {
      KeepReference(db.wagers, after.wagers, w.id, after.wagers[id]);
    }
  }

  // --- ledger -------------------------------------------------------------

  lemma OldEntryMatches(wagers: map<Uuid, WagerState>, after: map<Uuid, WagerState>, w: WagerState,
      final: WagerState, e: LedgerEntry)
    requires EntryMatches(wagers, e) && NamesTerminal(wagers, wagers[e.transactionId]) && RowEvolves(wagers, after, w, final)
    ensures e.transactionId != w.id && EntryMatches(after, e)
  {
  }

  /** The entry of a settled transaction passes the ledger trigger. */
  lemma NewEntryMatches(db: Db, after: Db, w: WagerState, final: WagerState, m: Option<Movement>)
    requires RowEvolves(db.wagers, after.wagers, w, final) && MoneyEvolves(db, after, w, final, m) && m.Some?
    requires NO_ID !in db.wagers
    ensures EntryMatches(after.wagers, m.value.entry)
  {
    assert final.referenceId != NO_ID ==> Lookup(after.wagers, final.referenceId) == Lookup(db.wagers, final.referenceId);
  }

  lemma EntriesAppend(db: Db, after: Db, e: LedgerEntry)
    requires EntriesOk(db) && after.ledger == db.ledger + [e] && EntryMatches(after.wagers, e)
    requires forall i :: 0 <= i < |db.ledger| ==>
               && EntryMatches(after.wagers, db.ledger[i])
               && db.ledger[i].transactionId != e.transactionId && db.ledger[i].id != e.id
    ensures EntriesOk(after)
  {
  }

  lemma KeepEntries(db: Db, after: Db, w: WagerState, final: WagerState, m: Option<Movement>)
    requires EntriesOk(db) && ReferencesOk(db) && NO_ID !in db.wagers
    requires RowEvolves(db.wagers, after.wagers, w, final) && MoneyEvolves(db, after, w, final, m)
    ensures EntriesOk(after)
    ensures forall i :: 0 <= i < |db.ledger| ==> db.ledger[i].transactionId != w.id
  {
    forall i | 0 <= i < |db.ledger|
      ensures EntryMatches(after.wagers, db.ledger[i]) && db.ledger[i].transactionId != w.id
    {
      OldEntryMatches(db.wagers, after.wagers, w, final, db.ledger[i]);
    }
    if m.Some? {
      NewEntryMatches(db, after, w, final, m);
      EntriesAppend(db, after, m.value.entry);
    }
  }

  lemma HasEntryAppend(ledger: seq<LedgerEntry>, e: LedgerEntry, id: Uuid)
    ensures HasEntry(ledger + [e], id) <==> HasEntry(ledger, id) || e.transactionId == id
  {
    if HasEntry(ledger, id) {
      var i :| 0 <= i < |ledger| && ledger[i].transactionId == id;
      assert (ledger + [e])[i].transactionId == id;
    }
    assert (ledger + [e])[|ledger|] == e;
  }

  lemma KeepProcessed(db: Db, after: Db, w: WagerState, final: WagerState, m: Option<Movement>)
    requires ProcessedOk(db) && RowEvolves(db.wagers, after.wagers, w, final) && MoneyEvolves(db, after, w, final, m)
    ensures ProcessedOk(after)
  {
    forall id | id in after.wagers
      ensures ProcessedHasEntry(after, id)
    {
      if id != w.id { assert ProcessedHasEntry(db, id); }
      if m.Some? { HasEntryAppend(db.ledger, m.value.entry, id); }
    }
  }

  /** The reference of a processed transaction is no loss, so it is in the ledger already. */
  lemma ReferenceHasEntry(db: Db, w: WagerState)
    requires ProcessedOk(db) && w.kind.External() && ReferenceHonoured(db.wagers, w) && w.referenceId != NO_ID
    requires w.kind.Win? || w.kind.Reversing()
    ensures HasEntry(db.ledger, w.referenceId)
  {
    assert ProcessedHasEntry(db, w.referenceId);
  }

  lemma KeepOrder(db: Db, after: Db, w: WagerState, final: WagerState, m: Option<Movement>)
    requires ProcessedOk(db) && OrderOk(db)
    requires forall i :: 0 <= i < |db.ledger| ==> db.ledger[i].transactionId in db.wagers && db.ledger[i].transactionId != w.id
    requires RowEvolves(db.wagers, after.wagers, w, final) && MoneyEvolves(db, after, w, final, m)
    ensures OrderOk(after)
  {
    forall j | 0 <= j < |after.ledger| && after.ledger[j].transactionId in after.wagers &&
               after.wagers[after.ledger[j].transactionId].referenceId != NO_ID
      ensures HasEntry(after.ledger[..j], after.wagers[after.ledger[j].transactionId].referenceId)
    {
      if j < |db.ledger| {
        assert after.ledger[..j] == db.ledger[..j] && after.ledger[j] == db.ledger[j];
      } else {
        assert after.ledger[..j] == db.ledger;
        ReferenceHasEntry(db, final);
      }
    }
  }

  lemma OpeningsUnchanged(wagers: map<Uuid, WagerState>, after: map<Uuid, WagerState>, w: WagerState, final: WagerState)
    requires RowEvolves(wagers, after, w, final)
    ensures Openings(after) == Openings(wagers) && w.id !in Openings(wagers)
  {
  }

  lemma MovesAppend(openings: set<Uuid>, ledger: seq<LedgerEntry>, e: LedgerEntry, wallet: Uuid)
    ensures Moves(openings, ledger + [e], wallet) ==
            Moves(openings, ledger, wallet) + (if e.walletId == wallet && e.transactionId !in openings then 1 else 0)
  {
    assert (ledger + [e])[..|ledger|] == ledger;
  }

  lemma ChainAppend(openings: set<Uuid>, ledger: seq<LedgerEntry>, e: LedgerEntry)
    ensures ChainOk(openings, ledger + [e]) <==>
            && ChainOk(openings, ledger)
            && e.before.minor == Sum(ledger, e.walletId)
            && e.after.minor == e.before.minor + e.Delta()
            && 0 <= e.before.minor <= MAX_INT64 && 0 <= e.after.minor <= MAX_INT64 && e.money.minor > 0
            && (e.transactionId in openings ==> !Touches(ledger, e.walletId))
  {
    assert (ledger + [e])[..|ledger|] == ledger;
  }

  /** A wallet that moves by the new entry, or stays, keeps the sum and the count of its movements. */
  lemma WalletFollows(openings: set<Uuid>, ledger: seq<LedgerEntry>, e: LedgerEntry, prior: WalletState, wallet: WalletState)
    requires wallet.id == prior.id && e.transactionId !in openings
    requires prior.balance.minor == Sum(ledger, prior.id) && prior.version == 1 + Moves(openings, ledger, prior.id)
    requires wallet.balance.minor == prior.balance.minor + (if e.walletId == wallet.id then e.Delta() else 0)
    requires wallet.version == prior.version + (if e.walletId == wallet.id then 1 else 0)
    ensures wallet.balance.minor == Sum(ledger + [e], wallet.id)
    ensures wallet.version == 1 + Moves(openings, ledger + [e], wallet.id)
  {
    SumAppend(ledger, e, wallet.id);
    MovesAppend(openings, ledger, e, wallet.id);
  }

  lemma EntriesAreOwned(db: Db, after: Db, m: Movement)
    requires after.ledger == db.ledger + [m.entry] && m.entry.walletId in db.wallets
    requires after.wallets == db.wallets[m.entry.walletId := m.wallet]
    requires m.wallet.balance.currency == db.wallets[m.entry.walletId].balance.currency == m.entry.money.currency
    requires forall i :: 0 <= i < |db.ledger| ==>
               && db.ledger[i].walletId in db.wallets
               && db.ledger[i].money.currency == db.wallets[db.ledger[i].walletId].balance.currency
    ensures forall i :: 0 <= i < |after.ledger| ==>
              && after.ledger[i].walletId in after.wallets
              && after.ledger[i].money.currency == after.wallets[after.ledger[i].walletId].balance.currency
  {
  }

  /** No lost update: the stored balance stays the ledger's sum and the version counts the movements. */
  lemma KeepBalances(db: Db, after: Db, w: WagerState, final: WagerState, m: Option<Movement>)
    requires WalletsOk(db) && BalancesOk(db)
    requires RowEvolves(db.wagers, after.wagers, w, final) && MoneyEvolves(db, after, w, final, m)
    ensures BalancesOk(after)
  {
    var openings := Openings(db.wagers);
    OpeningsUnchanged(db.wagers, after.wagers, w, final);
    if m.Some? {
      ChainAppend(openings, db.ledger, m.value.entry);
      forall id | id in after.wallets
        ensures after.wallets[id].balance.minor == Sum(after.ledger, id)
        ensures after.wallets[id].version == 1 + Moves(openings, after.ledger, id)
      {
        WalletFollows(openings, db.ledger, m.value.entry, db.wallets[id], after.wallets[id]);
      }
      EntriesAreOwned(db, after, m.value);
    }
  }

  // --- outbox -------------------------------------------------------------

  ghost predicate Announces(own: seq<Event>, changed: seq<Event>, insert: bool, final: WagerState, m: Option<Movement>) {
    && |own| <= 1
    && (own == [] <==> !final.status.Terminal() && !insert)
    && (own != [] ==>
          && own[0].aggregateId == final.id
          && own[0].data == if final.status.Terminal() && final.result.Some? then TerminalData(final, final.result.value)
                            else PendingData(final))
    && |changed| <= 1
    && (changed == [] <==> m == None)
    && (m.Some? && changed != [] ==>
          changed[0].aggregateId == m.value.entry.walletId &&
          changed[0].data == ChangedData(m.value.entry, m.value.wallet.version))
  }

  /** The events of one commit, with new identifiers. */
  ghost predicate EventsEvolve(
      db: Db, after: Db, own: seq<Event>, changed: seq<Event>, insert: bool, final: WagerState, m: Option<Movement>) {
    && after.outbox == db.outbox + (own + changed)
    && Announces(own, changed, insert, final, m)
    && (final.status.Terminal() ==> final.result.Some?)
    && (!final.status.Terminal() ==> final.nextAttempt.Some? && final.status.PendingReference?)
    && (final.attempts >= 1 <==> !final.status.Terminal() || !insert)
    && (own != [] ==> own[0].id != NO_ID && forall e :: e in db.outbox ==> e.id != own[0].id)
    && (changed != [] ==> changed[0].id != NO_ID && forall e :: e in db.outbox ==> e.id != changed[0].id)
    && (own != [] && changed != [] ==> own[0].id != changed[0].id)
  }

  lemma CommitEvents(db: Db, w: WagerState, d: Decision, meta: Meta)
    requires WalletsOk(db) && WagersOk(db) && Legal(db, w, d, meta)
    ensures var wallet := db.wallets[w.walletId];
            EventsEvolve(db, Commit(db, w, d, meta), OwnEvents(w, wallet, d, meta), BalanceEvents(w, wallet, d, meta),
                         meta.insert, Final(w, wallet, d, meta.now), MovementOf(w, wallet, d, meta))
  {
    AdmissibleIsUndecided(db, w, meta.insert);
    EventsOf(db, w, d, meta);
  }

  lemma EventsOf(db: Db, w: WagerState, d: Decision, meta: Meta)
    requires w.walletId in db.wallets && db.wallets[w.walletId].id == w.walletId
    requires Feasible(w, db.wallets[w.walletId], d) && IdsFree(db, meta)
    requires w.attempts >= 1 <==> !meta.insert
    ensures var wallet := db.wallets[w.walletId];
            EventsEvolve(db, Commit(db, w, d, meta), OwnEvents(w, wallet, d, meta), BalanceEvents(w, wallet, d, meta),
                         meta.insert, Final(w, wallet, d, meta.now), MovementOf(w, wallet, d, meta))
  {
  }

  lemma EventAppend(outbox: seq<Event>, e: Event, id: Uuid, terminal: bool)
    ensures CountEvents(outbox + [e], id, terminal) ==
            CountEvents(outbox, id, terminal) + (if Counts(e.data, id, terminal) then 1 else 0)
    ensures Feed(outbox + [e]) == Feed(outbox) + (if e.data.WalletBalanceChanged? then [e.data] else [])
  {
    assert (outbox + [e])[..|outbox|] == outbox;
  }

  /** One event about a transaction, perhaps followed by one about a balance. */
  lemma EventsAppend(outbox: seq<Event>, own: seq<Event>, changed: seq<Event>, id: Uuid, terminal: bool)
    requires |own| <= 1 && |changed| <= 1
    requires own != [] ==> !own[0].data.WalletBalanceChanged?
    requires changed != [] ==> changed[0].data.WalletBalanceChanged?
    ensures CountEvents(outbox + (own + changed), id, terminal) ==
            CountEvents(outbox, id, terminal) + (if own != [] && Counts(own[0].data, id, terminal) then 1 else 0)
    ensures Feed(outbox + (own + changed)) == Feed(outbox) + (if changed != [] then [changed[0].data] else [])
  {
    assert outbox + (own + changed) == (outbox + own) + changed;
    if own == [] {
      assert outbox + own == outbox;
    } else {
      assert own == [own[0]];
      EventAppend(outbox, own[0], id, terminal);
    }
    if changed == [] {
      assert (outbox + own) + changed == outbox + own;
    } else {
      assert changed == [changed[0]];
      EventAppend(outbox + own, changed[0], id, terminal);
    }
  }

  lemma {:induction false} NoEvents(outbox: seq<Event>, id: Uuid, terminal: bool)
    requires forall i :: 0 <= i < |outbox| && !outbox[i].data.WalletBalanceChanged? ==> outbox[i].data.transactionId != id
    ensures CountEvents(outbox, id, terminal) == 0
  {
    if outbox != [] { NoEvents(outbox[..|outbox| - 1], id, terminal); }
  }

  lemma AnnouncedAppend(openings: set<Uuid>, ledger: seq<LedgerEntry>, e: LedgerEntry)
    ensures Announced(openings, ledger + [e]) ==
            Announced(openings, ledger) + [ChangedData(e, 1 + Moves(openings, ledger + [e], e.walletId))]
  {
    assert (ledger + [e])[..|ledger|] == ledger;
  }

  lemma AnnouncedGrows(openings: set<Uuid>, ledger: seq<LedgerEntry>, e: LedgerEntry, version: int)
    requires e.transactionId !in openings && version == 2 + Moves(openings, ledger, e.walletId)
    ensures Announced(openings, ledger + [e]) == Announced(openings, ledger) + [ChangedData(e, version)]
  {
    AnnouncedAppend(openings, ledger, e);
    MovesAppend(openings, ledger, e, e.walletId);
  }

  lemma OldEventFaithful(wagers: map<Uuid, WagerState>, after: map<Uuid, WagerState>, w: WagerState,
      final: WagerState, e: Event)
    requires RowEvolves(wagers, after, w, final) && Faithful(wagers, e)
    ensures Faithful(after, e)
  {
  }

  lemma EventsJoin(outbox: seq<Event>, wagers: map<Uuid, WagerState>, own: seq<Event>, changed: seq<Event>)
    requires |own| <= 1 && |changed| <= 1
    requires forall i :: 0 <= i < |outbox| ==> Faithful(wagers, outbox[i]) && outbox[i].id != NO_ID
    requires forall i, j :: 0 <= i < j < |outbox| ==> outbox[i].id != outbox[j].id
    requires own != [] ==> Faithful(wagers, own[0]) && own[0].id != NO_ID && forall e :: e in outbox ==> e.id != own[0].id
    requires changed != [] ==>
               Faithful(wagers, changed[0]) && changed[0].id != NO_ID && forall e :: e in outbox ==> e.id != changed[0].id
    requires own != [] && changed != [] ==> own[0].id != changed[0].id
    ensures var all := outbox + (own + changed);
            && (forall i :: 0 <= i < |all| ==> Faithful(wagers, all[i]) && all[i].id != NO_ID)
            && (forall i, j :: 0 <= i < j < |all| ==> all[i].id != all[j].id)
  {
  }

  lemma KeepFaithful(db: Db, after: Db, w: WagerState, final: WagerState, m: Option<Movement>,
                     own: seq<Event>, changed: seq<Event>, insert: bool)
    requires OutboxOk(db) && RowEvolves(db.wagers, after.wagers, w, final)
    requires EventsEvolve(db, after, own, changed, insert, final, m)
    ensures (forall i :: 0 <= i < |after.outbox| ==> Faithful(after.wagers, after.outbox[i]) && after.outbox[i].id != NO_ID)
    ensures (forall i, j :: 0 <= i < j < |after.outbox| ==> after.outbox[i].id != after.outbox[j].id)
  {
    forall i | 0 <= i < |db.outbox|
      ensures Faithful(after.wagers, db.outbox[i])
    {
      OldEventFaithful(db.wagers, after.wagers, w, final, db.outbox[i]);
    }
    EventsJoin(db.outbox, after.wagers, own, changed);
  }

  lemma NoEarlierEvents(db: Db, id: Uuid)
    requires OutboxOk(db) && id !in db.wagers
    ensures CountEvents(db.outbox, id, true) == 0 && CountEvents(db.outbox, id, false) == 0
  {
    forall i | 0 <= i < |db.outbox| && !db.outbox[i].data.WalletBalanceChanged?
      ensures db.outbox[i].data.transactionId != id
    {
      assert Faithful(db.wagers, db.outbox[i]);
    }
    NoEvents(db.outbox, id, true);
    NoEvents(db.outbox, id, false);
  }

  /** The event of a commit is about its own row. */
  lemma OwnEventCounts(own: seq<Event>, changed: seq<Event>, insert: bool, final: WagerState, m: Option<Movement>, id: Uuid)
    requires Announces(own, changed, insert, final, m) && own != []
    requires if final.status.Terminal() then final.result.Some? else final.status.PendingReference?
    ensures Counts(own[0].data, id, true) <==> id == final.id && final.status.Terminal()
    ensures Counts(own[0].data, id, false) <==> id == final.id && !final.status.Terminal()
    ensures !own[0].data.WalletBalanceChanged?
  {
  }

  lemma CountsGrow(db: Db, after: Db, own: seq<Event>, changed: seq<Event>, insert: bool, final: WagerState,
                   m: Option<Movement>, id: Uuid)
    requires EventsEvolve(db, after, own, changed, insert, final, m)
    ensures CountEvents(after.outbox, id, true) ==
            CountEvents(db.outbox, id, true) + (if id == final.id && final.status.Terminal() then 1 else 0)
    ensures CountEvents(after.outbox, id, false) ==
            CountEvents(db.outbox, id, false) + (if id == final.id && !final.status.Terminal() && insert then 1 else 0)
  {
    if own != [] { OwnEventCounts(own, changed, insert, final, m, id); }
    EventsAppend(db.outbox, own, changed, id, true);
    EventsAppend(db.outbox, own, changed, id, false);
  }

  /** A commit adds one terminal or one first pending event for its own row, and nothing for others. */
  lemma KeepCounts(db: Db, after: Db, w: WagerState, final: WagerState, m: Option<Movement>,
                   own: seq<Event>, changed: seq<Event>, insert: bool, id: Uuid)
    requires OutboxOk(db) && after.wagers == db.wagers[w.id := final] && final.id == w.id
    requires if insert then w.id !in db.wagers else w.id in db.wagers && db.wagers[w.id].status.PendingReference?
    requires w.id in db.wagers ==> db.wagers[w.id].attempts >= 1
    requires EventsEvolve(db, after, own, changed, insert, final, m) && id in after.wagers
    ensures CountsOk(after, id)
  {
    if id in db.wagers { assert CountsOk(db, id); } else { NoEarlierEvents(db, id); }
    CountsGrow(db, after, own, changed, insert, final, m, id);
  }

  lemma KeepFeed(db: Db, after: Db, w: WagerState, final: WagerState, m: Option<Movement>,
                 own: seq<Event>, changed: seq<Event>, insert: bool)
    requires BalancesOk(db) && Feed(db.outbox) == Announced(Openings(db.wagers), db.ledger)
    requires RowEvolves(db.wagers, after.wagers, w, final) && MoneyEvolves(db, after, w, final, m)
    requires EventsEvolve(db, after, own, changed, insert, final, m)
    ensures Feed(after.outbox) == Announced(Openings(after.wagers), after.ledger)
  {
    OpeningsUnchanged(db.wagers, after.wagers, w, final);
    EventsAppend(db.outbox, own, changed, w.id, true);
    if m.Some? {
      AnnouncedGrows(Openings(db.wagers), db.ledger, m.value.entry, m.value.wallet.version);
    }
  }

  lemma KeepOutbox(db: Db, after: Db, w: WagerState, final: WagerState, m: Option<Movement>,
                   own: seq<Event>, changed: seq<Event>, insert: bool)
    requires BalancesOk(db) && OutboxOk(db) && (insert <==> w.id !in db.wagers) && (w.id in db.wagers ==> w.attempts >= 1)
    requires RowEvolves(db.wagers, after.wagers, w, final) && MoneyEvolves(db, after, w, final, m)
    requires EventsEvolve(db, after, own, changed, insert, final, m)
    ensures OutboxOk(after)
  {
    KeepFaithful(db, after, w, final, m, own, changed, insert);
    forall id | id in after.wagers
      ensures CountsOk(after, id)
    {
      KeepCounts(db, after, w, final, m, own, changed, insert, id);
    }
    KeepFeed(db, after, w, final, m, own, changed, insert);
  }

  // --- the whole ----------------------------------------------------------

  /** Any change of this form keeps the invariant. */
  lemma EvolutionKeepsValid(db: Db, after: Db, w: WagerState, final: WagerState, m: Option<Movement>,
                            own: seq<Event>, changed: seq<Event>, insert: bool)
    requires Valid(db) && WagerOk(db.wallets, final)
    requires (insert <==> w.id !in db.wagers) && (w.id in db.wagers ==> w.attempts >= 1) && SelfHashed(w)
    requires RowEvolves(db.wagers, after.wagers, w, final) && MoneyEvolves(db, after, w, final, m)
    requires EventsEvolve(db, after, own, changed, insert, final, m)
    ensures Valid(after)
  {
    ValidMeans(db);
    KeepHashes(db, after, w, final);
    KeepWallets(db, after, w, final, m);
    KeepWagers(db, after, w, final, m);
    KeepKeys(db.wagers, after.wagers, w, final);
    KeepReferences(db, after, w, final);
    NoUnsetId(db);
    KeepEntries(db, after, w, final, m);
    KeepProcessed(db, after, w, final, m);
    LedgerIsKnown(db);
    KeepOrder(db, after, w, final, m);
    KeepBalances(db, after, w, final, m);
    KeepOutbox(db, after, w, final, m, own, changed, insert);
    RulesMakeValid(after);
  }

  lemma NoUnsetId(db: Db)
    requires WagersOk(db)
    ensures NO_ID !in db.wagers
  {
    forall id | id in db.wagers
      ensures id != NO_ID
    {
      assert WagerOk(db.wallets, db.wagers[id]);
    }
  }

  lemma LedgerIsKnown(db: Db)
    requires EntriesOk(db)
    ensures forall i :: 0 <= i < |db.ledger| ==> db.ledger[i].transactionId in db.wagers
  {
    forall i | 0 <= i < |db.ledger|
      ensures db.ledger[i].transactionId in db.wagers
    {
      assert EntryMatches(db.wagers, db.ledger[i]);
    }
  }

  /** The invariant of the database survives every legal commit. */
  lemma CommitKeepsValid(db: Db, w: WagerState, d: Decision, meta: Meta)
    requires Valid(db) && Legal(db, w, d, meta)
    ensures Valid(Commit(db, w, d, meta))
  {
    ValidMeans(db);
    var wallet := db.wallets[w.walletId];
    CommitRow(db, w, d, meta);
    CommitMoney(db, w, d, meta);
    CommitEvents(db, w, d, meta);
    AdmissibleIsUndecided(db, w, meta.insert);
    AdmissibleIsHashed(db, w, meta.insert);
    KeepRow(db, w, d, meta);
    EvolutionKeepsValid(db, Commit(db, w, d, meta), w, Final(w, wallet, d, meta.now), MovementOf(w, wallet, d, meta),
                        OwnEvents(w, wallet, d, meta), BalanceEvents(w, wallet, d, meta), meta.insert);
  }
}
