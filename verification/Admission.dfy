/**
 What the service decides may be committed, even when the reference it read has
 become stale, and every guard of the schema accepts what it writes.
 */
module Admission {
  import opened Base
  import opened Backoff
  import opened MoneyValue
  import opened Domain
  import opened Contracts
  import opened Database
  import opened Decisions
  import opened Invariants
  import opened Preservation

  /**
   How a reference that was read by a transaction relates to the committed rows: a
   terminal row is as it was read, and for a reference of the same wallet the
   reversal query is current. A missing or waiting reference may have moved on.
   */
  ghost predicate ViewOk(wagers: map<Uuid, WagerState>, w: WagerState, reference: Option<WagerState>, reversed: bool) {
    reference.Some? && reference.value.status.Terminal() ==>
      && reference.value.id != NO_ID
      && reference.value.id in wagers && wagers[reference.value.id] == reference.value
      && HasExternalId(reference.value, w.providerId, w.referenceExternalId)
      && (reference.value.walletId == w.walletId && w.kind.Reversing() ==>
            reversed == ReversalExists(wagers, reference.value.id))
  }

  /** The reference rules of a transaction that is about to move money hold on the committed rows. */
  ghost predicate ReferenceInOrder(wagers: map<Uuid, WagerState>, w: WagerState, reference: Option<WagerState>) {
    && (w.referenceExternalId != "" <==> reference.Some?)
    && (reference.None? ==> !w.kind.Reversing() && NO_ID !in wagers)
    && (reference.Some? ==>
          && reference.value.id != NO_ID
          && NamesTerminal(wagers, w.(referenceId := reference.value.id))
          && wagers[reference.value.id] == reference.value
          && ReferenceHonoured(wagers, w.(referenceId := reference.value.id))
          && (w.kind.Reversing() ==> !ReversalExists(wagers, reference.value.id)))
  }

  function IdOf(reference: Option<WagerState>): Uuid {
    if reference.Some? then reference.value.id else NO_ID
  }

  /** The settlement that finalize aims at, before it knows whether the version can be raised. */
  function Settlement(w: WagerState, reference: Option<WagerState>): Decision {
    Settle(IdOf(reference), DirectionFor(w, reference))
  }

  lemma SettlementJustified(db: Db, w: WagerState, reference: Option<WagerState>, meta: Meta)
    requires w.walletId in db.wallets && IdentityMatches(w, db.wallets[w.walletId])
    requires ReferenceInOrder(db.wagers, w, reference)
    ensures Feasible(w, db.wallets[w.walletId], Settlement(w, reference)) ==> Justified(db, w, Settlement(w, reference), meta)
  {
    assert Lookup(db.wagers, IdOf(reference)) == reference;
  }

  /** Moving money: the reference rules have been checked and the new balance fits. */
  lemma MovableJustified(db: Db, w: WagerState, reference: Option<WagerState>, meta: Meta)
    requires WalletsOk(db) && w.walletId in db.wallets && IdentityMatches(w, db.wallets[w.walletId]) && meta.now != ZERO_TIME
    requires w.kind.External() && ValidateAmountForKind(w.kind, w.money) == None
    requires ReferenceInOrder(db.wagers, w, reference)
    ensures var d := Movable(w, db.wallets[w.walletId], reference, meta.now);
            d.Ok? ==> Justified(db, w, d.value, meta)
  {
    SettlementJustified(db, w, reference, meta);
  }

  /** A processed reference that passed the checks is in order. */
  lemma ProcessedReferenceInOrder(db: Db, w: WagerState, reference: WagerState, reversed: bool)
    requires WagersOk(db) && Undecided(w) && w.referenceExternalId != "" && reference.status.Processed?
    requires ViewOk(db.wagers, w, Some(reference), reversed)
    requires ReferenceFailure(w, Some(reference), reversed) == NoFailure
    ensures ReferenceInOrder(db.wagers, w, Some(reference))
  {
    assert WagerOk(db.wallets, reference);
  }

  /** A decision to move money is justified by the committed rows; so is every other one. */
  lemma DecisionJustified(
      db: Db, w: WagerState, reference: Option<WagerState>, reversed: bool, waited: bool,
      policy: Policy, meta: Meta)
    requires WalletsOk(db) && WagersOk(db) && Admissible(db, w, meta.insert) && policy.Valid() && meta.now != ZERO_TIME
    requires ViewOk(db.wagers, w, reference, reversed) && w.referenceExternalId != ""
    requires IdentityMatches(w, db.wallets[w.walletId])
    ensures var d := DecideWithReference(w, db.wallets[w.walletId], reference, reversed, waited, policy, meta.now);
            d.Ok? ==> Justified(db, w, d.value, meta)
  {
    AdmissibleIsUndecided(db, w, meta.insert);
    if !ReferenceIsPending(reference) {
      assert LinkOk(db, w, reference.value.id);
      if reference.value.status.Processed? && ReferenceFailure(w, reference, reversed) == NoFailure {
        ProcessedReferenceInOrder(db, w, reference.value, reversed);
        MovableJustified(db, w, reference, meta);
      }
    }
  }

  lemma FirstDecisionJustified(
      db: Db, w: WagerState, reference: Option<WagerState>, reversed: bool, policy: Policy, meta: Meta)
    requires WalletsOk(db) && WagersOk(db) && Admissible(db, w, true) && meta.insert && policy.Valid() && meta.now != ZERO_TIME
    requires ViewOk(db.wagers, w, reference, reversed)
    ensures var d := Decide(w, db.wallets[w.walletId], reference, reversed, policy, meta.now);
            d.Ok? ==> Justified(db, w, d.value, meta)
  {
    AdmissibleIsUndecided(db, w, true);
    if IdentityMatches(w, db.wallets[w.walletId]) {
      if w.referenceExternalId != "" {
        DecisionJustified(db, w, reference, reversed, false, policy, meta);
      } else {
        NoUnsetId(db);
        MovableJustified(db, w, None, meta);
      }
    }
  }

  lemma FailureJustified(db: Db, w: WagerState, policy: Policy, meta: Meta)
    requires WalletsOk(db) && WagersOk(db) && Admissible(db, w, false) && !meta.insert && policy.Valid()
    ensures Justified(db, w, DecideFailure(w, policy, meta.now), meta)
  {
    assert WagerOk(db.wallets, db.wagers[w.id]);
  }

  // --- guards -------------------------------------------------------------

  /** The database that the ledger trigger sees: the wager and the wallet are written already. */
  ghost function Stored(db: Db, write: Write): Db
    requires write.movement.Some?
  {
    var m := write.movement.value;
    db.(wagers := db.wagers[write.wager.id := write.wager], wallets := db.wallets[m.wallet.id := m.wallet])
  }

  /** The constraints on the row. */
  ghost predicate RowAccepted(db: Db, w: WagerState, insert: bool) {
    && (insert <==> w.id !in db.wagers)
    && WagerChecks(w) && WagerLinks(db, w) && UniqueIndexes(db, w)
  }

  /** The version guard, the constraints and trigger on the ledger entry, the deferred trigger on the wallet. */
  ghost predicate MovementAccepted(db: Db, write: Write)
    requires write.movement.Some?
  {
    var m := write.movement.value;
    && m.wallet.id in db.wallets && db.wallets[m.wallet.id].version == m.wallet.version - 1 && WalletChecks(m.wallet)
    && LedgerUnique(Stored(db, write), m.entry) && LedgerGuards(Stored(db, write), m.entry)
    && BalanceMatchesLedger(Apply(db, write), m.wallet.id)
  }

  ghost predicate EventsAccepted(db: Db, events: seq<Event>) {
    var all := db.outbox + events;
    forall i, j :: 0 <= i < j < |all| ==> all[i].id != all[j].id
  }

  /** Every constraint that PostgreSQL evaluates while a write set is applied and committed. */
  ghost predicate GuardsAccept(db: Db, write: Write, insert: bool) {
    && RowAccepted(db, write.wager, insert)
    && (write.movement.Some? ==> MovementAccepted(db, write))
    && ProcessedHasEntry(Apply(db, write), write.wager.id)
    && EventsAccepted(db, write.events)
  }

  /** The row passes its CHECKs, foreign keys, identity trigger and unique indexes. */
  lemma RowGuardsAccept(db: Db, w: WagerState, d: Decision, meta: Meta)
    requires WalletsOk(db) && WagersOk(db) && KeysOk(db) && LegalRow(db, w, d, meta)
    ensures RowAccepted(db, Final(w, db.wallets[w.walletId], d, meta.now), meta.insert)
  {
    var after, final := Commit(db, w, d, meta), Final(w, db.wallets[w.walletId], d, meta.now);
    KeepRow(db, w, d, meta);
    CommitRow(db, w, d, meta);
    KeepKeys(db.wagers, after.wagers, w, final);
    forall id | id in db.wagers && id != final.id
      ensures NoClash(final, db.wagers[id])
    {
      assert NoClash(after.wagers[w.id], after.wagers[id]);
    }
  }

  lemma GuardsFromMatch(db: Db, e: LedgerEntry)
    requires EntryMatches(db.wagers, e) && e.walletId in db.wallets
    requires e.after.minor == e.before.minor + e.Delta() && e.before.minor >= 0 && e.after.minor >= 0 && e.money.minor > 0
    requires db.wallets[e.walletId].balance.currency == e.money.currency
    ensures LedgerGuards(db, e)
  {
  }

  /** A settled transaction was not ledgered before. */
  lemma EntryIsUnique(db: Db, after: Db, w: WagerState, final: WagerState, m: Option<Movement>)
    requires EntriesOk(db) && ReferencesOk(db) && NO_ID !in db.wagers && m.Some?
    requires RowEvolves(db.wagers, after.wagers, w, final) && MoneyEvolves(db, after, w, final, m)
    ensures LedgerUnique(db, m.value.entry)
  {
    KeepEntries(db, after, w, final, m);
  }

  /** The wallet row of a movement: next version, checks, and a balance that the ledger will sum to. */
  lemma WalletAccepted(db: Db, after: Db, w: WagerState, final: WagerState, m: Option<Movement>)
    requires WalletsOk(db) && BalancesOk(db) && m.Some?
    requires RowEvolves(db.wagers, after.wagers, w, final) && MoneyEvolves(db, after, w, final, m)
    ensures m.value.wallet.id == w.walletId && db.wallets[w.walletId].version == m.value.wallet.version - 1
    ensures WalletChecks(m.value.wallet) && BalanceMatchesLedger(after, w.walletId)
  {
    KeepBalances(db, after, w, final, m);
  }

  /** The entry of a movement passes its trigger. */
  lemma EntryAccepted(db: Db, after: Db, w: WagerState, final: WagerState, m: Option<Movement>)
    requires m.Some? && w.walletId in db.wallets && db.wallets[w.walletId].balance.minor >= 0 && NO_ID !in db.wagers
    requires RowEvolves(db.wagers, after.wagers, w, final) && MoneyEvolves(db, after, w, final, m)
    ensures LedgerGuards(after, m.value.entry)
  {
    NewEntryMatches(db, after, w, final, m);
    GuardsFromMatch(after, m.value.entry);
  }

  lemma MovementGuardsAccept(db: Db, after: Db, write: Write, w: WagerState)
    requires WalletsOk(db) && EntriesOk(db) && ReferencesOk(db) && BalancesOk(db) && NO_ID !in db.wagers
    requires write.movement.Some? && after == Apply(db, write)
    requires RowEvolves(db.wagers, after.wagers, w, write.wager) && MoneyEvolves(db, after, w, write.wager, write.movement)
    ensures MovementAccepted(db, write)
  {
    EntryIsUnique(db, after, w, write.wager, write.movement);
    WalletAccepted(db, after, w, write.wager, write.movement);
    EntryAccepted(db, after, w, write.wager, write.movement);
    AcceptedParts(db, after, write);
  }

  lemma AcceptedParts(db: Db, after: Db, write: Write)
    requires write.movement.Some? && after == Apply(db, write)
    requires var m := write.movement.value;
             && m.wallet.id in db.wallets && db.wallets[m.wallet.id].version == m.wallet.version - 1
             && WalletChecks(m.wallet) && LedgerUnique(db, m.entry) && LedgerGuards(after, m.entry)
             && BalanceMatchesLedger(after, m.wallet.id)
    ensures MovementAccepted(db, write)
  {
    assert Stored(db, write).wagers == after.wagers && Stored(db, write).wallets == after.wallets;
  }

  lemma EvolutionAccepted(db: Db, write: Write, w: WagerState, own: seq<Event>, changed: seq<Event>, insert: bool)
    requires Valid(db) && RowAccepted(db, write.wager, insert) && WagerOk(db.wallets, write.wager)
    requires (insert <==> w.id !in db.wagers) && (w.id in db.wagers ==> w.attempts >= 1)
    requires RowEvolves(db.wagers, Apply(db, write).wagers, w, write.wager)
    requires MoneyEvolves(db, Apply(db, write), w, write.wager, write.movement)
    requires EventsEvolve(db, Apply(db, write), own, changed, insert, write.wager, write.movement)
    ensures GuardsAccept(db, write, insert)
  {
    ValidMeans(db);
    var after := Apply(db, write);
    KeepProcessed(db, after, w, write.wager, write.movement);
    assert ProcessedHasEntry(after, write.wager.id);
    NoUnsetId(db);
    if write.movement.Some? {
      MovementGuardsAccept(db, after, write, w);
    }
    KeepFaithful(db, after, w, write.wager, write.movement, own, changed, insert);
  }

  /** No CHECK, key, index, trigger or version guard ever refuses a commit of the service. */
  lemma GuardsNeverFire(db: Db, w: WagerState, d: Decision, meta: Meta)
    requires Valid(db) && Legal(db, w, d, meta)
    ensures GuardsAccept(db, Effect(w, db.wallets[w.walletId], d, meta), meta.insert)
  {
    ValidMeans(db);
    var wallet := db.wallets[w.walletId];
    CommitRow(db, w, d, meta);
    CommitMoney(db, w, d, meta);
    CommitEvents(db, w, d, meta);
    AdmissibleIsUndecided(db, w, meta.insert);
    KeepRow(db, w, d, meta);
    RowGuardsAccept(db, w, d, meta);
    EvolutionAccepted(db, Effect(w, wallet, d, meta), w, OwnEvents(w, wallet, d, meta), BalanceEvents(w, wallet, d,
        meta), meta.insert);
  }
}
