/** Which requests end how: every decision of the synchronous path told by the
    request, the referenced row and the wallet. */
module Codes {
  import opened Common
  import opened Amounts
  import opened Wallets
  import opened Wagers
  import opened Tables
  import opened Decisions

  /** Reference and request speak of one provider, player, wallet, round and currency. */
  predicate SameGame(r: WagerRequest, ref: WagerRow) {
    && RequestOf(ref).providerId == r.providerId && RequestOf(ref).playerId == r.playerId
    && RequestOf(ref).walletId == r.walletId && RequestOf(ref).roundId == r.roundId
    && RequestOf(ref).amount.currency == r.amount.currency
  }

  /** What a kind may refer to: a win or a refund to a bet, a rollback to anything
      that moved money except a rollback. */
  predicate MayReferTo(kind: Kind, ref: Kind) {
    match ref
    case Bet => kind.Win? || kind.Refund? || kind.Rollback?
    case Win | Refund => kind.Rollback?
    case Opening | Loss | Rollback => false
  }

  /** The first rule a request breaks against the row it names, if any. */
  function Mismatch(r: WagerRequest, ref: WagerRow): Option<FailureCode> {
    if !SameGame(r, ref) then Some(REFERENCE_MISMATCH)
    else if !MayReferTo(r.kind, ref.kind) then Some(INVALID_REFERENCE_KIND)
    else if !r.kind.Win? && ref.amount != r.amount.amount then Some(REFERENCE_AMOUNT_MISMATCH)
    else None
  }

  function Objection(wagers: seq<WagerRow>, r: WagerRequest, id: TxId): Option<FailureCode>
    requires id < |wagers|
  {
    if Mismatch(r, wagers[id]).Some? then Mismatch(r, wagers[id])
    else if !r.kind.Win? && HasReversal(wagers, id) then Some(ALREADY_REVERSED)
    else None
  }

  /** A refund or rollback of the wager went through. One that was rejected or waits
      does not count. */
  predicate HasReversal(wagers: seq<WagerRow>, id: TxId) {
    exists i :: 0 <= i < |wagers| && wagers[i].referencedId == Some(id) && wagers[i].state.Processed?
                && (wagers[i].kind.Refund? || wagers[i].kind.Rollback?)
  }

  lemma ReversalsCounted(wagers: seq<WagerRow>, id: TxId)
    ensures HasReversal(wagers, id) <==> AlreadyReversed(wagers, id)
  {
    forall i | 0 <= i < |wagers| && Reverses(wagers[i], id) ensures HasReversal(wagers, id) {
      assert wagers[i].referencedId == Some(id);
    }
    forall i | 0 <= i < |wagers| && wagers[i].referencedId == Some(id) && wagers[i].state.Processed?
               && (wagers[i].kind.Refund? || wagers[i].kind.Rollback?) ensures AlreadyReversed(wagers, id) {
      assert Reverses(wagers[i], id);
    }
  }

  /** The change an accepted request makes to the balance: what a bet staked goes
      out, what undoes it comes back, and so on. */
  function Change(r: WagerRequest, refKind: Kind): int {
    match r.kind
    case Bet => 0 - r.amount.amount
    case Win | Refund => r.amount.amount
    case Rollback => if refKind.Bet? then r.amount.amount else 0 - r.amount.amount
    case Loss | Opening => 0
  }

  predicate HasRoom(wallet: WalletRow, change: int) {
    wallet.balance + change <= MAX_INT64 && wallet.version < MAX_INT64
  }

  /** The money step: refused for lack of funds, aborted when a number would leave
      int64, otherwise posted. */
  predicate Settles(wallet: WalletRow, r: WagerRequest, reference: Option<TxId>, refKind: Kind, now: Time, o: Outcome) {
    var change := Change(r, refKind);
    if wallet.balance + change < 0 then
      o == if r.kind.Bet? then Refuse(INSUFFICIENT_FUNDS, None) else Refuse(REVERSAL_INSUFFICIENT_FUNDS, reference)
    else if r.kind.Loss? then o == Post(wallet, None, reference)
    else if !HasRoom(wallet, change) then o.Fail?
    else
      && o.Post? && o.reference == reference
      && o.wallet == wallet.(balance := wallet.balance + change, version := wallet.version + 1, updatedAt := now)
      && SignedAmount(LedgerDirection(r.kind, o.movement), r.amount.amount) == change
  }

  /** Every decision about a request that passed validation, on the wallet it names. */
  lemma DecisionTable(wagers: seq<WagerRow>, wallet: WalletRow, cmd: Command, now: Time)
    requires Precheck(cmd).None? && CheckOwner(wallet, cmd.request).None? && ValidateWallet(wallet).None?
    ensures var r, o := cmd.request, Decide(wagers, wallet, cmd.request, now);
            var found := FindByExternal(wagers, r.providerId, r.referenceExternalId);
            if !NeedsReference(r) then Settles(wallet, r, None, Loss, now, o)
            else if found.None? || !Terminal(wagers[found.value].state) then o == Unresolved
            else if !wagers[found.value].state.Processed? then o == Refuse(REFERENCE_TERMINAL_UNSUCCESSFUL, found)
            else match Objection(wagers, r, found.value)
              case Some(code) => o == Refuse(code, found)
              case None => Settles(wallet, r, found, wagers[found.value].kind, now, o)
  {
    var r := cmd.request;
    hide AlreadyReversed;
    if NeedsReference(r) {
      var found := FindByExternal(wagers, r.providerId, r.referenceExternalId);
      if found.Some? && wagers[found.value].state.Processed? {
        ObjectionIsRefusal(wagers, wallet, r, found.value, now);
      }
    } else {
      MoveSettles(wallet, r, None, Bet, now);
    }
  }

  lemma MoveSettles(wallet: WalletRow, r: WagerRequest, reference: Option<TxId>, refKind: Kind, now: Time)
    requires ValidateExternal(r).None? && CheckOwner(wallet, r).None? && ValidateWallet(wallet).None?
    requires r.kind.Refund? || r.kind.Rollback? ==> MayReferTo(r.kind, refKind)
    ensures Settles(wallet, r, reference, refKind, now, Move(wallet, r, reference, refKind, now))
  {
  }

  lemma MismatchIsValidate(r: WagerRequest, ref: WagerRow)
    requires r.kind.Win? || r.kind.Refund? || r.kind.Rollback?
    ensures Mismatch(r, ref) == match ValidateReference(r, ref)
                                case Some(e) => Some(ReferenceFailureCode(e))
                                case None => None
    ensures Mismatch(r, ref) != Some(ALREADY_REVERSED)
    ensures Mismatch(r, ref).None? ==> MayReferTo(r.kind, ref.kind)
  {
  }

  lemma ReadingObjects(wagers: seq<WagerRow>, r: WagerRequest, id: TxId)
    requires NeedsReference(r) && r.referenceExternalId != "" && id < |wagers| && wagers[id].state.Processed?
    requires FindByExternal(wagers, r.providerId, r.referenceExternalId) == Some(id)
    ensures ReadReference(wagers, r)
         == match Mismatch(r, wagers[id])
            case Some(code) => Settled(Refuse(code, Some(id)))
            case None => Usable(id)
  {
    MismatchIsValidate(r, wagers[id]);
    hide Mismatch, ValidateReference, MayReferTo, ReferenceFailureCode;
  }

  /** The reading and what follows it are what the objection says. */
  lemma ObjectionDecides(wagers: seq<WagerRow>, wallet: WalletRow, r: WagerRequest, id: TxId, now: Time)
    requires NeedsReference(r) && id < |wagers|
    requires ReadReference(wagers, r)
          == match Mismatch(r, wagers[id])
             case Some(code) => Settled(Refuse(code, Some(id)))
             case None => Usable(id)
    ensures Decide(wagers, wallet, r, now)
         == match Objection(wagers, r, id)
            case Some(code) => Refuse(code, Some(id))
            case None => Move(wallet, r, Some(id), wagers[id].kind, now)
  {
    ReversalsCounted(wagers, id);
    hide AlreadyReversed, HasReversal, ReadReference, Mismatch, Move, NeedsReference;
  }

  lemma ObjectionIsRefusal(wagers: seq<WagerRow>, wallet: WalletRow, r: WagerRequest, id: TxId, now: Time)
    requires ValidateExternal(r).None? && CheckOwner(wallet, r).None? && ValidateWallet(wallet).None?
    requires NeedsReference(r) && id < |wagers| && wagers[id].state.Processed?
    requires FindByExternal(wagers, r.providerId, r.referenceExternalId) == Some(id)
    ensures match Objection(wagers, r, id)
            case Some(code) => Decide(wagers, wallet, r, now) == Refuse(code, Some(id))
            case None => Settles(wallet, r, Some(id), wagers[id].kind, now, Decide(wagers, wallet, r, now))
  {
    assert r.referenceExternalId != "";
    assert r.kind.Win? || r.kind.Refund? || r.kind.Rollback?;
    ReadingObjects(wagers, r, id);
    MismatchIsValidate(r, wagers[id]);
    assert Objection(wagers, r, id).None? ==> MayReferTo(r.kind, wagers[id].kind);
    hide *;
    ObjectionDecides(wagers, wallet, r, id, now);
    if Objection(wagers, r, id).None? {
      MoveSettles(wallet, r, Some(id), wagers[id].kind, now);
    }
  }
}
