/** internal/domain/wager_transaction.go: wager requests and their identity. */
module Wagers {
  import opened Common
  import opened Amounts

  // Opening is the internal kind: no request may carry it.
  datatype Kind = Opening | Bet | Win | Loss | Refund | Rollback

  datatype State = Pending | PendingReference | Processed | Rejected | Failed

  datatype WagerRequest = WagerRequest(
    providerId: string, externalId: string, playerId: string, walletId: WalletId,
    roundId: string, gameId: string, kind: Kind, amount: Money, referenceExternalId: string)

  datatype Command = Command(idempotencyKey: string, request: WagerRequest)

  function ValidateExternal(r: WagerRequest): Option<Error> {
    if r.kind.Opening? then Some(InvalidWagerKind)
    else if r.kind.Loss? && r.amount.amount != 0 then Some(InvalidLossAmount)
    else if !r.kind.Loss? && r.amount.amount <= 0 then Some(InvalidAmount)
    else
      var hasReference := r.referenceExternalId != "";
      match r.kind
      case Bet | Loss => if hasReference then Some(ReferenceNotAllowed) else None
      case Refund | Rollback => if !hasReference then Some(ReferenceRequired) else None
      case _ => None
  }

  /** What the HTTP and SQS transports require before they build a command. */
  predicate TransportValid(cmd: Command) {
    var r := cmd.request;
    && r.providerId != "" && r.externalId != "" && cmd.idempotencyKey != ""
    && r.playerId != "" && r.roundId != "" && r.gameId != "" && !Blank(r.amount.currency)
  }

  // BTRIM(s) = ''
  predicate Blank(s: string) {
    forall i :: 0 <= i < |s| ==> s[i] == ' '
  }

  /** The fields the payload hash covers. JSON of one struct and SHA-256 are
      injective here, so the payload itself stands for its hash. */
  datatype Payload = Payload(
    providerId: string, externalId: string, playerId: string, walletId: WalletId,
    roundId: string, gameId: string, kind: Kind, amount: string, currency: string,
    referenceExternalId: string)

  function PayloadHash(r: WagerRequest): Payload {
    Payload(r.providerId, r.externalId, r.playerId, r.walletId, r.roundId, r.gameId,
            r.kind, Format(r.amount), r.amount.currency, r.referenceExternalId)
  }

  /** Two requests with one hash are one request: the textual amount loses nothing. */
  lemma PayloadHashInjective(a: WagerRequest, b: WagerRequest)
    requires PayloadHash(a) == PayloadHash(b)
    ensures a == b
  {
    FormatInjective(a.amount, b.amount);
  }
}
