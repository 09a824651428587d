/** internal/domain/wallet.go: the wallet aggregate. */
module Wallets {
  import opened Common
  import opened Amounts

  /** One row of the wallets table. */
  datatype WalletRow = WalletRow(
    playerId: string, currency: string, balance: Int64, version: Int64,
    createdAt: Time, updatedAt: Time)

  datatype Direction = Credit | Debit

  function SignedAmount(direction: Direction, amount: int): int {
    if direction.Credit? then amount else -amount
  }

  function ValidateWallet(w: WalletRow): Option<Error> {
    if w.playerId == "" then Some(InvalidWalletPlayer)
    else if w.currency == "" then Some(InvalidWalletCurrency)
    else if w.balance < 0 then Some(InvalidWalletBalance)
    else if w.version <= 0 then Some(InvalidWalletVersion)
    else None
  }

  /** What a movement does to a wallet: which balance and version it leaves, or
      which rule refuses it. */
  function Moved(w: WalletRow, direction: Direction, amount: Money, now: Time): (r: Result<WalletRow, Error>)
    ensures r.Ok? ==>
              && r.value.balance == w.balance + SignedAmount(direction, amount.amount)
              && r.value.version == w.version + 1
              && amount.amount > 0 && amount.currency == w.currency
    ensures r.Ok? && w.balance >= 0 ==> r.value.balance >= 0
    ensures r.Ok? ==> r.value == w.(balance := r.value.balance, version := r.value.version, updatedAt := now)
    ensures r == Err(InvalidAmount) <==> amount.amount <= 0
    ensures r == Err(CurrencyMismatch) <==> amount.amount > 0 && amount.currency != w.currency
    ensures r == Err(InsufficientFunds) <==>
              amount.amount > 0 && amount.currency == w.currency && direction.Debit? && w.balance < amount.amount
    ensures w.version > 0 && amount.amount > 0 && amount.currency == w.currency && r != Err(InsufficientFunds) ==>
              && (r == Err(MoneyOverflow) <==> direction.Credit? && w.balance + amount.amount > MAX_INT64)
              && (r == Err(WalletVersionOverflow) <==> r != Err(MoneyOverflow) && w.version == MAX_INT64)
              && (r.Ok? <==> r != Err(MoneyOverflow) && w.version < MAX_INT64)
  {
    var balance: int := w.balance + SignedAmount(direction, amount.amount);
    if amount.amount <= 0 then Err(InvalidAmount)
    else if amount.currency != w.currency then Err(CurrencyMismatch)
    else if direction.Debit? && balance < 0 then Err(InsufficientFunds)
    else if balance > MAX_INT64 then Err(MoneyOverflow)
    else if w.version <= 0 then Err(InvalidWalletVersion)
    else if w.version == MAX_INT64 then Err(WalletVersionOverflow)
    else Ok(w.(balance := balance, version := w.version + 1, updatedAt := now))
  }

  class Wallet {
    const id: WalletId
    const playerId: string
    const createdAt: Time
    var balance: Money
    var version: Int64
    var updatedAt: Time

    function Row(): WalletRow
      reads this
    {
      WalletRow(playerId, balance.currency, balance.amount, version, createdAt, updatedAt)
    }

    constructor Reconstitute(id: WalletId, row: WalletRow)
      ensures this.id == id && Row() == row
    {
      this.id := id;
      playerId, createdAt := row.playerId, row.createdAt;
      balance, version, updatedAt := Money(row.balance, row.currency), row.version, row.updatedAt;
    }

    method ValidateVersionIncrement() returns (error: Option<Error>)
      ensures error == if version <= 0 then Some(InvalidWalletVersion)
                       else if version == MAX_INT64 then Some(WalletVersionOverflow)
                       else None
    {
      if version <= 0 { return Some(InvalidWalletVersion); }
      if version == MAX_INT64 { return Some(WalletVersionOverflow); }
      return None;
    }

    /** Either the whole movement happens or the wallet is untouched. */
    method Credit(amount: Money, now: Time) returns (error: Option<Error>)
      modifies this
      ensures match Moved(old(Row()), Direction.Credit, amount, now)
              case Ok(row) => error == None && Row() == row
              case Err(e) => error == Some(e) && Row() == old(Row())
    {
      if amount.amount <= 0 { return Some(InvalidAmount); }
      var newBalance := Add(balance, amount);
      if newBalance.Err? { return Some(newBalance.error); }
      error := ValidateVersionIncrement();
      if error.Some? { return; }
      balance, version, updatedAt := newBalance.value, version + 1, now;
    }

    /** A debit beyond the balance is told apart from every other refusal. */
    method Debit(amount: Money, now: Time) returns (error: Option<Error>)
      modifies this
      ensures match Moved(old(Row()), Direction.Debit, amount, now)
              case Ok(row) => error == None && Row() == row
              case Err(e) => error == Some(e) && Row() == old(Row())
    {
      if amount.amount <= 0 { return Some(InvalidAmount); }
      if balance.currency != amount.currency { return Some(CurrencyMismatch); }
      if balance.amount < amount.amount { return Some(InsufficientFunds); }
      var newBalance := Subtract(balance, amount);
      assert newBalance.Ok?;  // an amount between 1 and the balance always subtracts
      error := ValidateVersionIncrement();
      if error.Some? { return; }
      balance, version, updatedAt := newBalance.value, version + 1, now;
    }
  }
}
