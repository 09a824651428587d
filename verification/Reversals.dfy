/** Chains of reversals and what they leave of a wager. */
module Reversals {
  import opened Common
  import opened Amounts
  import opened Wallets
  import opened Wagers
  import opened Tables
  import opened Decisions
  import opened Invariant
  import Protocol
  import Safety

  // ---- One chain

  /** How many reversals can still follow a wager of this kind. */
  function Height(kind: Kind): nat {
    match kind
    case Bet => 2
    case Win | Refund => 1
    case _ => 0
  }

  predicate Linked(wagers: seq<WagerRow>) {
    && (forall i :: 0 <= i < |wagers| && wagers[i].state.Processed? ==> LinkOk(wagers, wagers[i]))
    && ReversalsSingle(wagers)
  }

  lemma ValidLinked(db: Db)
    requires Valid(db)
    ensures Linked(db.wagers)
  {
    forall i | 0 <= i < |db.wagers| && db.wagers[i].state.Processed? ensures LinkOk(db.wagers, db.wagers[i]) {
      assert RowOk(db.wallets, db.wagers, db.wagers[i]);
    }
  }

  /** A reversal stands on a processed row of the same wallet, strictly lower in
      the chain, and has exactly the opposite effect. */
  lemma ReversalOpposes(wagers: seq<WagerRow>, j: TxId, id: TxId)
    requires Linked(wagers) && j < |wagers| && Reverses(wagers[j], id)
    ensures id < |wagers| && wagers[id].state.Processed?
    ensures wagers[id].walletId == wagers[j].walletId && wagers[id].amount == wagers[j].amount
    ensures Height(wagers[j].kind) < Height(wagers[id].kind)
    ensures Signed(wagers, wagers[j]) == -Signed(wagers, wagers[id])
  {
    assert LinkOk(wagers, wagers[j]);
  }

  ghost function Reverser(wagers: seq<WagerRow>, id: TxId): (j: TxId)
    requires AlreadyReversed(wagers, id)
    ensures j < |wagers| && Reverses(wagers[j], id)
  {
    var j :| 0 <= j < |wagers| && Reverses(wagers[j], id);
    j
  }

  lemma ReverserUnique(wagers: seq<WagerRow>, id: TxId, j: TxId)
    requires Linked(wagers) && j < |wagers| && Reverses(wagers[j], id)
    ensures AlreadyReversed(wagers, id) && Reverser(wagers, id) == j
  {
    var r := Reverser(wagers, id);
    var _, _ := SingleReversal(wagers[r], wagers[j]), SingleReversal(wagers[j], wagers[r]);
  }

  /** The wager, its reversal, the reversal's reversal, and so on. */
  ghost function ReversalChain(wagers: seq<WagerRow>, id: TxId): (chain: seq<TxId>)
    requires Linked(wagers) && id < |wagers|
    ensures |chain| >= 1 && chain[0] == id
    ensures |chain| <= 1 + Height(wagers[id].kind)
    ensures forall k :: 0 <= k < |chain| ==> chain[k] < |wagers|
    ensures forall k :: 0 <= k < |chain| ==> wagers[chain[k]].walletId == wagers[id].walletId
    ensures forall k :: 1 <= k < |chain| ==> Height(wagers[chain[k]].kind) < Height(wagers[id].kind)
    decreases Height(wagers[id].kind)
  {
    if !AlreadyReversed(wagers, id) then [id]
    else
      var j := Reverser(wagers, id);
      ReversalOpposes(wagers, j, id);
      [id] + ReversalChain(wagers, j)
  }

  /** No chain has more than three rows and none meets itself. */
  lemma {:induction false} ChainsAreShort(wagers: seq<WagerRow>, id: TxId)
    requires Linked(wagers) && id < |wagers|
    ensures |ReversalChain(wagers, id)| <= 3
    ensures forall a, b :: 0 <= a < b < |ReversalChain(wagers, id)| ==>
              ReversalChain(wagers, id)[a] != ReversalChain(wagers, id)[b]
    decreases Height(wagers[id].kind)
  {
    hide Linked;
    var chain := ReversalChain(wagers, id);
    if AlreadyReversed(wagers, id) {
      var j := Reverser(wagers, id);
      ReversalOpposes(wagers, j, id);
      ChainsAreShort(wagers, j);
      var rest := ReversalChain(wagers, j);
      assert chain == [id] + rest;
      hide ReversalChain, AlreadyReversed;
      forall a, b | 0 <= a < b < |chain| ensures chain[a] != chain[b] {
        assert chain[b] == rest[b - 1];
        if a > 0 { assert chain[a] == rest[a - 1]; }
      }
    }
  }

  /** A wager stands unless a reversal of it stands. */
  ghost predicate Standing(wagers: seq<WagerRow>, id: TxId)
    requires Linked(wagers) && id < |wagers|
    decreases Height(wagers[id].kind)
  {
    !AlreadyReversed(wagers, id)
    || (var j := Reverser(wagers, id);
        ReversalOpposes(wagers, j, id);
        !Standing(wagers, j))
  }

  /** The effect of a wager and of everything that transitively reverses it. */
  ghost function Net(wagers: seq<WagerRow>, id: TxId): int
    requires Linked(wagers) && id < |wagers|
    decreases Height(wagers[id].kind)
  {
    Signed(wagers, wagers[id])
    + if !AlreadyReversed(wagers, id) then 0
      else
        var j := Reverser(wagers, id);
        ReversalOpposes(wagers, j, id);
        Net(wagers, j)
  }

  /** The net effect is all or nothing: a processed BET leaves -amount or 0, a
      processed WIN +amount or 0. */
  lemma {:induction false} NetEffect(wagers: seq<WagerRow>, id: TxId)
    requires Linked(wagers) && id < |wagers| && wagers[id].state.Processed?
    ensures Net(wagers, id) == if Standing(wagers, id) then Signed(wagers, wagers[id]) else 0
    ensures wagers[id].kind.Bet? ==> Net(wagers, id) == 0 - wagers[id].amount || Net(wagers, id) == 0
    ensures wagers[id].kind.Win? ==> Net(wagers, id) == wagers[id].amount || Net(wagers, id) == 0
    decreases Height(wagers[id].kind)
  {
    if AlreadyReversed(wagers, id) {
      var j := Reverser(wagers, id);
      ReversalOpposes(wagers, j, id);
      NetEffect(wagers, j);
    }
  }

  // ---- Sums over rows

  ghost function Sum(n: nat, f: nat -> int): int {
    if n == 0 then 0 else Sum(n - 1, f) + f(n - 1)
  }

  lemma {:induction false} SumEqual(n: nat, f: nat -> int, g: nat -> int)
    requires forall i: nat :: i < n ==> f(i) == g(i)
    ensures Sum(n, f) == Sum(n, g)
  {
    if n > 0 { SumEqual(n - 1, f, g); }
  }

  lemma {:induction false} SumAdd(n: nat, f: nat -> int, g: nat -> int, h: nat -> int)
    requires forall i: nat :: i < n ==> h(i) == f(i) + g(i)
    ensures Sum(n, h) == Sum(n, f) + Sum(n, g)
  {
    if n > 0 { SumAdd(n - 1, f, g, h); }
  }

  lemma {:induction false} SumSingle(n: nat, f: nat -> int, k: nat)
    requires forall i: nat :: i < n && i != k ==> f(i) == 0
    ensures Sum(n, f) == if k < n then f(k) else 0
  {
    if n > 0 { SumSingle(n - 1, f, k); }
  }

  lemma {:induction false} SumSwap(m: nat, n: nat, cell: (nat, nat) -> int)
    ensures Sum(m, (i: nat) => Sum(n, (j: nat) => cell(i, j))) == Sum(n, (j: nat) => Sum(m, (i: nat) => cell(i, j)))
  {
    if m == 0 {
      SumSingle(n, (j: nat) => Sum(m, (i: nat) => cell(i, j)), n);
    } else {
      SumSwap(m - 1, n, cell);
      SumAdd(n, (j: nat) => Sum(m - 1, (i: nat) => cell(i, j)), (j: nat) => cell(m - 1, j),
             (j: nat) => Sum(m, (i: nat) => cell(i, j)));
      SumEqual(m - 1, (i: nat) => Sum(n, (j: nat) => cell(i, j)), (i: nat) => Sum(n, (j: nat) => cell(i, j)));
    }
  }

  // ---- The balance without what was reversed

  /** A row's effect on one wallet. */
  function Effect(wagers: seq<WagerRow>, w: WalletId, i: nat): int {
    if i < |wagers| && wagers[i].walletId == w then Signed(wagers, wagers[i]) else 0
  }

  predicate Reversal(wagers: seq<WagerRow>, j: nat) {
    j < |wagers| && IsReversal(wagers[j])
  }

  /** j is a reversal, and itself reversed if asked. */
  predicate Picked(wagers: seq<WagerRow>, reversed: bool, j: nat) {
    Reversal(wagers, j) && (reversed ==> AlreadyReversed(wagers, j))
  }

  predicate Undone(wagers: seq<WagerRow>, reversed: bool, i: nat) {
    exists j :: 0 <= j < |wagers| && Reverses(wagers[j], i) && Picked(wagers, reversed, j)
  }

  function Cell(wagers: seq<WagerRow>, w: WalletId, reversed: bool, i: nat, j: nat): int {
    if j < |wagers| && Reverses(wagers[j], i) && Picked(wagers, reversed, j) then Effect(wagers, w, j) else 0
  }

  lemma CellColumn(wagers: seq<WagerRow>, w: WalletId, reversed: bool, j: nat)
    requires Linked(wagers) && j < |wagers|
    ensures Sum(|wagers|, (i: nat) => Cell(wagers, w, reversed, i, j))
         == if Picked(wagers, reversed, j) then Effect(wagers, w, j) else 0
  {
    var f := (i: nat) => Cell(wagers, w, reversed, i, j);
    if Picked(wagers, reversed, j) {
      var id := wagers[j].referencedId.value;
      ReversalOpposes(wagers, j, id);
      SumSingle(|wagers|, f, id);
    } else {
      SumSingle(|wagers|, f, |wagers|);
    }
  }

  lemma CellRow(wagers: seq<WagerRow>, w: WalletId, reversed: bool, i: nat)
    requires Linked(wagers) && i < |wagers|
    ensures Sum(|wagers|, (j: nat) => Cell(wagers, w, reversed, i, j))
         == if Undone(wagers, reversed, i) then -Effect(wagers, w, i) else 0
  {
    var f := (j: nat) => Cell(wagers, w, reversed, i, j);
    if Undone(wagers, reversed, i) {
      var r :| 0 <= r < |wagers| && Reverses(wagers[r], i) && Picked(wagers, reversed, r);
      ReversalOpposes(wagers, r, i);
      forall j: nat | j < |wagers| && j != r ensures f(j) == 0 {
        if Reverses(wagers[j], i) {
          ReverserUnique(wagers, i, j);
          ReverserUnique(wagers, i, r);
        }
      }
      SumSingle(|wagers|, f, r);
    } else {
      SumSingle(|wagers|, f, |wagers|);
    }
  }

  /** Reversals sum to the opposite of what they undo. */
  lemma Cancellation(wagers: seq<WagerRow>, w: WalletId, reversed: bool)
    requires Linked(wagers)
    ensures Sum(|wagers|, (j: nat) => if Picked(wagers, reversed, j) then Effect(wagers, w, j) else 0)
         == Sum(|wagers|, (i: nat) => if Undone(wagers, reversed, i) then -Effect(wagers, w, i) else 0)
  {
    var n := |wagers|;
    var cell := (i: nat, j: nat) => Cell(wagers, w, reversed, i, j);
    SumSwap(n, n, cell);
    forall j: nat | j < n
      ensures Sum(n, (i: nat) => cell(i, j)) == if Picked(wagers, reversed, j) then Effect(wagers, w, j) else 0
    {
      CellColumn(wagers, w, reversed, j);
      SumEqual(n, (i: nat) => cell(i, j), (i: nat) => Cell(wagers, w, reversed, i, j));
    }
    forall i: nat | i < n
      ensures Sum(n, (j: nat) => cell(i, j)) == if Undone(wagers, reversed, i) then -Effect(wagers, w, i) else 0
    {
      CellRow(wagers, w, reversed, i);
      SumEqual(n, (j: nat) => cell(i, j), (j: nat) => Cell(wagers, w, reversed, i, j));
    }
    SumEqual(n, (j: nat) => Sum(n, (i: nat) => cell(i, j)),
             (j: nat) => if Picked(wagers, reversed, j) then Effect(wagers, w, j) else 0);
    SumEqual(n, (i: nat) => Sum(n, (j: nat) => cell(i, j)),
             (i: nat) => if Undone(wagers, reversed, i) then -Effect(wagers, w, i) else 0);
  }

  // ---- What the rows of a wallet add up to

  /** A wager that brought money in or out by itself: not a reversal. */
  predicate Root(row: WagerRow) {
    row.state.Processed? && (row.kind.Opening? || row.kind.Bet? || row.kind.Win?)
  }

  /** The effects of the first n rows on one wallet, as if wagers that were undone
      and the reversals that undid them had never been. */
  ghost function StandingTotal(wagers: seq<WagerRow>, w: WalletId): int
    requires Linked(wagers)
  {
    Sum(|wagers|, (i: nat) =>
      if i < |wagers| && Root(wagers[i]) && Standing(wagers, i) then Effect(wagers, w, i) else 0)
  }

  lemma {:induction false} TotalIsSum(wagers: seq<WagerRow>, w: WalletId, n: nat)
    requires n <= |wagers|
    ensures Total(wagers, w, n) == Sum(n, (i: nat) => Effect(wagers, w, i))
  {
    if n > 0 { TotalIsSum(wagers, w, n - 1); }
  }

  function At(wagers: seq<WagerRow>, w: WalletId, i: nat, included: bool): int {
    if included then Effect(wagers, w, i) else 0
  }

  /** Undone means reversed, by something reversed if asked. */
  lemma UndoneMeaning(wagers: seq<WagerRow>, reversed: bool, i: nat)
    requires Linked(wagers) && i < |wagers|
    ensures Undone(wagers, reversed, i) <==>
              AlreadyReversed(wagers, i) && (reversed ==> AlreadyReversed(wagers, Reverser(wagers, i)))
  {
    if Undone(wagers, reversed, i) {
      var j :| 0 <= j < |wagers| && Reverses(wagers[j], i) && Picked(wagers, reversed, j);
      ReverserUnique(wagers, i, j);
    } else if AlreadyReversed(wagers, i) {
      var j := Reverser(wagers, i);
      assert Reverses(wagers[j], i) && !Picked(wagers, reversed, j);
    }
  }

  /** The reversal of a reversal is final, and only a BET is undone by one. */
  lemma TwiceReversed(wagers: seq<WagerRow>, i: nat)
    requires Linked(wagers) && i < |wagers| && AlreadyReversed(wagers, i)
    requires AlreadyReversed(wagers, Reverser(wagers, i))
    ensures Root(wagers[i]) && Standing(wagers, i)
  {
    var j := Reverser(wagers, i);
    var k := Reverser(wagers, j);
    ReversalOpposes(wagers, j, i);
    ReversalOpposes(wagers, k, j);
    if AlreadyReversed(wagers, k) {
      ReversalOpposes(wagers, Reverser(wagers, k), k);
    }
  }

  /** Row by row: a row counts as a root, as a reversal, or not at all; and a root
      that stands is one not undone, or undone by something undone. */
  lemma StandingCases(wagers: seq<WagerRow>, w: WalletId, i: nat)
    requires Linked(wagers) && i < |wagers|
    ensures Effect(wagers, w, i)
         == At(wagers, w, i, Root(wagers[i])) + At(wagers, w, i, Picked(wagers, false, i))
    ensures At(wagers, w, i, Root(wagers[i]) && Standing(wagers, i))
         == At(wagers, w, i, Root(wagers[i])) - At(wagers, w, i, Undone(wagers, false, i))
            + At(wagers, w, i, Picked(wagers, true, i)) + At(wagers, w, i, Undone(wagers, true, i))
  {
    UndoneMeaning(wagers, false, i);
    UndoneMeaning(wagers, true, i);
    if AlreadyReversed(wagers, i) {
      ReversalOpposes(wagers, Reverser(wagers, i), i);
      if AlreadyReversed(wagers, Reverser(wagers, i)) {
        TwiceReversed(wagers, i);
      }
    }
  }

  /** What was undone leaves no trace on a balance: the effects of all rows of a
      wallet add up to those of its openings, bets and wins that stand. */
  lemma TotalIsStanding(wagers: seq<WagerRow>, w: WalletId)
    requires Linked(wagers)
    ensures Total(wagers, w, |wagers|) == StandingTotal(wagers, w)
  {
    var n := |wagers|;
    var effect := (i: nat) => Effect(wagers, w, i);
    var root := (i: nat) => At(wagers, w, i, i < n && Root(wagers[i]));
    var reversal := (i: nat) => At(wagers, w, i, Picked(wagers, false, i));
    var undone := (i: nat) => -At(wagers, w, i, Undone(wagers, false, i));
    var undoing := (i: nat) => At(wagers, w, i, Picked(wagers, true, i));
    var twice := (i: nat) => At(wagers, w, i, Undone(wagers, true, i));
    var standing := (i: nat) => At(wagers, w, i, i < n && Root(wagers[i]) && Standing(wagers, i));
    forall i: nat | i < n
      ensures effect(i) == root(i) + reversal(i)
      ensures standing(i) == root(i) + undone(i) + undoing(i) + twice(i)
    {
      StandingCases(wagers, w, i);
    }
    hide Linked, Standing, Root, Picked, Undone, Effect;
    TotalIsSum(wagers, w, n);
    SumAdd(n, root, reversal, effect);
    var rootLess := (i: nat) => root(i) + undone(i);
    var rootBack := (i: nat) => rootLess(i) + undoing(i);
    SumAdd(n, root, undone, rootLess);
    SumAdd(n, rootLess, undoing, rootBack);
    SumAdd(n, rootBack, twice, standing);
    CancellationAt(wagers, w, reversal, undone, undoing, twice);
    SumEqual(n, standing, (i: nat) =>
      if i < |wagers| && Root(wagers[i]) && Standing(wagers, i) then Effect(wagers, w, i) else 0);
  }

  lemma CancellationAt(wagers: seq<WagerRow>, w: WalletId, reversal: nat -> int, undone: nat -> int,
                       undoing: nat -> int, twice: nat -> int)
    requires Linked(wagers)
    requires forall i: nat :: i < |wagers| ==> reversal(i) == At(wagers, w, i, Picked(wagers, false, i))
    requires forall i: nat :: i < |wagers| ==> undone(i) == -At(wagers, w, i, Undone(wagers, false, i))
    requires forall i: nat :: i < |wagers| ==> undoing(i) == At(wagers, w, i, Picked(wagers, true, i))
    requires forall i: nat :: i < |wagers| ==> twice(i) == At(wagers, w, i, Undone(wagers, true, i))
    ensures Sum(|wagers|, reversal) == Sum(|wagers|, undone)
    ensures Sum(|wagers|, undoing) + Sum(|wagers|, twice) == 0
  {
    var n := |wagers|;
    Cancellation(wagers, w, false);
    SumEqual(n, reversal, (j: nat) => if Picked(wagers, false, j) then Effect(wagers, w, j) else 0);
    SumEqual(n, undone, (i: nat) => if Undone(wagers, false, i) then -Effect(wagers, w, i) else 0);
    Cancellation(wagers, w, true);
    SumEqual(n, undoing, (j: nat) => if Picked(wagers, true, j) then Effect(wagers, w, j) else 0);
    var back := (i: nat) => if Undone(wagers, true, i) then -Effect(wagers, w, i) else 0;
    var nothing := (i: nat) => 0;
    SumAdd(n, back, twice, nothing);
    SumSingle(n, nothing, n);
    SumEqual(n, back, (i: nat) => if Undone(wagers, true, i) then -Effect(wagers, w, i) else 0);
  }

  /** The stored balance of every wallet is the sum of its standing wagers. */
  lemma BalanceIsStanding(db: Db, w: WalletId)
    requires Valid(db) && w in db.wallets
    ensures Linked(db.wagers) && db.wallets[w].balance == StandingTotal(db.wagers, w)
  {
    ValidLinked(db);
    assert WalletOk(db, w);
    TotalIsStanding(db.wagers, w);
  }

  /** In every interleaving: chains are short, their effect is all or nothing, and
      every balance is what the standing wagers of its wallet leave. */
  lemma StandingInEveryRun(actions: seq<Protocol.Action>)
    ensures var db := Protocol.Run(Protocol.START, actions).db;
            && Linked(db.wagers)
            && (forall id :: 0 <= id < |db.wagers| ==> |ReversalChain(db.wagers, id)| <= 3)
            && (forall id :: 0 <= id < |db.wagers| && db.wagers[id].state.Processed? ==>
                  Net(db.wagers, id) == if Standing(db.wagers, id) then Signed(db.wagers, db.wagers[id]) else 0)
            && (forall w :: w in db.wallets ==> db.wallets[w].balance == StandingTotal(db.wagers, w))
  {
    Safety.StartInv();
    Safety.RunInv(Protocol.START, actions);
    var db := Protocol.Run(Protocol.START, actions).db;
    assert Valid(db);
    hide Protocol.Run, Safety.Inv, Valid, Net, Standing, StandingTotal, ReversalChain, Linked;
    ValidLinked(db);
    forall id | 0 <= id < |db.wagers| ensures |ReversalChain(db.wagers, id)| <= 3 {
      ChainsAreShort(db.wagers, id);
    }
    forall id | 0 <= id < |db.wagers| && db.wagers[id].state.Processed?
      ensures Net(db.wagers, id) == if Standing(db.wagers, id) then Signed(db.wagers, db.wagers[id]) else 0
    {
      NetEffect(db.wagers, id);
    }
    forall w | w in db.wallets ensures db.wallets[w].balance == StandingTotal(db.wagers, w) {
      BalanceIsStanding(db, w);
    }
  }
}
