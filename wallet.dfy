/** The wallet service: deposits, withdrawals, locking a stake for a game,
    releasing it, and settling a finished game with its fee and referral
    rewards. Each operation is one database transaction: it either fails with
    nothing written or applies all of its writes. The `...Effect` functions
    state what a transaction writes; the methods perform the writes on the
    store and are proved to write exactly that. */
module Wallet {
  import opened Common
  import opened Db

  /** The two basis-point settings the server reads from its environment. */
  datatype Config = Config(feeBps: int, referralBps: int)

  /** The environment schema admits integers 0..10000 only. */
  predicate ValidConfig(c: Config) {
    0 <= c.feeBps <= 10000 && 0 <= c.referralBps <= 10000
  }

  /** The defaults: a 5% platform fee, of which a referrer earns 10% per player. */
  const DefaultConfig := Config(500, 1000)

  /** `assertPositive`. */
  function AssertPositive(amount: real): (o: Outcome)
    ensures o.Pass? <==> amount > 0.0
    ensures o.Fail? ==> o.error == "Amount must be positive"
  {
    if amount <= 0.0 then Fail("Amount must be positive") else Pass
  }

  /** `getWalletAssetOrThrow`: the user's row of the asset, or which lookup failed. */
  function WalletAsset(w: Wallets, u: UserId, a: Asset): (r: Result<Balance>)
    ensures r.Ok? <==> HasAsset(w, u, a)
    ensures r.Ok? ==> r.value == w[u][a]
    ensures u !in w ==> r == Err("Wallet missing")
    ensures u in w && a !in w[u] ==> r == Err("Wallet asset missing")
  {
    if u !in w then Err("Wallet missing")
    else if a !in w[u] then Err("Wallet asset missing")
    else Ok(w[u][a])
  }

  /** The same wallets and the same asset rows in each. */
  predicate SameShape(w: Wallets, w': Wallets) {
    w'.Keys == w.Keys && forall u :: u in w ==> w'[u].Keys == w[u].Keys
  }

  /** `w'` is `w` with the row (u, a) moved by the two deltas and nothing else changed. */
  predicate RowMoved(w: Wallets, w': Wallets, u: UserId, a: Asset, dAvail: real, dLocked: real)
    requires HasAsset(w, u, a)
  {
    && SameShape(w, w')
    && w'[u][a] == Balance(w[u][a].avail + dAvail, w[u][a].locked + dLocked)
    && forall v, c {:trigger w'[v][c]} :: v in w && c in w[v] && (v != u || c != a) ==> w'[v][c] == w[v][c]
  }

  /** The increments and decrements of one `walletAsset.update`. */
  function Adjust(w: Wallets, u: UserId, a: Asset, dAvail: real, dLocked: real): (w': Wallets)
    requires HasAsset(w, u, a)
    ensures RowMoved(w, w', u, a, dAvail, dLocked)
  {
    var row := w[u][a];
    w[u := w[u][a := Balance(row.avail + dAvail, row.locked + dLocked)]]
  }

  /** The balance of a row, staked or not. */
  function Total(b: Balance): real {
    b.avail + b.locked
  }

  /** `deposit`: a positive amount is credited and logged as a completed deposit. */
  function DepositEffect(b: Books, u: UserId, a: Asset, amount: real, meta: Option<Json>): (r: Result<Books>)
    ensures r.Ok? <==> amount > 0.0 && HasAsset(b.wallets, u, a)
    ensures amount <= 0.0 ==> r == Err("Amount must be positive")
    ensures amount > 0.0 && !HasAsset(b.wallets, u, a) ==> r == Err(WalletAsset(b.wallets, u, a).error)
    ensures r.Ok? ==> RowMoved(b.wallets, r.value.wallets, u, a, amount, 0.0)
    ensures r.Ok? ==> r.value.ledger == b.ledger + [Txn(u, TxType.Deposit, a, amount, Completed, Supplied(meta))]
    ensures r.Ok? ==> r.value.rewards == b.rewards
    ensures r.Ok? && NonNegative(b.wallets) ==> NonNegative(r.value.wallets)
  {
    match AssertPositive(amount)
    case Fail(e) => Err(e)
    case Pass =>
      match WalletAsset(b.wallets, u, a)
      case Err(e) => Err(e)
      case Ok(_) =>
        Ok(Books(
          Adjust(b.wallets, u, a, amount, 0.0),
          b.ledger + [Txn(u, TxType.Deposit, a, amount, Completed, Supplied(meta))],
          b.rewards))
  }

  /** `withdraw`: a positive amount no larger than the available balance is
      debited and logged as a pending withdrawal. */
  function WithdrawEffect(b: Books, u: UserId, a: Asset, amount: real, meta: Option<Json>): (r: Result<Books>)
    ensures r.Ok? <==> amount > 0.0 && HasAsset(b.wallets, u, a) && b.wallets[u][a].avail >= amount
    ensures amount <= 0.0 ==> r == Err("Amount must be positive")
    ensures amount > 0.0 && !HasAsset(b.wallets, u, a) ==> r == Err(WalletAsset(b.wallets, u, a).error)
    ensures amount > 0.0 && HasAsset(b.wallets, u, a) && b.wallets[u][a].avail < amount
      ==> r == Err("Insufficient balance")
    ensures r.Ok? ==> RowMoved(b.wallets, r.value.wallets, u, a, -amount, 0.0)
    ensures r.Ok? ==> r.value.ledger == b.ledger + [Txn(u, TxType.Withdraw, a, amount, Pending, Supplied(meta))]
    ensures r.Ok? ==> r.value.rewards == b.rewards
    ensures r.Ok? && NonNegative(b.wallets) ==> NonNegative(r.value.wallets)
  {
    match AssertPositive(amount)
    case Fail(e) => Err(e)
    case Pass =>
      match WalletAsset(b.wallets, u, a)
      case Err(e) => Err(e)
      case Ok(wa) =>
        if wa.avail < amount then Err("Insufficient balance")
        else
          Ok(Books(
            Adjust(b.wallets, u, a, -amount, 0.0),
            b.ledger + [Txn(u, TxType.Withdraw, a, amount, Pending, Supplied(meta))],
            b.rewards))
  }

  /** `lockForGame`: a positive amount no larger than the available balance
      moves from available to locked, and a completed LOCK names the game. */
  function LockEffect(b: Books, u: UserId, a: Asset, amount: real, gameId: RoomId): (r: Result<Books>)
    ensures r.Ok? <==> amount > 0.0 && HasAsset(b.wallets, u, a) && b.wallets[u][a].avail >= amount
    ensures amount <= 0.0 ==> r == Err("Amount must be positive")
    ensures amount > 0.0 && !HasAsset(b.wallets, u, a) ==> r == Err(WalletAsset(b.wallets, u, a).error)
    ensures amount > 0.0 && HasAsset(b.wallets, u, a) && b.wallets[u][a].avail < amount
      ==> r == Err("Insufficient balance")
    ensures r.Ok? ==> RowMoved(b.wallets, r.value.wallets, u, a, -amount, amount)
    ensures r.Ok? ==> Total(r.value.wallets[u][a]) == Total(b.wallets[u][a])
    ensures r.Ok? ==> r.value.ledger == b.ledger + [Txn(u, Lock, a, amount, Completed, Game(gameId))]
    ensures r.Ok? ==> r.value.rewards == b.rewards
    ensures r.Ok? && NonNegative(b.wallets) ==> NonNegative(r.value.wallets)
  {
    match AssertPositive(amount)
    case Fail(e) => Err(e)
    case Pass =>
      match WalletAsset(b.wallets, u, a)
      case Err(e) => Err(e)
      case Ok(wa) =>
        if wa.avail < amount then Err("Insufficient balance")
        else
          Ok(Books(
            Adjust(b.wallets, u, a, -amount, amount),
            b.ledger + [Txn(u, Lock, a, amount, Completed, Game(gameId))],
            b.rewards))
  }

  /** `unlockFromGame`: nothing at all for an amount that is not positive;
      otherwise an amount no larger than the locked balance moves back to
      available, and a completed UNLOCK names the game. */
  function UnlockEffect(b: Books, u: UserId, a: Asset, amount: real, gameId: RoomId): (r: Result<Books>)
    ensures amount <= 0.0 ==> r == Ok(b)
    ensures amount > 0.0 ==> (r.Ok? <==> HasAsset(b.wallets, u, a) && b.wallets[u][a].locked >= amount)
    ensures amount > 0.0 && !HasAsset(b.wallets, u, a) ==> r == Err(WalletAsset(b.wallets, u, a).error)
    ensures amount > 0.0 && HasAsset(b.wallets, u, a) && b.wallets[u][a].locked < amount
      ==> r == Err("Locked balance underflow")
    ensures amount > 0.0 && r.Ok? ==> RowMoved(b.wallets, r.value.wallets, u, a, amount, -amount)
    ensures amount > 0.0 && r.Ok? ==> Total(r.value.wallets[u][a]) == Total(b.wallets[u][a])
    ensures amount > 0.0 && r.Ok? ==> r.value.ledger == b.ledger + [Txn(u, Unlock, a, amount, Completed, Game(gameId))]
    ensures r.Ok? ==> r.value.rewards == b.rewards
    ensures r.Ok? && NonNegative(b.wallets) ==> NonNegative(r.value.wallets)
  {
    if amount <= 0.0 then Ok(b)
    else
      match WalletAsset(b.wallets, u, a)
      case Err(e) => Err(e)
      case Ok(wa) =>
        if wa.locked < amount then Err("Locked balance underflow")
        else
          Ok(Books(
            Adjust(b.wallets, u, a, amount, -amount),
            b.ledger + [Txn(u, Unlock, a, amount, Completed, Game(gameId))],
            b.rewards))
  }

  /** Releasing a stake just locked gives back the wallets as they were, and
      the ledger holds the LOCK and the UNLOCK. */
  lemma UnlockAfterLock(b: Books, u: UserId, a: Asset, amount: real, gameId: RoomId)
    requires NonNegative(b.wallets) && LockEffect(b, u, a, amount, gameId).Ok?
    ensures var b1 := LockEffect(b, u, a, amount, gameId).value;
      var r := UnlockEffect(b1, u, a, amount, gameId);
      && r.Ok?
      && r.value.wallets == b.wallets
      && r.value.ledger == b.ledger + [Txn(u, Lock, a, amount, Completed, Game(gameId)),
                                       Txn(u, Unlock, a, amount, Completed, Game(gameId))]
  {
    var b1 := LockEffect(b, u, a, amount, gameId).value;
    assert b1.wallets[u][a].locked >= amount;
    var w2 := UnlockEffect(b1, u, a, amount, gameId).value.wallets;
    assert w2[u][a] == b.wallets[u][a];
    assert w2[u] == b.wallets[u];
  }

  /** The two-player pot, the platform's cut of it, and what the winner is paid. */
  function FeeOf(cfg: Config, stake: real): real {
    Bps(2.0 * stake, cfg.feeBps as real)
  }

  /** `x.mul(bps).div(10_000)`: the part of x given in basis points. */
  function Bps(x: real, bps: real): real {
    x * bps / 10000.0
  }

  function PayoutOf(cfg: Config, stake: real): real {
    2.0 * stake - FeeOf(cfg, stake)
  }

  /** What a referrer earns for one of the two players: a share of half the fee. */
  function ShareOf(cfg: Config, fee: real): real {
    Bps(fee / 2.0, cfg.referralBps as real)
  }

  /** The fee is a part of the pot, the payout the rest of it, and the
      referral shares of both players together come out of the fee. */
  lemma FeeBounds(cfg: Config, stake: real)
    requires ValidConfig(cfg) && stake > 0.0
    ensures 0.0 <= FeeOf(cfg, stake) <= 2.0 * stake
    ensures 0.0 <= PayoutOf(cfg, stake) <= 2.0 * stake
    ensures FeeOf(cfg, stake) + PayoutOf(cfg, stake) == 2.0 * stake
    ensures 0.0 <= ShareOf(cfg, FeeOf(cfg, stake))
    ensures 2.0 * ShareOf(cfg, FeeOf(cfg, stake)) <= FeeOf(cfg, stake)
  {
    FeeWithin(cfg, stake);
    ShareWithin(cfg, FeeOf(cfg, stake));
  }

  /** The fee is a part of the pot. */
  lemma FeeWithin(cfg: Config, stake: real)
    requires ValidConfig(cfg) && stake > 0.0
    ensures 0.0 <= FeeOf(cfg, stake) <= 2.0 * stake
  {
    BpsPart(2.0 * stake, cfg.feeBps as real);
  }

  /** A referral share is a part of half the fee. */
  lemma ShareWithin(cfg: Config, fee: real)
    requires ValidConfig(cfg) && fee >= 0.0
    ensures 0.0 <= ShareOf(cfg, fee) <= fee / 2.0
  {
    BpsPart(fee / 2.0, cfg.referralBps as real);
  }

  /** A basis-point part of a non-negative amount lies between 0 and the amount. */
  lemma BpsPart(x: real, bps: real)
    requires x >= 0.0 && 0.0 <= bps <= 10000.0
    ensures 0.0 <= Bps(x, bps) <= x
  {
    assert x * bps <= x * 10000.0;
    assert 0.0 <= x * bps;
  }

  /** With the default settings a stake of 10 pays 19 to the winner, keeps 1 as
      the fee, and earns a referrer 0.05 per referred player. */
  lemma DefaultSettlementExample()
    ensures FeeOf(DefaultConfig, 10.0) == 1.0
    ensures PayoutOf(DefaultConfig, 10.0) == 19.0
    ensures ShareOf(DefaultConfig, 1.0) == 0.05
  {
  }

  /** The referral rewards the loop over the participants pays, in order: the
      pair (referrer, referred player) for every player with a referrer who
      holds a row of the asset, and none when the share is not positive. */
  function Earners(w: Wallets, refs: map<UserId, UserId>, ps: seq<UserId>, a: Asset, share: real)
    : (e: seq<(UserId, UserId)>)
    ensures |e| <= |ps|
    ensures share <= 0.0 ==> e == []
    ensures forall k :: 0 <= k < |e| ==> e[k].1 in refs && e[k].0 == refs[e[k].1] && HasAsset(w, e[k].0, a)
  {
    if ps == [] then []
    else
      var e := Earners(w, refs, ps[..|ps| - 1], a, share);
      var u := ps[|ps| - 1];
      if share > 0.0 && u in refs && HasAsset(w, refs[u], a) then e + [(refs[u], u)] else e
  }

  /** The earners of the pair of players: first p1's referrer, then p2's. */
  lemma EarnersOfPair(w: Wallets, refs: map<UserId, UserId>, p1: UserId, p2: UserId, a: Asset, share: real)
    ensures Earners(w, refs, [p1, p2], a, share) ==
      (if share > 0.0 && p1 in refs && HasAsset(w, refs[p1], a) then [(refs[p1], p1)] else []) +
      (if share > 0.0 && p2 in refs && HasAsset(w, refs[p2], a) then [(refs[p2], p2)] else [])
  {
    assert [p1, p2][..1] == [p1];
    assert [p1][..0] == [];
  }

  predicate CanCredit(w: Wallets, e: seq<(UserId, UserId)>, a: Asset) {
    forall k :: 0 <= k < |e| ==> HasAsset(w, e[k].0, a)
  }

  /** The referrers' credits, one `walletAsset.update` per earner. */
  function CreditAll(w: Wallets, e: seq<(UserId, UserId)>, a: Asset, share: real): (w': Wallets)
    requires CanCredit(w, e, a)
    ensures SameShape(w, w')
  {
    if e == [] then w
    else
      var w1 := CreditAll(w, e[..|e| - 1], a, share);
      Adjust(w1, e[|e| - 1].0, a, share, 0.0)
  }

  /** How many of the rewards go to user v. */
  function Count(e: seq<(UserId, UserId)>, v: UserId): (n: nat)
    ensures n <= |e|
  {
    if e == [] then 0 else Count(e[..|e| - 1], v) + (if e[|e| - 1].0 == v then 1 else 0)
  }

  /** What the rewards pay user v, summed. */
  function Earned(e: seq<(UserId, UserId)>, v: UserId, share: real): real {
    if e == [] then 0.0 else Earned(e[..|e| - 1], v, share) + (if e[|e| - 1].0 == v then share else 0.0)
  }

  /** What all the rewards pay together, added up one reward at a time. */
  function RewardTotal(e: seq<(UserId, UserId)>, share: real): real {
    if e == [] then 0.0 else RewardTotal(e[..|e| - 1], share) + share
  }

  /** The total is one share per reward; with a positive share it is positive
      exactly when there is a reward. */
  lemma {:induction false} RewardTotalIsShareTimesCount(e: seq<(UserId, UserId)>, share: real)
    ensures RewardTotal(e, share) == share * |e| as real
    ensures share > 0.0 ==> (RewardTotal(e, share) > 0.0 <==> e != [])
  {
    if e != [] {
      RewardTotalIsShareTimesCount(e[..|e| - 1], share);
      var n := |e| - 1;
      assert share * (n + 1) as real == share * n as real + share;
    }
  }

  /** Every reward is the same share, so a user earns one share per reward. */
  lemma {:induction false} EarnedIsShareTimesCount(e: seq<(UserId, UserId)>, v: UserId, share: real)
    ensures Earned(e, v, share) == share * Count(e, v) as real
  {
    if e != [] {
      EarnedIsShareTimesCount(e[..|e| - 1], v, share);
      var n := Count(e[..|e| - 1], v);
      assert share * (n + 1) as real == share * n as real + share;
    }
  }

  /** A referrer's available balance rises by what its rewards pay; no locked
      balance and no other asset changes. */
  lemma {:induction false} CreditAllRow(w: Wallets, e: seq<(UserId, UserId)>, a: Asset, share: real, v: UserId, c: Asset)
    requires CanCredit(w, e, a) && HasAsset(w, v, c)
    ensures CreditAll(w, e, a, share)[v][c] ==
      Balance(w[v][c].avail + (if c == a then Earned(e, v, share) else 0.0), w[v][c].locked)
  {
    if e != [] {
      var e' := e[..|e| - 1];
      assert CanCredit(w, e', a);
      CreditAllRow(w, e', a, share, v, c);
      var w1 := CreditAll(w, e', a, share);
      assert HasAsset(w1, v, c);
    }
  }

  /** The ledger entries of the rewards. */
  function RewardTxns(e: seq<(UserId, UserId)>, a: Asset, share: real, gameId: RoomId): (t: seq<Txn>)
    ensures |t| == |e|
    ensures forall k :: 0 <= k < |e| ==> t[k] == Txn(e[k].0, ReferralReward, a, share, Completed, Referral(gameId, e[k].1))
  {
    if e == [] then []
    else RewardTxns(e[..|e| - 1], a, share, gameId) + [Txn(e[|e| - 1].0, ReferralReward, a, share, Completed, Referral(gameId, e[|e| - 1].1))]
  }

  /** The `ReferralReward` rows of the rewards. */
  function RewardRecords(e: seq<(UserId, UserId)>, a: Asset, share: real, gameId: RoomId): (t: seq<Reward>)
    ensures |t| == |e|
    ensures forall k :: 0 <= k < |e| ==> t[k] == Reward(e[k].0, e[k].1, share, a, gameId)
  {
    if e == [] then []
    else RewardRecords(e[..|e| - 1], a, share, gameId) + [Reward(e[|e| - 1].0, e[|e| - 1].1, share, a, gameId)]
  }

  /** What `settleWinnerTakeAll` reports. */
  datatype Settlement = Settlement(payout: real, fee: real, referralReward: Option<real>)

  /** `!winnerId`: no winner, or the empty string, is a draw. */
  predicate IsDraw(winner: Option<UserId>) {
    winner.None? || winner.value == ""
  }

  /** The row the payout goes to and the row the loser's stake comes from: p1's
      when p1 is named the winner, otherwise p2's. */
  function WinnerRow(p1: UserId, p2: UserId, winner: UserId): UserId {
    if winner == p1 then p1 else p2
  }

  function LoserRow(p1: UserId, p2: UserId, winner: UserId): UserId {
    if winner == p1 then p2 else p1
  }

  /** The writes of a draw: each player's stake goes back from locked to available. */
  function ReleaseStakes(w: Wallets, p1: UserId, p2: UserId, a: Asset, stake: real): (w': Wallets)
    requires HasAsset(w, p1, a) && HasAsset(w, p2, a)
    ensures SameShape(w, w')
    ensures p1 != p2 ==> forall v, c {:trigger w'[v][c]} :: v in w && c in w[v] ==>
      w'[v][c] == if c == a && (v == p1 || v == p2)
        then Balance(w[v][c].avail + stake, w[v][c].locked - stake)
        else w[v][c]
  {
    var w1 := Adjust(w, p1, a, stake, -stake);
    Adjust(w1, p2, a, stake, -stake)
  }

  /** The three row updates `ConsumeStakes` is made of, each on a row that exists. */
  lemma ConsumeStakesSteps(w: Wallets, p1: UserId, p2: UserId, win: UserId, a: Asset, stake: real, payout: real)
    requires HasAsset(w, p1, a) && HasAsset(w, p2, a)
    ensures var wr, lr := WinnerRow(p1, p2, win), LoserRow(p1, p2, win);
      && HasAsset(Adjust(w, wr, a, 0.0, -stake), lr, a)
      && HasAsset(Adjust(Adjust(w, wr, a, 0.0, -stake), lr, a, 0.0, -stake), wr, a)
      && ConsumeStakes(w, p1, p2, win, a, stake, payout)
         == Adjust(Adjust(Adjust(w, wr, a, 0.0, -stake), lr, a, 0.0, -stake), wr, a, payout, 0.0)
  {
  }

  /** The writes of a decided game before the referral rewards: both stakes
      leave the locked balances and the winner's row is paid. */
  function ConsumeStakes(w: Wallets, p1: UserId, p2: UserId, win: UserId, a: Asset, stake: real, payout: real): (w': Wallets)
    requires HasAsset(w, p1, a) && HasAsset(w, p2, a)
    ensures SameShape(w, w')
    ensures p1 != p2 ==> forall v, c {:trigger w'[v][c]} :: v in w && c in w[v] ==>
      w'[v][c] == Balance(
        w[v][c].avail + (if c == a && v == WinnerRow(p1, p2, win) then payout else 0.0),
        w[v][c].locked - (if c == a && (v == p1 || v == p2) then stake else 0.0))
  {
    var wr, lr := WinnerRow(p1, p2, win), LoserRow(p1, p2, win);
    var w1 := Adjust(w, wr, a, 0.0, -stake);
    var w2 := Adjust(w1, lr, a, 0.0, -stake);
    Adjust(w2, wr, a, payout, 0.0)
  }

  /** The balances after a decided game: the stakes consumed, the winner paid
      and each earner credited its share. */
  function DecidedWallets(w: Wallets, e: seq<(UserId, UserId)>, a: Asset,
                          stake: real, p1: UserId, p2: UserId, win: UserId, payout: real, share: real): (w': Wallets)
    requires HasAsset(w, p1, a) && HasAsset(w, p2, a) && CanCredit(w, e, a)
    ensures SameShape(w, w')
  {
    var w3 := ConsumeStakes(w, p1, p2, win, a, stake, payout);
    assert CanCredit(w3, e, a);
    CreditAll(w3, e, a, share)
  }

  /** The writes and the report of a decided game whose stakes are in place,
      for a given fee, payout and per-referrer share. */
  function Decide(b: Books, refs: map<UserId, UserId>, gameId: RoomId, a: Asset,
                  stake: real, p1: UserId, p2: UserId, win: UserId, fee: real, payout: real, share: real)
    : (r: (Books, Settlement))
    requires HasAsset(b.wallets, p1, a) && HasAsset(b.wallets, p2, a)
  {
    var e := Earners(b.wallets, refs, [p1, p2], a, share);
    var total := RewardTotal(e, share);
    (Books(DecidedWallets(b.wallets, e, a, stake, p1, p2, win, payout, share),
           b.ledger + [Txn(win, Payout, a, payout, Completed, Game(gameId)),
                       Txn(win, Fee, a, fee, Completed, Game(gameId))]
                    + RewardTxns(e, a, share, gameId),
           b.rewards + RewardRecords(e, a, share, gameId)),
     Settlement(payout, fee, if total > 0.0 then Some(total) else None))
  }

  /** `settleWinnerTakeAll`. A draw releases both stakes. Otherwise both stakes
      leave the locked balances, the winner is paid the pot less the fee, the
      payout and the fee are logged against the winner, and each player's
      referrer is credited a share of the fee. */
  function SettleEffect(b: Books, refs: map<UserId, UserId>, cfg: Config, gameId: RoomId, a: Asset,
                        stake: real, p1: UserId, p2: UserId, winner: Option<UserId>): (r: Result<(Books, Settlement)>)
    ensures stake <= 0.0 ==> r == Err("Amount must be positive")
    ensures stake > 0.0 && !HasAsset(b.wallets, p1, a) ==> r == Err(WalletAsset(b.wallets, p1, a).error)
    ensures stake > 0.0 && HasAsset(b.wallets, p1, a) && !HasAsset(b.wallets, p2, a)
      ==> r == Err(WalletAsset(b.wallets, p2, a).error)
    ensures r.Ok? <==>
      && stake > 0.0 && HasAsset(b.wallets, p1, a) && HasAsset(b.wallets, p2, a)
      && (IsDraw(winner) ==> b.wallets[p1][a].locked >= stake && b.wallets[p2][a].locked >= stake)
      && (!IsDraw(winner) ==>
            b.wallets[WinnerRow(p1, p2, winner.value)][a].locked >= stake
            && b.wallets[LoserRow(p1, p2, winner.value)][a].locked >= stake)
    ensures r.Err? && stake > 0.0 && HasAsset(b.wallets, p1, a) && HasAsset(b.wallets, p2, a)
      ==> r.error == "Locked stake missing"
    ensures r.Ok? ==> SameShape(b.wallets, r.value.0.wallets)
  {
    var w := b.wallets;
    match AssertPositive(stake)
    case Fail(e) => Err(e)
    case Pass =>
      if !HasAsset(w, p1, a) then Err(WalletAsset(w, p1, a).error)
      else if !HasAsset(w, p2, a) then Err(WalletAsset(w, p2, a).error)
      else if IsDraw(winner) then
        if w[p1][a].locked < stake || w[p2][a].locked < stake then Err("Locked stake missing")
        else
          Ok((Books(ReleaseStakes(w, p1, p2, a, stake),
                    b.ledger + [Txn(p1, Unlock, a, stake, Completed, DrawRefund(gameId)),
                                Txn(p2, Unlock, a, stake, Completed, DrawRefund(gameId))],
                    b.rewards),
              Settlement(stake, 0.0, None)))
      else
        var win := winner.value;
        var wr, lr := WinnerRow(p1, p2, win), LoserRow(p1, p2, win);
        if w[wr][a].locked < stake || w[lr][a].locked < stake then Err("Locked stake missing")
        else
          var fee := FeeOf(cfg, stake);
          Ok(Decide(b, refs, gameId, a, stake, p1, p2, win, fee, PayoutOf(cfg, stake), ShareOf(cfg, fee)))
  }

  /** Which rows the referral rewards credit depends only on which rows exist. */
  lemma {:induction false} EarnersSameShape(w: Wallets, w': Wallets, refs: map<UserId, UserId>, ps: seq<UserId>, a: Asset, share: real)
    requires SameShape(w, w')
    ensures Earners(w, refs, ps, a, share) == Earners(w', refs, ps, a, share)
  {
    if ps != [] {
      EarnersSameShape(w, w', refs, ps[..|ps| - 1], a, share);
    }
  }

  /** A draw releases each player's stake: available up and locked down by the
      stake, every other row as it was, two UNLOCK entries, a reported fee of 0. */
  lemma SettleDraw(b: Books, refs: map<UserId, UserId>, cfg: Config, gameId: RoomId, a: Asset,
                   stake: real, p1: UserId, p2: UserId, winner: Option<UserId>, b': Books, s: Settlement)
    requires p1 != p2 && IsDraw(winner)
    requires SettleEffect(b, refs, cfg, gameId, a, stake, p1, p2, winner) == Ok((b', s))
    ensures && s == Settlement(stake, 0.0, None)
      && (forall v, c {:trigger b'.wallets[v][c]} :: v in b.wallets && c in b.wallets[v] ==>
            b'.wallets[v][c] == if c == a && (v == p1 || v == p2)
              then Balance(b.wallets[v][c].avail + stake, b.wallets[v][c].locked - stake)
              else b.wallets[v][c])
      && b'.ledger == b.ledger + [Txn(p1, Unlock, a, stake, Completed, DrawRefund(gameId)),
                                  Txn(p2, Unlock, a, stake, Completed, DrawRefund(gameId))]
      && b'.rewards == b.rewards
  {
  }

  /** A decided settlement is the writes of `Decide` with the configured fee and share. */
  lemma SettleIsDecide(b: Books, refs: map<UserId, UserId>, cfg: Config, gameId: RoomId, a: Asset,
                       stake: real, p1: UserId, p2: UserId, winner: Option<UserId>)
    requires !IsDraw(winner)
    requires SettleEffect(b, refs, cfg, gameId, a, stake, p1, p2, winner).Ok?
    ensures HasAsset(b.wallets, p1, a) && HasAsset(b.wallets, p2, a)
    ensures SettleEffect(b, refs, cfg, gameId, a, stake, p1, p2, winner)
      == Ok(Decide(b, refs, gameId, a, stake, p1, p2, winner.value, FeeOf(cfg, stake), PayoutOf(cfg, stake),
                     ShareOf(cfg, FeeOf(cfg, stake))))
  {
  }

  /** A decided game: each player's locked stake is consumed, the winner's row
      is paid the pot less the fee, every row is credited what its referral
      rewards pay, and nothing else changes. */
  lemma SettleDecisiveWallets(b: Books, refs: map<UserId, UserId>, cfg: Config, gameId: RoomId, a: Asset,
                              stake: real, p1: UserId, p2: UserId, winner: Option<UserId>, b': Books, s: Settlement)
    requires p1 != p2 && !IsDraw(winner)
    requires SettleEffect(b, refs, cfg, gameId, a, stake, p1, p2, winner) == Ok((b', s))
    ensures var share := ShareOf(cfg, FeeOf(cfg, stake));
      Decided(b.wallets, b'.wallets, Earners(b.wallets, refs, [p1, p2], a, share), a,
              stake, p1, p2, winner.value, PayoutOf(cfg, stake), share)
  {
    var share := ShareOf(cfg, FeeOf(cfg, stake));
    var e := Earners(b.wallets, refs, [p1, p2], a, share);
    SettleDecidedWallets(b, refs, cfg, gameId, a, stake, p1, p2, winner, b', s);
    DecideWallets(b.wallets, b'.wallets, e, a, stake, p1, p2, winner.value, PayoutOf(cfg, stake), share);
  }

  /** The balances a decided settlement writes are `DecidedWallets` for the
      configured payout and share. */
  lemma SettleDecidedWallets(b: Books, refs: map<UserId, UserId>, cfg: Config, gameId: RoomId, a: Asset,
                             stake: real, p1: UserId, p2: UserId, winner: Option<UserId>, b': Books, s: Settlement)
    requires !IsDraw(winner)
    requires SettleEffect(b, refs, cfg, gameId, a, stake, p1, p2, winner) == Ok((b', s))
    ensures var share := ShareOf(cfg, FeeOf(cfg, stake));
      var e := Earners(b.wallets, refs, [p1, p2], a, share);
      && HasAsset(b.wallets, p1, a) && HasAsset(b.wallets, p2, a) && CanCredit(b.wallets, e, a)
      && b'.wallets == DecidedWallets(b.wallets, e, a, stake, p1, p2, winner.value, PayoutOf(cfg, stake), share)
  {
    var fee := FeeOf(cfg, stake);
    var share := ShareOf(cfg, fee);
    var e := Earners(b.wallets, refs, [p1, p2], a, share);
    SettleIsDecide(b, refs, cfg, gameId, a, stake, p1, p2, winner);
    assert (b', s) == Decide(b, refs, gameId, a, stake, p1, p2, winner.value, fee, PayoutOf(cfg, stake), share);
    assert CanCredit(b.wallets, e, a);
  }

  /** What a decided game reports and logs: the payout and the fee, both
      entered against the winner, then one referral entry and one reward record
      per earner. The earners are at most two, one per player with a referrer
      who holds the asset, and the reported referral total is their sum when
      there are any. */
  lemma SettleDecisiveReport(b: Books, refs: map<UserId, UserId>, cfg: Config, gameId: RoomId, a: Asset,
                             stake: real, p1: UserId, p2: UserId, winner: Option<UserId>, b': Books, s: Settlement)
    requires !IsDraw(winner)
    requires SettleEffect(b, refs, cfg, gameId, a, stake, p1, p2, winner) == Ok((b', s))
    ensures var fee := FeeOf(cfg, stake);
      var share := ShareOf(cfg, fee);
      var e := Earners(b.wallets, refs, [p1, p2], a, share);
      && |e| <= 2
      && s == Settlement(PayoutOf(cfg, stake), fee, if e == [] then None else Some(RewardTotal(e, share)))
      && b'.ledger == b.ledger + [Txn(winner.value, Payout, a, PayoutOf(cfg, stake), Completed, Game(gameId)),
                                  Txn(winner.value, Fee, a, fee, Completed, Game(gameId))]
                               + RewardTxns(e, a, share, gameId)
      && b'.rewards == b.rewards + RewardRecords(e, a, share, gameId)
  {
    var fee := FeeOf(cfg, stake);
    var share := ShareOf(cfg, fee);
    var payout := PayoutOf(cfg, stake);
    SettleIsDecide(b, refs, cfg, gameId, a, stake, p1, p2, winner);
    assert (b', s) == Decide(b, refs, gameId, a, stake, p1, p2, winner.value, fee, payout, share);
    DecideReport(b, refs, gameId, a, stake, p1, p2, winner.value, fee, payout, share);
  }

  /** Consuming both stakes, paying the winner's row and crediting the rewards
      moves each row by exactly its part of these writes. */
  lemma DecidedRow(w: Wallets, e: seq<(UserId, UserId)>, a: Asset, stake: real, p1: UserId, p2: UserId,
                   win: UserId, payout: real, share: real, v: UserId, c: Asset)
    requires p1 != p2 && HasAsset(w, p1, a) && HasAsset(w, p2, a) && CanCredit(w, e, a) && HasAsset(w, v, c)
    ensures DecidedWallets(w, e, a, stake, p1, p2, win, payout, share)[v][c] == Balance(
      w[v][c].avail + (if c == a && v == WinnerRow(p1, p2, win) then payout else 0.0)
                    + (if c == a then Earned(e, v, share) else 0.0),
      w[v][c].locked - (if c == a && (v == p1 || v == p2) then stake else 0.0))
  {
    var w3 := ConsumeStakes(w, p1, p2, win, a, stake, payout);
    assert CanCredit(w3, e, a);
    CreditAllRow(w3, e, a, share, v, c);
  }

  /** `w'` is `w` after a decided game: both players' stakes gone from their
      locked balances, the payout on the winner's row, each earner's rewards on
      its available balance, every other row as it was. */
  predicate Decided(w: Wallets, w': Wallets, e: seq<(UserId, UserId)>, a: Asset,
                    stake: real, p1: UserId, p2: UserId, win: UserId, payout: real, share: real)
  {
    && SameShape(w, w')
    && forall v, c {:trigger w'[v][c]} :: v in w && c in w[v] ==>
      w'[v][c] == Balance(
        w[v][c].avail + (if c == a && v == WinnerRow(p1, p2, win) then payout else 0.0)
                      + (if c == a then Earned(e, v, share) else 0.0),
        w[v][c].locked - (if c == a && (v == p1 || v == p2) then stake else 0.0))
  }

  /** The balances after a decided game. */
  lemma DecideWallets(w: Wallets, w': Wallets, e: seq<(UserId, UserId)>, a: Asset,
                      stake: real, p1: UserId, p2: UserId, win: UserId, payout: real, share: real)
    requires p1 != p2 && HasAsset(w, p1, a) && HasAsset(w, p2, a) && CanCredit(w, e, a)
    requires w' == DecidedWallets(w, e, a, stake, p1, p2, win, payout, share)
    ensures Decided(w, w', e, a, stake, p1, p2, win, payout, share)
  {
    forall v, c | v in w && c in w[v]
      ensures w'[v][c] == Balance(
        w[v][c].avail + (if c == a && v == WinnerRow(p1, p2, win) then payout else 0.0)
                      + (if c == a then Earned(e, v, share) else 0.0),
        w[v][c].locked - (if c == a && (v == p1 || v == p2) then stake else 0.0))
    {
      DecidedRow(w, e, a, stake, p1, p2, win, payout, share, v, c);
    }
  }

  /** The report and the log of a decided game. */
  lemma DecideReport(b: Books, refs: map<UserId, UserId>, gameId: RoomId, a: Asset,
                     stake: real, p1: UserId, p2: UserId, win: UserId, fee: real, payout: real, share: real)
    requires HasAsset(b.wallets, p1, a) && HasAsset(b.wallets, p2, a)
    ensures var (b', s) := Decide(b, refs, gameId, a, stake, p1, p2, win, fee, payout, share);
      var e := Earners(b.wallets, refs, [p1, p2], a, share);
      && |e| <= 2
      && s == Settlement(payout, fee, if e == [] then None else Some(RewardTotal(e, share)))
      && b'.ledger == b.ledger + [Txn(win, Payout, a, payout, Completed, Game(gameId)),
                                  Txn(win, Fee, a, fee, Completed, Game(gameId))]
                               + RewardTxns(e, a, share, gameId)
      && b'.rewards == b.rewards + RewardRecords(e, a, share, gameId)
  {
    var e := Earners(b.wallets, refs, [p1, p2], a, share);
    RewardTotalIsShareTimesCount(e, share);
  }

  /** A referrer never loses by its rewards. */
  lemma {:induction false} EarnedNonNegative(e: seq<(UserId, UserId)>, v: UserId, share: real)
    requires share >= 0.0
    ensures Earned(e, v, share) >= 0.0
  {
    if e != [] {
      EarnedNonNegative(e[..|e| - 1], v, share);
    }
  }

  /** No settlement makes a balance negative. */
  lemma SettleNonNegative(b: Books, refs: map<UserId, UserId>, cfg: Config, gameId: RoomId, a: Asset,
                          stake: real, p1: UserId, p2: UserId, winner: Option<UserId>, b': Books, s: Settlement)
    requires ValidConfig(cfg) && p1 != p2 && NonNegative(b.wallets)
    requires SettleEffect(b, refs, cfg, gameId, a, stake, p1, p2, winner) == Ok((b', s))
    ensures NonNegative(b'.wallets)
  {
    if IsDraw(winner) {
      SettleDraw(b, refs, cfg, gameId, a, stake, p1, p2, winner, b', s);
    } else {
      var share := ShareOf(cfg, FeeOf(cfg, stake));
      var e := Earners(b.wallets, refs, [p1, p2], a, share);
      SettleDecisiveWallets(b, refs, cfg, gameId, a, stake, p1, p2, winner, b', s);
      assert b.wallets[p1][a].locked >= stake && b.wallets[p2][a].locked >= stake;
      FeeBounds(cfg, stake);
      DecidedNonNegative(b.wallets, b'.wallets, e, a, stake, p1, p2, winner.value, PayoutOf(cfg, stake), share);
    }
  }

  /** The writes of a decided game keep every balance non-negative when both
      stakes are locked and the payout and the shares are not negative. */
  lemma DecidedNonNegative(w: Wallets, w': Wallets, e: seq<(UserId, UserId)>, a: Asset,
                           stake: real, p1: UserId, p2: UserId, win: UserId, payout: real, share: real)
    requires NonNegative(w) && payout >= 0.0 && share >= 0.0
    requires HasAsset(w, p1, a) && HasAsset(w, p2, a)
    requires w[p1][a].locked >= stake && w[p2][a].locked >= stake
    requires Decided(w, w', e, a, stake, p1, p2, win, payout, share)
    ensures NonNegative(w')
  {
    forall v, c | v in w' && c in w'[v]
      ensures w'[v][c].avail >= 0.0 && w'[v][c].locked >= 0.0
    {
      assert v in w && c in w[v];
      EarnedNonNegative(e, v, share);
    }
  }

  /* The service operations on the store. Every check of a transaction comes
     before its first write, so a failed transaction writes nothing. */

  /** One `walletAsset.update` of a row by an increment of each balance. */
  method UpdateRow(db: Store, u: UserId, a: Asset, dAvail: real, dLocked: real)
    requires HasAsset(db.books.wallets, u, a)
    modifies db`books
    ensures db.books.wallets == Adjust(old(db.books.wallets), u, a, dAvail, dLocked)
    ensures db.books.ledger == old(db.books.ledger) && db.books.rewards == old(db.books.rewards)
  {
    var row := db.books.wallets[u][a];
    db.books := db.books.(wallets := db.books.wallets[u := db.books.wallets[u][a := Balance(row.avail + dAvail, row.locked + dLocked)]]);
  }

  /** One `transaction.create`: an entry at the end of the ledger. */
  method Log(db: Store, t: Txn)
    modifies db`books
    ensures db.books == old(db.books).(ledger := old(db.books.ledger) + [t])
  {
    db.books := db.books.(ledger := db.books.ledger + [t]);
  }

  /** One `transaction.createMany`: the entries at the end of the ledger, in order. */
  method LogMany(db: Store, ts: seq<Txn>)
    modifies db`books
    ensures db.books == old(db.books).(ledger := old(db.books.ledger) + ts)
  {
    db.books := db.books.(ledger := db.books.ledger + ts);
  }

  /** One `referralReward.create`. */
  method Record(db: Store, rw: Reward)
    modifies db`books
    ensures db.books == old(db.books).(rewards := old(db.books.rewards) + [rw])
  {
    db.books := db.books.(rewards := db.books.rewards + [rw]);
  }

  /** `deposit`: the store ends as `DepositEffect` says, or unchanged with its error. */
  method Deposit(db: Store, u: UserId, a: Asset, amount: real, meta: Option<Json>) returns (r: Outcome)
    requires db.Valid()
    modifies db`books
    ensures db.Valid()
    ensures DepositEffect(old(db.books), u, a, amount, meta) == if r.Pass? then Ok(db.books) else Err(r.error)
    ensures r.Fail? ==> db.books == old(db.books)
  {
    r := AssertPositive(amount);
    if r.Fail? {
      return;
    }
    var wa := WalletAsset(db.books.wallets, u, a);
    if wa.Err? {
      return Fail(wa.error);
    }
    UpdateRow(db, u, a, amount, 0.0);
    Log(db, Txn(u, TxType.Deposit, a, amount, Completed, Supplied(meta)));
  }

  /** `withdraw`: the store ends as `WithdrawEffect` says, or unchanged with its error. */
  method Withdraw(db: Store, u: UserId, a: Asset, amount: real, meta: Option<Json>) returns (r: Outcome)
    requires db.Valid()
    modifies db`books
    ensures db.Valid()
    ensures WithdrawEffect(old(db.books), u, a, amount, meta) == if r.Pass? then Ok(db.books) else Err(r.error)
    ensures r.Fail? ==> db.books == old(db.books)
  {
    r := AssertPositive(amount);
    if r.Fail? {
      return;
    }
    var wa := WalletAsset(db.books.wallets, u, a);
    if wa.Err? {
      return Fail(wa.error);
    }
    if wa.value.avail < amount {
      return Fail("Insufficient balance");
    }
    UpdateRow(db, u, a, -amount, 0.0);
    Log(db, Txn(u, TxType.Withdraw, a, amount, Pending, Supplied(meta)));
  }

  /** `lockForGame`: the store ends as `LockEffect` says, or unchanged with its error. */
  method LockForGame(db: Store, u: UserId, a: Asset, amount: real, gameId: RoomId) returns (r: Outcome)
    requires db.Valid()
    modifies db`books
    ensures db.Valid()
    ensures LockEffect(old(db.books), u, a, amount, gameId) == if r.Pass? then Ok(db.books) else Err(r.error)
    ensures r.Fail? ==> db.books == old(db.books)
  {
    r := AssertPositive(amount);
    if r.Fail? {
      return;
    }
    var wa := WalletAsset(db.books.wallets, u, a);
    if wa.Err? {
      return Fail(wa.error);
    }
    if wa.value.avail < amount {
      return Fail("Insufficient balance");
    }
    UpdateRow(db, u, a, -amount, amount);
    Log(db, Txn(u, Lock, a, amount, Completed, Game(gameId)));
  }

  /** `unlockFromGame`: the store ends as `UnlockEffect` says, or unchanged with its error. */
  method UnlockFromGame(db: Store, u: UserId, a: Asset, amount: real, gameId: RoomId) returns (r: Outcome)
    requires db.Valid()
    modifies db`books
    ensures db.Valid()
    ensures UnlockEffect(old(db.books), u, a, amount, gameId) == if r.Pass? then Ok(db.books) else Err(r.error)
    ensures r.Fail? ==> db.books == old(db.books)
  {
    if amount <= 0.0 {
      return Pass;
    }
    var wa := WalletAsset(db.books.wallets, u, a);
    if wa.Err? {
      return Fail(wa.error);
    }
    if wa.value.locked < amount {
      return Fail("Locked balance underflow");
    }
    UpdateRow(db, u, a, amount, -amount);
    Log(db, Txn(u, Unlock, a, amount, Completed, Game(gameId)));
    r := Pass;
  }

  /** `settleWinnerTakeAll`: the store ends as `SettleEffect` says and the
      report is its settlement, or the store is unchanged with its error. */
  method SettleWinnerTakeAll(db: Store, cfg: Config, gameId: RoomId, a: Asset, stake: real,
                             p1: UserId, p2: UserId, winner: Option<UserId>) returns (r: Result<Settlement>)
    requires db.Valid() && ValidConfig(cfg) && p1 != p2
    modifies db`books
    ensures db.Valid()
    ensures SettleEffect(old(db.books), db.referredBy, cfg, gameId, a, stake, p1, p2, winner)
      == if r.Ok? then Ok((db.books, r.value)) else Err(r.error)
    ensures r.Err? ==> db.books == old(db.books)
  {
    var fee := FeeOf(cfg, stake);
    var payout := PayoutOf(cfg, stake);
    var ok := AssertPositive(stake);
    if ok.Fail? {
      return Err(ok.error);
    }
    var wa1 := WalletAsset(db.books.wallets, p1, a);
    if wa1.Err? {
      return Err(wa1.error);
    }
    var wa2 := WalletAsset(db.books.wallets, p2, a);
    if wa2.Err? {
      return Err(wa2.error);
    }
    ghost var b0 := db.books;
    if IsDraw(winner) {
      if wa1.value.locked < stake || wa2.value.locked < stake {
        return Err("Locked stake missing");
      }
      ReleaseBoth(db, gameId, a, stake, p1, p2);
      r := Ok(Settlement(stake, 0.0, None));
      SettleDrawIs(b0, db.referredBy, cfg, gameId, a, stake, p1, p2, winner);
    } else {
      var win := winner.value;
      var winnerRow := if win == p1 then wa1.value else wa2.value;
      var loserRow := if win == p1 then wa2.value else wa1.value;
      if winnerRow.locked < stake || loserRow.locked < stake {
        return Err("Locked stake missing");
      }
      var s := SettleDecided(db, gameId, a, stake, p1, p2, win, fee, payout, ShareOf(cfg, fee));
      r := Ok(s);
      SettleDecisiveIs(b0, db.referredBy, cfg, gameId, a, stake, p1, p2, winner);
    }
    SettleNonNegative(b0, db.referredBy, cfg, gameId, a, stake, p1, p2, winner, db.books, r.value);
  }

  /** The writes of a draw: both stakes back to available, two UNLOCK entries. */
  method ReleaseBoth(db: Store, gameId: RoomId, a: Asset, stake: real, p1: UserId, p2: UserId)
    requires p1 != p2 && HasAsset(db.books.wallets, p1, a) && HasAsset(db.books.wallets, p2, a)
    modifies db`books
    ensures db.books == Books(Adjust(Adjust(old(db.books.wallets), p1, a, stake, -stake), p2, a, stake, -stake),
                              old(db.books.ledger) + [Txn(p1, Unlock, a, stake, Completed, DrawRefund(gameId)),
                                                      Txn(p2, Unlock, a, stake, Completed, DrawRefund(gameId))],
                              old(db.books.rewards))
  {
    UpdateRow(db, p1, a, stake, -stake);
    UpdateRow(db, p2, a, stake, -stake);
    LogMany(db, [Txn(p1, Unlock, a, stake, Completed, DrawRefund(gameId)),
                 Txn(p2, Unlock, a, stake, Completed, DrawRefund(gameId))]);
  }

  /** The writes and the report of a decided game: both stakes consumed, the
      winner's row paid, PAYOUT and FEE logged against the winner, then the
      referral loop. */
  method SettleDecided(db: Store, gameId: RoomId, a: Asset, stake: real, p1: UserId, p2: UserId, win: UserId,
                       fee: real, payout: real, share: real) returns (s: Settlement)
    requires p1 != p2 && HasAsset(db.books.wallets, p1, a) && HasAsset(db.books.wallets, p2, a)
    modifies db`books
    ensures (db.books, s) == Decide(old(db.books), db.referredBy, gameId, a, stake, p1, p2, win, fee, payout, share)
  {
    ghost var b0 := db.books;
    PayWinner(db, gameId, a, stake, p1, p2, win, fee, payout);
    ghost var b1 := db.books;
    var total := Referrals(db, gameId, a, share, p1, p2);
    s := Settlement(payout, fee, if total > 0.0 then Some(total) else None);
    DecideByParts(b0, b1, db.books, db.referredBy, gameId, a, stake, p1, p2, win, fee, payout, share, total);
  }

  /** Both stakes leave the locked balances, the winner's row is paid, and
      the payout and the fee are logged against the winner. */
  method PayWinner(db: Store, gameId: RoomId, a: Asset, stake: real, p1: UserId, p2: UserId, win: UserId,
                   fee: real, payout: real)
    requires p1 != p2 && HasAsset(db.books.wallets, p1, a) && HasAsset(db.books.wallets, p2, a)
    modifies db`books
    ensures db.books == Books(ConsumeStakes(old(db.books.wallets), p1, p2, win, a, stake, payout),
                              old(db.books.ledger) + [Txn(win, Payout, a, payout, Completed, Game(gameId)),
                                                      Txn(win, Fee, a, fee, Completed, Game(gameId))],
                              old(db.books.rewards))
  {
    var wr := WinnerRow(p1, p2, win);
    ghost var w0 := db.books.wallets;
    ConsumeStakesSteps(w0, p1, p2, win, a, stake, payout);
    TakeStakes(db, a, stake, wr, LoserRow(p1, p2, win));
    UpdateRow(db, wr, a, payout, 0.0);
    LogMany(db, [Txn(win, Payout, a, payout, Completed, Game(gameId)),
                 Txn(win, Fee, a, fee, Completed, Game(gameId))]);
  }

  /** The two `balanceLocked` decrements of a decided game, the winner's row first. */
  method TakeStakes(db: Store, a: Asset, stake: real, wr: UserId, lr: UserId)
    requires HasAsset(db.books.wallets, wr, a) && HasAsset(db.books.wallets, lr, a)
    modifies db`books
    ensures HasAsset(db.books.wallets, wr, a)
    ensures db.books.wallets == Adjust(Adjust(old(db.books.wallets), wr, a, 0.0, -stake), lr, a, 0.0, -stake)
    ensures db.books.ledger == old(db.books.ledger) && db.books.rewards == old(db.books.rewards)
  {
    UpdateRow(db, wr, a, 0.0, -stake);
    UpdateRow(db, lr, a, 0.0, -stake);
  }

  /** The referral loop of `settleWinnerTakeAll`: for each of the two players
      with a referrer who holds a row of the asset, credit the referrer the
      share, log it and record it; the result is the sum credited. */
  method Referrals(db: Store, gameId: RoomId, a: Asset, share: real, p1: UserId, p2: UserId) returns (total: real)
    modifies db`books
    ensures var e := Earners(old(db.books.wallets), db.referredBy, [p1, p2], a, share);
      && CanCredit(old(db.books.wallets), e, a)
      && db.books == Books(CreditAll(old(db.books.wallets), e, a, share),
                           old(db.books.ledger) + RewardTxns(e, a, share, gameId),
                           old(db.books.rewards) + RewardRecords(e, a, share, gameId))
      && total == RewardTotal(e, share)
  {
    ghost var b0 := db.books;
    var participants := [p1, p2];
    ghost var e: seq<(UserId, UserId)> := [];
    total := 0.0;
    for k := 0 to |participants|
      invariant e == Earners(b0.wallets, db.referredBy, participants[..k], a, share)
      invariant Credited(b0, db.books, e, a, share, gameId)
      invariant total == RewardTotal(e, share)
    {
      var u := participants[k];
      EarnersStep(b0.wallets, db.referredBy, participants, k, a, share);
      ghost var b := db.books;
      var paid := PayReferral(db, gameId, a, share, u);
      if paid {
        CreditedStep(b0, b, e, (db.referredBy[u], u), a, share, gameId);
        total := total + share;
        e := e + [(db.referredBy[u], u)];
      }
    }
    assert participants[..2] == [p1, p2];
  }

  /** One more participant adds its referrer's reward, if it earns one. */
  lemma EarnersStep(w: Wallets, refs: map<UserId, UserId>, ps: seq<UserId>, k: nat, a: Asset, share: real)
    requires k < |ps|
    ensures Earners(w, refs, ps[..k + 1], a, share) == Earners(w, refs, ps[..k], a, share) +
      (if share > 0.0 && ps[k] in refs && HasAsset(w, refs[ps[k]], a) then [(refs[ps[k]], ps[k])] else [])
  {
    assert ps[..k + 1][..k] == ps[..k];
  }

  /** One pass of the referral loop: a positive share is paid to the
      participant's referrer when the referrer holds a row of the asset,
      logged as a completed REFERRAL_REWARD from the participant and recorded. */
  method PayReferral(db: Store, gameId: RoomId, a: Asset, share: real, u: UserId) returns (paid: bool)
    modifies db`books
    ensures paid <==> share > 0.0 && u in db.referredBy && HasAsset(old(db.books.wallets), db.referredBy[u], a)
    ensures !paid ==> db.books == old(db.books)
    ensures paid ==> db.books == Books(
      Adjust(old(db.books.wallets), db.referredBy[u], a, share, 0.0),
      old(db.books.ledger) + [Txn(db.referredBy[u], ReferralReward, a, share, Completed, Referral(gameId, u))],
      old(db.books.rewards) + [Reward(db.referredBy[u], u, share, a, gameId)])
  {
    if share <= 0.0 || u !in db.referredBy {
      return false;
    }
    var referrer := db.referredBy[u];
    var wa := WalletAsset(db.books.wallets, referrer, a);
    if wa.Err? {
      return false;
    }
    UpdateRow(db, referrer, a, share, 0.0);
    Log(db, Txn(referrer, ReferralReward, a, share, Completed, Referral(gameId, u)));
    Record(db, Reward(referrer, u, share, a, gameId));
    return true;
  }

  /** `b` is `b0` with the rewards `e` paid, logged and recorded. */
  predicate Credited(b0: Books, b: Books, e: seq<(UserId, UserId)>, a: Asset, share: real, gameId: RoomId) {
    && CanCredit(b0.wallets, e, a)
    && b == Books(CreditAll(b0.wallets, e, a, share),
                  b0.ledger + RewardTxns(e, a, share, gameId),
                  b0.rewards + RewardRecords(e, a, share, gameId))
  }

  /** Paying, logging and recording one more reward to a row of the asset. */
  lemma CreditedStep(b0: Books, b: Books, e: seq<(UserId, UserId)>, x: (UserId, UserId), a: Asset, share: real, gameId: RoomId)
    requires Credited(b0, b, e, a, share, gameId) && HasAsset(b.wallets, x.0, a)
    ensures HasAsset(b0.wallets, x.0, a)
    ensures RewardTotal(e + [x], share) == RewardTotal(e, share) + share
    ensures Credited(b0, Books(Adjust(b.wallets, x.0, a, share, 0.0),
                               b.ledger + [Txn(x.0, ReferralReward, a, share, Completed, Referral(gameId, x.1))],
                               b.rewards + [Reward(x.0, x.1, share, a, gameId)]),
                     e + [x], a, share, gameId)
  {
    RewardStep(b0.wallets, e, x, a, share, gameId);
  }

  /** One more reward is one more credit, one more ledger entry and one more record. */
  lemma RewardStep(w: Wallets, e: seq<(UserId, UserId)>, x: (UserId, UserId), a: Asset, share: real, gameId: RoomId)
    requires CanCredit(w, e, a) && HasAsset(w, x.0, a)
    ensures CanCredit(w, e + [x], a)
    ensures HasAsset(CreditAll(w, e, a, share), x.0, a)
    ensures CreditAll(w, e + [x], a, share) == Adjust(CreditAll(w, e, a, share), x.0, a, share, 0.0)
    ensures RewardTxns(e + [x], a, share, gameId)
      == RewardTxns(e, a, share, gameId) + [Txn(x.0, ReferralReward, a, share, Completed, Referral(gameId, x.1))]
    ensures RewardRecords(e + [x], a, share, gameId) == RewardRecords(e, a, share, gameId) + [Reward(x.0, x.1, share, a, gameId)]
    ensures RewardTotal(e + [x], share) == RewardTotal(e, share) + share
  {
    assert (e + [x])[..|e|] == e;
  }

  /** A draw whose stakes are both locked settles by releasing them. */
  lemma SettleDrawIs(b: Books, refs: map<UserId, UserId>, cfg: Config, gameId: RoomId, a: Asset,
                     stake: real, p1: UserId, p2: UserId, winner: Option<UserId>)
    requires stake > 0.0 && IsDraw(winner) && HasAsset(b.wallets, p1, a) && HasAsset(b.wallets, p2, a)
    requires b.wallets[p1][a].locked >= stake && b.wallets[p2][a].locked >= stake
    ensures SettleEffect(b, refs, cfg, gameId, a, stake, p1, p2, winner)
      == Ok((Books(Adjust(Adjust(b.wallets, p1, a, stake, -stake), p2, a, stake, -stake),
                   b.ledger + [Txn(p1, Unlock, a, stake, Completed, DrawRefund(gameId)),
                               Txn(p2, Unlock, a, stake, Completed, DrawRefund(gameId))],
                   b.rewards),
             Settlement(stake, 0.0, None)))
  {
  }

  /** A decided game whose stakes are both locked settles as `Decide` says. */
  lemma SettleDecisiveIs(b: Books, refs: map<UserId, UserId>, cfg: Config, gameId: RoomId, a: Asset,
                         stake: real, p1: UserId, p2: UserId, winner: Option<UserId>)
    requires stake > 0.0 && !IsDraw(winner) && HasAsset(b.wallets, p1, a) && HasAsset(b.wallets, p2, a)
    requires b.wallets[WinnerRow(p1, p2, winner.value)][a].locked >= stake
    requires b.wallets[LoserRow(p1, p2, winner.value)][a].locked >= stake
    ensures SettleEffect(b, refs, cfg, gameId, a, stake, p1, p2, winner)
      == Ok(Decide(b, refs, gameId, a, stake, p1, p2, winner.value, FeeOf(cfg, stake), PayoutOf(cfg, stake),
                   ShareOf(cfg, FeeOf(cfg, stake))))
  {
  }

  /** `Decide` is the two steps the service takes: consume the stakes and pay
      the winner, then pay the referral rewards, computed from the rows after
      the first step. */
  lemma DecideByParts(b0: Books, b1: Books, b2: Books, refs: map<UserId, UserId>, gameId: RoomId, a: Asset,
                      stake: real, p1: UserId, p2: UserId, win: UserId, fee: real, payout: real, share: real, total: real)
    requires HasAsset(b0.wallets, p1, a) && HasAsset(b0.wallets, p2, a)
    requires b1 == Books(ConsumeStakes(b0.wallets, p1, p2, win, a, stake, payout),
                         b0.ledger + [Txn(win, Payout, a, payout, Completed, Game(gameId)),
                                      Txn(win, Fee, a, fee, Completed, Game(gameId))],
                         b0.rewards)
    requires var e := Earners(b1.wallets, refs, [p1, p2], a, share);
      && CanCredit(b1.wallets, e, a)
      && b2 == Books(CreditAll(b1.wallets, e, a, share),
                     b1.ledger + RewardTxns(e, a, share, gameId),
                     b1.rewards + RewardRecords(e, a, share, gameId))
      && total == RewardTotal(e, share)
    ensures Decide(b0, refs, gameId, a, stake, p1, p2, win, fee, payout, share)
      == (b2, Settlement(payout, fee, if total > 0.0 then Some(total) else None))
  {
    EarnersSameShape(b0.wallets, b1.wallets, refs, [p1, p2], a, share);
  }
}
