// The balance tables and the guarded moves between available and locked funds
// (db/queries/balance.go).

module Ledger {
  import opened Models
  import opened Sums

  // Cash(u) is the pair (USD_balance, locked_balance) of u's row in users;
  // Holding(u, a) is the row of balances for u and asset a.
  datatype Slot = Cash(user: UserId) | Holding(owner: UserId, asset: Asset)

  datatype Account = Account(available: real, locked: real)

  datatype Funds = Funds(assets: set<Asset>, rows: map<Slot, Account>)

  // What is added up when the money of one asset is counted: all users' dollars,
  // or all balance rows of one asset.
  datatype Column = CashColumn | HoldingColumn(of: Asset)

  predicate InColumn(c: Column, k: Slot) {
    match c
    case CashColumn => k.Cash?
    case HoldingColumn(a) => k.Holding? && k.asset == a
  }

  ghost function ColumnTerm(c: Column): (Slot, Account) -> real {
    (k: Slot, a: Account) => if InColumn(c, k) then a.available + a.locked else 0.0
  }

  ghost function Held(f: Funds, c: Column): real { Sum(f.rows, ColumnTerm(c)) }

  function AccountAt(f: Funds, k: Slot): Account {
    if k in f.rows then f.rows[k] else Account(0.0, 0.0)
  }

  function LockedAt(f: Funds, k: Slot): real { AccountAt(f, k).locked }

  function SlotFor(u: UserId, a: Asset): Slot {
    if a == USD then Cash(u) else Holding(u, a)
  }

  // The CHECK and REFERENCES constraints of users and balances.
  ghost predicate Sound(f: Funds) {
    && (forall k :: k in f.rows ==> f.rows[k].available >= 0.0 && f.rows[k].locked >= 0.0)
    && (forall u, a :: Holding(u, a) in f.rows ==> Cash(u) in f.rows && a in f.assets)
  }

  // One row changed by the given amounts; a missing row counts as (0, 0).
  function Post(f: Funds, k: Slot, available: real, locked: real): Funds {
    f.(rows := f.rows[k := Account(AccountAt(f, k).available + available, AccountAt(f, k).locked + locked)])
  }

  // The Tx functions, as functions of the tables.

  function LockBalance(f: Funds, u: UserId, a: Asset, amount: real): Result<Funds> {
    var k := SlotFor(u, a);
    if k !in f.rows || f.rows[k].available < amount then Err(NoRows)
    else if f.rows[k].locked + amount < 0.0 then Err(CheckViolation)
    else Ok(Post(f, k, -amount, amount))
  }

  function Unlock(f: Funds, k: Slot, amount: real): Result<Funds> {
    if amount <= 0.0 then Ok(f)
    else if k !in f.rows || f.rows[k].locked < amount then Err(NoRows)
    else Ok(Post(f, k, amount, -amount))
  }

  function Debit(f: Funds, k: Slot, amount: real): Result<Funds> {
    if amount <= 0.0 then Ok(f)
    else if k !in f.rows || f.rows[k].locked < amount then Err(NoRows)
    else Ok(Post(f, k, 0.0, -amount))
  }

  // INSERT .. ON CONFLICT DO UPDATE: creates the row, subject to the foreign keys.
  function CreditBalance(f: Funds, u: UserId, a: Asset, amount: real): Result<Funds> {
    if amount <= 0.0 then Ok(f)
    else if Cash(u) !in f.rows || a !in f.assets then Err(ForeignKey)
    else Ok(Post(f, Holding(u, a), amount, 0.0))
  }

  // UPDATE of a missing user touches no row and is not an error.
  function CreditUSD(f: Funds, u: UserId, amount: real): Funds {
    if amount <= 0.0 || Cash(u) !in f.rows then f
    else Post(f, Cash(u), amount, 0.0)
  }

  // A post moves the column of its slot by the sum of its amounts, and no other column.
  lemma PostHeld(f: Funds, k: Slot, available: real, locked: real, c: Column)
    ensures Held(Post(f, k, available, locked), c)
         == Held(f, c) + if InColumn(c, k) then available + locked else 0.0
  {
    SumUpdate(f.rows, k, Post(f, k, available, locked).rows[k], ColumnTerm(c));
  }

  // What a statement leaves in place besides its own posts.
  ghost predicate Kept(f: Funds, g: Funds) {
    Sound(g) && g.assets == f.assets && f.rows.Keys <= g.rows.Keys
  }

  function Share(c: Column, k: Slot, amount: real): real { if InColumn(c, k) then amount else 0.0 }

  // Locking and unlocking move money between the two halves of one row: whatever
  // the amount, nothing is created and the constraints survive.
  lemma LockConserves(f: Funds, u: UserId, a: Asset, amount: real, c: Column)
    requires Sound(f) && LockBalance(f, u, a, amount).Ok?
    ensures var g := LockBalance(f, u, a, amount).value; Kept(f, g) && Held(g, c) == Held(f, c)
  {
    PostHeld(f, SlotFor(u, a), -amount, amount, c);
  }

  lemma UnlockConserves(f: Funds, k: Slot, amount: real, c: Column)
    requires Sound(f) && Unlock(f, k, amount).Ok?
    ensures var g := Unlock(f, k, amount).value; Kept(f, g) && Held(g, c) == Held(f, c)
  {
    PostHeld(f, k, amount, -amount, c);
  }

  // Debits and credits change their column by exactly the amount.
  lemma DebitHeld(f: Funds, k: Slot, amount: real, c: Column)
    requires Sound(f) && amount >= 0.0 && Debit(f, k, amount).Ok?
    ensures var g := Debit(f, k, amount).value; Kept(f, g) && Held(g, c) == Held(f, c) - Share(c, k, amount)
  {
    PostHeld(f, k, 0.0, -amount, c);
  }

  lemma CreditHeld(f: Funds, u: UserId, a: Asset, amount: real, c: Column)
    requires Sound(f) && amount >= 0.0 && CreditBalance(f, u, a, amount).Ok?
    ensures var g := CreditBalance(f, u, a, amount).value;
      Kept(f, g) && Held(g, c) == Held(f, c) + Share(c, Holding(u, a), amount)
  {
    PostHeld(f, Holding(u, a), amount, 0.0, c);
  }

  lemma CreditUSDHeld(f: Funds, u: UserId, amount: real, c: Column)
    requires Sound(f) && amount >= 0.0 && Cash(u) in f.rows
    ensures var g := CreditUSD(f, u, amount); Kept(f, g) && Held(g, c) == Held(f, c) + Share(c, Cash(u), amount)
  {
    PostHeld(f, Cash(u), amount, 0.0, c);
  }

  // A lock that succeeded is undone exactly by unlocking the same amount.
  lemma UnlockUndoesLock(f: Funds, u: UserId, a: Asset, amount: real)
    requires Sound(f) && amount > 0.0 && LockBalance(f, u, a, amount).Ok?
    ensures Unlock(LockBalance(f, u, a, amount).value, SlotFor(u, a), amount) == Ok(f)
  {
    var k := SlotFor(u, a);
    assert Post(Post(f, k, -amount, amount), k, amount, -amount).rows == f.rows;
  }

  class Balances {
    const assets: set<Asset>
    var rows: map<Slot, Account>

    function Contents(): Funds
      reads this
    {
      Funds(assets, rows)
    }

    constructor (assets: set<Asset>, rows: map<Slot, Account>)
      ensures Contents() == Funds(assets, rows)
    {
      this.assets := assets;
      this.rows := rows;
    }

    // A statement either did what the specification says or changed nothing.
    twostate predicate Did(spec: Result<Funds>, r: Outcome)
      reads this
    {
      match spec
      case Ok(g) => r == Pass && Contents() == g
      case Err(e) => r == Fail(e) && Contents() == old(Contents())
    }

    method LockBalanceTx(userId: UserId, asset: Asset, amount: real) returns (r: Outcome)
      modifies this
      ensures Did(old(LockBalance(Contents(), userId, asset, amount)), r)
    {
      var k := SlotFor(userId, asset);
      if k !in rows { return Fail(NoRows); }
      var row := rows[k];
      if row.available < amount { return Fail(NoRows); }
      if row.locked + amount < 0.0 { return Fail(CheckViolation); }
      rows := rows[k := Account(row.available - amount, row.locked + amount)];
      r := Pass;
    }

    method UnlockTx(k: Slot, amount: real) returns (r: Outcome)
      modifies this
      ensures Did(old(Unlock(Contents(), k, amount)), r)
    {
      if amount <= 0.0 { return Pass; }
      if k !in rows { return Fail(NoRows); }
      var row := rows[k];
      if row.locked < amount { return Fail(NoRows); }
      rows := rows[k := Account(row.available + amount, row.locked - amount)];
      r := Pass;
    }

    method DebitTx(k: Slot, amount: real) returns (r: Outcome)
      modifies this
      ensures Did(old(Debit(Contents(), k, amount)), r)
    {
      if amount <= 0.0 { return Pass; }
      if k !in rows { return Fail(NoRows); }
      var row := rows[k];
      if row.locked < amount { return Fail(NoRows); }
      rows := rows[k := Account(row.available, row.locked - amount)];
      r := Pass;
    }

    method CreditBalanceTx(userId: UserId, asset: Asset, amount: real) returns (r: Outcome)
      modifies this
      ensures Did(old(CreditBalance(Contents(), userId, asset, amount)), r)
    {
      if amount <= 0.0 { return Pass; }
      if Cash(userId) !in rows || asset !in assets { return Fail(ForeignKey); }
      var k := Holding(userId, asset);
      if k in rows {
        rows := rows[k := Account(rows[k].available + amount, rows[k].locked)];
      } else {
        rows := rows[k := Account(amount, 0.0)];
      }
      r := Pass;
    }

    method CreditUSDTx(userId: UserId, amount: real)
      modifies this
      ensures Contents() == old(CreditUSD(Contents(), userId, amount))
    {
      if amount <= 0.0 { return; }
      var k := Cash(userId);
      if k in rows {
        rows := rows[k := Account(rows[k].available + amount, rows[k].locked)];
      }
    }
  }
}
