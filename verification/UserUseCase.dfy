/** Registration and balance setters as the source runs them (user.go), each proved to end in the
    tables its specification gives. */
module UserUseCases {
  import opened Arith
  import opened Tables
  import opened Text
  import opened Database
  import opened Runs
  import opened RecordUseCases
  import U = UseCases

  class UserUseCase {
    const db: Database
    const genesis: string

    constructor (db: Database, genesis: string)
      ensures this.db == db && this.genesis == genesis
    {
      this.db, this.genesis := db, genesis;
    }

    /** Login and EthAuthorize once the signature is accepted.  A path row that cannot be read or
        written goes unnoticed. */
    method Authorize(address: string, invite: string, io: U.PathIo) returns (failure: Option<U.Error>)
      modifies db
      ensures db.Snapshot() == U.Register(old(db.Snapshot()), genesis, address, invite, io).Or(old(db.Snapshot()))
      ensures failure == ErrorOf(U.Register(old(db.Snapshot()), genesis, address, invite, io))
    {
      hide U.FindByAddress, Numeral;
      var found := db.FindByAddress(address);
      if found.Some? {
        var user := db.FindUser(found.value);
        if user.Some? && user.value.disabled {
          return Some(U.UserDisabled);
        }
        return None;
      }
      var inviterId: Option<nat> := None;
      if address != genesis {
        if invite == "" {
          return Some(U.InviteRequired);
        }
        if invite == address {
          return Some(U.InviteInvalid);
        }
        inviterId := db.FindByAddress(invite);
        if inviterId.None? {
          return Some(U.InviteInvalid);
        }
      }
      var id := db.CreateUser(address, inviterId, io.gap);
      var path := Numeral(id);
      if inviterId.Some? {
        var parentPath := if io.read then db.GetPath(inviterId.value) else "";
        if parentPath != "" {
          path := parentPath + "," + path;
        }
      }
      db.SavePath(id, path, io.saved);
      return None;
    }

    /** Deposit: admin recharge. */
    method Deposit(address: string, amount: int) returns (failure: Option<U.Error>)
      modifies db
      ensures db.Snapshot() == U.AdminDeposit(old(db.Snapshot()), address, amount).Or(old(db.Snapshot()))
      ensures failure == ErrorOf(U.AdminDeposit(old(db.Snapshot()), address, amount))
    {
      hide U.FindByAddress;
      if amount <= 0 {
        return Some(U.InvalidAmount);
      }
      var user := db.FindByAddress(address);
      if user.None? {
        return Some(U.UserNotFound);
      }
      FoundAddress(db.ids, db.users, address);
      var _ := db.AddAccountBalance(user.value, amount);
      db.WriteLedger(user.value, Kind.Deposit, amount);
      return None;
    }

    /** SetWithdrawable through setBalanceAbsolute: the difference goes to the ledger. */
    method SetWithdrawable(address: string, amount: int) returns (failure: Option<U.Error>)
      modifies db
      ensures db.Snapshot() == U.SetWithdrawable(old(db.Snapshot()), address, amount).Or(old(db.Snapshot()))
      ensures failure == ErrorOf(U.SetWithdrawable(old(db.Snapshot()), address, amount))
    {
      hide U.FindByAddress;
      if amount < 0 {
        return Some(U.InvalidAmount);
      }
      var found := db.FindByAddress(address);
      if found.None? {
        return Some(U.UserNotFound);
      }
      var user := db.FindUser(found.value);
      if user.None? {
        return None;
      }
      var before := user.value.withdrawable;
      if before == amount {
        return None;
      }
      db.UpdateUser(found.value, user.value.(withdrawable := amount));
      db.WriteLedger(found.value, AdminAdjust, amount - before);
      return None;
    }

    /** SetAccountBalance through setBalanceAbsolute: the difference is booked as a deposit. */
    method SetAccountBalance(address: string, amount: int) returns (failure: Option<U.Error>)
      modifies db
      ensures db.Snapshot() == U.SetAccount(old(db.Snapshot()), address, amount).Or(old(db.Snapshot()))
      ensures failure == ErrorOf(U.SetAccount(old(db.Snapshot()), address, amount))
    {
      hide U.FindByAddress;
      if amount < 0 {
        return Some(U.InvalidAmount);
      }
      var found := db.FindByAddress(address);
      if found.None? {
        return Some(U.UserNotFound);
      }
      var user := db.FindUser(found.value);
      if user.None? {
        return None;
      }
      var before := user.value.account;
      if before == amount {
        return None;
      }
      db.UpdateUser(found.value, user.value.(account := amount));
      db.WriteLedger(found.value, Kind.Deposit, amount - before);
      return None;
    }
  }
}
