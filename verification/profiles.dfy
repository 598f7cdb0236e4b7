/** The credit columns of the `profiles` table: reading the balance,
    deducting from it and adding to it. Each database call may raise; a
    `failAt` parameter names the first call that does. */
module Profiles {
  import opened Wrappers

  /** The `credits` and `credits_used` columns of one profile row; both
      are nullable. */
  datatype CreditColumns = CreditColumns(credits: Option<int>, creditsUsed: Option<int>)

  /** What `increment_user_credit` returns when it does not raise: `False`
      for a negative amount, otherwise the re-read balance. */
  datatype IncrementReply = Refused | NewBalance(balance: Option<int>)

  class ProfileRepository {
    /** The profile rows, by id. */
    var rows: map<string, CreditColumns>

    constructor(rows: map<string, CreditColumns>)
      ensures this.rows == rows
    {
      this.rows := rows;
    }

    /** No stored balance is negative. */
    predicate NoNegativeBalance()
      reads this
    {
      forall id :: id in rows && rows[id].credits.Some? ==> rows[id].credits.value >= 0
    }

    /** `get_user_credit`: the stored balance; None when there is no row,
        when its `credits` is null, or when the select raises (`readOk`
        false). */
    function GetUserCredit(userId: string, readOk: bool): (r: Option<int>)
      reads this
      ensures r.Some? <==> readOk && userId in rows && rows[userId].credits.Some?
      ensures r.Some? ==> r.value == rows[userId].credits.value
    {
      if readOk && userId in rows then rows[userId].credits else None
    }

    /** `deduct_credits`. Database calls: 0 the balance read, 1 the
        `credits` write, 2 the `credits_used` write. */
    method DeductCredits(userId: string, amount: int, failAt: nat) returns (ok: bool)
      modifies this
      ensures ok <==> (amount >= 0 && failAt > 2 &&
        old(GetUserCredit(userId, true)).Some? && old(GetUserCredit(userId, true)).value >= amount)
      ensures ok ==> rows == old(rows)[userId := CreditColumns(Some(old(rows[userId].credits.value) - amount), Some(amount))]
      ensures (!ok && failAt == 2 && amount >= 0 && old(GetUserCredit(userId, true)).Some? &&
        old(GetUserCredit(userId, true)).value >= amount) ==>
        rows == old(rows)[userId := old(rows[userId]).(credits := Some(old(rows[userId].credits.value) - amount))]
      ensures (!ok && (failAt < 2 || amount < 0 || old(GetUserCredit(userId, true)).None? ||
        old(GetUserCredit(userId, true)).value < amount)) ==> rows == old(rows)
      ensures old(NoNegativeBalance()) ==> NoNegativeBalance()
    {
      if amount < 0 {
        return false;
      }
      var current := GetUserCredit(userId, failAt != 0);
      if current.None? || current.value < amount {
        return false;
      }
      var newCredits := current.value - amount;
      if failAt == 1 {
        return false;
      }
      rows := rows[userId := rows[userId].(credits := Some(newCredits))];
      if failAt == 2 {
        return false;
      }
      rows := rows[userId := rows[userId].(creditsUsed := Some(amount))];
      ok := true;
    }

    /** `increment_user_credit`. Database calls: 0 the balance read, 1 the
        write, 2 the re-read. A missing balance makes `None + amount`
        raise, and every exception is re-raised. */
    method IncrementUserCredit(userId: string, additional: int, failAt: nat) returns (r: Result<IncrementReply>)
      modifies this
      ensures additional < 0 ==> r == Ok(Refused) && rows == old(rows)
      ensures additional >= 0 && old(GetUserCredit(userId, failAt != 0)).None? ==>
        r == Err(TypeError) && rows == old(rows)
      ensures additional >= 0 && old(GetUserCredit(userId, failAt != 0)).Some? && failAt == 1 ==>
        r == Err(TransportError) && rows == old(rows)
      ensures additional >= 0 && old(GetUserCredit(userId, failAt != 0)).Some? && failAt != 1 ==>
        (rows == old(rows)[userId := old(rows[userId]).(credits := Some(old(rows[userId].credits.value) + additional))] &&
         r == Ok(NewBalance(GetUserCredit(userId, failAt != 2))))
      ensures additional >= 0 && old(NoNegativeBalance()) ==> NoNegativeBalance()
    {
      if additional < 0 {
        return Ok(Refused);
      }
      var current := GetUserCredit(userId, failAt != 0);
      if current.None? {
        return Err(TypeError);
      }
      var newTotal := current.value + additional;
      if failAt == 1 {
        return Err(TransportError);
      }
      rows := rows[userId := rows[userId].(credits := Some(newTotal))];
      r := Ok(NewBalance(GetUserCredit(userId, failAt != 2)));
    }
  }
}
