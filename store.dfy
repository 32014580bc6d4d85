/**
 * The database as the business layer sees it: collections of payment and user records with
 * insert, update, read-all and lookup by Uid. What the underlying document store does with a
 * write is its own affair, so the outcome of Insert and Update is chosen by the store: an
 * insert that reports an id above zero has appended the record, an update that reports
 * success has replaced the records with the same id, and a failed write changes nothing.
 */
module Store {
  import opened Wrappers
  import opened Models
  import opened Linq

  /** The users with `dto`'s id replaced by `dto`. */
  function Replaced(users: seq<UserDto>, dto: UserDto): (r: seq<UserDto>)
    ensures |r| == |users|
    ensures forall i | 0 <= i < |users| :: r[i] == if users[i].id == dto.id then dto else users[i]
  {
    seq(|users|, i requires 0 <= i < |users| => if users[i].id == dto.id then dto else users[i])
  }

  class DatabaseContext {
    var payments: seq<PaymentRecord>
    var users: seq<UserDto>

    constructor(payments: seq<PaymentRecord>, users: seq<UserDto>)
      ensures this.payments == payments && this.users == users
    {
      this.payments := payments;
      this.users := users;
    }

    /** `Insert<PaymentDto>`: the id the store reports, the record appended when it is above zero. */
    method InsertPayment(payment: PaymentRecord) returns (id: int)
      modifies this
      ensures id > 0 ==> payments == old(payments) + [payment]
      ensures id <= 0 ==> payments == old(payments)
      ensures users == old(users)
    {
      id :| true;
      if id > 0 {
        payments := payments + [payment];
      }
    }

    /** `Insert<UserDto>`. */
    method InsertUser(user: UserDto) returns (id: int)
      modifies this
      ensures id > 0 ==> users == old(users) + [user]
      ensures id <= 0 ==> users == old(users)
      ensures payments == old(payments)
    {
      id :| true;
      if id > 0 {
        users := users + [user];
      }
    }

    /** `Update<UserDto>`: whether the store reports the update, which then replaces the records with the same id. */
    method UpdateUser(user: UserDto) returns (updated: bool)
      modifies this
      ensures updated ==> users == Replaced(old(users), user)
      ensures !updated ==> users == old(users)
      ensures payments == old(payments)
    {
      updated :| true;
      if updated {
        users := Replaced(users, user);
      }
    }

    /** `GetByUid<PaymentDto>`: the first payment whose Uid equals `uid`. */
    function GetPaymentByUid(uid: Option<string>): (r: Option<PaymentRecord>)
      reads this
      ensures r.None? <==> forall i | 0 <= i < |payments| :: payments[i].uid != uid
      ensures r.Some? ==> r.value in payments && r.value.uid == uid
    {
      FirstOrDefault(payments, (p: PaymentRecord) => p.uid == uid)
    }

    /** `GetByUid<UserDto>`: the first user whose Uid equals `uid`. */
    function GetUserByUid(uid: Option<string>): (r: Option<UserDto>)
      reads this
      ensures r.None? <==> forall i | 0 <= i < |users| :: users[i].uid != uid
      ensures r.Some? ==> r.value in users && r.value.uid == uid
    {
      FirstOrDefault(users, (u: UserDto) => u.uid == uid)
    }
  }

  /** A lookup after a successful insert finds the earlier record with that Uid if there is one, else the new one. */
  lemma InsertThenFind(payments: seq<PaymentRecord>, p: PaymentRecord)
    ensures var f := (q: PaymentRecord) => q.uid == p.uid;
            && FirstOrDefault(payments + [p], f).Some?
            && (FirstOrDefault(payments, f).None? ==> FirstOrDefault(payments + [p], f) == Some(p))
            && (FirstOrDefault(payments, f).Some? ==> FirstOrDefault(payments + [p], f) == FirstOrDefault(payments, f))
  {
    var f := (q: PaymentRecord) => q.uid == p.uid;
    FirstOrDefaultAppend(payments, p, f);
  }
}
