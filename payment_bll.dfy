/**
 * The payment business layer: a payment is first sent to the bank; only when the bank answers
 * OK does the payment take the Uid the bank returned, become Completed and get stored.
 */
module PaymentDomain {
  import opened Wrappers
  import opened Enums
  import opened Configuration
  import opened Models
  import opened Store
  import opened HttpClients

  class PaymentBLL {
    const db: DatabaseContext
    const httpClient: HttpClientWrapper
    const bankUri: Option<string>

    /** The bank's address is read from the configuration table, whose indexer throws on a missing key. */
    constructor(db: DatabaseContext, httpClient: HttpClientWrapper, config: PGConfiguration)
      requires "ExternalBankUri" in config.keyValues
      ensures this.db == db && this.httpClient == httpClient
      ensures bankUri == config.keyValues["ExternalBankUri"]
    {
      this.db := db;
      this.httpClient := httpClient;
      var uri := config.TryGetValue("ExternalBankUri");
      bankUri := uri;
    }

    /**
     * CreatePaymentAsync: one request to the bank, whose body is an empty user model. On any
     * reply but OK the payment and the store are untouched and the answer is false. On OK the
     * payment takes the reply's content as Uid and the Completed state, and is then inserted;
     * the answer is whether the insert reported an id above zero.
     */
    method CreatePaymentAsync(payment: PaymentDto, reply: Response) returns (ok: bool)
      modifies payment, db, httpClient
      ensures httpClient.requests == old(httpClient.requests) + [Request(bankUri, EmptyUserModel)]
      ensures db.users == old(db.users)
      ensures reply.statusCode != OkStatus ==>
                !ok && payment.Value() == old(payment.Value()) && db.payments == old(db.payments)
      ensures reply.statusCode == OkStatus ==>
                && payment.Value() == old(payment.Value()).(uid := Some(reply.content), state := Completed)
                && (ok ==> db.payments == old(db.payments) + [payment.Value()])
                && (!ok ==> db.payments == old(db.payments))
      ensures ok ==> reply.statusCode == OkStatus && GetPaymentByUid(Some(reply.content)).Some?
    {
      var bankResponse := httpClient.PostAsync(bankUri, EmptyUserModel, reply);
      if bankResponse.statusCode == OkStatus {
        var result := bankResponse.content;
        payment.uid := Some(result);
        payment.state := Completed;
        var id := db.InsertPayment(payment.Value());
        var res := id > 0;
        if !res {
          return false;
        }
        assert db.payments[|db.payments| - 1].uid == Some(result);
      } else {
        return false;
      }
      return true;
    }

    /** GetPaymentByUid: the store's answer. */
    function GetPaymentByUid(uid: Option<string>): (r: Option<PaymentRecord>)
      reads this, db
      ensures r.None? <==> forall i | 0 <= i < |db.payments| :: db.payments[i].uid != uid
      ensures r.Some? ==> r.value in db.payments && r.value.uid == uid
    {
      db.GetPaymentByUid(uid)
    }

    /** GetAllPayments: every stored payment, in store order. */
    function GetAllPayments(): (r: seq<PaymentRecord>)
      reads this, db
      ensures r == db.payments
    {
      db.payments
    }
  }
}
