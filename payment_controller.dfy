/**
 * The payment endpoints. Creating a payment validates it, builds a new record, hands it to
 * the business layer and answers with the masked payment; the reads answer with masked
 * payments from the store. Each endpoint declares the permissions the filter checks first.
 */
module PaymentControllers {
  import opened Wrappers
  import opened Enums
  import opened ValidationResults
  import opened Permissions
  import opened Models
  import opened HttpClients
  import opened PaymentValidation
  import opened PaymentDomain
  import PaymentModelTransformer
  import opened Web

  /** `[RequireApiPermission(Payment_View, Payment_Create)]` on the create endpoint. */
  const CreatePermissions := [PaymentView, PaymentCreate]
  /** `[RequireApiPermission(Payment_View)]` on both reads. */
  const ReadPermissions := [PaymentView]

  /** The record made from a valid model at local time `now`: no Uid yet, state New. */
  function NewRecord(model: PaymentModel, now: Ticks): PaymentRecord {
    PaymentRecord(
      id := 0,
      uid := None,
      cardHolderName := model.cardHolderName,
      cardNumber := model.cardNumber,
      expiryDate := model.expiryDate,
      amount := model.amount,
      currency := model.currency,
      cvv := model.cvv,
      paymentDate := now,
      state := New)
  }

  /** The masked payment a client gets back for a stored record. */
  function Masked(r: PaymentRecord): PaymentModel {
    PaymentModelTransformer.ToModel(Some(r)).value
  }

  class PaymentController {
    const paymentBLL: PaymentBLL
    const validator: PaymentModelValidationProvider

    constructor(paymentBLL: PaymentBLL, validator: PaymentModelValidationProvider)
      ensures this.paymentBLL == paymentBLL && this.validator == validator
    {
      this.paymentBLL := paymentBLL;
      this.validator := validator;
    }

    /**
     * CreatePaymentAsync. An invalid model is answered with its validation result and nothing
     * else happens. A valid one goes to the bank once; the answer is 200 with the masked,
     * completed payment exactly when that payment was stored, and 500 otherwise.
     */
    method CreatePaymentAsync(model: PaymentModel, now: Ticks, nowUtc: Ticks, parseDate: string -> Option<Ticks>, reply: Response)
      returns (result: ActionResult<PaymentModel>)
      requires nowUtc >= 0
      modifies paymentBLL.db, paymentBLL.httpClient
      ensures var es := validator.Entries(model, nowUtc, parseDate);
              es != [] ==>
                && result == Teapot(ValidationResult(Merge(es), TeapotStatus))
                && paymentBLL.db.payments == old(paymentBLL.db.payments)
                && paymentBLL.httpClient.requests == old(paymentBLL.httpClient.requests)
      ensures validator.Entries(model, nowUtc, parseDate) == [] ==>
                var stored := NewRecord(model, now).(uid := Some(reply.content), state := Completed);
                && paymentBLL.httpClient.requests == old(paymentBLL.httpClient.requests) + [Request(paymentBLL.bankUri, EmptyUserModel)]
                && (result.Ok? <==> paymentBLL.db.payments == old(paymentBLL.db.payments) + [stored])
                && (result.Ok? ==> reply.statusCode == OkStatus && result.value == Masked(stored))
                && (!result.Ok? ==> result == ServerError && paymentBLL.db.payments == old(paymentBLL.db.payments))
      ensures paymentBLL.db.users == old(paymentBLL.db.users)
    {
      var validationResult := validator.Validate(model, nowUtc, parseDate);
      if validationResult.Some? {
        return Teapot(validationResult.value);
      }
      var dto := new PaymentDto(NewRecord(model, now));
      var res := paymentBLL.CreatePaymentAsync(dto, reply);
      if !res {
        return ServerError;
      }
      return Ok(Masked(dto.Value()));
    }

    /** GetPaymentByUid: 404 when no payment has that Uid, else the first such payment, masked. */
    function GetPaymentByUid(uid: Option<string>): (r: ActionResult<PaymentModel>)
      reads this, paymentBLL, paymentBLL.db
      ensures r.NotFound? || r.Ok?
      ensures r.NotFound? <==> forall i | 0 <= i < |paymentBLL.db.payments| :: paymentBLL.db.payments[i].uid != uid
      ensures r.Ok? ==> exists p | p in paymentBLL.db.payments :: p.uid == uid && r.value == Masked(p)
    {
      var dto := paymentBLL.GetPaymentByUid(uid);
      if dto.None? then NotFound else Ok(Masked(dto.value))
    }

    /** GetAllPayments: every stored payment, masked, in store order. */
    function GetAllPayments(): (r: ActionResult<seq<PaymentModel>>)
      reads this, paymentBLL, paymentBLL.db
      ensures r.Ok? && |r.value| == |paymentBLL.db.payments|
      ensures forall i | 0 <= i < |r.value| :: r.value[i] == Masked(paymentBLL.db.payments[i])
    {
      var dtos := paymentBLL.GetAllPayments();
      Ok(seq(|dtos|, i requires 0 <= i < |dtos| => Masked(dtos[i])))
    }
  }

  /** Creating needs both permissions; a client without duplicates in its list is let in exactly when it holds both. */
  lemma CreateNeedsViewAndCreate(attr: RequireApiPermissionAttribute, granted: seq<Permission>)
    requires attr.requiredPermissions == CreatePermissions && NoDuplicates(granted)
    ensures attr.HasPermissions(Some(granted)) <==> PaymentView in granted && PaymentCreate in granted
  {
    HasPermissionsIsInclusion(attr, granted);
  }

  /** Reading needs view only; holding create alone is not enough. */
  lemma ReadNeedsView(attr: RequireApiPermissionAttribute, granted: seq<Permission>)
    requires attr.requiredPermissions == ReadPermissions && NoDuplicates(granted)
    ensures attr.HasPermissions(Some(granted)) <==> PaymentView in granted
  {
    HasPermissionsIsInclusion(attr, granted);
  }
}
