/**
 * The public payment endpoints (backend/app/api/public.py): the amount due
 * for an order, chosen by its status, and the payment-slip upload, which
 * runs its checks in order and then records the slip's URL in exactly one
 * of the order's three slip fields. The file bytes, the image kind that
 * `imghdr` detects and the random hex of `uuid4` are inputs.
 */
module PublicApi {
  import opened Wrappers
  import opened Text

  /** The three payment installments. */
  datatype Installment = Booking | Deposit | Balance

  function InstallmentName(i: Installment): string {
    match i
    case Booking => "booking"
    case Deposit => "deposit"
    case Balance => "balance"
  }

  /** `installment.lower()` checked against the three names. */
  function ParseInstallment(raw: string): (r: Option<Installment>)
    ensures r.Some? ==> InstallmentName(r.value) == Lower(raw)
    ensures r.None? ==> forall i: Installment :: InstallmentName(i) != Lower(raw)
  {
    var inst := Lower(raw);
    if inst == "booking" then Some(Booking)
    else if inst == "deposit" then Some(Deposit)
    else if inst == "balance" then Some(Balance)
    else None
  }

  /** Every installment name is accepted as itself. */
  lemma ParseInstallmentName(i: Installment)
    ensures ParseInstallment(InstallmentName(i)) == Some(i)
  {
    assert Lower(InstallmentName(i)) == InstallmentName(i);
  }

  /** Python's `x or y` on an optional amount: None and 0 are false. */
  function OrElse(x: Option<real>, y: real): (r: real)
    ensures (x.Some? && x.value != 0.0) ==> r == x.value
    ensures (x.None? || x.value == 0.0) ==> r == y
  {
    if x.Some? && x.value != 0.0 then x.value else y
  }

  /** `(status or "").upper()`. */
  function StatusKey(status: Option<string>): string {
    Upper(if status.Some? then status.value else "")
  }

  const WaitingBooking: string := "WAITING_BOOKING"
  const WaitingDeposit: string := "WAITING_DEPOSIT"
  const WaitingBalance: string := "WAITING_BALANCE"

  /** The amounts an order stores, each possibly None. */
  datatype Amounts = Amounts(deposit1: Option<real>, depositAmount: Option<real>, deposit2: Option<real>,
                             balanceAmount: Option<real>, grandTotal: Option<real>)

  /** `_amount_due_for_order` on the status and the stored amounts. */
  function AmountDueFor(status: Option<string>, m: Amounts): (r: real)
    ensures StatusKey(status) == WaitingBooking ==> r == OrElse(m.deposit1, OrElse(m.depositAmount, 0.0))
    ensures StatusKey(status) == WaitingDeposit ==> r == OrElse(m.deposit2, 0.0)
    ensures StatusKey(status) == WaitingBalance ==> r == OrElse(m.balanceAmount, 0.0)
    ensures StatusKey(status) !in {WaitingBooking, WaitingDeposit, WaitingBalance} ==>
      r == OrElse(m.balanceAmount, OrElse(m.grandTotal, 0.0))
  {
    var st := StatusKey(status);
    if st == WaitingBooking then OrElse(m.deposit1, OrElse(m.depositAmount, 0.0))
    else if st == WaitingDeposit then OrElse(m.deposit2, 0.0)
    else if st == WaitingBalance then OrElse(m.balanceAmount, 0.0)
    else OrElse(m.balanceAmount, OrElse(m.grandTotal, 0.0))
  }

  /** The amount due is 0 or one of the order's non-zero stored amounts. */
  lemma AmountDueIsStored(status: Option<string>, m: Amounts)
    ensures var r := AmountDueFor(status, m);
      r == 0.0 || Some(r) in [m.deposit1, m.depositAmount, m.deposit2, m.balanceAmount, m.grandTotal]
  {
  }

  /** The status is compared without regard to ASCII case, and a missing status counts as "". */
  lemma AmountDueIgnoresCase(s: string, m: Amounts)
    ensures AmountDueFor(Some(s), m) == AmountDueFor(Some(Upper(s)), m)
    ensures AmountDueFor(None, m) == AmountDueFor(Some(""), m)
  {
    UpperIdempotent(s);
  }

  /** One line of the audit log. */
  datatype AuditEntry = AuditEntry(action: string, targetType: string, targetId: int,
                                   installment: string, filename: string, size: nat)

  class AuditLog {
    var entries: seq<AuditEntry>

    constructor ()
      ensures entries == []
    {
      entries := [];
    }
  }

  /** A stored order, as far as these endpoints read and write it. */
  class Order {
    const id: int
    const orderUuid: string
    var status: Option<string>
    var amounts: Amounts
    var slipBookingUrl: Option<string>
    var slipDepositUrl: Option<string>
    var slipBalanceUrl: Option<string>

    constructor (id: int, orderUuid: string, status: Option<string>, amounts: Amounts)
      ensures this.id == id && this.orderUuid == orderUuid && this.status == status && this.amounts == amounts
      ensures slipBookingUrl == None && slipDepositUrl == None && slipBalanceUrl == None
    {
      this.id, this.orderUuid, this.status, this.amounts := id, orderUuid, status, amounts;
      slipBookingUrl, slipDepositUrl, slipBalanceUrl := None, None, None;
    }

    function AmountDue(): real
      reads this
    {
      AmountDueFor(status, amounts)
    }

    /** The slip field of one installment. */
    function Slip(i: Installment): Option<string>
      reads this
    {
      match i
      case Booking => slipBookingUrl
      case Deposit => slipDepositUrl
      case Balance => slipBalanceUrl
    }

    /** All three slip fields. */
    function Slips(): (Option<string>, Option<string>, Option<string>)
      reads this
    {
      (slipBookingUrl, slipDepositUrl, slipBalanceUrl)
    }

    /** Sets the slip field of `i` and no other. */
    method SetSlip(i: Installment, url: string)
      modifies this`slipBookingUrl, this`slipDepositUrl, this`slipBalanceUrl
      ensures Slip(i) == Some(url)
      ensures forall j :: j != i ==> Slip(j) == old(Slip(j))
    {
      match i
      case Booking => slipBookingUrl := Some(url);
      case Deposit => slipDepositUrl := Some(url);
      case Balance => slipBalanceUrl := Some(url);
    }
  }

  /** `.filter(Order.order_uuid == uuid).first()`. */
  function FindOrder(orders: seq<Order>, uuid: string): (r: Option<nat>)
    ensures r.Some? ==> r.value < |orders| && orders[r.value].orderUuid == uuid
    ensures r.Some? ==> forall j :: 0 <= j < r.value ==> orders[j].orderUuid != uuid
    ensures r.None? ==> forall j :: 0 <= j < |orders| ==> orders[j].orderUuid != uuid
    decreases |orders|
  {
    if orders == [] then None
    else if orders[0].orderUuid == uuid then Some(0)
    else match FindOrder(orders[1..], uuid)
      case None => None
      case Some(k) => Some(k + 1)
  }

  /** The reasons an upload is refused, in the order they are checked. */
  datatype UploadError = OrderNotFound | InvalidInstallment | NotAnImageType | EmptyFile | FileTooLarge | NotJpegOrPng

  const MaxBytes: nat := 5 * 1024 * 1024

  /** What an accepted upload decides: the installment and the file extension. */
  datatype Accepted = Accepted(installment: Installment, ext: string)

  /** `(file.content_type or "").lower()` is one of the two image types. */
  predicate ImageContentType(contentType: Option<string>) {
    Lower(if contentType.Some? then contentType.value else "") in {"image/jpeg", "image/png"}
  }

  /** The checks of `public_upload_slip`, in order, on the request and the detected image kind. */
  function CheckUpload(found: bool, installment: string, contentType: Option<string>, size: nat, detected: Option<string>)
    : (r: Result<Accepted, UploadError>)
    ensures r.Success? <==>
      && found && ParseInstallment(installment).Some?
      && ImageContentType(contentType)
      && 1 <= size <= MaxBytes && detected in {Some("jpeg"), Some("png")}
    ensures r.Success? ==> r.value.installment == ParseInstallment(installment).value
    ensures r.Success? ==> r.value.ext == (if detected == Some("jpeg") then ".jpg" else ".png")
    ensures !found ==> r == Failure(OrderNotFound)
    ensures found && ParseInstallment(installment).None? ==> r == Failure(InvalidInstallment)
    ensures found && ParseInstallment(installment).Some? && !ImageContentType(contentType) ==> r == Failure(NotAnImageType)
    ensures found && ParseInstallment(installment).Some? && ImageContentType(contentType) ==>
      && (size == 0 ==> r == Failure(EmptyFile))
      && (size > MaxBytes ==> r == Failure(FileTooLarge))
      && (1 <= size <= MaxBytes && detected !in {Some("jpeg"), Some("png")} ==> r == Failure(NotJpegOrPng))
  {
    if !found then Failure(OrderNotFound)
    else match ParseInstallment(installment)
      case None => Failure(InvalidInstallment)
      case Some(inst) =>
        if !ImageContentType(contentType) then Failure(NotAnImageType)
        else if size == 0 then Failure(EmptyFile)
        else if size > MaxBytes then Failure(FileTooLarge)
        else if detected !in {Some("jpeg"), Some("png")} then Failure(NotJpegOrPng)
        else Success(Accepted(inst, if detected == Some("jpeg") then ".jpg" else ".png"))
  }

  /** The first failing check wins: an unknown order is reported before anything about the request. */
  lemma UnknownOrderFirst(installment: string, contentType: Option<string>, size: nat, detected: Option<string>)
    ensures CheckUpload(false, installment, contentType, size, detected) == Failure(OrderNotFound)
  {
  }

  /** The stored file name `<uuid>_<inst>_<hex><ext>`. */
  function SlipFileName(orderUuid: string, inst: Installment, hex: string, ext: string): string {
    orderUuid + "_" + InstallmentName(inst) + "_" + hex + ext
  }

  const SlipDir: string := "/static/slips/"

  function SlipUrl(orderUuid: string, inst: Installment, hex: string, ext: string): (r: string)
    ensures StartsWith(r, SlipDir) && r[|SlipDir|..] == SlipFileName(orderUuid, inst, hex, ext)
  {
    SlipDir + SlipFileName(orderUuid, inst, hex, ext)
  }

  /**
   * For one order, distinct installments, hex strings or extensions (of one
   * length) give distinct URLs: no upload overwrites the file of another.
   */
  lemma SlipUrlInjective(orderUuid: string, i1: Installment, hex1: string, ext1: string,
                         i2: Installment, hex2: string, ext2: string)
    requires |ext1| == |ext2|
    ensures SlipUrl(orderUuid, i1, hex1, ext1) == SlipUrl(orderUuid, i2, hex2, ext2) <==>
      i1 == i2 && hex1 == hex2 && ext1 == ext2
  {
    if SlipUrl(orderUuid, i1, hex1, ext1) == SlipUrl(orderUuid, i2, hex2, ext2) {
      var n1, n2 := InstallmentName(i1), InstallmentName(i2);
      var front := SlipDir + orderUuid + "_";
      var x1, x2 := front + n1 + ("_" + hex1), front + n2 + ("_" + hex2);
      assert SlipUrl(orderUuid, i1, hex1, ext1) == x1 + ext1;
      assert SlipUrl(orderUuid, i2, hex2, ext2) == x2 + ext2;
      SameLengthParts(x1, ext1, x2, ext2);
      SameLengthParts(front + n1, "_" + hex1, front + n2, "_" + hex2);
      SameLengthParts(front, n1, front, n2);
      SameLengthParts("_", hex1, "_", hex2);
    }
  }

  /** Two concatenations with equal-length first parts are equal part by part. */
  lemma SameLengthParts(x1: string, y1: string, x2: string, y2: string)
    requires x1 + y1 == x2 + y2 && |x1| == |x2|
    ensures x1 == x2 && y1 == y2
  {
    assert x1 == (x1 + y1)[..|x1|] && x2 == (x2 + y2)[..|x2|];
    assert y1 == (x1 + y1)[|x1|..] && y2 == (x2 + y2)[|x2|..];
  }

  /**
   * `public_upload_slip`. On success the matched order's slip field for the
   * installment holds the new URL and nothing else of any order changes; a
   * failing audit write (`auditFails`) does not fail the upload. A refused
   * upload changes nothing.
   */
  method UploadSlip(orders: seq<Order>, audit: AuditLog, orderUuid: string, installment: string,
                    contentType: Option<string>, size: nat, detected: Option<string>, hex: string, auditFails: bool)
    returns (r: Result<string, UploadError>)
    modifies orders, audit
    ensures var c := CheckUpload(FindOrder(orders, orderUuid).Some?, installment, contentType, size, detected);
      && (c.Failure? ==> r == Failure(c.error))
      && (c.Success? ==> r == Success(SlipUrl(orderUuid, c.value.installment, hex, c.value.ext)))
    ensures r.Failure? ==> audit.entries == old(audit.entries) && forall o :: o in orders ==> o.Slips() == old(o.Slips())
    ensures r.Success? ==>
      var k := FindOrder(orders, orderUuid).value;
      var inst := ParseInstallment(installment).value;
      && orders[k].Slip(inst) == Some(r.value)
      && (forall j :: j != inst ==> orders[k].Slip(j) == old(orders[k].Slip(j)))
      && (forall o :: o in orders && o != orders[k] ==> o.Slips() == old(o.Slips()))
      && audit.entries == old(audit.entries) +
           (if auditFails then []
            else [AuditEntry("UPLOAD_SLIP", "order", orders[k].id, InstallmentName(inst),
                             SlipFileName(orderUuid, inst, hex, if detected == Some("jpeg") then ".jpg" else ".png"), size)])
    ensures forall o :: o in orders ==> o.status == old(o.status) && o.amounts == old(o.amounts)
  {
    var found := FindOrder(orders, orderUuid);
    if found.None? {
      return Failure(OrderNotFound);
    }
    var o := orders[found.value];
    var parsed := ParseInstallment(installment);
    if parsed.None? {
      return Failure(InvalidInstallment);
    }
    var inst := parsed.value;
    if !ImageContentType(contentType) {
      return Failure(NotAnImageType);
    }
    if size == 0 {
      return Failure(EmptyFile);
    }
    if size > MaxBytes {
      return Failure(FileTooLarge);
    }
    if detected !in {Some("jpeg"), Some("png")} {
      return Failure(NotJpegOrPng);
    }
    var ext := if detected == Some("jpeg") then ".jpg" else ".png";
    var fn := SlipFileName(orderUuid, inst, hex, ext);
    var urlPath := SlipDir + fn;
    o.SetSlip(inst, urlPath);
    if !auditFails {
      audit.entries := audit.entries + [AuditEntry("UPLOAD_SLIP", "order", o.id, InstallmentName(inst), fn, size)];
    }
    r := Success(urlPath);
  }
}
