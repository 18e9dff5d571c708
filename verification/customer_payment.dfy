/**
 * The customer payment page (frontend/src/publicPages/CustomerPayment.jsx):
 * which installment it uploads a slip for, chosen from the order's status,
 * and the amount it shows, taken from the server's `amount_due`.
 */
module CustomerPayment {
  import opened Wrappers
  import opened Text
  import opened PublicApi

  /** `installmentForStatus`: the three waiting statuses name their installment; anything else is "balance". */
  function InstallmentForStatus(status: Option<string>): (r: string)
    ensures StatusKey(status) == WaitingBooking ==> r == "booking"
    ensures StatusKey(status) == WaitingDeposit ==> r == "deposit"
    ensures StatusKey(status) !in {WaitingBooking, WaitingDeposit} ==> r == "balance"
  {
    var s := Upper(if status.Some? then status.value else "");
    if s == WaitingBooking then "booking"
    else if s == WaitingDeposit then "deposit"
    else if s == WaitingBalance then "balance"
    else "balance"
  }

  /** `order.amount_due || 0`: a missing or zero amount shows as 0. */
  function DisplayedAmount(amountDue: Option<real>): (r: real)
    ensures amountDue.Some? ==> r == amountDue.value
    ensures amountDue.None? ==> r == 0.0
  {
    if amountDue.Some? && amountDue.value != 0.0 then amountDue.value else 0.0
  }

  /** The installment the page sends always passes the server's installment check, whatever the status. */
  lemma PageInstallmentAccepted(status: Option<string>)
    ensures ParseInstallment(InstallmentForStatus(status)).Some?
    ensures InstallmentName(ParseInstallment(InstallmentForStatus(status)).value) == InstallmentForStatus(status)
  {
    var r := InstallmentForStatus(status);
    if r == "booking" {
      ParseInstallmentName(Booking);
    } else if r == "deposit" {
      ParseInstallmentName(Deposit);
    } else {
      ParseInstallmentName(Balance);
    }
  }

  /**
   * The page and the server agree: the amount shown is the one the server
   * computes, and for each waiting status the page uploads against the
   * installment whose stored amount the server reports as due.
   */
  lemma PageMatchesServer(status: Option<string>, m: Amounts)
    ensures DisplayedAmount(Some(AmountDueFor(status, m))) == AmountDueFor(status, m)
    ensures InstallmentForStatus(status) == "booking" <==> StatusKey(status) == WaitingBooking
    ensures InstallmentForStatus(status) == "deposit" <==> StatusKey(status) == WaitingDeposit
    ensures InstallmentForStatus(status) == "booking" ==> AmountDueFor(status, m) == OrElse(m.deposit1, OrElse(m.depositAmount, 0.0))
    ensures InstallmentForStatus(status) == "deposit" ==> AmountDueFor(status, m) == OrElse(m.deposit2, 0.0)
  {
  }
}
