/** Settling a booking's payment (the backend's PaymentService): the payment row, the
    provider's credit and the driver's debit, and the wallet-transaction log. Amounts are
    exact reals. */
module Payments {
  import opened Wrappers
  import opened Strings
  import opened Accounts
  import opened Parking

  datatype PaymentStatus = PAID

  datatype Payment = Payment(
    booking: Booking, totalAmount: real, platformFee: real, providerEarning: real,
    paymentMethod: string, status: PaymentStatus)

  datatype TransactionType = CREDIT | DEBIT

  /** One wallet movement: `amount` (always the positive figure) credited to or debited
      from `user`. */
  datatype WalletTransaction = WalletTransaction(
    user: User, amount: real, kind: TransactionType, description: string)

  class PaymentRepository {
    var payments: seq<Payment>

    constructor ()
      ensures payments == []
    {
      payments := [];
    }

    method Save(p: Payment)
      modifies this
      ensures payments == old(payments) + [p]
    {
      payments := payments + [p];
    }
  }

  class WalletTransactionRepository {
    var transactions: seq<WalletTransaction>

    constructor ()
      ensures transactions == []
    {
      transactions := [];
    }

    method Save(t: WalletTransaction)
      modifies this
      ensures transactions == old(transactions) + [t]
    {
      transactions := transactions + [t];
    }
  }

  /** The net amount the log moves into `u`'s wallet: credits minus debits. */
  function Net(ts: seq<WalletTransaction>, u: User): real {
    if ts == [] then 0.0
    else
      var t := ts[|ts| - 1];
      Net(ts[..|ts| - 1], u)
      + (if t.user != u then 0.0 else if t.kind == CREDIT then t.amount else -t.amount)
  }

  /** Appending to the log adds the new entries' net to every user's total. */
  lemma {:induction false} NetAppend(ts: seq<WalletTransaction>, more: seq<WalletTransaction>, u: User)
    ensures Net(ts + more, u) == Net(ts, u) + Net(more, u)
    decreases |more|
  {
    if more != [] {
      var last := more[|more| - 1];
      assert (ts + more)[..|ts + more| - 1] == ts + more[..|more| - 1];
      NetAppend(ts, more[..|more| - 1], u);
    } else {
      assert ts + more == ts;
    }
  }

  /** What a settlement's two entries add to a user's net: the earning for the provider,
      minus the total for the driver, and both for a provider paying themself. */
  lemma {:induction false} NetOfSettlement(p: Payment, provider: User, driver: User, id: Option<int>, u: User)
    ensures Net(Settlement(p, provider, driver, id), u)
            == (if u == provider then p.providerEarning else 0.0) - (if u == driver then p.totalAmount else 0.0)
  {
    var ts := Settlement(p, provider, driver, id);
    var credit := if u == provider then p.providerEarning else 0.0;
    var debit := if u == driver then p.totalAmount else 0.0;
    assert ts[..1][..0] == [];
    assert Net(ts[..1], u) == credit;
    assert Net(ts, u) == Net(ts[..1], u) - debit;
  }

  /** `"#" + booking.getId()`: the id, or "null" for an unsaved booking. */
  function IdText(id: Option<int>): string {
    if id.Some? then IntToString(id.value) else "null"
  }

  /** The payment row `createPayment` saves: PAID, for the given booking and method, with
      the provider's earning the total less the platform fee. */
  function NewPayment(booking: Booking, totalAmount: real, platformFee: real, paymentMethod: string): (p: Payment)
    ensures p.platformFee + p.providerEarning == p.totalAmount == totalAmount
    ensures p.platformFee == platformFee && p.status == PAID
    ensures p.booking == booking && p.paymentMethod == paymentMethod
  {
    Payment(booking, totalAmount, platformFee, totalAmount - platformFee, paymentMethod, PAID)
  }

  /** The two log entries of a settlement, in order: the provider's CREDIT of the earning,
      then the driver's DEBIT of the total. */
  function Settlement(p: Payment, provider: User, driver: User, bookingId: Option<int>): (ts: seq<WalletTransaction>)
    ensures |ts| == 2
    ensures ts[0].user == provider && ts[0].kind == CREDIT && ts[0].amount == p.providerEarning
    ensures ts[1].user == driver && ts[1].kind == DEBIT && ts[1].amount == p.totalAmount
  {
    [WalletTransaction(provider, p.providerEarning, CREDIT, "Earnings from Booking #" + IdText(bookingId)),
     WalletTransaction(driver, p.totalAmount, DEBIT, "Payment for Booking #" + IdText(bookingId))]
  }

  /** The wallet whose owner `createPayment` credits: the lot's provider (the driver when
      the booking has no slot, where nothing is credited). */
  function Payee(b: Booking): User
    reads b
  {
    if b.parkingSlot == null then b.driver else b.parkingSlot.parkingLot.provider
  }

  /** `createPayment`. The payment is saved first. A booking without a slot then fails on
      the null dereference with no wallet touched. Otherwise the lot's provider is credited
      the earning and the booking's driver debited the total (with no check that the
      driver's balance suffices; a null balance counts as 0), and the two transactions are
      logged. Each wallet moves by exactly what the log says it moved; when provider and
      driver differ their combined balance falls by the platform fee. Only the two wallet
      balances change on the users. */
  method CreatePayment(payments: PaymentRepository, log: WalletTransactionRepository, booking: Booking,
                       totalAmount: real, platformFee: real, paymentMethod: string)
    returns (r: Result<Payment, string>)
    modifies payments, log, booking.driver`walletBalance, Payee(booking)`walletBalance
    ensures payments.payments
            == old(payments.payments) + [NewPayment(booking, totalAmount, platformFee, paymentMethod)]
    ensures booking.parkingSlot == null ==>
              r == Failure(NoSlot) && log.transactions == old(log.transactions)
              && booking.driver.walletBalance == old(booking.driver.walletBalance)
    ensures booking.parkingSlot != null ==>
              var p := NewPayment(booking, totalAmount, platformFee, paymentMethod);
              var provider := booking.parkingSlot.parkingLot.provider;
              var driver := booking.driver;
              && r == Success(p)
              && log.transactions == old(log.transactions) + Settlement(p, provider, driver, booking.id)
              && provider.walletBalance.Some? && driver.walletBalance.Some?
              && (provider != driver ==>
                    && BalanceOf(provider) == old(BalanceOf(provider)) + p.providerEarning
                    && BalanceOf(driver) == old(BalanceOf(driver)) - p.totalAmount
                    && BalanceOf(provider) + BalanceOf(driver)
                       == old(BalanceOf(provider) + BalanceOf(driver)) - platformFee)
              && (provider == driver ==> BalanceOf(driver) == old(BalanceOf(driver)) - platformFee)
              && BalanceOf(provider) - Net(log.transactions, provider)
                 == old(BalanceOf(provider) - Net(log.transactions, provider))
              && BalanceOf(driver) - Net(log.transactions, driver)
                 == old(BalanceOf(driver) - Net(log.transactions, driver))
  {
    var payment := NewPayment(booking, totalAmount, platformFee, paymentMethod);
    payments.Save(payment);

    if booking.parkingSlot == null {
      return Failure(NoSlot);
    }
    var provider := booking.parkingSlot.parkingLot.provider;
    var currentProviderBalance := if provider.walletBalance.Some? then provider.walletBalance.value else 0.0;
    provider.SetWalletBalance(Some(currentProviderBalance + payment.providerEarning));
    var settlement := Settlement(payment, provider, booking.driver, booking.id);
    log.Save(settlement[0]);

    var driver := booking.driver;
    var currentDriverBalance := if driver.walletBalance.Some? then driver.walletBalance.value else 0.0;
    driver.SetWalletBalance(Some(currentDriverBalance - payment.totalAmount));
    log.Save(settlement[1]);

    assert log.transactions == old(log.transactions) + settlement;
    NetAppend(old(log.transactions), settlement, provider);
    NetAppend(old(log.transactions), settlement, driver);
    NetOfSettlement(payment, provider, driver, booking.id, provider);
    NetOfSettlement(payment, provider, driver, booking.id, driver);
    return Success(payment);
  }
}
