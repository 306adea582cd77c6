/**
 * The exercise's payment processors. Each validates an amount (and, for
 * PayPal, the account's email) and reports success; no money moves.
 */
module Payments {

  /** A credit card, identified by the last four digits of its number. */
  datatype CreditCardPayment = CreditCardPayment(last4: string)
  {
    /** Succeeds exactly for a positive amount. */
    function ProcessPayment(amount: real): (accepted: bool)
      ensures accepted <==> amount > 0.0
    {
      amount > 0.0
    }
  }

  /** A PayPal account, identified by its email address. */
  datatype PayPalPayment = PayPalPayment(email: string)
  {
    /**
     * Succeeds exactly for a positive amount charged to an email that has
     * an '@' at some position; nothing else about the address is checked.
     */
    function ProcessPayment(amount: real): (accepted: bool)
      ensures accepted <==> amount > 0.0 && exists i :: 0 <= i < |email| && email[i] == '@'
    {
      amount > 0.0 && '@' in email
    }
  }

  /** An address without '@' is refused whatever the amount. */
  lemma PayPalNeedsAt(email: string, amount: real)
    requires forall i :: 0 <= i < |email| ==> email[i] != '@'
    ensures !PayPalPayment(email).ProcessPayment(amount)
  {
  }

  /** A non-positive amount is refused by both processors. */
  lemma NonPositiveAmountRefused(last4: string, email: string, amount: real)
    requires amount <= 0.0
    ensures !CreditCardPayment(last4).ProcessPayment(amount)
    ensures !PayPalPayment(email).ProcessPayment(amount)
  {
  }

  /**
   * With an address PayPal accepts, both processors agree on every amount:
   * the email check is the only difference between them.
   */
  lemma ProcessorsAgreeOnValidEmail(last4: string, email: string, amount: real)
    requires '@' in email
    ensures PayPalPayment(email).ProcessPayment(amount) == CreditCardPayment(last4).ProcessPayment(amount)
  {
  }

  /** The worked cases of the payment tests. */
  lemma PaymentExamples()
    ensures CreditCardPayment("9012").ProcessPayment(100.50)
    ensures !CreditCardPayment("1111").ProcessPayment(0.0)
    ensures !CreditCardPayment("2222").ProcessPayment(-50.0)
    ensures CreditCardPayment("3333").ProcessPayment(0.01)
    ensures CreditCardPayment("4444").ProcessPayment(9999.99)
    ensures PayPalPayment("customer@paypal.com").ProcessPayment(75.00)
    ensures !PayPalPayment("invalidemail.com").ProcessPayment(50.0)
    ensures !PayPalPayment("user@email.com").ProcessPayment(0.0)
    ensures !PayPalPayment("user@email.com").ProcessPayment(-100.0)
    ensures !PayPalPayment("bademail").ProcessPayment(-50.0)
    ensures PayPalPayment("tiny@payment.com").ProcessPayment(0.01)
  {
  }
}

/**
 * The one-line payment processors of the worked examples. They accept
 * exactly what the exercise's processors accept.
 */
module PaymentExamples {
  import Payments

  datatype CreditCardPayment = CreditCardPayment(last4: string)
  {
    /** `amount > 0.0`. */
    function ProcessPayment(amount: real): (accepted: bool)
      ensures accepted == Payments.CreditCardPayment(last4).ProcessPayment(amount)
    {
      amount > 0.0
    }
  }

  datatype PayPalPayment = PayPalPayment(email: string)
  {
    /** `amount > 0.0 and "@" in email`. */
    function ProcessPayment(amount: real): (accepted: bool)
      ensures accepted == Payments.PayPalPayment(email).ProcessPayment(amount)
    {
      amount > 0.0 && '@' in email
    }
  }

  /** The example test: 10.0 by card and 5.0 by PayPal pass, -1.0 by PayPal fails. */
  lemma ExampleProcess()
    ensures CreditCardPayment("1234").ProcessPayment(10.0)
    ensures PayPalPayment("test@example.com").ProcessPayment(5.0)
    ensures !PayPalPayment("test@example.com").ProcessPayment(-1.0)
  {
  }
}
