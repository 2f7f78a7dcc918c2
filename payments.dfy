/**
 * `RealEstateBLL.Payments`: the abstract `Payment` and its variants `Bank`, `Paypal`
 * and `WesternUnion`, as one class whose variant is fixed at construction.
 */
module Payments {
  import opened Text

  /** The variant of a payment, as reported by `GetPaymentType()`. */
  datatype PaymentType = Bank | Paypal | Western_Union

  /** The C# `double` amount. It is only stored and copied, never computed with. */
  type Amount = real

  class Payment {
    /** The C# subclass of the payment: its `GetPaymentType()`. */
    const kind: PaymentType
    var amount: Amount
    /** `Name` of a Bank or WesternUnion payment. */
    var name: string
    /** `AccountNumber` of a Bank payment. */
    var accountNumber: string
    /** `Email` of a Paypal or WesternUnion payment. */
    var email: string

    /** The parameterless constructor of each variant: amount 0 and empty text fields. */
    constructor Default(kind: PaymentType)
      ensures this.kind == kind && amount == 0.0
      ensures name == "" && accountNumber == "" && email == ""
    {
      this.kind := kind;
      amount := 0.0;
      name := "";
      accountNumber := "";
      email := "";
    }

    /** `new Bank(amount, name, accountNumber)`. */
    constructor BankPayment(amount: Amount, name: string, accountNumber: string)
      ensures kind == Bank && this.amount == amount && this.name == name && this.accountNumber == accountNumber
      ensures email == ""
    {
      kind := Bank;
      this.amount := amount;
      this.name := name;
      this.accountNumber := accountNumber;
      email := "";
    }

    /** `new Paypal(amount, email)`. */
    constructor PaypalPayment(amount: Amount, email: string)
      ensures kind == Paypal && this.amount == amount && this.email == email
      ensures name == "" && accountNumber == ""
    {
      kind := Paypal;
      this.amount := amount;
      this.email := email;
      name := "";
      accountNumber := "";
    }

    /** `new WesternUnion(amount, name, email)`. */
    constructor WesternUnionPayment(amount: Amount, name: string, email: string)
      ensures kind == Western_Union && this.amount == amount && this.name == name && this.email == email
      ensures accountNumber == ""
    {
      kind := Western_Union;
      this.amount := amount;
      this.name := name;
      this.email := email;
      accountNumber := "";
    }

    /** Both payments are of the same variant and agree on every field that variant has. */
    predicate SameDetailsAs(other: Payment)
      reads this, other
    {
      kind == other.kind && amount == other.amount &&
      match kind
      case Bank => name == other.name && accountNumber == other.accountNumber
      case Paypal => email == other.email
      case Western_Union => name == other.name && email == other.email
    }

    /**
     * Copies the fields of `payment` when it is of the same variant, and does nothing
     * otherwise. Fields the variant does not have are never touched.
     */
    method UpdatePayment(payment: Payment)
      modifies this
      ensures payment.kind == kind ==> SameDetailsAs(payment)
      ensures payment.kind != kind ==> unchanged(this)
      ensures unchanged(payment)
      ensures kind != Bank ==> accountNumber == old(accountNumber)
      ensures kind == Paypal ==> name == old(name)
      ensures kind == Bank ==> email == old(email)
    {
      if payment.kind == kind {
        match kind
        case Bank =>
          amount := payment.amount;
          accountNumber := payment.accountNumber;
          name := payment.name;
        case Paypal =>
          amount := payment.amount;
          email := payment.email;
        case Western_Union =>
          amount := payment.amount;
          name := payment.name;
          email := payment.email;
      }
    }

    /** The one-line description of the variant and its fields. */
    function ToString(): string
      reads this
    {
      match kind
      case Bank => "Type: Bank. " + name + ". " + accountNumber
      case Paypal => "Type: Paypal. " + email + "."
      case Western_Union => "Type: Western Union. " + name + ", " + email + "."
    }

    /**
     * The amount line, then the description. `showAmount` is the text that string
     * interpolation gives a `double` under the current culture; the model does not fix it.
     */
    function GetDetailsAsList(showAmount: Amount -> string): (details: seq<string>)
      reads this
      ensures |details| == 2 && details[0] == "Amount: " + showAmount(amount) && details[1] == ToString()
    {
      ["Amount: " + showAmount(amount), ToString()]
    }
  }
}
