/**
 * `RealEstateBLL.Persons`: the abstract `Person` with its subclasses `Seller` and
 * `Buyer`, as one class whose subclass is fixed at construction, and `PersonCreator`.
 */
module Persons {
  import opened Enums
  import opened Addresses
  import opened Payments

  /** The C# subclass of a person. */
  datatype Role = Seller | Buyer

  class Person {
    const role: Role
    var firstName: string
    var lastName: string
    /** Never null; shared by reference with whoever passed it in. */
    var address: Address
    /** `Buyer.Payment`. A seller has no payment and the model never gives it one. */
    var payment: Payment?

    /** `new Seller()` or `new Buyer()`: empty names and a fresh default address. */
    constructor Default(role: Role)
      ensures this.role == role && firstName == "" && lastName == "" && payment == null
      ensures fresh(address)
      ensures address.street == "" && address.city == "" && address.zipCode == "" && address.country == Countries.Sweden
    {
      this.role := role;
      firstName := "";
      lastName := "";
      address := new Address.Default();
      payment := null;
    }

    /** `new Seller(firstName, lastName, address)` or the `Buyer` one: the address object itself is stored. */
    constructor (role: Role, firstName: string, lastName: string, address: Address)
      ensures this.role == role && this.firstName == firstName && this.lastName == lastName
      ensures this.address == address && payment == null
    {
      this.role := role;
      this.firstName := firstName;
      this.lastName := lastName;
      this.address := address;
      payment := null;
    }

    /**
     * Copies the names of `person` and updates the existing address object in place from
     * `person`'s address: the address reference itself does not change.
     */
    method UpdateDetails(person: Person)
      modifies this`firstName, this`lastName, address
      ensures firstName == old(person.firstName) && lastName == old(person.lastName)
      ensures address.street == old(person.address.street) && address.city == old(person.address.city)
      ensures address.zipCode == old(person.address.zipCode) && address.country == old(person.address.country)
    {
      firstName := person.firstName;
      lastName := person.lastName;
      address.UpdateAddress(person.address);
    }

    /** First name, a space, last name. */
    function GetFullName(): string
      reads this
    {
      firstName + " " + lastName
    }

    /**
     * The full name and the address line; a buyer with a payment adds a blank line,
     * the heading "Payment:" and the payment's own lines.
     */
    function GetDetailsAsList(showAmount: Amount -> string): (details: seq<string>)
      reads this, address, payment
      ensures 2 <= |details| && details[0] == GetFullName() && details[1] == address.ToString()
      ensures role == Seller || payment == null ==> |details| == 2
      ensures role == Buyer && payment != null ==>
        |details| == 6 && details[2..4] == ["\n", "Payment:"] && details[4..] == payment.GetDetailsAsList(showAmount)
    {
      var personDetails := [GetFullName(), address.ToString()];
      if role == Buyer && payment != null then
        personDetails + ["\n", "Payment:"] + payment.GetDetailsAsList(showAmount)
      else
        personDetails
    }

    /**
     * `Buyer.UpdatePayment`: with no payment, or one of another variant, the reference is
     * replaced by `payment`; with one of the same variant, that object is kept and `payment`'s
     * fields are copied into it. Either way the buyer then holds `payment`'s details.
     */
    method UpdatePayment(payment: Payment)
      requires role == Buyer
      modifies this`payment, this.payment
      ensures this.payment != null && this.payment.SameDetailsAs(payment)
      ensures old(this.payment) == null || old(this.payment).kind != payment.kind ==> this.payment == payment
      ensures old(this.payment) != null && old(this.payment).kind == payment.kind ==> this.payment == old(this.payment)
      ensures unchanged(payment)
    {
      if this.payment == null || this.payment.kind != payment.kind {
        this.payment := payment;
        return;
      }
      this.payment.UpdatePayment(payment);
    }
  }

  /** `PersonCreator.CreatePerson`: a seller or a buyer with the given details, or null for any other type. */
  method CreatePerson(firstName: string, lastName: string, address: Address, personType: PersonType) returns (client: Person?)
    ensures personType == PersonType.Seller || personType == PersonType.Buyer <==> client != null
    ensures client != null ==> fresh(client) && client.firstName == firstName && client.lastName == lastName
    ensures client != null ==> client.address == address && client.payment == null
    ensures client != null ==> client.role == (if personType == PersonType.Seller then Seller else Buyer)
  {
    client := null;
    if personType == PersonType.Seller {
      client := new Person(Seller, firstName, lastName, address);
    } else if personType == PersonType.Buyer {
      client := new Person(Buyer, firstName, lastName, address);
    }
  }
}
