/**
 * `RealEstateService.EstateMapper`: the static conversions from the creation request's
 * records to new business objects. `MapAddress` is the same conversion as
 * `BllMapping.AddressFromDTO` and is used as such.
 */
module ServiceMapping {
  import opened Wrappers
  import opened Enums
  import opened Addresses
  import opened Payments
  import opened Persons
  import opened Dtos
  import opened BllMapping

  /** `MapEstateType`: an unchecked ordinal cast; every `int` is accepted and kept. */
  function MapEstateType(estateIndex: int): (eType: EstateType)
    ensures eType as int == estateIndex
    ensures 0 <= estateIndex <= 2 ==> eType.Name() == EstateType.Names[estateIndex]
  {
    estateIndex as EstateType
  }

  /**
   * `MapPayment`: a new payment of the record's own variant with the record's values, or
   * null when there is no record.
   */
  method MapPayment(paymentDTO: Option<PaymentDTO>) returns (payment: Payment?)
    ensures payment != null <==> paymentDTO.Some?
    ensures payment != null ==> fresh(payment) && PaymentToDTO(payment) == paymentDTO.value
  {
    payment := null;
    if paymentDTO.Some? {
      payment := PaymentFromDTO(paymentDTO.value);
    }
  }

  /**
   * `MapPerson`: the address is mapped first; a Seller or a Buyer is created with the
   * record's names and that address, and any other person type gives null. A buyer's payment
   * is mapped from the record cast to `BuyerDTO`; the cast throws when the record is of
   * another kind.
   */
  method MapPerson(personType: PersonType, personDTO: PersonDTO) returns (r: Result<Person?>)
    ensures r.Err? <==> personType == PersonType.Buyer && !personDTO.BuyerDTO?
    ensures r.Err? ==> r.error == InvalidCastException
    ensures r.Ok? ==> (r.value != null <==> personType == PersonType.Seller || personType == PersonType.Buyer)
    ensures r.Ok? && r.value != null ==> fresh(r.value) && fresh(r.value.address)
    ensures r.Ok? && r.value != null && r.value.payment != null ==> fresh(r.value.payment)
    ensures r.Ok? && personType == PersonType.Seller ==> r.value.role == Seller && r.value.payment == null
    ensures r.Ok? && personType == PersonType.Seller ==>
      SellerToDTO(r.value) == SellerDTO(personDTO.firstName, personDTO.lastName, personDTO.address)
    ensures r.Ok? && personType == PersonType.Buyer ==> r.value.role == Buyer && BuyerToDTO(r.value) == personDTO
  {
    var personAddress := AddressFromDTO(personDTO.address);
    if personType == PersonType.Seller {
      var person := new Person(Seller, personDTO.firstName, personDTO.lastName, personAddress);
      return Ok(person);
    } else if personType == PersonType.Buyer {
      var person := new Person(Buyer, personDTO.firstName, personDTO.lastName, personAddress);
      if !personDTO.BuyerDTO? {
        return Err(InvalidCastException);
      }
      var payment := MapPayment(personDTO.payment);
      person.payment := payment;
      return Ok(person);
    }
    return Ok(null);
  }
}
