/**
 * `RealEstateBLL.EstateMapper`: the entity/record mapping configured both ways for the same
 * type pairs, written as explicit per-variant field copies. Members are matched by name, so
 * each category pair and each leaf pair is copied position by position (the entity and the
 * record declare the same names in the same order, Shop and Warehouse included).
 */
module BllMapping {
  import opened Wrappers
  import opened Enums
  import opened Addresses
  import opened Payments
  import opened Persons
  import opened Estates
  import opened Dtos

  /** An address becomes the record with the same members, the country as its ordinal. */
  function AddressToDTO(a: Address): (d: AddressDTO)
    reads a
    ensures d.street == a.street && d.city == a.city && d.zipCode == a.zipCode && d.country == a.country as int
  {
    AddressDTO(a.street, a.city, a.zipCode, a.country as int)
  }

  /** A payment becomes the record of its own variant. */
  function PaymentToDTO(p: Payment): (d: PaymentDTO)
    reads p
    ensures d.BankDTO? <==> p.kind == Bank
    ensures d.PaypalDTO? <==> p.kind == Paypal
    ensures d.WesternUnionDTO? <==> p.kind == Western_Union
  {
    match p.kind
    case Bank => BankDTO(p.amount, p.name, p.accountNumber)
    case Paypal => PaypalDTO(p.amount, p.email)
    case Western_Union => WesternUnionDTO(p.amount, p.name, p.email)
  }

  /** A seller becomes a seller record with its names and the record of its address. */
  function SellerToDTO(s: Person): (d: SellerRecord)
    reads s, s.address
    ensures d.firstName == s.firstName && d.lastName == s.lastName && d.address == AddressToDTO(s.address)
  {
    SellerDTO(s.firstName, s.lastName, AddressToDTO(s.address))
  }

  /** A buyer becomes a buyer record with its names, its address's record and its payment's record, if any. */
  function BuyerToDTO(b: Person): (d: BuyerRecord)
    reads b, b.address, b.payment
    ensures d.firstName == b.firstName && d.lastName == b.lastName && d.address == AddressToDTO(b.address)
    ensures d.payment.Some? <==> b.payment != null
    ensures b.payment != null ==> d.payment.value == PaymentToDTO(b.payment)
  {
    BuyerDTO(b.firstName, b.lastName, AddressToDTO(b.address),
      if b.payment != null then Some(PaymentToDTO(b.payment)) else None)
  }

  /**
   * `MapEstateToDTO`: every estate is one of the eleven leaves and becomes the record of
   * the same leaf (a Rowhouse a RowhouseDTO, not a VillaDTO), so the mapping never yields
   * null; null members stay null.
   */
  function MapEstateToDTO(e: Estate): (d: LeafEstateDTO)
    reads e.Parts()
    ensures d.kind == e.kind && d.base.id == e.id && d.base.legalForm == e.legalForm as int
    ensures d.base.address.Some? <==> e.address != null
    ensures d.base.seller.Some? <==> e.seller != null
    ensures d.base.buyer.Some? <==> e.buyer != null
  {
    var base := BaseDTO(
      e.id,
      e.legalForm as int,
      if e.address != null then Some(AddressToDTO(e.address)) else None,
      if e.seller != null then Some(SellerToDTO(e.seller)) else None,
      if e.buyer != null then Some(BuyerToDTO(e.buyer)) else None);
    LeafDTO(e.kind, base, e.typeOne, e.typeTwo, e.specificOne, e.specificTwo)
  }

  /** `Map<AddressDTO, Address>`: a new address with the record's values. */
  method AddressFromDTO(d: AddressDTO) returns (a: Address)
    ensures fresh(a) && AddressToDTO(a) == d
  {
    a := new Address(d.street, d.city, d.zipCode, d.country as Countries);
  }

  /** `Map<PaymentDTO, Payment>`: a new payment of the record's variant. */
  method PaymentFromDTO(d: PaymentDTO) returns (p: Payment)
    ensures fresh(p) && PaymentToDTO(p) == d
  {
    if d.BankDTO? {
      p := new Payment.BankPayment(d.amount, d.name, d.accountNumber);
    } else if d.PaypalDTO? {
      p := new Payment.PaypalPayment(d.amount, d.email);
    } else {
      p := new Payment.WesternUnionPayment(d.amount, d.name, d.email);
    }
  }

  /** `Map<SellerDTO, Seller>` and `Map<BuyerDTO, Buyer>`: a new person with a new address and, for a buyer, a new payment. */
  method PersonFromDTO(d: PersonDTO, role: Role) returns (p: Person)
    requires role == Seller ==> d.SellerDTO?
    requires role == Buyer ==> d.BuyerDTO?
    ensures fresh(p) && fresh(p.address) && p.role == role
    ensures p.payment != null ==> fresh(p.payment)
    ensures role == Seller ==> SellerToDTO(p) == d && p.payment == null
    ensures role == Buyer ==> BuyerToDTO(p) == d
  {
    var address := AddressFromDTO(d.address);
    p := new Person(role, d.firstName, d.lastName, address);
    if role == Buyer && d.payment.Some? {
      var payment := PaymentFromDTO(d.payment.value);
      p.payment := payment;
    }
  }

  /** The new address and persons an estate record's base members map to. */
  method BaseObjectsFromDTO(base: BaseDTO) returns (address: Address?, seller: Person?, buyer: Person?)
    ensures address != null <==> base.address.Some?
    ensures address != null ==> fresh(address) && AddressToDTO(address) == base.address.value
    ensures seller != null <==> base.seller.Some?
    ensures seller != null ==> fresh(seller) && fresh(seller.address) && seller.role == Seller && SellerToDTO(seller) == base.seller.value
    ensures buyer != null <==> base.buyer.Some?
    ensures buyer != null ==> fresh(buyer) && fresh(buyer.address) && buyer.role == Buyer && BuyerToDTO(buyer) == base.buyer.value
    ensures buyer != null && buyer.payment != null ==> fresh(buyer.payment)
  {
    address := null;
    if base.address.Some? {
      address := AddressFromDTO(base.address.value);
    }
    seller := null;
    if base.seller.Some? {
      seller := PersonFromDTO(base.seller.value, Seller);
    }
    buyer := null;
    if base.buyer.Some? {
      buyer := PersonFromDTO(base.buyer.value, Buyer);
    }
  }

  /**
   * `MapDTOToEstate`: a leaf record becomes a new estate of the same leaf built only from
   * new objects, and mapping that estate back gives the record again; any other record
   * (a base, category or apartment record) yields null.
   */
  method MapDTOToEstate(d: EstateDTO) returns (e: Estate?)
    ensures e != null <==> d.LeafDTO?
    ensures e != null ==> fresh(e) && e.kind == d.kind && MapEstateToDTO(e) == d && e.RolesAsDeclared()
    ensures e != null && e.address != null ==> fresh(e.address)
    ensures e != null && e.seller != null ==> fresh(e.seller) && fresh(e.seller.address)
    ensures e != null && e.buyer != null ==> fresh(e.buyer) && fresh(e.buyer.address)
    ensures e != null && e.buyer != null && e.buyer.payment != null ==> fresh(e.buyer.payment)
  {
    if !d.LeafDTO? {
      return null;
    }
    var address, seller, buyer := BaseObjectsFromDTO(d.base);
    e := new Estate(d.kind);
    e.id := d.base.id;
    e.legalForm := d.base.legalForm as LegalForm;
    e.address := address;
    e.seller := seller;
    e.buyer := buyer;
    e.typeOne := d.typeOne;
    e.typeTwo := d.typeTwo;
    e.specificOne := d.specificOne;
    e.specificTwo := d.specificTwo;
  }

  /** Two estates map to the same record exactly when they hold the same values. */
  lemma SameDTOIffSameContents(a: Estate, b: Estate)
    ensures MapEstateToDTO(a) == MapEstateToDTO(b) <==> a.SameContentsAs(b)
  {
    if a.SameContentsAs(b) {
      if a.buyer != null && a.buyer.payment != null {
        assert PaymentToDTO(a.buyer.payment) == PaymentToDTO(b.buyer.payment);
      }
    }
  }

  /**
   * Mapping an estate to its record and back yields a new estate that holds exactly the
   * values of the original.
   */
  method RoundTrip(e: Estate) returns (copy: Estate)
    ensures fresh(copy) && copy.SameContentsAs(e)
  {
    var d := MapEstateToDTO(e);
    var c := MapDTOToEstate(d);
    SameDTOIffSameContents(c, e);
    copy := c;
  }
}
