/**
 * `RealEstateDTO`: the immutable records that cross the layer boundary. Records compare by
 * value, as datatypes do. Reference-typed members of the estate records (Address, Seller,
 * Buyer) are null until set and are therefore optional; a person's address and all strings
 * are taken to be present.
 */
module Dtos {
  import opened Wrappers
  import Estates

  datatype AddressDTO = AddressDTO(street: string, city: string, zipCode: string, country: int)

  /** The abstract `PaymentDTO` with its three records; `amount` is the C# `double`, only copied. */
  datatype PaymentDTO =
    | BankDTO(amount: real, name: string, accountNumber: string)
    | PaypalDTO(amount: real, email: string)
    | WesternUnionDTO(amount: real, name: string, email: string)

  /** `PersonDTO` and its records `SellerDTO` (no extra member) and `BuyerDTO` (an optional payment). */
  datatype PersonDTO =
    | PersonDTO(firstName: string, lastName: string, address: AddressDTO)
    | SellerDTO(firstName: string, lastName: string, address: AddressDTO)
    | BuyerDTO(firstName: string, lastName: string, address: AddressDTO, payment: Option<PaymentDTO>)

  const EmptyAddressDTO := AddressDTO("", "", "", 0)

  /** A value of the static type `SellerDTO`. */
  type SellerRecord = p: PersonDTO | p.SellerDTO? witness SellerDTO("", "", EmptyAddressDTO)

  /** A value of the static type `BuyerDTO`. */
  type BuyerRecord = p: PersonDTO | p.BuyerDTO? witness BuyerDTO("", "", EmptyAddressDTO, None)

  /** The members every estate record has: ID, the LegalForm ordinal, Address, Seller and Buyer. */
  datatype BaseDTO = BaseDTO(
    id: int,
    legalForm: int,
    address: Option<AddressDTO>,
    seller: Option<SellerRecord>,
    buyer: Option<BuyerRecord>)

  /** The members of a record created with `new`: all zero or null. */
  const DefaultBase := BaseDTO(0, 0, None, None, None)

  /**
   * The estate record hierarchy. The abstract-in-spirit but instantiable records `EstateDTO`,
   * `ResidentialDTO`, `CommercialDTO`, `InstitutionalDTO` and `ApartmentDTO` have their own
   * variants; the eleven leaf records (`VillaDTO`, `RowhouseDTO`, ...) share one variant
   * tagged with the leaf, carrying the two category members and the two leaf members in the
   * order the records declare them (see `Estates`).
   */
  datatype EstateDTO =
    | BaseEstateDTO(base: BaseDTO)
    | ResidentialDTO(base: BaseDTO, area: int, bedrooms: int)
    | CommercialDTO(base: BaseDTO, yearBuilt: int, yearlyRevenue: int)
    | InstitutionalDTO(base: BaseDTO, establishedYear: int, numberOfBuildings: int)
    | ApartmentDTO(base: BaseDTO, area: int, bedrooms: int, onFloor: int, monthlyCost: int)
    | LeafDTO(kind: Estates.EstateKind, base: BaseDTO, typeOne: int, typeTwo: int, specificOne: int, specificTwo: int)

  /** A value whose runtime type is one of the eleven leaf records. */
  type LeafEstateDTO = d: EstateDTO | d.LeafDTO? witness LeafDTO(Estates.Villa, DefaultBase, 0, 0, 0, 0)

  /** `new VillaDTO()`, `new RentalDTO()`, ...: a leaf record with every member zero or null. */
  function NewLeafDTO(kind: Estates.EstateKind): (d: LeafEstateDTO)
    ensures d.kind == kind && d.base == DefaultBase
    ensures d.typeOne == 0 && d.typeTwo == 0 && d.specificOne == 0 && d.specificTwo == 0
  {
    LeafDTO(kind, DefaultBase, 0, 0, 0, 0)
  }

  /** The leaf record `e` with its common members replaced by `b`. */
  function Rebase(e: LeafEstateDTO, b: BaseDTO): (r: LeafEstateDTO)
    ensures r.kind == e.kind && r.base == b
    ensures r.typeOne == e.typeOne && r.typeTwo == e.typeTwo && r.specificOne == e.specificOne && r.specificTwo == e.specificTwo
  {
    LeafDTO(e.kind, b, e.typeOne, e.typeTwo, e.specificOne, e.specificTwo)
  }

  /**
   * The creation request the service receives. The record is not part of this model's
   * sources; it holds exactly the members the service reads.
   */
  datatype EstateCreateDTO = EstateCreateDTO(
    estateType: int,
    specificTypeIndex: int,
    legalForm: int,
    address: AddressDTO,
    seller: PersonDTO,
    buyer: PersonDTO,
    typeDataOne: int,
    typeDataTwo: int,
    specificDataOne: int,
    specificDataTwo: int)
}
