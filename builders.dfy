/**
 * `RealEstateBLL.Manager.EstateBuilder` and `RealEstateBLL.Manager.EstateCreator`: the two
 * ways the business layer makes a new estate from a category and a subtype index.
 */
module EstateBuilding {
  import opened Wrappers
  import opened Enums
  import opened Addresses
  import opened Payments
  import opened Persons
  import opened Estates

  /** The message of the builder constructor's `InvalidOperationException`. */
  const UnableToCreate := "Unable to create estate for the given type and index."

  /** A fluent builder that holds one estate and sets its fields in place. */
  class EstateBuilder {
    const estate: Estate

    /** Wraps a newly constructed leaf. */
    constructor (kind: EstateKind)
      ensures fresh(estate) && estate.kind == kind && estate.Initial()
    {
      estate := new Estate(kind);
    }

    /**
     * `new EstateBuilder(estateType, specificTypeIndex)`: a builder around a new leaf for
     * the eleven supported pairs, an `InvalidOperationException` for any other.
     */
    static method New(estateType: EstateType, specificTypeIndex: int) returns (r: Result<EstateBuilder>)
      ensures r.Ok? <==> CreateKind(estateType, specificTypeIndex).Some?
      ensures r.Err? ==> r.error == InvalidOperationException(UnableToCreate)
      ensures r.Ok? ==> fresh(r.value) && fresh(r.value.estate) && r.value.estate.Initial()
      ensures r.Ok? ==> r.value.estate.kind.GetEstateType() == estateType
      ensures r.Ok? ==> r.value.estate.kind.GetSpecificTypeIndex() == specificTypeIndex
    {
      var kind := CreateKind(estateType, specificTypeIndex);
      if kind.None? {
        return Err(InvalidOperationException(UnableToCreate));
      }
      var builder := new EstateBuilder(kind.value);
      r := Ok(builder);
    }

    /** `AddID`: sets the ID and nothing else. */
    method AddID(idNumber: int) returns (builder: EstateBuilder)
      modifies estate`id
      ensures builder == this && estate.id == idNumber
    {
      estate.id := idNumber;
      builder := this;
    }

    /** `AddLegalForm`: sets the legal form and nothing else, overriding the leaf's default. */
    method AddLegalForm(legalForm: LegalForm) returns (builder: EstateBuilder)
      modifies estate`legalForm
      ensures builder == this && estate.legalForm == legalForm
    {
      estate.legalForm := legalForm;
      builder := this;
    }

    /** `AddAddress`: stores the given address object. */
    method AddAddress(address: Address) returns (builder: EstateBuilder)
      modifies estate`address
      ensures builder == this && estate.address == address
    {
      estate.address := address;
      builder := this;
    }

    /** `AddSeller`: stores the given seller object. */
    method AddSeller(seller: Person) returns (builder: EstateBuilder)
      requires seller.role == Seller
      modifies estate`seller
      ensures builder == this && estate.seller == seller
    {
      estate.seller := seller;
      builder := this;
    }

    /**
     * `AddPayment`: sets the payment of the buyer already present, null included; with no
     * buyer it changes nothing.
     */
    method AddPayment(payment: Payment?) returns (builder: EstateBuilder)
      modifies estate.buyer
      ensures builder == this
      ensures estate.buyer != null ==> estate.buyer.payment == payment
      ensures estate.buyer != null ==>
        (estate.buyer.firstName == old(estate.buyer.firstName) && estate.buyer.lastName == old(estate.buyer.lastName)
         && estate.buyer.address == old(estate.buyer.address))
    {
      if estate.buyer != null {
        estate.buyer.payment := payment;
      }
      builder := this;
    }

    /** `AddBuyer`: stores the given buyer object. */
    method AddBuyer(buyer: Person) returns (builder: EstateBuilder)
      requires buyer.role == Buyer
      modifies estate`buyer
      ensures builder == this && estate.buyer == buyer
    {
      estate.buyer := buyer;
      builder := this;
    }

    /**
     * `AddEstateTypeDetails`: the pair goes into the two fields of the estate's category
     * (Area and Bedrooms, YearBuilt and YearlyRevenue, or EstablishedYear and
     * NumberOfBuildings); every leaf has a category, so the pair is always stored.
     */
    method AddEstateTypeDetails(typeOne: int, typeTwo: int) returns (builder: EstateBuilder)
      modifies estate`typeOne, estate`typeTwo
      ensures builder == this && estate.typeOne == typeOne && estate.typeTwo == typeTwo
    {
      estate.typeOne := typeOne;
      estate.typeTwo := typeTwo;
      builder := this;
    }

    /**
     * `AddEstateSpecificDetails`: the pair goes into the two fields of the leaf; the Villa
     * case serves Rowhouse and the Apartment case Rental and Tenement, so all eleven leaves
     * are covered.
     */
    method AddEstateSpecificDetails(specificOne: int, specificTwo: int) returns (builder: EstateBuilder)
      modifies estate`specificOne, estate`specificTwo
      ensures builder == this && estate.specificOne == specificOne && estate.specificTwo == specificTwo
    {
      estate.specificOne := specificOne;
      estate.specificTwo := specificTwo;
      builder := this;
    }

    /** `Build`: the estate object the setters changed, not a copy. */
    method Build() returns (built: Estate)
      ensures built == estate
    {
      built := estate;
    }
  }

  /**
   * `EstateCreator`: makes estates from category and index and numbers them from 10000 up
   * with its own counter. `issued` records the IDs handed out so far.
   */
  class EstateCreator {
    var nextId: int
    ghost var issued: seq<int>

    /** The IDs handed out are 10000, 10001, ... in order, and the counter is the next one. */
    ghost predicate Valid()
      reads this
    {
      nextId == 10000 + |issued| && forall i :: 0 <= i < |issued| ==> issued[i] == 10000 + i
    }

    /** A new creator starts counting at 10000. */
    constructor ()
      ensures Valid() && nextId == 10000 && issued == []
    {
      nextId := 10000;
      issued := [];
    }

    /**
     * `CreateEstate`: a new leaf for a supported pair, numbered with the counter, which then
     * moves on by one; for an unsupported pair null, and the counter stays.
     */
    method CreateEstate(estateType: EstateType, specificTypeIndex: int) returns (estate: Estate?)
      requires Valid()
      modifies this
      ensures Valid()
      ensures estate != null <==> CreateKind(estateType, specificTypeIndex).Some?
      ensures estate != null ==> fresh(estate) && Some(estate.kind) == CreateKind(estateType, specificTypeIndex)
      ensures estate != null ==> estate.id == old(nextId) && nextId == old(nextId) + 1 && issued == old(issued) + [estate.id]
      ensures estate != null ==> estate.id !in old(issued) && forall id :: id in old(issued) ==> id < estate.id
      ensures estate != null ==>
        (estate.legalForm == estate.kind.DefaultLegalForm() && estate.address == null
         && estate.seller == null && estate.buyer == null
         && estate.typeOne == 0 && estate.typeTwo == 0 && estate.specificOne == 0 && estate.specificTwo == 0)
      ensures estate == null ==> nextId == old(nextId) && issued == old(issued)
    {
      var kind := CreateKind(estateType, specificTypeIndex);
      estate := null;
      if kind.Some? {
        estate := new Estate(kind.value);
        estate.id := nextId;
        nextId := nextId + 1;
        issued := issued + [estate.id];
      }
    }
  }
}
