/**
 * `RealEstateBLL/Class1.cs`: the older `EstateFactory` (a counter-numbered estate factory)
 * and the older `EstateBuilder`, which makes a factory of its own for every builder.
 */
module Legacy {
  import opened Wrappers
  import opened Enums
  import opened Addresses
  import opened Persons
  import opened Estates

  const UnableToCreate := "Unable to create estate for the given type and index."

  /** `EstateFactory`: numbers the estates it makes from 10000 up. */
  class EstateFactory {
    var nextId: int

    /** A new factory starts counting at 10000. */
    constructor ()
      ensures nextId == 10000
    {
      nextId := 10000;
    }

    /**
     * `CreateEstate`: a new leaf for a supported pair, numbered with the counter, which then
     * moves on by one; for an unsupported pair null, and the counter stays.
     */
    method CreateEstate(estateType: EstateType, specificTypeIndex: int) returns (estate: Estate?)
      modifies this
      ensures estate != null <==> CreateKind(estateType, specificTypeIndex).Some?
      ensures estate != null ==> fresh(estate) && Some(estate.kind) == CreateKind(estateType, specificTypeIndex)
      ensures estate != null ==> estate.id == old(nextId) && nextId == old(nextId) + 1
      ensures estate != null ==>
        (estate.legalForm == estate.kind.DefaultLegalForm() && estate.address == null
         && estate.seller == null && estate.buyer == null
         && estate.typeOne == 0 && estate.typeTwo == 0 && estate.specificOne == 0 && estate.specificTwo == 0)
      ensures estate == null ==> nextId == old(nextId)
    {
      var kind := CreateKind(estateType, specificTypeIndex);
      estate := null;
      if kind.Some? {
        estate := new Estate(kind.value);
        estate.id := nextId;
        nextId := nextId + 1;
      }
    }
  }

  /** The older builder: no `AddID` and no `AddPayment`. */
  class EstateBuilder {
    const estate: Estate
    const estateFactory: EstateFactory

    /** Holds an estate made by the builder's own factory. */
    constructor (estateFactory: EstateFactory, estate: Estate)
      ensures this.estateFactory == estateFactory && this.estate == estate
    {
      this.estateFactory := estateFactory;
      this.estate := estate;
    }

    /**
     * `new EstateBuilder(estateType, specificTypeIndex)`: a fresh factory makes the estate,
     * so every built estate has ID 10000; an unsupported pair throws
     * `InvalidOperationException`.
     */
    static method New(estateType: EstateType, specificTypeIndex: int) returns (r: Result<EstateBuilder>)
      ensures r.Ok? <==> CreateKind(estateType, specificTypeIndex).Some?
      ensures r.Err? ==> r.error == InvalidOperationException(UnableToCreate)
      ensures r.Ok? ==> fresh(r.value) && fresh(r.value.estate) && fresh(r.value.estateFactory)
      ensures r.Ok? ==> r.value.estate.id == 10000 && r.value.estateFactory.nextId == 10001
      ensures r.Ok? ==> Some(r.value.estate.kind) == CreateKind(estateType, specificTypeIndex)
    {
      var estateFactory := new EstateFactory();
      var estate := estateFactory.CreateEstate(estateType, specificTypeIndex);
      if estate == null {
        return Err(InvalidOperationException(UnableToCreate));
      }
      var builder := new EstateBuilder(estateFactory, estate);
      r := Ok(builder);
    }

    /** `AddLegalForm`: sets the legal form and nothing else. */
    method AddLegalForm(legalForm: LegalForm) returns (builder: EstateBuilder)
      modifies estate`legalForm
      ensures builder == this && estate.legalForm == legalForm
    {
      estate.legalForm := legalForm;
      builder := this;
    }

    /** `AddAddress`: stores the given address object. */
    method AddAddress(address: Address) returns (builder: EstateBuilder)
      modifies estate`address
      ensures builder == this && estate.address == address
    {
      estate.address := address;
      builder := this;
    }

    /** `AddSeller`: stores the given seller object. */
    method AddSeller(seller: Person) returns (builder: EstateBuilder)
      requires seller.role == Seller
      modifies estate`seller
      ensures builder == this && estate.seller == seller
    {
      estate.seller := seller;
      builder := this;
    }

    /** `AddBuyer`: stores the given buyer object. */
    method AddBuyer(buyer: Person) returns (builder: EstateBuilder)
      requires buyer.role == Buyer
      modifies estate`buyer
      ensures builder == this && estate.buyer == buyer
    {
      estate.buyer := buyer;
      builder := this;
    }

    /** `AddEstateTypeDetails`: the pair goes into the two fields of the estate's category. */
    method AddEstateTypeDetails(typeOne: int, typeTwo: int) returns (builder: EstateBuilder)
      modifies estate`typeOne, estate`typeTwo
      ensures builder == this && estate.typeOne == typeOne && estate.typeTwo == typeTwo
    {
      estate.typeOne := typeOne;
      estate.typeTwo := typeTwo;
      builder := this;
    }

    /** `AddEstateSpecificDetails`: the pair goes into the two fields of the leaf, for all eleven leaves. */
    method AddEstateSpecificDetails(specificOne: int, specificTwo: int) returns (builder: EstateBuilder)
      modifies estate`specificOne, estate`specificTwo
      ensures builder == this && estate.specificOne == specificOne && estate.specificTwo == specificTwo
    {
      estate.specificOne := specificOne;
      estate.specificTwo := specificTwo;
      builder := this;
    }

    /** `Build`: the estate object the setters changed. */
    method Build() returns (built: Estate)
      ensures built == estate
    {
      built := estate;
    }
  }

  /** Two builders never share a factory, so both of their estates are numbered 10000. */
  method TwoBuildersSameId(estateType: EstateType, specificTypeIndex: int)
    returns (first: Result<EstateBuilder>, second: Result<EstateBuilder>)
    ensures first.Ok? <==> second.Ok?
    ensures first.Ok? ==> first.value.estate != second.value.estate && first.value.estate.id == second.value.estate.id == 10000
  {
    first := EstateBuilder.New(estateType, specificTypeIndex);
    second := EstateBuilder.New(estateType, specificTypeIndex);
  }
}
