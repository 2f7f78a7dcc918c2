/**
 * `RealEstateService/EstateDTOBuilder.cs` and `RealEstateMAUIApp/Services/DTOBuilder.cs`:
 * two copies of one fluent builder of estate records. They differ only in how the category
 * reaches the constructor, so they are one class here with one factory method each. The
 * held record is immutable; every setter replaces it with an updated copy.
 */
module DtoBuilders {
  import opened Wrappers
  import opened Enums
  import opened Estates
  import opened Dtos

  const UnableToCreate := "Unable to create estate for the given type and index."

  /**
   * `CreateEstate` with its `CreateResidential`, `CreateCommercial` and
   * `CreateInstitutional` switches: a new leaf record, all members zero or null, for the
   * eleven supported pairs; none otherwise.
   */
  function CreateEstateDTO(estateType: EstateType, specificTypeIndex: int): (r: Option<LeafEstateDTO>)
    ensures r.Some? <==> CreateKind(estateType, specificTypeIndex).Some?
    ensures r.Some? ==> r.value.kind.GetEstateType() == estateType && r.value.kind.GetSpecificTypeIndex() == specificTypeIndex
    ensures r.Some? ==> r.value.base == DefaultBase
    ensures r.Some? ==> r.value.typeOne == r.value.typeTwo == r.value.specificOne == r.value.specificTwo == 0
  {
    var kind := CreateKind(estateType, specificTypeIndex);
    if kind.Some? then Some(NewLeafDTO(kind.value)) else None
  }

  /** The DTO-side and the entity-side switches pick the same leaf for every pair. */
  lemma SameLeafBothSides(estateType: EstateType, specificTypeIndex: int)
    ensures CreateEstateDTO(estateType, specificTypeIndex).Some? <==> CreateKind(estateType, specificTypeIndex).Some?
    ensures CreateEstateDTO(estateType, specificTypeIndex).Some? ==>
      CreateEstateDTO(estateType, specificTypeIndex).value.kind == CreateKind(estateType, specificTypeIndex).value
  {
  }

  class EstateDTOBuilder {
    var estate: LeafEstateDTO

    /** Holds the record made by the switch. */
    constructor (estate: LeafEstateDTO)
      ensures this.estate == estate
    {
      this.estate := estate;
    }

    /**
     * The service builder's `new EstateDTOBuilder(createDTO)`: the category ordinal is
     * cast to `EstateType`; an unsupported pair throws `InvalidOperationException`.
     */
    static method FromCreateDTO(createDTO: EstateCreateDTO) returns (r: Result<EstateDTOBuilder>)
      ensures r.Ok? <==> CreateKind(createDTO.estateType as EstateType, createDTO.specificTypeIndex).Some?
      ensures r.Ok? ==> fresh(r.value) && Some(r.value.estate) == CreateEstateDTO(createDTO.estateType as EstateType, createDTO.specificTypeIndex)
      ensures r.Err? ==> r.error == InvalidOperationException(UnableToCreate)
    {
      r := New(createDTO.estateType as EstateType, createDTO.specificTypeIndex);
    }

    /**
     * The app builder's `new EstateDTOBuilder(eType, specificIndex)`: the record for the
     * pair; an unsupported pair throws `InvalidOperationException`.
     */
    static method New(eType: EstateType, specificIndex: int) returns (r: Result<EstateDTOBuilder>)
      ensures r.Ok? <==> CreateKind(eType, specificIndex).Some?
      ensures r.Ok? ==> fresh(r.value) && Some(r.value.estate) == CreateEstateDTO(eType, specificIndex)
      ensures r.Err? ==> r.error == InvalidOperationException(UnableToCreate)
    {
      var estate := CreateEstateDTO(eType, specificIndex);
      if estate.None? {
        return Err(InvalidOperationException(UnableToCreate));
      }
      var builder := new EstateDTOBuilder(estate.value);
      r := Ok(builder);
    }

    /** `AddID`: only the ID changes. */
    method AddID(idNumber: int) returns (builder: EstateDTOBuilder)
      modifies this
      ensures builder == this && estate == Rebase(old(estate), old(estate).base.(id := idNumber))
    {
      estate := Rebase(estate, estate.base.(id := idNumber));
      builder := this;
    }

    /** `AddLegalForm`: only the legal form ordinal changes. */
    method AddLegalForm(legalForm: int) returns (builder: EstateDTOBuilder)
      modifies this
      ensures builder == this && estate == Rebase(old(estate), old(estate).base.(legalForm := legalForm))
    {
      estate := Rebase(estate, estate.base.(legalForm := legalForm));
      builder := this;
    }

    /** `AddAddress`: only the address changes, and it is now present. */
    method AddAddress(address: AddressDTO) returns (builder: EstateDTOBuilder)
      modifies this
      ensures builder == this && estate == Rebase(old(estate), old(estate).base.(address := Some(address)))
    {
      estate := Rebase(estate, estate.base.(address := Some(address)));
      builder := this;
    }

    /** `AddSeller`: only the seller changes, and it is now present. */
    method AddSeller(seller: SellerRecord) returns (builder: EstateDTOBuilder)
      modifies this
      ensures builder == this && estate == Rebase(old(estate), old(estate).base.(seller := Some(seller)))
    {
      estate := Rebase(estate, estate.base.(seller := Some(seller)));
      builder := this;
    }

    /** `AddBuyer`: only the buyer changes, and it is now present. */
    method AddBuyer(buyer: BuyerRecord) returns (builder: EstateDTOBuilder)
      modifies this
      ensures builder == this && estate == Rebase(old(estate), old(estate).base.(buyer := Some(buyer)))
    {
      estate := Rebase(estate, estate.base.(buyer := Some(buyer)));
      builder := this;
    }

    /**
     * `AddEstateTypeDetails`: the pair goes into the two members of the record's category
     * (Area and Bedrooms, YearBuilt and YearlyRevenue, or EstablishedYear and
     * NumberOfBuildings); nothing else changes.
     */
    method AddEstateTypeDetails(typeOne: int, typeTwo: int) returns (builder: EstateDTOBuilder)
      modifies this
      ensures builder == this && estate.typeOne == typeOne && estate.typeTwo == typeTwo
      ensures estate.kind == old(estate).kind && estate.base == old(estate).base
      ensures estate.specificOne == old(estate).specificOne && estate.specificTwo == old(estate).specificTwo
    {
      estate := LeafDTO(estate.kind, estate.base, typeOne, typeTwo, estate.specificOne, estate.specificTwo);
      builder := this;
    }

    /**
     * `AddEstateSpecificDetails`: the pair goes into the two members of the leaf record;
     * the VillaDTO case serves RowhouseDTO and the ApartmentDTO case RentalDTO and
     * TenementDTO. Nothing else changes.
     */
    method AddEstateSpecificDetails(specificOne: int, specificTwo: int) returns (builder: EstateDTOBuilder)
      modifies this
      ensures builder == this && estate.specificOne == specificOne && estate.specificTwo == specificTwo
      ensures estate.kind == old(estate).kind && estate.base == old(estate).base
      ensures estate.typeOne == old(estate).typeOne && estate.typeTwo == old(estate).typeTwo
    {
      estate := LeafDTO(estate.kind, estate.base, estate.typeOne, estate.typeTwo, specificOne, specificTwo);
      builder := this;
    }

    /** `Build`: the held record, whose leaf is the one chosen at construction. */
    method Build() returns (built: EstateDTO)
      ensures built == estate && built.LeafDTO?
    {
      built := estate;
    }
  }

  /**
   * A builder run through every setter yields the record with exactly the given members,
   * for the leaf its constructor chose.
   */
  method BuildAll(eType: EstateType, specificIndex: int, id: int, legalForm: int, address: AddressDTO,
                  seller: SellerRecord, buyer: BuyerRecord, typeOne: int, typeTwo: int, specificOne: int, specificTwo: int)
    returns (r: Result<EstateDTO>)
    ensures r.Ok? <==> CreateKind(eType, specificIndex).Some?
    ensures r.Ok? ==> r.value == LeafDTO(CreateKind(eType, specificIndex).value,
      BaseDTO(id, legalForm, Some(address), Some(seller), Some(buyer)), typeOne, typeTwo, specificOne, specificTwo)
  {
    var created := EstateDTOBuilder.New(eType, specificIndex);
    if created.Err? {
      return Err(created.error);
    }
    var builder := created.value;
    builder := builder.AddID(id);
    builder := builder.AddLegalForm(legalForm);
    builder := builder.AddAddress(address);
    builder := builder.AddSeller(seller);
    builder := builder.AddBuyer(buyer);
    builder := builder.AddEstateTypeDetails(typeOne, typeTwo);
    builder := builder.AddEstateSpecificDetails(specificOne, specificTwo);
    var built := builder.Build();
    r := Ok(built);
  }
}
