/**
 * `RealEstateService.EstateService`: the create/delete API of the service layer over its
 * own manager, and the name lists the forms are filled from.
 */
module EstateServices {
  import opened Wrappers
  import opened Enums
  import opened Addresses
  import opened Persons
  import opened Estates
  import opened Dtos
  import opened BllMapping
  import opened Managers
  import opened EstateBuilding
  import opened ServiceMapping

  /**
   * The record of the estate a creation request describes, once stored under `id`: the
   * request's legal form, address, seller names and address, buyer as given, and both pairs.
   */
  function RequestedRecord(request: EstateCreateDTO, kind: EstateKind, id: int): LeafEstateDTO
    requires request.buyer.BuyerDTO?
  {
    var seller := SellerDTO(request.seller.firstName, request.seller.lastName, request.seller.address);
    LeafDTO(kind, BaseDTO(id, request.legalForm, Some(request.address), Some(seller), Some(request.buyer)),
      request.typeDataOne, request.typeDataTwo, request.specificDataOne, request.specificDataTwo)
  }

  /**
   * `GetSpecificTypes` once `EnumConverter.CheckEstateType` has run: `checkedType` is its
   * result, an error when it threw. The subtype names of a defined category; none otherwise.
   */
  function GetSpecificTypes(checkedType: Result<EstateType>): (names: seq<string>)
    ensures checkedType.Err? ==> names == []
    ensures checkedType.Ok? ==> names == SpecificTypeNames(checkedType.value)
  {
    if checkedType.Err? then [] else SpecificTypeNames(checkedType.value)
  }

  /**
   * The subtypes offered for a category are exactly the ones the builder accepts: index i
   * is listed iff the pair can be built, and the leaf built for it shows the listed name.
   */
  lemma SpecificTypesAreCreatable(estateType: EstateType, index: int)
    ensures 0 <= index < |GetSpecificTypes(Ok(estateType))| <==> CreateKind(estateType, index).Some?
    ensures CreateKind(estateType, index).Some? ==>
      CreateKind(estateType, index).value.SpecificTypeName() == GetSpecificTypes(Ok(estateType))[index]
  {
    if CreateKind(estateType, index).Some? {
      var kind := CreateKind(estateType, index).value;
      assert kind.GetEstateType() == estateType && kind.GetSpecificTypeIndex() == index;
    }
  }

  /**
   * Lines 25-39 of `CreateEstate`: the mappers, then the builder chain. The new estate has
   * ID 0 until the manager numbers it, and every object it holds is new.
   */
  method BuildRequested(estate: EstateCreateDTO) returns (r: Result<Estate>)
    ensures r.Err? <==> !estate.buyer.BuyerDTO? || CreateKind(estate.estateType as EstateType, estate.specificTypeIndex).None?
    ensures !estate.buyer.BuyerDTO? ==> r == Err(InvalidCastException)
    ensures estate.buyer.BuyerDTO? && CreateKind(estate.estateType as EstateType, estate.specificTypeIndex).None? ==>
      r == Err(InvalidOperationException(UnableToCreate))
    ensures r.Ok? ==> fresh(r.value) && fresh(r.value.Parts() - {null})
    ensures r.Ok? ==> (MapEstateToDTO(r.value) ==
      RequestedRecord(estate, CreateKind(estate.estateType as EstateType, estate.specificTypeIndex).value, 0))
  {
    var eType := MapEstateType(estate.estateType);
    var estateAddress := AddressFromDTO(estate.address);
    var seller := MapPerson(PersonType.Seller, estate.seller);
    var buyer := MapPerson(PersonType.Buyer, estate.buyer);
    if buyer.Err? {
      return Err(buyer.error);
    }
    var seller' := seller.value;
    var buyer' := buyer.value;
    r := Assemble(estate, eType, estateAddress, seller', buyer');
    if r.Ok? {
      var e := r.value;
      assert e.address == estateAddress && e.seller == seller' && e.buyer == buyer';
    }
  }

  /** The builder chain of `CreateEstate` over objects already mapped; nothing existing changes. */
  method Assemble(estate: EstateCreateDTO, eType: EstateType, address: Address, seller: Person, buyer: Person)
    returns (r: Result<Estate>)
    requires seller.role == Seller && buyer.role == Buyer
    ensures r.Ok? <==> CreateKind(eType, estate.specificTypeIndex).Some?
    ensures r.Err? ==> r == Err(InvalidOperationException(UnableToCreate))
    ensures r.Ok? ==> fresh(r.value) && Some(r.value.kind) == CreateKind(eType, estate.specificTypeIndex)
    ensures r.Ok? ==> r.value.id == 0 && r.value.legalForm == estate.legalForm as LegalForm
    ensures r.Ok? ==> r.value.address == address && r.value.seller == seller && r.value.buyer == buyer
    ensures r.Ok? ==> r.value.typeOne == estate.typeDataOne && r.value.typeTwo == estate.typeDataTwo
    ensures r.Ok? ==> r.value.specificOne == estate.specificDataOne && r.value.specificTwo == estate.specificDataTwo
  {
    var created := EstateBuilder.New(eType, estate.specificTypeIndex);
    if created.Err? {
      return Err(created.error);
    }
    var builder := created.value;
    CreateKindOfLeaf(builder.estate.kind);
    builder := builder.AddLegalForm(estate.legalForm as LegalForm);
    builder := builder.AddAddress(address);
    builder := builder.AddSeller(seller);
    builder := builder.AddBuyer(buyer);
    builder := builder.AddEstateTypeDetails(estate.typeDataOne, estate.typeDataTwo);
    builder := builder.AddEstateSpecificDetails(estate.specificDataOne, estate.specificDataTwo);
    var newEstate := builder.Build();
    r := Ok(newEstate);
  }

  class EstateService {
    const estateManager: EstateManager

    /** A service over a new, empty manager. */
    constructor ()
      ensures fresh(estateManager) && estateManager.dictionary == map[]
    {
      estateManager := new EstateManager();
    }

    /**
     * `CreateEstate`: maps the request's persons (the buyer's cast can throw), builds the
     * estate (an unsupported pair throws) and adds it under the manager's next id. On
     * success the stored estate's record is exactly what the request describes, and the
     * returned id is the key it is stored under; on a throw the manager is untouched.
     */
    method CreateEstate(estate: EstateCreateDTO) returns (r: Result<(bool, int)>)
      modifies estateManager
      ensures r.Err? <==> !estate.buyer.BuyerDTO? || CreateKind(estate.estateType as EstateType, estate.specificTypeIndex).None?
      ensures !estate.buyer.BuyerDTO? ==> r == Err(InvalidCastException)
      ensures estate.buyer.BuyerDTO? && CreateKind(estate.estateType as EstateType, estate.specificTypeIndex).None? ==>
        r == Err(InvalidOperationException(UnableToCreate))
      ensures r.Err? ==> estateManager.dictionary == old(estateManager.dictionary)
      ensures r.Ok? ==> r.value.0 && r.value.1 == NewId(old(estateManager.dictionary.Keys))
      ensures r.Ok? ==> r.value.1 in estateManager.dictionary && fresh(estateManager.dictionary[r.value.1])
      ensures r.Ok? ==> estateManager.dictionary == old(estateManager.dictionary)[r.value.1 := estateManager.dictionary[r.value.1]]
      ensures r.Ok? ==> (MapEstateToDTO(estateManager.dictionary[r.value.1]) ==
        RequestedRecord(estate, CreateKind(estate.estateType as EstateType, estate.specificTypeIndex).value, r.value.1))
      ensures old(KeyedById(estateManager.dictionary)) ==> KeyedById(estateManager.dictionary)
    {
      var built := BuildRequested(estate);
      if built.Err? {
        return Err(built.error);
      }
      var newEstate := built.value;
      var added := estateManager.AddEstate(newEstate);
      r := Ok((added, newEstate.id));
    }

    /** `DeleteEstate`: true iff the id was present; afterwards it is absent and the rest stays. */
    method DeleteEstate(estateID: int) returns (isDeleted: bool)
      modifies estateManager
      ensures isDeleted <==> estateID in old(estateManager.dictionary)
      ensures estateManager.dictionary == old(estateManager.dictionary) - {estateID}
    {
      isDeleted := estateManager.Delete(estateID);
    }

    /** `GetEstateTypes`: the category names, entry i being the name of ordinal i. */
    function GetEstateTypes(): (estateTypes: seq<string>)
      ensures estateTypes == ["Residential", "Commercial", "Institutional"]
      ensures forall i :: 0 <= i < |estateTypes| ==> (i as EstateType).Name() == estateTypes[i]
    {
      EstateType.Names
    }

    /** `GetLegalForms`: the legal form names, entry i being the name of ordinal i. */
    function GetLegalForms(): (legalForms: seq<string>)
      ensures legalForms == ["Ownership", "Tenement", "Rental"]
      ensures forall i :: 0 <= i < |legalForms| ==> (i as LegalForm).Name() == legalForms[i]
    {
      LegalForm.Names
    }
  }
}
