/**
 * `RealEstateBLL.Estates`: the abstract `Estate`, its three abstract categories
 * (`Residential`, `Commercial`, `Institutional`) and the eleven concrete leaves, as one
 * class whose leaf is fixed at construction.
 *
 * Every category declares two `int` properties and every leaf two more, so an estate
 * holds two category-level fields and two leaf-level fields, in declaration order:
 *   Residential: Area, Bedrooms;  Commercial: YearBuilt, YearlyRevenue;
 *   Institutional: EstablishedYear, NumberOfBuildings;
 *   Villa and Rowhouse: Floors, PlotArea;  Rental and Tenement: OnFloor, MonthlyCost;
 *   Factory: ProductionCapacity, NumberOfEmployees;  Hotel: NumberOfBeds, NumberOfParkingSpots;
 *   Shop: CustomerCapacity, StorageArea;  Warehouse: StorageArea, NumberOfLoadingDocks;
 *   Hospital: NumberOfBeds, NumberOfParkingSpots;  School: NumberOfTeachers, StudentCapacity;
 *   University: CampusArea, StudentCapacity.
 */
module Estates {
  import opened Wrappers
  import opened Text
  import opened Enums
  import opened Addresses
  import opened Payments
  import opened Persons

  /** The concrete estate classes. */
  datatype EstateKind =
    | Villa | Rowhouse | Rental | Tenement
    | Factory | Hotel | Shop | Warehouse
    | Hospital | School | University
  {
    /** `GetEstateType()`: the category the leaf inherits from. */
    function GetEstateType(): (t: EstateType)
      ensures t == EstateType.Residential || t == EstateType.Commercial || t == EstateType.Institutional
    {
      match this
      case Villa | Rowhouse | Rental | Tenement => EstateType.Residential
      case Factory | Hotel | Shop | Warehouse => EstateType.Commercial
      case Hospital | School | University => EstateType.Institutional
    }

    /** `GetSpecficTypeIndex()`: the leaf's ordinal in its category's enum, a defined one. */
    function GetSpecificTypeIndex(): (index: int)
      ensures 0 <= index < |SpecificTypeNames(GetEstateType())|
    {
      match this
      case Villa => ResidentialType.Villa as int
      case Rowhouse => ResidentialType.Rowhouse as int
      case Rental => ResidentialType.Rental as int
      case Tenement => ResidentialType.Tenement as int
      case Factory => CommercialType.Factory as int
      case Hotel => CommercialType.Hotel as int
      case Shop => CommercialType.Shop as int
      case Warehouse => CommercialType.Warehouse as int
      case Hospital => InstitutionalType.Hospital as int
      case School => InstitutionalType.School as int
      case University => InstitutionalType.University as int
    }

    /** The legal form a newly constructed leaf starts with: Rental and Tenement set their own. */
    function DefaultLegalForm(): (legalForm: LegalForm)
      ensures legalForm == LegalForm.Rental <==> this.Rental?
      ensures legalForm == LegalForm.Tenement <==> this.Tenement?
      ensures legalForm == LegalForm.Ownership <==> !(this.Rental? || this.Tenement?)
    {
      match this
      case Rental => LegalForm.Rental
      case Tenement => LegalForm.Tenement
      case _ => LegalForm.Ownership
    }

    /** `GetSpecificLabels()`: the captions of the two leaf-level fields. */
    function GetSpecificLabels(): (labels: seq<string>)
      ensures |labels| == 2
    {
      match this
      case Villa | Rowhouse => ["Floors", "Plot Area"]
      case Rental | Tenement => ["On Floor", "Monthly Cost"]
      case Factory => ["Production Capacity", "No. of Employees"]
      case Hotel | Hospital => ["No. of Beds", "No. of Parkings Spots"]
      case Shop => ["Customer Capacity", "Storage Area"]
      case Warehouse => ["Storage Area", "No. of Loading Docks"]
      case School => ["No. of Teachers", "Student Capacity"]
      case University => ["Campus Area", "Student Capacity"]
    }

    /**
     * The specific type shown in the detail list: the leaf's index cast to its category's
     * enum and rendered; it is the leaf's entry in that enum's name table.
     */
    function SpecificTypeName(): (name: string)
      ensures name == SpecificTypeNames(GetEstateType())[GetSpecificTypeIndex()]
    {
      var t := GetEstateType();
      if t == EstateType.Residential then (GetSpecificTypeIndex() as ResidentialType).Name()
      else if t == EstateType.Commercial then (GetSpecificTypeIndex() as CommercialType).Name()
      else (GetSpecificTypeIndex() as InstitutionalType).Name()
    }
  }

  /** The names of the subtypes of a category, in ordinal order; none for an undefined category. */
  function SpecificTypeNames(t: EstateType): (names: seq<string>)
    ensures |names| == if t == EstateType.Residential || t == EstateType.Commercial then 4
      else if t == EstateType.Institutional then 3 else 0
  {
    if t == EstateType.Residential then ResidentialType.Names
    else if t == EstateType.Commercial then CommercialType.Names
    else if t == EstateType.Institutional then InstitutionalType.Names
    else []
  }

  /** `CreateResidential((ResidentialType)index)`: the leaf with that ordinal, or null. */
  function CreateResidential(residentialType: ResidentialType): Option<EstateKind>
  {
    if residentialType == ResidentialType.Villa then Some(Villa)
    else if residentialType == ResidentialType.Rowhouse then Some(Rowhouse)
    else if residentialType == ResidentialType.Rental then Some(Rental)
    else if residentialType == ResidentialType.Tenement then Some(Tenement)
    else None
  }

  /** `CreateCommercial((CommercialType)index)`. */
  function CreateCommercial(commercialType: CommercialType): Option<EstateKind>
  {
    if commercialType == CommercialType.Factory then Some(Factory)
    else if commercialType == CommercialType.Hotel then Some(Hotel)
    else if commercialType == CommercialType.Shop then Some(Shop)
    else if commercialType == CommercialType.Warehouse then Some(Warehouse)
    else None
  }

  /** `CreateInstitutional((InstitutionalType)index)`. */
  function CreateInstitutional(institutionalType: InstitutionalType): Option<EstateKind>
  {
    if institutionalType == InstitutionalType.Hospital then Some(Hospital)
    else if institutionalType == InstitutionalType.School then Some(School)
    else if institutionalType == InstitutionalType.University then Some(University)
    else None
  }

  /**
   * The two-level switch of every estate factory and builder: the category selects a
   * sub-switch, which casts the index to that category's enum. Exactly the pairs
   * (Residential, 0..3), (Commercial, 0..3) and (Institutional, 0..2) give a leaf, and
   * that leaf reports the category and index it was created from.
   */
  function CreateKind(estateType: EstateType, specificTypeIndex: int): (r: Option<EstateKind>)
    ensures r.Some? <==>
      (estateType == EstateType.Residential && 0 <= specificTypeIndex <= 3) ||
      (estateType == EstateType.Commercial && 0 <= specificTypeIndex <= 3) ||
      (estateType == EstateType.Institutional && 0 <= specificTypeIndex <= 2)
    ensures r.Some? ==> r.value.GetEstateType() == estateType && r.value.GetSpecificTypeIndex() == specificTypeIndex
  {
    if estateType == EstateType.Residential then CreateResidential(specificTypeIndex as ResidentialType)
    else if estateType == EstateType.Commercial then CreateCommercial(specificTypeIndex as CommercialType)
    else if estateType == EstateType.Institutional then CreateInstitutional(specificTypeIndex as InstitutionalType)
    else None
  }

  /** Every leaf is created by its own category and index, so the table hits all eleven leaves. */
  lemma CreateKindOfLeaf(kind: EstateKind)
    ensures CreateKind(kind.GetEstateType(), kind.GetSpecificTypeIndex()) == Some(kind)
  {
  }

  /** The three parts of `a + b + c` are found at their own offsets. */
  lemma ConcatParts<T>(a: seq<T>, b: seq<T>, c: seq<T>)
    ensures (a + b + c)[..|a|] == a
    ensures (a + b + c)[|a|..|a| + |b|] == b
    ensures forall i :: 0 <= i < |c| ==> (a + b + c)[|a| + |b| + i] == c[i]
  {
  }

  /** The first two of four concatenated parts are at the front. */
  lemma LeadingParts<T>(a: seq<T>, b: seq<T>, c: seq<T>, d: seq<T>)
    ensures |a + b + c + d| >= |a| + |b|
    ensures (a + b + c + d)[..|a|] == a && (a + b + c + d)[|a|..|a| + |b|] == b
  {
    var all := a + b + c + d;
    assert all == (a + b) + (c + d);
    assert all[..|a| + |b|] == a + b;
  }

  /** A block `[h] + d + [sep]` between `pre` and `post` starts at position `|pre|` of the whole. */
  lemma BlockInside<T>(pre: seq<T>, block: seq<T>, post: seq<T>, d: seq<T>, h: T, sep: T)
    requires |block| == 2 + |d| && block[0] == h && block[1..1 + |d|] == d && block[1 + |d|] == sep
    ensures var all, p := pre + block + post, |pre|;
      |all| == p + 2 + |d| + |post| && all[p] == h && all[p + 1..p + 1 + |d|] == d && all[p + 1 + |d|] == sep
  {
    var all, p := pre + block + post, |pre|;
    assert all[p] == block[0];
    assert all[p + 1 + |d|] == block[1 + |d|];
    assert all[p + 1..p + 1 + |d|] == d by {
      assert forall j :: 0 <= j < |d| ==> all[p + 1 + j] == block[1 + j] == d[j];
    }
  }

  class Estate {
    /** The concrete class of the estate. */
    const kind: EstateKind
    var id: int
    var address: Address?
    var seller: Person?
    var buyer: Person?
    var legalForm: LegalForm
    /** The two fields of the category (Area and Bedrooms for a Residential, ...). */
    var typeOne: int
    var typeTwo: int
    /** The two fields of the leaf (Floors and PlotArea for a Villa, ...). */
    var specificOne: int
    var specificTwo: int

    /** The parameterless constructor of a leaf: everything zero or null, and the leaf's default legal form. */
    constructor (kind: EstateKind)
      ensures this.kind == kind && Initial()
    {
      this.kind := kind;
      id := 0;
      address := null;
      seller := null;
      buyer := null;
      legalForm := kind.DefaultLegalForm();
      typeOne := 0;
      typeTwo := 0;
      specificOne := 0;
      specificTwo := 0;
    }

    /** The state the parameterless constructor leaves: nothing set but the leaf's default legal form. */
    predicate Initial()
      reads this
    {
      id == 0 && legalForm == kind.DefaultLegalForm()
      && address == null && seller == null && buyer == null
      && typeOne == 0 && typeTwo == 0 && specificOne == 0 && specificTwo == 0
    }

    /** The seller is a `Seller` and the buyer a `Buyer`, as the C# property types guarantee. */
    predicate RolesAsDeclared()
      reads this
    {
      (seller != null ==> seller.role == Seller) && (buyer != null ==> buyer.role == Buyer)
    }

    /** The objects an estate's details are read from: itself, its address, and each person with their address and payment. */
    ghost function Parts(): set<object?>
      reads this, seller, buyer
    {
      {this, address}
      + (if seller != null then {seller, seller.address, seller.payment} else {})
      + (if buyer != null then {buyer, buyer.address, buyer.payment} else {})
    }

    /** `GetSpecificInfo()`: the two leaf-level fields as text. */
    function GetSpecificInfo(): (info: seq<string>)
      reads this
      ensures |info| == 2 == |kind.GetSpecificLabels()|
    {
      [IntToString(specificOne), IntToString(specificTwo)]
    }

    /** Each leaf value reads back from its text: the first entry is the first leaf field, the second the second. */
    lemma SpecificInfoReadBack()
      ensures IsInt32(specificOne) ==> ParseInt32(GetSpecificInfo()[0]) == Some(specificOne)
      ensures IsInt32(specificTwo) ==> ParseInt32(GetSpecificInfo()[1]) == Some(specificTwo)
    {
      if IsInt32(specificOne) {
        ParseIntToString(specificOne);
      }
      if IsInt32(specificTwo) {
        ParseIntToString(specificTwo);
      }
    }

    /** The first detail line: `"ID: {ID}. {EstateType}, {specific type}. {LegalForm}"`. */
    function InfoLine(): string
      reads this
    {
      "ID: " + (IntToString(id) + ". " + (kind.GetEstateType().Name() + ", " + kind.SpecificTypeName() + ". " + legalForm.Name()))
    }

    /** The info line starts with "ID: ", and the text from there up to the first '.' parses back to the ID. */
    lemma IdFromInfoLine()
      requires IsInt32(id)
      ensures |InfoLine()| >= 4 && InfoLine()[..4] == "ID: "
      ensures ParseInt32(BeforeFirst(InfoLine()[4..], '.')) == Some(id)
    {
      ParseLabelledField("ID: ", id, kind.GetEstateType().Name() + ", " + kind.SpecificTypeName() + ". " + legalForm.Name());
    }

    /**
     * `Estate.GetDetailsAsList()`: the info line and a separator, then the address, the
     * seller and the buyer, each present exactly when the field is set and each closed by
     * a separator. `showAmount` renders a buyer's payment amount.
     */
    function BaseDetails(showAmount: Amount -> string): (details: seq<string>)
      reads Parts()
      ensures |details| ==
        2 + (if address != null then 2 else 0)
          + (if seller != null then 2 + |seller.GetDetailsAsList(showAmount)| else 0)
          + (if buyer != null then 2 + |buyer.GetDetailsAsList(showAmount)| else 0)
    {
      [InfoLine(), "---------"] + AddressBlock() + PersonBlock("Seller:", seller, showAmount) + PersonBlock("Buyer:", buyer, showAmount)
    }

    /**
     * The base details open with the info line and a separator, followed by the address
     * block, which is the address line and a separator when there is an address.
     */
    lemma BaseDetailsLayout(showAmount: Amount -> string)
      ensures var details, a := BaseDetails(showAmount), |AddressBlock()|;
        |details| >= 2 + a && details[..2] == [InfoLine(), "---------"] && details[2..2 + a] == AddressBlock()
      ensures address != null ==> BaseDetails(showAmount)[2..4] == [address.ToString(), "---------"]
    {
      LeadingParts([InfoLine(), "---------"], AddressBlock(), PersonBlock("Seller:", seller, showAmount),
        PersonBlock("Buyer:", buyer, showAmount));
    }

    /** With a seller, the address block is followed by "Seller:", the seller's details and a separator. */
    lemma SellerBlockLayout(showAmount: Amount -> string)
      requires seller != null
      ensures var details, a, s := BaseDetails(showAmount), |AddressBlock()|, seller.GetDetailsAsList(showAmount);
        |details| > 3 + a + |s| && details[2 + a] == "Seller:" && details[3 + a..3 + a + |s|] == s
        && details[3 + a + |s|] == "---------"
    {
      BlockInside([InfoLine(), "---------"] + AddressBlock(), PersonBlock("Seller:", seller, showAmount),
        PersonBlock("Buyer:", buyer, showAmount), seller.GetDetailsAsList(showAmount), "Seller:", "---------");
    }

    /** With a buyer, the list ends with "Buyer:", the buyer's details and a separator, after the seller block. */
    lemma BuyerBlockLayout(showAmount: Amount -> string)
      requires buyer != null
      ensures var details, b := BaseDetails(showAmount), buyer.GetDetailsAsList(showAmount);
        var p := 2 + |AddressBlock()| + |PersonBlock("Seller:", seller, showAmount)|;
        |details| == p + 2 + |b| && details[p] == "Buyer:" && details[p + 1..p + 1 + |b|] == b
        && details[p + 1 + |b|] == "---------"
    {
      var before := [InfoLine(), "---------"] + AddressBlock() + PersonBlock("Seller:", seller, showAmount);
      var buyers := PersonBlock("Buyer:", buyer, showAmount);
      BlockInside(before, buyers, [], buyer.GetDetailsAsList(showAmount), "Buyer:", "---------");
      assert before + buyers + [] == before + buyers;
    }

    /** The address line and a separator, when there is an address. */
    function AddressBlock(): (block: seq<string>)
      reads this, address
      ensures |block| == if address != null then 2 else 0
    {
      if address != null then [address.ToString(), "---------"] else []
    }

    /** A heading, the person's details and a separator, when there is a person; nothing otherwise. */
    static function PersonBlock(heading: string, person: Person?, showAmount: Amount -> string): (block: seq<string>)
      reads person, if person != null then {person.address, person.payment} else {}
      ensures person == null ==> block == []
      ensures person != null ==>
        var d := person.GetDetailsAsList(showAmount);
        |block| == 2 + |d| && block[0] == heading && block[1..1 + |d|] == d && block[1 + |d|] == "---------"
    {
      if person != null then [heading] + person.GetDetailsAsList(showAmount) + ["---------"] else []
    }

    /** The two category lines of `Residential`, `Commercial` or `Institutional.GetDetailsAsList()`. */
    function CategoryDetails(): (lines: seq<string>)
      reads this
      ensures |lines| == 2
    {
      var t := kind.GetEstateType();
      if t == EstateType.Residential then
        ["Area: " + IntToString(typeOne) + " m^2", "Bedrooms: " + IntToString(typeTwo)]
      else if t == EstateType.Commercial then
        ["Year Built: " + IntToString(typeOne), "Yearly Revenue: " + IntToString(typeTwo) + ",-"]
      else
        ["Established Year: " + IntToString(typeOne), "No. of Buildings: " + IntToString(typeTwo)]
    }

    /**
     * The category lines show the category's two fields under their captions and units:
     * the first line the first field, the second line the second.
     */
    lemma CategoryDetailsReadBack()
      ensures var lines, t := CategoryDetails(), kind.GetEstateType();
        t == EstateType.Residential ==>
          Shows(lines[0], "Area: ", typeOne, " m^2") && Shows(lines[1], "Bedrooms: ", typeTwo, "")
      ensures var lines, t := CategoryDetails(), kind.GetEstateType();
        t == EstateType.Commercial ==>
          Shows(lines[0], "Year Built: ", typeOne, "") && Shows(lines[1], "Yearly Revenue: ", typeTwo, ",-")
      ensures var lines, t := CategoryDetails(), kind.GetEstateType();
        t == EstateType.Institutional ==>
          Shows(lines[0], "Established Year: ", typeOne, "") && Shows(lines[1], "No. of Buildings: ", typeTwo, "")
    {
      var t := kind.GetEstateType();
      if t == EstateType.Residential {
        ShowsRendered("Area: ", typeOne, " m^2");
        ShowsRenderedAtEnd("Bedrooms: ", typeTwo);
      } else if t == EstateType.Commercial {
        ShowsRenderedAtEnd("Year Built: ", typeOne);
        ShowsRendered("Yearly Revenue: ", typeTwo, ",-");
      } else {
        ShowsRenderedAtEnd("Established Year: ", typeOne);
        ShowsRenderedAtEnd("No. of Buildings: ", typeTwo);
      }
    }

    /**
     * The details of a concrete estate: the base details, the two category lines, and one
     * `"{label}: {data}"` line for each of the two leaf fields. Every leaf supplies two
     * labels and two values, so the list is always exactly four longer than the base.
     */
    function GetDetailsAsList(showAmount: Amount -> string): (details: seq<string>)
      reads Parts()
      ensures |details| == |BaseDetails(showAmount)| + 4
    {
      var labels := kind.GetSpecificLabels();
      var data := GetSpecificInfo();
      BaseDetails(showAmount) + CategoryDetails() + [labels[0] + ": " + data[0], labels[1] + ": " + data[1]]
    }

    /** The full list is the base details followed by the two category lines and the two leaf lines. */
    lemma DetailsLayout(showAmount: Amount -> string)
      ensures var base, details := BaseDetails(showAmount), GetDetailsAsList(showAmount);
        details[..|base|] == base && details[|base|..|base| + 2] == CategoryDetails()
    {
      var base, category := BaseDetails(showAmount), CategoryDetails();
      var labels, data := kind.GetSpecificLabels(), GetSpecificInfo();
      ConcatParts(base, category, [labels[0] + ": " + data[0], labels[1] + ": " + data[1]]);
    }

    /** The last two lines are `"{label}: {data}"` for the leaf's two fields. */
    lemma LeafDetailLines(showAmount: Amount -> string)
      ensures var base, details := BaseDetails(showAmount), GetDetailsAsList(showAmount);
        forall i :: 0 <= i < 2 ==> details[|base| + 2 + i] == kind.GetSpecificLabels()[i] + ": " + GetSpecificInfo()[i]
    {
      var base, category := BaseDetails(showAmount), CategoryDetails();
      var labels, data := kind.GetSpecificLabels(), GetSpecificInfo();
      ConcatParts(base, category, [labels[0] + ": " + data[0], labels[1] + ": " + data[1]]);
    }

    /** `"{ID}; {EstateType}; {Address}"`, with nothing after the second separator when there is no address. */
    function ToString(): string
      reads this, address
    {
      IntToString(id) + "; " + (kind.GetEstateType().Name() + "; " + (if address != null then address.ToString() else ""))
    }

    /**
     * The two estates hold the same values: the same leaf, base fields and four detail
     * fields, equal addresses, sellers with equal names and addresses, and buyers that also
     * agree on their payment.
     */
    predicate SameContentsAs(other: Estate)
      reads Parts(), other.Parts()
    {
      kind == other.kind && id == other.id && legalForm == other.legalForm &&
      typeOne == other.typeOne && typeTwo == other.typeTwo &&
      specificOne == other.specificOne && specificTwo == other.specificTwo &&
      (address == null <==> other.address == null) &&
      (address != null ==> address.SameAs(other.address)) &&
      SamePerson(seller, other.seller, false) &&
      SamePerson(buyer, other.buyer, true)
    }

    /** Both absent, or both present with equal names and addresses and, for buyers, equal payments. */
    static predicate SamePerson(p: Person?, q: Person?, withPayment: bool)
      reads p, q
      reads if p != null then {p.address, p.payment} else {}
      reads if q != null then {q.address, q.payment} else {}
    {
      (p == null <==> q == null) &&
      (p != null ==>
        p.firstName == q.firstName && p.lastName == q.lastName && p.address.SameAs(q.address) &&
        (withPayment ==>
          (p.payment == null <==> q.payment == null) &&
          (p.payment != null ==> p.payment.SameDetailsAs(q.payment))))
    }

    /** The list view recovers an estate's ID by parsing the text before the first ';' of `ToString()`. */
    lemma IdFromToString()
      requires IsInt32(id)
      ensures ParseInt32(BeforeFirst(ToString(), ';')) == Some(id)
    {
      ParseFirstField(id, kind.GetEstateType().Name() + "; " + (if address != null then address.ToString() else ""));
    }
  }
}
