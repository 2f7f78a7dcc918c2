/**
 * The C# enums of the business layer. A C# enum is an `int` with named values, and a
 * cast from any `int` is legal, so each enum is a newtype over `int` with its named
 * values as constants. `Name()` is the enum's `ToString()`: the member name for a named
 * value and the decimal number for any other value.
 */
module Enums {
  import opened Text

  /** The name of `value` in an enum whose members are `names` in ordinal order. */
  function EnumName(names: seq<string>, value: int): (r: string)
    ensures 0 <= value < |names| ==> r == names[value]
    ensures !(0 <= value < |names|) ==> r == IntToString(value)
  {
    if 0 <= value < |names| then names[value] else IntToString(value)
  }

  newtype EstateType = int {
    static const Residential: EstateType := 0
    static const Commercial: EstateType := 1
    static const Institutional: EstateType := 2
    /** `Enum.GetNames(typeof(EstateType))`. */
    static const Names: seq<string> := ["Residential", "Commercial", "Institutional"]
    function Name(): string { EnumName(Names, this as int) }
  }

  newtype ResidentialType = int {
    static const Villa: ResidentialType := 0
    static const Rowhouse: ResidentialType := 1
    static const Rental: ResidentialType := 2
    static const Tenement: ResidentialType := 3
    static const Names: seq<string> := ["Villa", "Rowhouse", "Rental", "Tenement"]
    function Name(): string { EnumName(Names, this as int) }
  }

  newtype CommercialType = int {
    static const Factory: CommercialType := 0
    static const Hotel: CommercialType := 1
    static const Shop: CommercialType := 2
    static const Warehouse: CommercialType := 3
    static const Names: seq<string> := ["Factory", "Hotel", "Shop", "Warehouse"]
    function Name(): string { EnumName(Names, this as int) }
  }

  newtype InstitutionalType = int {
    static const Hospital: InstitutionalType := 0
    static const School: InstitutionalType := 1
    static const University: InstitutionalType := 2
    static const Names: seq<string> := ["Hospital", "School", "University"]
    function Name(): string { EnumName(Names, this as int) }
  }

  /** The legal form of an estate; the default value of the type is `Ownership`. */
  newtype LegalForm = int {
    static const Ownership: LegalForm := 0
    static const Tenement: LegalForm := 1
    static const Rental: LegalForm := 2
    static const Names: seq<string> := ["Ownership", "Tenement", "Rental"]
    function Name(): string { EnumName(Names, this as int) }
  }

  /** Which kind of person to create: a seller or a buyer. */
  newtype PersonType = int {
    static const Seller: PersonType := 0
    static const Buyer: PersonType := 1
  }

  /**
   * A country. Only the member `Sweden` is known, and its ordinal is taken to be 0;
   * every other country is rendered by its ordinal.
   */
  newtype Countries = int {
    static const Sweden: Countries := 0
    function Name(): string { if this == Sweden then "Sweden" else IntToString(this as int) }
  }
}
