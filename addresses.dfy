/** `RealEstateBLL.Address`: a mutable postal address shared by reference. */
module Addresses {
  import opened Enums

  class Address {
    var street: string
    var city: string
    var zipCode: string
    var country: Countries

    /** The default address: empty text fields, in Sweden. */
    constructor Default()
      ensures street == "" && city == "" && zipCode == "" && country == Countries.Sweden
    {
      street := "";
      city := "";
      zipCode := "";
      country := Countries.Sweden;
    }

    /** An address from all its parts, stored unchanged. */
    constructor (street: string, city: string, zipCode: string, country: Countries)
      ensures this.street == street && this.city == city && this.zipCode == zipCode && this.country == country
    {
      this.street := street;
      this.city := city;
      this.zipCode := zipCode;
      this.country := country;
    }

    /** The two addresses hold the same four values. */
    predicate SameAs(other: Address)
      reads this, other
    {
      street == other.street && city == other.city && zipCode == other.zipCode && country == other.country
    }

    /**
     * Overwrites all four fields with those of `address`, keeping this object's identity.
     * The argument is left as it was, and updating from an address that already holds the
     * same values changes nothing, so a second identical update is a no-op.
     */
    method UpdateAddress(address: Address)
      modifies this
      ensures SameAs(address)
      ensures unchanged(address)
      ensures old(SameAs(address)) ==> unchanged(this)
    {
      street := address.street;
      city := address.city;
      zipCode := address.zipCode;
      country := address.country;
    }

    /** `"{Street}. {ZipCode}, {City}. {Country}"`. */
    function ToString(): string
      reads this
    {
      street + ". " + zipCode + ", " + city + ". " + country.Name()
    }
  }
}
