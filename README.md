# Real-estate record keeper: a verified Dafny model of its business core

The system keeps estates for sale in memory. There are three categories (Residential, Commercial,
Institutional) with eleven concrete kinds, each with a seller, a buyer with a payment, and an
address. It lists and filters the estates, creates them through factories and fluent builders,
and converts them to and from immutable records (DTOs) that the service and file layers use.

The model covers these parts:

- **Entities** (`enums.dfy`, `addresses.dfy`, `payments.dfy`, `persons.dfy`, `estates.dfy`).
  - The C# enums are newtypes over `int`, because a cast from any `int` is legal in C#.
  - `Address`, `Payment`, `Person` and `Estate` are classes. Their update rules keep or replace object identity exactly as the C# does.
  - The class hierarchies are single classes whose subclass is a constant tag: `Role`, `PaymentType` and `EstateKind`.
  - An estate stores two category-level fields and two leaf-level fields, in declaration order (see the `Estates` module comment).
- **Records** (`dtos.dfy`). The estate, person, address and payment records are datatypes, so they compare by value, as C# records do.
- **Manager** (`managers.dfy`). `DictionaryManager<int, Estate>` and `EstateManager` are one class that holds a `map<int, Estate>`. It covers:
  - the add, change, delete and lookup operations;
  - listings in key order and the search by country;
  - new ids from "highest key + 1, or 10000";
  - the save and load steps around the file layer.
- **Factories and builders**:
  - `builders.dfy`: the business builder and `EstateCreator`;
  - `legacy.dfy`: `Class1.cs`;
  - `dto_builders.dfy`: the two copies of the record builder.
- **Mappings and services**:
  - `bll_mapping.dfy`: the business mapper, written as explicit per-variant copies in both directions;
  - `service_mapping.dfy`: the service mapper;
  - `bll_service.dfy`: `BLLService`;
  - `estate_service.dfy`: `EstateService`.
- **Integer text** (`text.dfy`, `string_converter.dfy`): rendering `int` values and `StringConverter.ConvertToInteger`.

Calls whose results the model cannot see are passed in as parameters:

- reading and writing files;
- `EnumConverter`.

Exceptions are the `Err` case of a `Result`.

## Model

| member | source | states |
|---|---|---|
| Enums.EnumName | RealEstateBLL/Estates/Enums.cs:7-54 | An enum value's name is its entry in the declared name table; an undefined value renders as its decimal number |
| Text.IntToString | RealEstateBLL/Estates/Estate.cs:117-120 | An `int` renders as an optional '-' followed by digits |
| Text.ParseInt32 | UtilitiesLib/StringConverter.cs:14 | A successful parse (the `int.TryParse` approximation) yields a 32-bit value from non-empty text |
| Text.ParseIntToString | RealEstateMAUIApp/ExistingsEstates.xaml.cs:88 | Every 32-bit integer survives rendering followed by parsing |
| Text.BeforeFirst | RealEstateMAUIApp/ExistingsEstates.xaml.cs:88 | `Split(c)[0]`: the longest prefix without `c`, followed by `c` or at the end of the text |
| Text.BeforeFirstOfJoin | RealEstateMAUIApp/ExistingsEstates.xaml.cs:88 | Splitting `a + c + b` on `c` gives back `a` when `a` has no `c` |
| Text.IntToStringHasNo | RealEstateBLL/Estates/Estate.cs:117-120 | A rendered integer contains no character other than digits and '-', so in particular no ';' |
| Text.ParseFirstField | RealEstateMAUIApp/ExistingsEstates.xaml.cs:88 | The text before the first ';' of "n; rest" parses back to the 32-bit integer n, whatever `rest` holds |
| Text.ParseLabelledField | RealEstateBLL/Estates/Estate.cs:76 | In "caption" + "n. rest", the text after the caption up to the first '.' parses back to the 32-bit integer n |
| Text.ShowsRendered | RealEstateBLL/Estates/Residential/Residential.cs:35 | A number rendered between a caption and a unit is shown under them and reads back from the text between them |
| Text.ShowsRenderedAtEnd | RealEstateBLL/Estates/Residential/Residential.cs:36 | Likewise for a number that ends the line |
| Text.ToLower | RealEstateBLL/BLLService.cs:105 | Lower-casing keeps the length, maps 'A'..'Z' to 'a'..'z' and keeps every other character |
| StringConverter.ConvertToInteger | UtilitiesLib/StringConverter.cs:12-18 | Succeeds exactly on parseable text and yields the parsed value; otherwise FormatException with the message naming the text |
| StringConverter.ConvertToIntegerInRange | UtilitiesLib/StringConverter.cs:30-39 | Succeeds exactly when the text parses and the value is within the inclusive bounds; a parse failure is reported before the range check, with its own message |
| StringConverter.ConvertRenderedInteger | UtilitiesLib/StringConverter.cs:30-39 | Any rendered `int` converts back to itself, and the range overload accepts it iff it lies within the bounds |
| StringConverter.ConvertToIntegerExamples | RealEstateTests/StringConverterTests.cs:13-38 | "123" gives 123; "abc" and "10,2" fail with FormatException |
| StringConverter.ConvertInRangeExamples | RealEstateTests/StringConverterTests.cs:41-85 | "50", "0" and "100" are accepted in [0, 100] with their values; "101" is rejected |
| Addresses.Address.Default | RealEstateBLL/Address.cs:29-35 | The default address has empty street, city and zip code and country Sweden |
| Addresses.Address.constructor | RealEstateBLL/Address.cs:44-50 | The four arguments are stored unchanged |
| Addresses.Address.UpdateAddress | RealEstateBLL/Address.cs:56-62 | The receiver, which keeps its identity, takes all four values of the argument; the argument is unchanged; an address already equal to the argument is unchanged (idempotence) |
| Payments.Payment.Default | RealEstateBLL/Payments/Bank.cs:18-22 | A parameterless payment of any variant has amount 0 and empty text fields |
| Payments.Payment.BankPayment | RealEstateBLL/Payments/Bank.cs:24-28 | A Bank payment carries the given amount, name and account number |
| Payments.Payment.PaypalPayment | RealEstateBLL/Payments/Paypal.cs:21-24 | A Paypal payment carries the given amount and email |
| Payments.Payment.WesternUnionPayment | RealEstateBLL/Payments/WesternUnion.cs:25-29 | A Western Union payment carries the given amount, name and email |
| Payments.Payment.UpdatePayment | RealEstateBLL/Payments/Bank.cs:35-43 | From a payment of the same variant, every field of that variant is copied; from another variant nothing changes; the argument is never changed (Paypal.cs:31-38 and WesternUnion.cs:36-44 likewise) |
| Payments.Payment.GetDetailsAsList | RealEstateBLL/Payments/Payment.cs:43-48 | Exactly two lines: "Amount: " followed by the amount as the given culture renders it, then the payment's description |
| Persons.Person.Default | RealEstateBLL/Persons/Person.cs:32-37 | Empty names, no payment, and a new default address |
| Persons.Person.constructor | RealEstateBLL/Persons/Person.cs:39-44 | Names and the address object itself are stored; a new person of either role has no payment |
| Persons.Person.UpdateDetails | RealEstateBLL/Persons/Person.cs:50-55 | The names are copied and the person's own address object takes the other address's values |
| Persons.Person.GetDetailsAsList | RealEstateBLL/Persons/Buyer.cs:48-60 | Full name and address line; for a buyer with a payment also "\n", "Payment:" and the payment's lines, so a seller always has exactly two |
| Persons.Person.UpdatePayment | RealEstateBLL/Persons/Buyer.cs:32-42 | Without a payment or with a different variant the reference is replaced; with the same variant the existing object is kept and updated; either way the result has the argument's values |
| Persons.CreatePerson | RealEstateBLL/Persons/PersonCreator.cs:18-33 | Seller and Buyer give a new person of that role with the given names and address and no payment; any other type gives null |
| Estates.EstateKind.GetEstateType | RealEstateBLL/Estates/Residential/Residential.cs:22-25 | Every leaf belongs to one of the three defined categories |
| Estates.EstateKind.GetSpecificTypeIndex | RealEstateBLL/Estates/Residential/Villa.cs:21-24 | Every leaf's index is a defined ordinal of its category's enum |
| Estates.EstateKind.DefaultLegalForm | RealEstateBLL/Estates/Residential/Rental.cs:10-14 | Rental starts as Rental, Tenement as Tenement (Tenement.cs:10-14), and every other leaf as Ownership |
| Estates.EstateKind.SpecificTypeName | RealEstateBLL/Estates/Estate.cs:76-82 | A leaf's shown name is the entry at its index in its category's name table |
| Estates.SpecificTypeNames | RealEstateService/EstateService.cs:83-89 | Four names for Residential and Commercial, three for Institutional, none for an undefined category |
| Estates.CreateKind | RealEstateBLL/Manager/EstateBuilder.cs:127-226 | Exactly the pairs (Residential, 0..3), (Commercial, 0..3) and (Institutional, 0..2) give a leaf, and that leaf reports the category and index it was made from |
| Estates.CreateKindOfLeaf | RealEstateBLL/Estates/Enums.cs:7-44 | Every leaf's own category and index select that leaf, so the eleven-pair table is onto |
| Estates.Estate.constructor | RealEstateBLL/Estates/Residential/Rental.cs:10-14 | A new leaf has every field zero or null and its own default legal form (Rental and Tenement set theirs, all others Ownership) |
| Estates.EstateKind.GetSpecificLabels | RealEstateBLL/Estates/Residential/Villa.cs:32-36 | Every leaf has exactly two field labels |
| Estates.Estate.GetSpecificInfo | RealEstateBLL/Estates/Residential/Villa.cs:26-30 | Two values, as many as the leaf has labels |
| Estates.Estate.SpecificInfoReadBack | RealEstateBLL/Estates/Residential/Villa.cs:26-30 | The first value reads back as the first leaf field and the second as the second (Floors and PlotArea for a Villa, and likewise for every leaf) |
| Estates.Estate.BaseDetails | RealEstateBLL/Estates/Estate.cs:72-111 | Length 2 + 2 for an address + (2 + the seller's lines) + (2 + the buyer's lines), counting only present parts |
| Estates.Estate.BaseDetailsLayout | RealEstateBLL/Estates/Estate.cs:85-94 | The base lines start with the info line and the separator, followed by the address block, which is the address line and a separator when there is an address |
| Estates.Estate.SellerBlockLayout | RealEstateBLL/Estates/Estate.cs:96-101 | With a seller, the address block is followed by "Seller:", the seller's lines and a separator |
| Estates.Estate.BuyerBlockLayout | RealEstateBLL/Estates/Estate.cs:103-108 | With a buyer, the seller block is followed by "Buyer:", the buyer's lines and a separator, which end the list |
| Estates.Estate.AddressBlock | RealEstateBLL/Estates/Estate.cs:90-94 | Two lines exactly when there is an address |
| Estates.Estate.PersonBlock | RealEstateBLL/Estates/Estate.cs:96-108 | Nothing without a person; otherwise the heading, the person's lines and a separator |
| Estates.Estate.CategoryDetails | RealEstateBLL/Estates/Commercial/Commercial.cs:28-45 | Exactly two category lines |
| Estates.Estate.CategoryDetailsReadBack | RealEstateBLL/Estates/Residential/Residential.cs:35-36 | "Area: {n} m^2" and "Bedrooms: {n}" for a Residential, "Year Built: {n}" and "Yearly Revenue: {n},-" for a Commercial (Commercial.cs:34-35), "Established Year: {n}" and "No. of Buildings: {n}" for an Institutional (Institutional.cs:34-35); each number reads back as the category's first or second field |
| Estates.Estate.GetDetailsAsList | RealEstateBLL/Estates/Residential/Residential.cs:31-43 | Always exactly four lines more than the base lines |
| Estates.Estate.DetailsLayout | RealEstateBLL/Estates/Residential/Residential.cs:31-43 | The details begin with the base lines, followed by the two category lines |
| Estates.Estate.LeafDetailLines | RealEstateBLL/Estates/Residential/Villa.cs:26-36 | The last two detail lines are "label: value" for the leaf's two fields, in label order |
| Estates.Estate.IdFromToString | RealEstateBLL/Estates/Estate.cs:117-120 | The text before the first ';' of the estate's string parses back to its ID |
| Estates.Estate.IdFromInfoLine | RealEstateBLL/Estates/Estate.cs:76-86 | The info line starts with "ID: ", and the text after it up to the first '.' parses back to the ID |
| Dtos.NewLeafDTO | RealEstateDTO/EstateDTO.cs:7-96 | A new leaf record has the given leaf and every member zero or absent |
| Dtos.Rebase | RealEstateDTO/EstateDTO.cs:7-14 | Replacing a leaf record's common members keeps its leaf and its four detail members |
| BllMapping.AddressToDTO | RealEstateBLL/EstateMapper.cs:24 | An address becomes the record with the same members, the country as its ordinal |
| BllMapping.PaymentToDTO | RealEstateBLL/EstateMapper.cs:24-39 | A payment becomes the record of its own variant |
| BllMapping.SellerToDTO | RealEstateBLL/EstateMapper.cs:25-26 | A seller becomes a seller record with its names and its address's record |
| BllMapping.BuyerToDTO | RealEstateBLL/EstateMapper.cs:25-28 | A buyer becomes a buyer record with its names, its address's record, and its payment's record exactly when it has a payment |
| BllMapping.MapEstateToDTO | RealEstateBLL/EstateMapper.cs:151-177 | Every estate becomes a record of its own leaf (a Rowhouse a RowhouseDTO), never null; ID and legal form are copied and each reference member is present iff set |
| BllMapping.AddressFromDTO | RealEstateService/EstateMapper.cs:20-29 | A new address whose record is exactly the given one |
| BllMapping.PaymentFromDTO | RealEstateBLL/EstateMapper.cs:60-75 | A new payment whose record is exactly the given one |
| BllMapping.PersonFromDTO | RealEstateBLL/EstateMapper.cs:60-75 | A new seller or buyer (with a new address and payment) whose record is exactly the given one |
| BllMapping.BaseObjectsFromDTO | RealEstateBLL/EstateMapper.cs:60-75 | The address, seller and buyer of a record become new objects exactly when present, each mapping back to its record |
| BllMapping.MapDTOToEstate | RealEstateBLL/EstateMapper.cs:118-144 | A leaf record becomes a new estate of the same leaf whose record is the given one, with a Seller as seller and a Buyer as buyer (RowhouseDTO before VillaDTO); any other record gives null |
| BllMapping.SameDTOIffSameContents | RealEstateBLL/EstateMapper.cs:46-59 | Two estates have equal records iff they hold the same values |
| BllMapping.RoundTrip | RealEstateBLL/EstateMapper.cs:82-95 | Mapping an estate to its record and back gives a new estate with all the original's values |
| Managers.Max | RealEstateBLL/Manager/EstateManager.cs:25 | `Keys.Max()`: a key that no key exceeds |
| Managers.Min | RealEstateBLL/Manager/DictionaryManager.cs:135 | The smallest key |
| Managers.SortedKeys | RealEstateBLL/Manager/DictionaryManager.cs:135 | `OrderBy(Key)`: each key exactly once, and nothing else |
| Managers.AscendingCons | RealEstateBLL/Manager/DictionaryManager.cs:135 | Putting a smaller key in front keeps a sequence ascending |
| Managers.SortedKeysSorted | RealEstateBLL/Manager/DictionaryManager.cs:135 | The ordered keys are strictly ascending |
| Managers.NewIdIsFresh | RealEstateBLL/Manager/EstateManager.cs:25-31 | The new id is above every key, so it is never in use |
| Managers.IdReusedAfterDelete | RealEstateBLL/Manager/EstateManager.cs:21-32 | Adding an estate, deleting it and adding another gives the second the first one's id, and the manager then holds the old entries plus the second estate |
| Managers.Wrap32 | RealEstateBLL/Manager/EstateManager.cs:25 | 32-bit wrap-around: the result is an `int`, and an `int` is kept |
| Managers.NewIdAsWrittenCollides | RealEstateBLL/Manager/EstateManager.cs:25 | With keys int.MinValue and int.MaxValue the compiled new id is int.MinValue, a key already in use |
| Managers.MaxOf | RealEstateBLL/Manager/EstateManager.cs:25 | One pass over the keys finds `Keys.Max()` |
| Managers.MinOf | RealEstateBLL/Manager/DictionaryManager.cs:135 | One pass over the keys finds the smallest |
| Managers.Lines | RealEstateBLL/Manager/DictionaryManager.cs:133-147 | One line per key |
| Managers.LinesSnoc | RealEstateBLL/Manager/DictionaryManager.cs:141-144 | One more key adds that estate's line at the end |
| Managers.LinesAt | RealEstateBLL/Manager/DictionaryManager.cs:141-144 | Line i is the string of the estate under the i-th key |
| Managers.ToArray | RealEstateBLL/Manager/DictionaryManager.cs:137-146 | A new array holding the lines in order |
| Managers.EstatesInCountry | RealEstateBLL/Manager/EstateManager.cs:44-54 | At most one estate per key |
| Managers.EstatesInCountryMembers | RealEstateBLL/Manager/EstateManager.cs:44-54 | Only estates that have an address in the country; each is stored under one of the keys; every such estate under the keys is included |
| Managers.SavedDTOs | RealEstateBLL/Manager/EstateManager.cs:67-73 | One record per key, each the record of the estate under that key |
| Managers.LoadedView | RealEstateBLL/Manager/EstateManager.cs:87-104 | Every loaded entry is a leaf record stored under its own ID |
| Managers.LoadedViewFirstWins | RealEstateBLL/Manager/EstateManager.cs:95-102 | Of several records with one ID, the first one is kept |
| Managers.LoadedViewOnlyLeafIds | RealEstateBLL/Manager/EstateManager.cs:95-102 | An ID is loaded iff some leaf record carries it |
| Managers.LoadStep | RealEstateBLL/Manager/EstateManager.cs:95-102 | A leaf record is added under its ID when that ID is free; otherwise the view is unchanged |
| Managers.LoadKeyed | RealEstateBLL/Manager/EstateManager.cs:87-104 | Records for ascending keys, each carrying its key as ID, load to exactly those keys, each with its own record |
| Managers.SavedUnderKeysReload | RealEstateBLL/Manager/EstateManager.cs:62-105 | The records saved for ascending keys of estates stored under their own IDs load back to exactly those keys, each with its estate's record |
| Managers.SavedKeysReload | RealEstateBLL/Manager/EstateManager.cs:62-105 | Saving then loading a manager whose estates are stored under their own IDs reproduces its key set |
| Managers.SavedRecordsReload | RealEstateBLL/Manager/EstateManager.cs:62-105 | Saving then loading a manager whose estates are stored under their own IDs gives back, under every key, that estate's record |
| Managers.EstateManager.constructor | RealEstateBLL/Manager/DictionaryManager.cs:24-26 | A new manager is empty |
| Managers.EstateManager.Add | RealEstateBLL/Manager/DictionaryManager.cs:45-56 | Succeeds iff the item is non-null and the key is absent, then inserts exactly that pair and Count grows by one; otherwise nothing changes |
| Managers.EstateManager.Get | RealEstateBLL/Manager/DictionaryManager.cs:63-71 | The stored estate iff the key is present, null otherwise; reads only |
| Managers.EstateManager.Change | RealEstateBLL/Manager/DictionaryManager.cs:79-90 | Succeeds iff the item is non-null and the key present, then replaces only that entry; the key set never changes |
| Managers.EstateManager.DeleteAll | RealEstateBLL/Manager/DictionaryManager.cs:106-109 | Afterwards Count is 0 and no key is present |
| Managers.EstateManager.Delete | RealEstateBLL/Manager/DictionaryManager.cs:116-127 | True iff the key was present; afterwards it is absent and every other entry is as before |
| Managers.EstateManager.SortKeys | RealEstateBLL/Manager/DictionaryManager.cs:135 | The keys in ascending order |
| Managers.EstateManager.ToStringArray | RealEstateBLL/Manager/DictionaryManager.cs:133-147 | A new array of Count lines; line i is the string of the estate with the i-th smallest key |
| Managers.EstateManager.LinesOf | RealEstateBLL/Manager/DictionaryManager.cs:141-144 | The strings of the estates under the given keys, in order |
| Managers.EstateManager.EstatesOf | RealEstateBLL/Manager/EstateManager.cs:44-54 | The loop over the given keys collects exactly the estates that have an address in the country, in key order |
| Managers.EstateManager.RecordsOf | RealEstateBLL/Manager/EstateManager.cs:67-73 | The loop over the given keys collects the records of their estates, in key order |
| Managers.EstateManager.ToStringDictionary | RealEstateBLL/Manager/DictionaryManager.cs:153-163 | Exactly the manager's keys, each with its estate's string |
| Managers.EstateManager.AddEstate | RealEstateBLL/Manager/EstateManager.cs:21-32 | Overwrites the estate's ID with 10000 (empty manager) or the highest key + 1, stores it under that ID, and always succeeds; the new ID exceeds every old key; estates stay stored under their own IDs |
| Managers.EstateManager.FindByCountry | RealEstateBLL/Manager/EstateManager.cs:39-55 | A map with the single key `country` whose list holds exactly the stored estates with an address in that country, in key order; the manager is not changed |
| Managers.EstateManager.SaveToFile | RealEstateBLL/Manager/EstateManager.cs:62-78 | The records handed to the writer are those of all Count estates in key order (none is skipped); the outcome is the writer's |
| Managers.EstateManager.LoadFromFile | RealEstateBLL/Manager/EstateManager.cs:85-105 | Without a list, false and nothing changes; otherwise the manager afterwards holds a new estate for every leaf record's ID and nothing else, each mapping to the first record with that ID |
| Managers.EstateManager.LoadRecord | RealEstateBLL/Manager/EstateManager.cs:95-102 | One loading step: a leaf record's estate is added when its ID is free, existing entries stay |
| EstateBuilding.EstateBuilder.constructor | RealEstateBLL/Manager/EstateBuilder.cs:13-21 | Wraps a new estate of the given leaf in its initial state |
| EstateBuilding.EstateBuilder.New | RealEstateBLL/Manager/EstateBuilder.cs:13-21 | Succeeds exactly for the eleven pairs, with a new estate (ID 0) of the leaf the pair names; otherwise InvalidOperationException with its message |
| EstateBuilding.EstateBuilder.AddID | RealEstateBLL/Manager/EstateBuilder.cs:23-27 | Sets only the ID and returns the same builder |
| EstateBuilding.EstateBuilder.AddLegalForm | RealEstateBLL/Manager/EstateBuilder.cs:29-33 | Sets only the legal form and returns the same builder |
| EstateBuilding.EstateBuilder.AddAddress | RealEstateBLL/Manager/EstateBuilder.cs:35-39 | Sets only the address and returns the same builder |
| EstateBuilding.EstateBuilder.AddSeller | RealEstateBLL/Manager/EstateBuilder.cs:41-45 | Sets only the seller and returns the same builder |
| EstateBuilding.EstateBuilder.AddPayment | RealEstateBLL/Manager/EstateBuilder.cs:47-53 | With a buyer present sets its payment, null included, keeping its names and address; with none changes nothing |
| EstateBuilding.EstateBuilder.AddBuyer | RealEstateBLL/Manager/EstateBuilder.cs:55-59 | Sets only the buyer and returns the same builder |
| EstateBuilding.EstateBuilder.AddEstateTypeDetails | RealEstateBLL/Manager/EstateBuilder.cs:61-80 | Sets only the two fields of the estate's category |
| EstateBuilding.EstateBuilder.AddEstateSpecificDetails | RealEstateBLL/Manager/EstateBuilder.cs:82-125 | Sets only the two fields of the estate's leaf, for all eleven leaves |
| EstateBuilding.EstateBuilder.Build | RealEstateBLL/Manager/EstateBuilder.cs:228-231 | The changed estate object itself |
| EstateBuilding.EstateCreator.constructor | RealEstateBLL/Manager/EstateCreator.cs:16-19 | The counter starts at 10000 with no id issued |
| EstateBuilding.EstateCreator.CreateEstate | RealEstateBLL/Manager/EstateCreator.cs:21-42 | For a supported pair a new estate of that leaf in its initial state (four detail fields 0, no address, seller or buyer, the leaf's default legal form) numbered with the counter, which moves on by one, so ids are consecutive, increasing and never reused; otherwise null and the counter stays |
| Legacy.EstateFactory.constructor | RealEstateBLL/Class1.cs:18-21 | The counter starts at 10000 |
| Legacy.EstateFactory.CreateEstate | RealEstateBLL/Class1.cs:23-44 | For a supported pair a new estate of that leaf in its initial state (four detail fields 0, no address, seller or buyer, the leaf's default legal form) numbered with the counter, which then moves on by one; otherwise null and the counter stays |
| Legacy.EstateBuilder.constructor | RealEstateBLL/Class1.cs:133-142 | Holds the given factory and estate |
| Legacy.EstateBuilder.New | RealEstateBLL/Class1.cs:133-142 | Uses a new factory each time, so a built estate always gets ID 10000; unsupported pairs give InvalidOperationException |
| Legacy.EstateBuilder.AddLegalForm | RealEstateBLL/Class1.cs:144-148 | Sets only the legal form |
| Legacy.EstateBuilder.AddAddress | RealEstateBLL/Class1.cs:150-154 | Sets only the address |
| Legacy.EstateBuilder.AddSeller | RealEstateBLL/Class1.cs:156-160 | Sets only the seller |
| Legacy.EstateBuilder.AddBuyer | RealEstateBLL/Class1.cs:162-166 | Sets only the buyer |
| Legacy.EstateBuilder.AddEstateTypeDetails | RealEstateBLL/Class1.cs:168-187 | Sets only the two category fields |
| Legacy.EstateBuilder.AddEstateSpecificDetails | RealEstateBLL/Class1.cs:189-232 | Sets only the two leaf fields, Villa covering Rowhouse |
| Legacy.EstateBuilder.Build | RealEstateBLL/Class1.cs:234-237 | The changed estate itself |
| Legacy.TwoBuildersSameId | RealEstateBLL/Class1.cs:135-136 | Two builders for the same pair make two different estates, both numbered 10000 |
| DtoBuilders.CreateEstateDTO | RealEstateService/EstateDTOBuilder.cs:123-222 | A new record of the leaf the pair names, with all members zero or absent, exactly for the eleven pairs |
| DtoBuilders.SameLeafBothSides | RealEstateMAUIApp/Services/DTOBuilder.cs:168-267 | The record-side and the entity-side switches choose the same leaf for every pair |
| DtoBuilders.EstateDTOBuilder.constructor | RealEstateService/EstateDTOBuilder.cs:15-25 | Holds the given record |
| DtoBuilders.EstateDTOBuilder.FromCreateDTO | RealEstateService/EstateDTOBuilder.cs:15-25 | Succeeds exactly when the request's category ordinal and index are a supported pair, holding that leaf's new record; otherwise InvalidOperationException |
| DtoBuilders.EstateDTOBuilder.New | RealEstateMAUIApp/Services/DTOBuilder.cs:21-29 | Succeeds exactly for the eleven pairs, holding that leaf's new record; otherwise InvalidOperationException |
| DtoBuilders.EstateDTOBuilder.AddID | RealEstateService/EstateDTOBuilder.cs:27-31 | Replaces only the record's ID and returns the same builder |
| DtoBuilders.EstateDTOBuilder.AddLegalForm | RealEstateService/EstateDTOBuilder.cs:33-37 | Replaces only the legal form ordinal |
| DtoBuilders.EstateDTOBuilder.AddAddress | RealEstateService/EstateDTOBuilder.cs:39-43 | Replaces only the address |
| DtoBuilders.EstateDTOBuilder.AddSeller | RealEstateService/EstateDTOBuilder.cs:45-49 | Replaces only the seller |
| DtoBuilders.EstateDTOBuilder.AddBuyer | RealEstateService/EstateDTOBuilder.cs:51-55 | Replaces only the buyer |
| DtoBuilders.EstateDTOBuilder.AddEstateTypeDetails | RealEstateService/EstateDTOBuilder.cs:57-76 | Replaces only the two category members; the leaf never changes |
| DtoBuilders.EstateDTOBuilder.AddEstateSpecificDetails | RealEstateService/EstateDTOBuilder.cs:78-121 | Replaces only the two leaf members; the leaf never changes |
| DtoBuilders.EstateDTOBuilder.Build | RealEstateService/EstateDTOBuilder.cs:224-227 | The held record, a leaf record |
| DtoBuilders.BuildAll | RealEstateMAUIApp/Services/DTOBuilder.cs:36-160 | Running every setter yields exactly the record with the given members for the constructor's leaf |
| ServiceMapping.MapEstateType | RealEstateService/EstateMapper.cs:13-18 | Every ordinal is kept, and a defined one names its category |
| ServiceMapping.MapPayment | RealEstateService/EstateMapper.cs:49-62 | A new payment of the record's variant with its values, null for no record |
| ServiceMapping.MapPerson | RealEstateService/EstateMapper.cs:31-47 | Seller: a new seller with the record's names and a new address; Buyer: a new buyer equal to the record, payment included, and InvalidCastException when the record is not a BuyerDTO; any other type null |
| EstateServices.GetSpecificTypes | RealEstateService/EstateService.cs:75-97 | The category's subtype names, or none when the conversion failed or the category is undefined |
| EstateServices.SpecificTypesAreCreatable | RealEstateService/EstateService.cs:83-89 | An index is listed iff the builder accepts the pair, and the leaf built shows the listed name |
| EstateServices.BuildRequested | RealEstateService/EstateService.cs:25-39 | Mapper and builder phase: InvalidCastException for a non-buyer record, then InvalidOperationException for an unsupported pair; otherwise a new estate whose record is the request's |
| EstateServices.Assemble | RealEstateService/EstateService.cs:31-39 | The builder chain sets every field from the request and the mapped objects |
| EstateServices.EstateService.constructor | RealEstateService/EstateService.cs:15 | The service owns a new, empty manager |
| EstateServices.EstateService.CreateEstate | RealEstateService/EstateService.cs:22-45 | On a throw the manager is untouched; otherwise (true, id) with id the manager's new id, the key under which a new estate whose record is the request's is stored, and nothing else changes |
| EstateServices.EstateService.DeleteEstate | RealEstateService/EstateService.cs:52-57 | True iff the id was present; afterwards it is absent and the rest stays |
| EstateServices.EstateService.GetEstateTypes | RealEstateService/EstateService.cs:63-68 | Residential, Commercial, Institutional, entry i naming ordinal i |
| EstateServices.EstateService.GetLegalForms | RealEstateService/EstateService.cs:103-108 | Ownership, Tenement, Rental, entry i naming ordinal i |
| BllServices.LastDot | RealEstateBLL/BLLService.cs:105 | The position of the last '.' with no separator after it, or none when every '.' is followed by a separator |
| BllServices.GetExtension | RealEstateBLL/BLLService.cs:105 | A suffix of the path that starts with '.' and has no other '.' or separator, or empty |
| BllServices.GetExtensionOfName | RealEstateBLL/BLLService.cs:105 | The extension of "name.tail" is ".tail" |
| BllServices.LastDotSkips | RealEstateBLL/BLLService.cs:105 | Characters other than '.' and separators appended at the end do not move the last dot |
| BllServices.SaveFormat | RealEstateBLL/BLLService.cs:105-115 | JSON iff the lower-cased extension is ".json", XML iff it is ".xml" |
| BllServices.SaveFormatOfName | RealEstateBLL/BLLService.cs:105-115 | "name.tail" is saved in the format the lower-cased ".tail" names |
| BllServices.SaveFormatIgnoresCase | RealEstateBLL/BLLService.cs:105 | "estates.JSON" is saved as JSON |
| BllServices.SaveFormatOnlyLastSegment | RealEstateBLL/BLLService.cs:105 | A '.' in a directory name is no extension |
| BllServices.BLLService.constructor | RealEstateBLL/BLLService.cs:15-18 | Works on the caller's manager |
| BllServices.BLLService.GetEstate | RealEstateBLL/BLLService.cs:25-50 | None iff the id is absent; otherwise the record of the stored estate's own leaf |
| BllServices.BLLService.CreateEstate | RealEstateBLL/BLLService.cs:52-67 | A non-leaf record gives (false, -1) and no change; a leaf record is stored as a new estate under the manager's new id, ignoring its own ID, and reading that id back gives the record with that ID |
| BllServices.BLLService.UpdateEstate | RealEstateBLL/BLLService.cs:69-79 | Succeeds iff the record is a leaf whose ID is stored, replacing only that entry so that reading it back gives the record; otherwise nothing changes |
| BllServices.BLLService.SaveToFile | RealEstateBLL/BLLService.cs:103-116 | Writes in the format the extension names and returns the writer's outcome; any other extension gives false |

## Left out

- File I/O: the bodies of `FileHandler` (JSON and XML serialization) are not part of this model. The save methods take the writer's outcome as a parameter. `LoadFromFile` takes the list the reader returned, with none standing for null. The `FileHandler.SaveToFile` and `FileHandler.OpenFile` names that `EstateManager` calls do not exist in the `FileHandler` shown, so there is nothing more to model.
- Floating point: a payment's `Amount` is a `real` that is only copied. The "Amount: ..." line of `Payment.GetDetailsAsList` takes the text of the amount as a parameter (`showAmount`, the culture-dependent rendering of a `double` that string interpolation uses), and the detail lists of persons and estates pass it on; the model does not fix that text. `ConvertToDouble` is left out.
- `int.TryParse` is approximated as an optional sign followed by one or more ASCII digits, within 32 bits. Culture, whitespace and thousands separators are not modelled.
- `Text.IntToString` writes a negative number with an ASCII '-'. .NET uses the current culture's `NegativeSign` when it interpolates `{ID}` and the other integer fields, so a culture with another sign is not modelled.
- The `Countries` and `PaymentType` enums and `EnumConverter` are not part of this model.
  - Countries are ordinals; Sweden is taken to be 0, and other countries render as their number.
  - `EstateServices.GetSpecificTypes` takes the converter's result as its parameter.
- `Managers.SortedKeys`, `Managers.EstateManager.FindByCountry` and `Managers.EstateManager.SaveToFile` visit the estates in key order. C# enumerates a `Dictionary` in insertion order, which the source does not promise. Only `ToStringArray` sorts explicitly. The other orders are therefore a modelling choice.
- `Managers.EstateManager.AddEstate`: the new id uses unbounded integers. The 32-bit overflow is recorded under Findings.
- `EstateBuilding.EstateCreator.CreateEstate` and `Legacy.EstateFactory.CreateEstate` count on unbounded integers. Their `_nextId` in C# would wrap after about 2^31 creations.
- `BllMapping.MapEstateToDTO` and `BllMapping.MapDTOToEstate` have no `catch` branch. With explicit copies nothing can throw, so the exception-to-null conversion has nothing to catch, and only the "not one of the eleven" null remains.
- The AutoMapper configuration in `RealEstateBLL/EstateMapper.cs` is replaced by name-based field copies.
  - The service's `Mapper.cs` maps one way only and has no Hotel entry. It is not used by the modelled code and is left out.
- The two record builders assign the `init`-only properties of the records. The model replaces the held record instead.
  - The service copy and the app copy of the builder differ only in their constructors. They are one class with the two factory methods `FromCreateDTO` and `New`.
- `EstateBuilding.EstateBuilder.AddSeller`, `EstateBuilding.EstateBuilder.AddBuyer` and their `Legacy` counterparts require the person's role to be Seller or Buyer. This stands in for the C# parameter types `Seller` and `Buyer`.
- `BuildRequested` passes the seller from `MapPerson(Seller, ...)`, which is never null. The C# `(Seller?)`/`(Buyer?)` casts of its result therefore always succeed.
- `EstateCreateDTO` is taken to hold exactly the members the service reads.
- `BllServices.GetExtension`: the directory separators are '/' and '\\'. The Windows volume separator ':' is not treated specially.
- GUI code, platform file dialogs, the serialization-only `SerializableDictionary` and the interfaces are left out: they have no logic of their own. `RealEstateTest/StringConverterTests.cs` tests a `ConvertToDecimal` that is not in the converter shown.
- `Person.GetFullName`, `Address.ToString`, `Payment.ToString`, `Estate.InfoLine` and `Estate.ToString` are modelled as plain functions. Their formats are stated by the lemmas and the lists that use them.
- `Managers.EstateManager.Count` and `Managers.EstateManager.CheckKey` are plain accessors (`|dictionary|` and `key in dictionary`) with no contract of their own. The contracts of `Add`, `Get`, `Change`, `Delete`, `DeleteAll` and `ToStringArray` state what they mean.
- `DtoBuilders.EstateDTOBuilder.New` takes the business layer's `EstateType`. The app's builder imports `RealEstateMAUIApp.Enums`, which is not part of this model. The model assumes its `EstateType` assigns the same ordinals.
- `Estates.Estate.RolesAsDeclared` states that the seller is a Seller and the buyer a Buyer, as the C# property types guarantee. `MapDTOToEstate` ensures it. The builders' `AddSeller` and `AddBuyer` require the matching role instead of proving it.

## Findings

| source | as written | input that shows it | evidently intended | confidence | as-written member | corrected member |
|---|---|---|---|---|---|---|
| RealEstateBLL/Manager/EstateManager.cs:25 | `newId = Keys.Max() + 1` in 32-bit `int`, unchecked | keys {int.MinValue, int.MaxValue}: the new id wraps to int.MinValue, a key in use, so the insertion fails although `Add` promises a fresh id | a new id above every existing key | not executed | Managers.NewIdAsWrittenCollides | Managers.NewIdIsFresh |
