/**
 * `RealEstateBLL.Manager`: `DictionaryManager<TKey, TValue>` at its one instantiation,
 * `EstateManager : DictionaryManager<int, Estate>`, as a single class holding the map.
 */
module Managers {
  import opened Wrappers
  import opened Text
  import opened Enums
  import opened Estates
  import opened Dtos
  import opened BllMapping

  /** A set without elements is empty, so a non-empty set has an element to pick. */
  lemma NoElementIsEmpty(s: set<int>)
    ensures (forall y :: y !in s) ==> s == {}
  {
    var empty: set<int> := {};
    assert (forall y :: y !in s) ==> (forall y :: y in s <==> y in empty);
  }

  /** The largest element of a non-empty set of keys: `Keys.Max()`. */
  ghost function Max(s: set<int>): (m: int)
    requires s != {}
    ensures m in s && forall x :: x in s ==> x <= m
  {
    NoElementIsEmpty(s);
    var x :| x in s;
    if s == {x} then x
    else
      var rest := Max(s - {x});
      assert forall y :: y in s ==> y == x || y in s - {x};
      if x < rest then rest else x
  }

  /** The smallest element of a non-empty set of keys. */
  ghost function Min(s: set<int>): (m: int)
    requires s != {}
    ensures m in s && forall x :: x in s ==> m <= x
  {
    NoElementIsEmpty(s);
    var x :| x in s;
    if s == {x} then x
    else
      var rest := Min(s - {x});
      assert forall y :: y in s ==> y == x || y in s - {x};
      if rest < x then rest else x
  }

  /** The keys in ascending order: `OrderBy(kvp => kvp.Key)`. */
  ghost function SortedKeys(s: set<int>): (keys: seq<int>)
    ensures |keys| == |s|
    ensures forall k :: k in keys <==> k in s
    decreases |s|
  {
    if s == {} then []
    else [Min(s)] + SortedKeys(s - {Min(s)})
  }

  /** Strictly ascending, so without repetitions. */
  predicate Ascending(keys: seq<int>)
  {
    forall i, j :: 0 <= i < j < |keys| ==> keys[i] < keys[j]
  }

  /** A key below every key of an ascending sequence can be put in front of it. */
  lemma AscendingCons(x: int, keys: seq<int>)
    requires Ascending(keys)
    requires forall k :: k in keys ==> x < k
    ensures Ascending([x] + keys)
  {
    var r := [x] + keys;
    forall i, j | 0 <= i < j < |r|
      ensures r[i] < r[j]
    {
      assert r[j] == keys[j - 1] && keys[j - 1] in keys;
      if 0 < i {
        assert r[i] == keys[i - 1];
      }
    }
  }

  /** The sorted keys are strictly ascending. */
  lemma {:induction false} SortedKeysSorted(s: set<int>)
    ensures Ascending(SortedKeys(s))
    decreases |s|
  {
    if s != {} {
      var head := Min(s);
      var rest := s - {head};
      SortedKeysSorted(rest);
      AscendingCons(head, SortedKeys(rest));
    }
  }

  /**
   * The id the estate manager gives a new estate: one more than the highest key, or
   * 10000 when there are no keys. The arithmetic is on unbounded integers.
   */
  ghost function NewId(keys: set<int>): int
  {
    if keys == {} then 10000 else Max(keys) + 1
  }

  /** A new id is above every existing key, so it is never a key already. */
  lemma NewIdIsFresh(keys: set<int>)
    ensures forall k :: k in keys ==> k < NewId(keys)
    ensures NewId(keys) !in keys
  {
  }

  /**
   * The id computation as compiled: `Keys.Max() + 1` on a 32-bit `int` wraps around to
   * `int.MinValue` when the highest key is `int.MaxValue`.
   */
  function Wrap32(x: int): (r: int)
    ensures IsInt32(r)
    ensures IsInt32(x) ==> r == x
  {
    (x - MinInt32) % 0x1_0000_0000 + MinInt32
  }

  ghost function NewIdAsWritten(keys: set<int>): int
  {
    if keys == {} then 10000 else Wrap32(Max(keys) + 1)
  }

  /** With keys `int.MinValue` and `int.MaxValue` the compiled new id is an existing key, so the insertion fails. */
  lemma NewIdAsWrittenCollides()
    ensures NewIdAsWritten({MinInt32, MaxInt32}) == MinInt32
    ensures NewIdAsWritten({MinInt32, MaxInt32}) in {MinInt32, MaxInt32}
  {
    assert Max({MinInt32, MaxInt32}) == MaxInt32;
  }

  /** The highest key, by one pass over the keys. */
  method MaxOf(s: set<int>) returns (max: int)
    requires s != {}
    ensures max == Max(s)
  {
    var rest := s;
    NoElementIsEmpty(rest);
    max :| max in rest;
    rest := rest - {max};
    ghost var seen := {max};
    while rest != {}
      invariant seen + rest == s && max in seen
      invariant forall k :: k in seen ==> k <= max
      decreases |rest|
    {
      NoElementIsEmpty(rest);
      var k :| k in rest;
      if max < k {
        max := k;
      }
      rest := rest - {k};
      seen := seen + {k};
    }
  }

  /** The smallest key, by one pass over the keys. */
  method MinOf(s: set<int>) returns (min: int)
    requires s != {}
    ensures min == Min(s)
  {
    var rest := s;
    NoElementIsEmpty(rest);
    min :| min in rest;
    rest := rest - {min};
    ghost var seen := {min};
    while rest != {}
      invariant seen + rest == s && min in seen
      invariant forall k :: k in seen ==> min <= k
      decreases |rest|
    {
      NoElementIsEmpty(rest);
      var k :| k in rest;
      if k < min {
        min := k;
      }
      rest := rest - {k};
      seen := seen + {k};
    }
  }

  /** The `ToString()` of the estates stored under `keys`, in that order. */
  function Lines(m: map<int, Estate>, keys: seq<int>): (lines: seq<string>)
    requires forall i :: 0 <= i < |keys| ==> keys[i] in m
    reads m.Values
    reads set e | e in m.Values :: e.address
    ensures |lines| == |keys|
  {
    if keys == [] then []
    else Lines(m, keys[..|keys| - 1]) + [m[keys[|keys| - 1]].ToString()]
  }

  /** The lines of one more key are the lines so far and the line of that key. */
  lemma LinesSnoc(m: map<int, Estate>, keys: seq<int>, n: int)
    requires forall i :: 0 <= i < |keys| ==> keys[i] in m
    requires 0 <= n < |keys|
    ensures Lines(m, keys[..n + 1]) == Lines(m, keys[..n]) + [m[keys[n]].ToString()]
  {
    assert keys[..n + 1][..n] == keys[..n];
  }

  /** Indexing into one more element: the old elements, then the new one. */
  lemma SnocIndex<T>(prefix: seq<T>, last: T, i: int)
    requires 0 <= i <= |prefix|
    ensures (prefix + [last])[i] == if i < |prefix| then prefix[i] else last
  {
  }

  /** Line i is the `ToString()` of the estate under the i-th key. */
  lemma {:induction false} LinesAt(m: map<int, Estate>, keys: seq<int>, i: int)
    requires forall j :: 0 <= j < |keys| ==> keys[j] in m
    requires 0 <= i < |keys|
    ensures Lines(m, keys)[i] == m[keys[i]].ToString()
    decreases |keys|
  {
    var n := |keys| - 1;
    var prefix := keys[..n];
    SnocIndex(Lines(m, prefix), m[keys[n]].ToString(), i);
    if i < n {
      LinesAt(m, prefix, i);
      assert prefix[i] == keys[i];
    }
  }

  /** A new array holding the lines in order. */
  method ToArray(lines: seq<string>) returns (strings: array<string>)
    ensures fresh(strings) && strings[..] == lines
  {
    strings := new string[|lines|];
    var index := 0;
    while index < |lines|
      invariant 0 <= index <= |lines| == strings.Length
      invariant strings[..index] == lines[..index]
      modifies strings
    {
      strings[index] := lines[index];
      index := index + 1;
    }
    assert strings[..] == strings[..index];
  }

  /** The estate has an address in the given country; an estate without an address is in none. */
  predicate InCountry(e: Estate, country: Countries)
    reads e, e.address
  {
    e.address != null && e.address.country == country
  }

  /** The estates stored under `keys`, in that order, that lie in `country`. */
  function EstatesInCountry(m: map<int, Estate>, keys: seq<int>, country: Countries): (r: seq<Estate>)
    requires forall i :: 0 <= i < |keys| ==> keys[i] in m
    reads m.Values
    reads set e | e in m.Values :: e.address
    ensures |r| <= |keys|
  {
    if keys == [] then []
    else
      var prefix := EstatesInCountry(m, keys[..|keys| - 1], country);
      var e := m[keys[|keys| - 1]];
      if InCountry(e, country) then prefix + [e] else prefix
  }

  /**
   * The search finds only estates in the country, each stored under one of the keys, and
   * every estate under the keys that is in the country.
   */
  lemma {:induction false} EstatesInCountryMembers(m: map<int, Estate>, keys: seq<int>, country: Countries)
    requires forall i :: 0 <= i < |keys| ==> keys[i] in m
    ensures forall e :: e in EstatesInCountry(m, keys, country) ==> InCountry(e, country)
    ensures forall e :: e in EstatesInCountry(m, keys, country) ==> exists i :: 0 <= i < |keys| && m[keys[i]] == e
    ensures forall i :: 0 <= i < |keys| && InCountry(m[keys[i]], country) ==> m[keys[i]] in EstatesInCountry(m, keys, country)
    decreases |keys|
  {
    if keys != [] {
      var n := |keys| - 1;
      var prefix := keys[..n];
      EstatesInCountryMembers(m, prefix, country);
      var found := EstatesInCountry(m, keys, country);
      assert EstatesInCountry(m, prefix, country) <= found;
      forall e | e in found
        ensures exists i :: 0 <= i < |keys| && m[keys[i]] == e
      {
        if e in EstatesInCountry(m, prefix, country) {
          var i :| 0 <= i < |prefix| && m[prefix[i]] == e;
          assert keys[i] == prefix[i];
        } else {
          assert m[keys[n]] == e;
        }
      }
      forall i | 0 <= i < |keys| && InCountry(m[keys[i]], country)
        ensures m[keys[i]] in found
      {
        if i < n {
          assert prefix[i] == keys[i];
        }
      }
    }
  }

  /** One more key adds that estate at the end when it lies in the country. */
  lemma EstatesInCountrySnoc(m: map<int, Estate>, keys: seq<int>, n: int, country: Countries)
    requires forall i :: 0 <= i < |keys| ==> keys[i] in m
    requires 0 <= n < |keys|
    ensures EstatesInCountry(m, keys[..n + 1], country) ==
      EstatesInCountry(m, keys[..n], country) + (if InCountry(m[keys[n]], country) then [m[keys[n]]] else [])
  {
    assert keys[..n + 1][..n] == keys[..n];
  }

  /** The objects the records of the estates in `m` are read from. */
  ghost function Footprint(m: map<int, Estate>): set<object?>
    reads m.Values
    reads set e | e in m.Values :: e.seller
    reads set e | e in m.Values :: e.buyer
  {
    set e, o | e in m.Values && o in e.Parts() :: o
  }

  /** The records of the estates stored under `keys`, in that order. */
  function SavedDTOs(m: map<int, Estate>, keys: seq<int>): (dtos: seq<EstateDTO>)
    requires forall i :: 0 <= i < |keys| ==> keys[i] in m
    reads m.Values
    reads set e | e in m.Values :: e.seller
    reads set e | e in m.Values :: e.buyer
    reads Footprint(m)
    ensures |dtos| == |keys|
    ensures forall i :: 0 <= i < |keys| ==> dtos[i] == MapEstateToDTO(m[keys[i]])
  {
    if keys == [] then []
    else SavedDTOs(m, keys[..|keys| - 1]) + [MapEstateToDTO(m[keys[|keys| - 1]])]
  }

  /**
   * What loading a list of records leaves in the manager: each leaf record in turn is
   * added under its own ID unless that ID is already taken; other records are skipped.
   */
  function LoadedView(dtos: seq<EstateDTO>): (view: map<int, EstateDTO>)
    ensures forall k :: k in view ==> view[k].LeafDTO? && view[k].base.id == k
  {
    if dtos == [] then map[]
    else LoadStep(LoadedView(dtos[..|dtos| - 1]), dtos[|dtos| - 1])
  }

  /** Loading one more record: a leaf record is added under its ID unless that ID is taken. */
  function LoadStep(view: map<int, EstateDTO>, d: EstateDTO): (view': map<int, EstateDTO>)
    ensures d.LeafDTO? && d.base.id !in view ==> view' == view[d.base.id := d]
    ensures !(d.LeafDTO? && d.base.id !in view) ==> view' == view
  {
    if d.LeafDTO? && d.base.id !in view then view[d.base.id := d] else view
  }

  /**
   * An ID is loaded exactly when some leaf record carries it, and the record loaded for it
   * is the first leaf record with that ID.
   */
  lemma {:induction false} LoadedViewFirstWins(dtos: seq<EstateDTO>, i: int)
    requires 0 <= i < |dtos| && dtos[i].LeafDTO?
    requires forall j :: 0 <= j < i ==> !(dtos[j].LeafDTO? && dtos[j].base.id == dtos[i].base.id)
    ensures dtos[i].base.id in LoadedView(dtos)
    ensures LoadedView(dtos)[dtos[i].base.id] == dtos[i]
    decreases |dtos|
  {
    var n := |dtos| - 1;
    var prefix := dtos[..n];
    if i < n {
      LoadedViewFirstWins(prefix, i);
    } else {
      LoadedViewOnlyLeafIds(prefix, dtos[i].base.id);
    }
  }

  /** Every loaded ID comes from a leaf record carrying it. */
  lemma {:induction false} LoadedViewOnlyLeafIds(dtos: seq<EstateDTO>, id: int)
    ensures id in LoadedView(dtos) <==> exists j :: 0 <= j < |dtos| && dtos[j].LeafDTO? && dtos[j].base.id == id
    decreases |dtos|
  {
    if dtos != [] {
      var n := |dtos| - 1;
      var prefix := dtos[..n];
      LoadedViewOnlyLeafIds(prefix, id);
      if id in LoadedView(prefix) {
        var j :| 0 <= j < |prefix| && prefix[j].LeafDTO? && prefix[j].base.id == id;
        assert dtos[j] == prefix[j];
      }
      if exists j :: 0 <= j < |dtos| && dtos[j].LeafDTO? && dtos[j].base.id == id {
        var j :| 0 <= j < |dtos| && dtos[j].LeafDTO? && dtos[j].base.id == id;
        if j < n {
          assert prefix[j] == dtos[j];
        }
      }
    }
  }

  /** An estate none of whose parts changed still maps to the same record. */
  twostate lemma RecordUnchanged(e: Estate)
    requires old(allocated(e)) && unchanged(e)
    requires e.address != null ==> unchanged(e.address)
    requires e.seller != null ==> unchanged(e.seller) && unchanged(e.seller.address)
    requires e.seller != null && e.seller.payment != null ==> unchanged(e.seller.payment)
    requires e.buyer != null ==> unchanged(e.buyer) && unchanged(e.buyer.address)
    requires e.buyer != null && e.buyer.payment != null ==> unchanged(e.buyer.payment)
    ensures MapEstateToDTO(e) == old(MapEstateToDTO(e))
  {
  }

  /** An estate is stored under its own ID. */
  predicate KeyedById(m: map<int, Estate>)
    reads m.Values
  {
    forall k :: k in m ==> m[k].id == k
  }

  /**
   * Loading leaf records whose IDs are the ascending `keys` keeps exactly those IDs, each
   * with its own record.
   */
  lemma LoadKeyed(dtos: seq<EstateDTO>, keys: seq<int>)
    requires |dtos| == |keys| && Ascending(keys)
    requires forall i :: 0 <= i < |keys| ==> dtos[i].LeafDTO? && dtos[i].base.id == keys[i]
    ensures forall id :: id in LoadedView(dtos) <==> id in keys
    ensures forall i :: 0 <= i < |keys| ==> keys[i] in LoadedView(dtos) && LoadedView(dtos)[keys[i]] == dtos[i]
  {
    forall i | 0 <= i < |keys|
      ensures keys[i] in LoadedView(dtos) && LoadedView(dtos)[keys[i]] == dtos[i]
    {
      LoadedViewFirstWins(dtos, i);
    }
    forall id | id in LoadedView(dtos)
      ensures id in keys
    {
      LoadedViewOnlyLeafIds(dtos, id);
    }
  }

  /**
   * Loading the records saved for the ascending `keys` of `m` gives back exactly those keys,
   * each with the record of the estate stored under it.
   */
  lemma SavedUnderKeysReload(m: map<int, Estate>, keys: seq<int>)
    requires KeyedById(m) && Ascending(keys)
    requires forall i :: 0 <= i < |keys| ==> keys[i] in m
    ensures forall k :: k in LoadedView(SavedDTOs(m, keys)) <==> k in keys
    ensures forall i :: 0 <= i < |keys| ==> LoadedView(SavedDTOs(m, keys))[keys[i]] == MapEstateToDTO(m[keys[i]])
  {
    var dtos := SavedDTOs(m, keys);
    forall i | 0 <= i < |keys|
      ensures dtos[i].LeafDTO? && dtos[i].base.id == keys[i]
    {
      assert m[keys[i]].id == keys[i];
    }
    LoadKeyed(dtos, keys);
  }

  /**
   * What `SaveToFile` writes, loaded by `LoadFromFile`, gives back exactly the stored keys,
   * when every estate is stored under its own ID.
   */
  lemma SavedKeysReload(m: map<int, Estate>)
    requires KeyedById(m)
    ensures LoadedView(SavedDTOs(m, SortedKeys(m.Keys))).Keys == m.Keys
  {
    var keys := SortedKeys(m.Keys);
    SortedKeysSorted(m.Keys);
    SavedUnderKeysReload(m, keys);
  }

  /**
   * What `SaveToFile` writes, loaded by `LoadFromFile`, gives every key back with the
   * record of the estate stored under it, when every estate is stored under its own ID.
   */
  lemma SavedRecordsReload(m: map<int, Estate>)
    requires KeyedById(m)
    ensures forall k :: k in m ==>
      k in LoadedView(SavedDTOs(m, SortedKeys(m.Keys))) &&
      LoadedView(SavedDTOs(m, SortedKeys(m.Keys)))[k] == MapEstateToDTO(m[k])
  {
    var keys := SortedKeys(m.Keys);
    SortedKeysSorted(m.Keys);
    SavedUnderKeysReload(m, keys);
    forall k | k in m
      ensures k in LoadedView(SavedDTOs(m, keys)) && LoadedView(SavedDTOs(m, keys))[k] == MapEstateToDTO(m[k])
    {
      var i :| 0 <= i < |keys| && keys[i] == k;
    }
  }

  class EstateManager {
    var dictionary: map<int, Estate>

    /** An empty manager. */
    constructor ()
      ensures dictionary == map[]
    {
      dictionary := map[];
    }

    /** `Count`: the number of stored estates. */
    function Count(): nat
      reads this
    {
      |dictionary|
    }

    /** `CheckKey`: whether an estate is stored under `key`. */
    function CheckKey(key: int): bool
      reads this
    {
      key in dictionary
    }

    /**
     * `Add(key, item)`: inserts a non-null item under an unused key and reports success;
     * otherwise reports failure and changes nothing.
     */
    method Add(key: int, item: Estate?) returns (itemAdded: bool)
      modifies this
      ensures itemAdded <==> item != null && !old(CheckKey(key))
      ensures itemAdded ==> dictionary == old(dictionary)[key := item] && Count() == old(Count()) + 1
      ensures !itemAdded ==> dictionary == old(dictionary)
    {
      itemAdded := false;
      if item != null && !CheckKey(key) {
        dictionary := dictionary[key := item];
        itemAdded := true;
      }
    }

    /** `Get(key)`: the stored estate when the key is present, null otherwise. */
    function Get(key: int): (item: Estate?)
      reads this
      ensures item != null <==> CheckKey(key)
      ensures item != null ==> item == dictionary[key]
    {
      if CheckKey(key) then dictionary[key] else null
    }

    /**
     * `Change(key, item)`: replaces the estate under a present key by a non-null item;
     * the set of keys never changes.
     */
    method Change(key: int, item: Estate?) returns (itemChanged: bool)
      modifies this
      ensures itemChanged <==> item != null && old(CheckKey(key))
      ensures itemChanged ==> dictionary == old(dictionary)[key := item]
      ensures !itemChanged ==> dictionary == old(dictionary)
      ensures dictionary.Keys == old(dictionary.Keys)
    {
      itemChanged := false;
      if item != null && CheckKey(key) {
        dictionary := dictionary[key := item];
        itemChanged := true;
      }
    }

    /** `DeleteAll`: afterwards no key is present. */
    method DeleteAll()
      modifies this
      ensures dictionary == map[]
      ensures Count() == 0 && forall key :: !CheckKey(key)
    {
      dictionary := map[];
    }

    /** `Delete(key)`: removes the key, reporting whether it was present; every other entry stays. */
    method Delete(key: int) returns (itemRemoved: bool)
      modifies this
      ensures itemRemoved <==> old(CheckKey(key))
      ensures dictionary == old(dictionary) - {key}
      ensures !CheckKey(key)
    {
      itemRemoved := false;
      if CheckKey(key) {
        dictionary := dictionary - {key};
        itemRemoved := true;
      }
    }

    /** The keys in ascending order, by repeatedly taking the smallest remaining key. */
    method SortKeys() returns (keys: seq<int>)
      ensures keys == SortedKeys(dictionary.Keys)
    {
      keys := [];
      var rest := dictionary.Keys;
      while rest != {}
        invariant keys + SortedKeys(rest) == SortedKeys(dictionary.Keys)
        decreases |rest|
      {
        var min := MinOf(rest);
        ghost var later := SortedKeys(rest - {min});
        assert SortedKeys(rest) == [min] + later;
        assert keys + ([min] + later) == (keys + [min]) + later;
        keys := keys + [min];
        rest := rest - {min};
      }
    }

    /**
     * `ToStringArray`: one line per estate, `Count` of them, in ascending key order; the
     * line at position i is the `ToString()` of the estate with the i-th smallest key.
     */
    method ToStringArray() returns (strings: array<string>)
      ensures fresh(strings) && strings.Length == Count()
      ensures strings[..] == Lines(dictionary, SortedKeys(dictionary.Keys))
    {
      var keys := SortKeys();
      var lines := LinesOf(keys);
      strings := ToArray(lines);
    }

    /** The `ToString()` of the estates under `keys`, one at a time. */
    method LinesOf(keys: seq<int>) returns (lines: seq<string>)
      requires forall i :: 0 <= i < |keys| ==> keys[i] in dictionary
      ensures lines == Lines(dictionary, keys)
    {
      lines := [];
      var index := 0;
      while index < |keys|
        invariant 0 <= index <= |keys|
        invariant lines == Lines(dictionary, keys[..index])
      {
        LinesSnoc(dictionary, keys, index);
        lines := lines + [dictionary[keys[index]].ToString()];
        index := index + 1;
      }
      assert keys[..index] == keys;
    }

    /** `ToStringDictionary`: the `ToString()` of every estate under its own key, for exactly the stored keys. */
    method ToStringDictionary() returns (asDict: map<int, string>)
      ensures asDict.Keys == dictionary.Keys
      ensures forall k :: k in asDict ==> asDict[k] == dictionary[k].ToString()
    {
      asDict := map[];
      var rest := dictionary.Keys;
      while rest != {}
        invariant rest <= dictionary.Keys
        invariant asDict.Keys == dictionary.Keys - rest
        invariant forall k :: k in asDict ==> asDict[k] == dictionary[k].ToString()
        decreases |rest|
      {
        NoElementIsEmpty(rest);
        var k :| k in rest;
        asDict := asDict[k := dictionary[k].ToString()];
        rest := rest - {k};
      }
    }

    /**
     * `EstateManager.Add(item)`: overwrites the estate's ID with the new id (one above the
     * highest key, or 10000 when empty) and inserts it under that id, which always succeeds.
     */
    method AddEstate(item: Estate) returns (itemAdded: bool)
      modifies this, item`id
      ensures item.id == NewId(old(dictionary.Keys))
      ensures itemAdded && dictionary == old(dictionary)[item.id := item]
      ensures old(dictionary) == map[] ==> item.id == 10000
      ensures forall k :: k in old(dictionary) ==> k < item.id
      ensures old(KeyedById(dictionary)) && item !in old(dictionary.Values) ==> KeyedById(dictionary)
    {
      var newId := 10000;
      if dictionary != map[] {
        var max := MaxOf(dictionary.Keys);
        newId := max + 1;
      }
      item.id := newId;
      NewIdIsFresh(dictionary.Keys);
      itemAdded := Add(item.id, item);
    }

    /**
     * `FindByCountry`: a map with the single key `country`, whose list holds exactly the
     * stored estates that have an address in that country, in ascending key order.
     */
    method FindByCountry(country: Countries) returns (result: map<Countries, seq<Estate>>)
      ensures result.Keys == {country}
      ensures result[country] == EstatesInCountry(dictionary, SortedKeys(dictionary.Keys), country)
      ensures forall e :: e in result[country] <==> e in dictionary.Values && InCountry(e, country)
    {
      var keys := SortKeys();
      var listOfEstates := EstatesOf(keys, country);
      result := map[country := listOfEstates];
      EstatesInCountryMembers(dictionary, keys, country);
      forall e | e in dictionary.Values && InCountry(e, country)
        ensures e in listOfEstates
      {
        var k :| k in dictionary && dictionary[k] == e;
        var i :| 0 <= i < |keys| && keys[i] == k;
      }
    }

    /** The estates under `keys`, in that order, that lie in `country`, one at a time. */
    method EstatesOf(keys: seq<int>, country: Countries) returns (listOfEstates: seq<Estate>)
      requires forall i :: 0 <= i < |keys| ==> keys[i] in dictionary
      ensures listOfEstates == EstatesInCountry(dictionary, keys, country)
    {
      listOfEstates := [];
      var i := 0;
      while i < |keys|
        invariant 0 <= i <= |keys|
        invariant listOfEstates == EstatesInCountry(dictionary, keys[..i], country)
      {
        EstatesInCountrySnoc(dictionary, keys, i, country);
        var estate := dictionary[keys[i]];
        if InCountry(estate, country) {
          listOfEstates := listOfEstates + [estate];
        }
        i := i + 1;
      }
      assert keys[..i] == keys;
    }

    /**
     * `SaveToFile`: the records handed to the file writer, one per estate in ascending key
     * order (the mapping never yields null, so none is skipped); the outcome is the writer's.
     */
    method SaveToFile(writeSucceeds: bool) returns (estateDTOList: seq<EstateDTO>, success: bool)
      ensures estateDTOList == SavedDTOs(dictionary, SortedKeys(dictionary.Keys))
      ensures |estateDTOList| == Count() && success == writeSucceeds
    {
      var keys := SortKeys();
      estateDTOList := RecordsOf(keys);
      success := writeSucceeds;
    }

    /** The records of the estates under `keys`, in that order, one at a time. */
    method RecordsOf(keys: seq<int>) returns (estateDTOList: seq<EstateDTO>)
      requires forall i :: 0 <= i < |keys| ==> keys[i] in dictionary
      ensures estateDTOList == SavedDTOs(dictionary, keys)
    {
      estateDTOList := [];
      var i := 0;
      while i < |keys|
        invariant 0 <= i <= |keys|
        invariant estateDTOList == SavedDTOs(dictionary, keys[..i])
      {
        var estateDTO := MapEstateToDTO(dictionary[keys[i]]);
        estateDTOList := estateDTOList + [estateDTO];
        assert keys[..i + 1][..i] == keys[..i];
        i := i + 1;
      }
      assert keys[..i] == keys;
    }

    /**
     * `LoadFromFile`: `dtoList` is what the file reader returned (None for null). On None
     * it reports failure and changes nothing. Otherwise it empties the manager and adds a
     * new estate for every leaf record, under the record's own ID, the first record with a
     * given ID winning.
     */
    method LoadFromFile(dtoList: Option<seq<EstateDTO>>) returns (loaded: bool)
      modifies this
      ensures dtoList.None? ==> !loaded && dictionary == old(dictionary)
      ensures dtoList.Some? ==> loaded && dictionary.Keys == LoadedView(dtoList.value).Keys
      ensures dtoList.Some? ==> forall k :: k in dictionary ==>
        fresh(dictionary[k]) && MapEstateToDTO(dictionary[k]) == LoadedView(dtoList.value)[k]
    {
      if dtoList.None? {
        return false;
      }
      var dtos := dtoList.value;
      DeleteAll();
      var i := 0;
      while i < |dtos|
        invariant 0 <= i <= |dtos|
        invariant dictionary.Keys == LoadedView(dtos[..i]).Keys
        invariant forall k :: k in dictionary ==>
          fresh(dictionary[k]) && MapEstateToDTO(dictionary[k]) == LoadedView(dtos[..i])[k]
      {
        LoadRecord(LoadedView(dtos[..i]), dtos[i]);
        assert dtos[..i + 1][..i] == dtos[..i];
        i := i + 1;
      }
      assert dtos[..i] == dtos;
      loaded := true;
    }

    /**
     * One pass of the loading loop: an estate built from a leaf record is added under its
     * ID when the ID is free; the estates already present stay as they are.
     */
    method LoadRecord(ghost view: map<int, EstateDTO>, d: EstateDTO)
      modifies this
      requires dictionary.Keys == view.Keys
      requires forall k :: k in dictionary ==> MapEstateToDTO(dictionary[k]) == view[k]
      ensures dictionary.Keys == LoadStep(view, d).Keys
      ensures forall k :: k in dictionary ==> MapEstateToDTO(dictionary[k]) == LoadStep(view, d)[k]
      ensures forall k :: k in dictionary ==> (k in old(dictionary) && dictionary[k] == old(dictionary)[k]) || fresh(dictionary[k])
    {
      var estate := MapDTOToEstate(d);
      ghost var loaded := LoadStep(view, d);
      if estate != null {
        label BeforeAdd:
        var added := Add(estate.id, estate);
        if added {
          RecordUnchanged@BeforeAdd(estate);
        }
      }
      forall k | k in dictionary && k in old(dictionary)
        ensures MapEstateToDTO(dictionary[k]) == loaded[k]
      {
        RecordUnchanged(dictionary[k]);
      }
    }
  }

  /**
   * Adding an estate, deleting it again and adding another gives the second estate the
   * id of the first: the new id depends only on the keys, and the deletion restores them.
   */
  method IdReusedAfterDelete(manager: EstateManager, first: Estate, second: Estate)
    modifies manager, first`id, second`id
    ensures first.id == second.id == NewId(old(manager.dictionary.Keys))
    ensures manager.dictionary == old(manager.dictionary)[second.id := second]
  {
    ghost var before := manager.dictionary;
    var _ := manager.AddEstate(first);
    var removed := manager.Delete(first.id);
    assert removed;
    assert manager.dictionary == before;
    var _ := manager.AddEstate(second);
  }
}
