/**
 * `RealEstateBLL.BLLService`: read, create and update of estates by record, over a manager
 * shared with its caller, and the choice of file format for saving. `ConvertDTOToEstate`
 * is the same leaf dispatch as `BllMapping.MapDTOToEstate` and is used as such.
 */
module BllServices {
  import opened Wrappers
  import opened Text
  import opened Estates
  import opened Dtos
  import opened BllMapping
  import opened Managers

  /** Whether `c` separates directories in a path (Windows accepts both slashes). */
  predicate IsSeparator(c: char) {
    c == '/' || c == '\\'
  }

  /** The index of the last '.' of the path's last segment, if there is one. */
  function LastDot(path: string): (r: Option<nat>)
    ensures r.Some? ==> r.value < |path| && path[r.value] == '.'
    ensures r.Some? ==> forall i :: r.value < i < |path| ==> path[i] != '.' && !IsSeparator(path[i])
    ensures r.None? ==> forall i :: 0 <= i < |path| && path[i] == '.' ==>
      exists j :: i < j < |path| && IsSeparator(path[j])
    decreases |path|
  {
    if path == [] then None
    else
      var c := path[|path| - 1];
      if c == '.' then Some(|path| - 1)
      else if IsSeparator(c) then None
      else LastDot(path[..|path| - 1])
  }

  /**
   * `Path.GetExtension`: the last segment's text from its last '.', that '.' included;
   * empty when the segment has no '.' or ends with it.
   */
  function GetExtension(path: string): (ext: string)
    ensures ext == [] || ('.' == ext[0] && 2 <= |ext| <= |path| && ext == path[|path| - |ext|..])
    ensures ext != [] ==> forall i :: 1 <= i < |ext| ==> ext[i] != '.' && !IsSeparator(ext[i])
  {
    var dot := LastDot(path);
    if dot.Some? && dot.value < |path| - 1 then path[dot.value..] else []
  }

  /** A file name that ends in '.' and a non-empty tail with no '.' or separator has that tail as extension. */
  lemma {:induction false} GetExtensionOfName(name: string, tail: string)
    requires tail != []
    requires forall i :: 0 <= i < |tail| ==> tail[i] != '.' && !IsSeparator(tail[i])
    ensures GetExtension(name + "." + tail) == "." + tail
  {
    LastDotSkips(name + ".", tail);
    assert (name + ".")[|name|] == '.';
    assert LastDot(name + ".") == Some(|name|);
    assert name + "." + tail == (name + ".") + tail;
    assert (name + "." + tail)[|name|..] == "." + tail;
  }

  /** Characters other than '.' and separators added at the end do not move the last dot. */
  lemma {:induction false} LastDotSkips(prefix: string, tail: string)
    requires forall i :: 0 <= i < |tail| ==> tail[i] != '.' && !IsSeparator(tail[i])
    ensures LastDot(prefix + tail) == LastDot(prefix)
    decreases |tail|
  {
    if tail == [] {
      assert prefix + tail == prefix;
    } else {
      var shorter := tail[..|tail| - 1];
      LastDotSkips(prefix, shorter);
      assert (prefix + tail)[..|prefix + tail| - 1] == prefix + shorter;
    }
  }

  datatype FileFormat = Json | Xml

  /** The `switch` of `SaveToFile`: the format named by the lower-cased extension, if any. */
  function SaveFormat(filePath: string): (format: Option<FileFormat>)
    ensures format == Some(Json) <==> ToLower(GetExtension(filePath)) == ".json"
    ensures format == Some(Xml) <==> ToLower(GetExtension(filePath)) == ".xml"
  {
    var fileExtension := ToLower(GetExtension(filePath));
    if fileExtension == ".json" then Some(Json)
    else if fileExtension == ".xml" then Some(Xml)
    else None
  }

  /** A name with a '.' and a tail with no further '.' is saved in the format the lower-cased tail names. */
  lemma SaveFormatOfName(name: string, tail: string)
    requires tail != []
    requires forall i :: 0 <= i < |tail| ==> tail[i] != '.' && !IsSeparator(tail[i])
    ensures SaveFormat(name + "." + tail) == Some(Json) <==> ToLower("." + tail) == ".json"
    ensures SaveFormat(name + "." + tail) == Some(Xml) <==> ToLower("." + tail) == ".xml"
  {
    GetExtensionOfName(name, tail);
  }

  /** ".JSON" lower-cases to ".json". */
  lemma LowerJsonExtension()
    ensures ToLower(".JSON") == ".json"
  {
    var lower := ToLower(".JSON");
    assert lower[0] == '.' && lower[1] == 'j' && lower[2] == 's' && lower[3] == 'o' && lower[4] == 'n';
  }

  /** The extension's letter case does not matter: any "name.JSON" is saved as JSON. */
  lemma SaveFormatIgnoresCase(name: string)
    ensures SaveFormat(name + "." + "JSON") == Some(Json)
  {
    SaveFormatOfName(name, "JSON");
    LowerJsonExtension();
  }

  /** A '.' in a directory name is not an extension: "C:\\data.json\\estates" is not saved. */
  lemma SaveFormatOnlyLastSegment()
    ensures SaveFormat("C:\\data.json\\estates") == None
  {
    LastDotSkips("C:\\data.json\\", "estates");
    assert "C:\\data.json\\" + "estates" == "C:\\data.json\\estates";
  }

  class BLLService {
    const estateManager: EstateManager

    /** Works on the caller's manager, not a copy. */
    constructor (estateManager: EstateManager)
      ensures this.estateManager == estateManager
    {
      this.estateManager := estateManager;
    }

    /**
     * `GetEstate`: none for an absent id; otherwise the record of the stored estate's own
     * leaf, Rowhouse tested before Villa.
     */
    function GetEstate(estateID: int): (estateDTO: Option<EstateDTO>)
      reads estateManager, estateManager.dictionary.Values
      reads set e | e in estateManager.dictionary.Values :: e.seller
      reads set e | e in estateManager.dictionary.Values :: e.buyer
      reads Footprint(estateManager.dictionary)
      ensures estateDTO.None? <==> !estateManager.CheckKey(estateID)
      ensures estateDTO.Some? ==> estateDTO.value.LeafDTO? && estateDTO.value.kind == estateManager.dictionary[estateID].kind
      ensures estateDTO.Some? ==> MapEstateToDTO(estateManager.dictionary[estateID]) == estateDTO.value
    {
      var estate := estateManager.Get(estateID);
      if estate == null then None
      else
        assert estate.Parts() <= Footprint(estateManager.dictionary) by {
          assert estate in estateManager.dictionary.Values;
        }
        Some(MapEstateToDTO(estate))
    }

    /**
     * `CreateEstate`: a record that is not a leaf gives (false, -1) and changes nothing;
     * a leaf record becomes a new estate, stored under the manager's next id whatever the
     * record's own ID, and reading that id back gives the record with that ID.
     */
    method CreateEstate(estateDTO: EstateDTO) returns (success: bool, newID: int)
      modifies estateManager
      ensures success <==> estateDTO.LeafDTO?
      ensures !success ==> newID == -1 && estateManager.dictionary == old(estateManager.dictionary)
      ensures success ==> newID == NewId(old(estateManager.dictionary.Keys)) && newID in estateManager.dictionary
      ensures success ==> estateManager.dictionary == old(estateManager.dictionary)[newID := estateManager.dictionary[newID]]
      ensures success ==> fresh(estateManager.dictionary[newID])
      ensures success ==> (var stored: EstateDTO := Rebase(estateDTO, estateDTO.base.(id := newID)); GetEstate(newID) == Some(stored))
      ensures old(KeyedById(estateManager.dictionary)) ==> KeyedById(estateManager.dictionary)
    {
      var estate := MapDTOToEstate(estateDTO);
      newID := -1;
      if estate == null {
        return false, newID;
      }
      var estateAdded := estateManager.AddEstate(estate);
      if estateAdded {
        newID := estate.id;
      }
      success := estateAdded;
    }

    /**
     * `UpdateEstate`: a leaf record whose ID is stored replaces that entry by a new estate
     * with exactly the record's values; any other record changes nothing.
     */
    method UpdateEstate(estateDTO: EstateDTO) returns (estateUpdated: bool)
      modifies estateManager
      ensures estateUpdated <==> estateDTO.LeafDTO? && estateDTO.base.id in old(estateManager.dictionary)
      ensures !estateUpdated ==> estateManager.dictionary == old(estateManager.dictionary)
      ensures estateUpdated ==> estateDTO.base.id in estateManager.dictionary
      ensures estateUpdated ==>
        (estateManager.dictionary == old(estateManager.dictionary)[estateDTO.base.id := estateManager.dictionary[estateDTO.base.id]])
      ensures estateUpdated ==> fresh(estateManager.dictionary[estateDTO.base.id])
      ensures estateUpdated ==> GetEstate(estateDTO.base.id) == Some(estateDTO)
      ensures old(KeyedById(estateManager.dictionary)) ==> KeyedById(estateManager.dictionary)
    {
      var estate := MapDTOToEstate(estateDTO);
      if estate == null {
        return false;
      }
      estateUpdated := estateManager.Change(estate.id, estate);
    }

    /**
     * `SaveToFile`: the manager goes to the writer of the format the extension names, and
     * the writer's outcome (`writeSucceeds`) is returned; any other extension gives false
     * without writing. `format` is the writer chosen.
     */
    method SaveToFile(filePath: string, writeSucceeds: bool) returns (format: Option<FileFormat>, saved: bool)
      ensures format == SaveFormat(filePath)
      ensures saved <==> format.Some? && writeSucceeds
    {
      format := SaveFormat(filePath);
      saved := format.Some? && writeSucceeds;
    }
  }
}
