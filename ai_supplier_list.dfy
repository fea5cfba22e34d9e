/** The AI supplier search of the plan page: the suppliers of the selected material are
    fetched on request (the fetch's outcome is an input), a material switch clears them,
    and the compare list follows the shared toggle rule. */
module AiSupplierList {
  import opened Common
  import opened Business
  import opened CompareList

  /** A fetched supplier: the catalogue fields and the optional extras of the search. */
  datatype AiSupplier = AiSupplier(
    info: Supplier,
    phone: Option<string>,
    specialization: Option<string>,
    verified: Option<bool>)

  function NameOf(s: AiSupplier): string { s.info.name }

  /** What the supplier function answered: an error (raised, or an `error` field in the
      data), or data whose `suppliers` field may be missing. */
  datatype FetchOutcome = Failed(message: string) | Fetched(suppliers: Option<seq<AiSupplier>>)

  class SearchView {
    var selectedMaterial: string
    var suppliers: seq<AiSupplier>
    var isLoading: bool
    var compareList: seq<string>
    var expandedSupplier: Option<string>
    var hasLoaded: bool

    /** The first material is selected (`""` without materials); nothing is loaded. */
    constructor (materials: seq<RawMaterial>)
      ensures selectedMaterial == (if |materials| > 0 then materials[0].name else "")
      ensures suppliers == [] && !isLoading && compareList == [] && expandedSupplier.None? && !hasLoaded
    {
      selectedMaterial := if |materials| > 0 then materials[0].name else "";
      suppliers := [];
      isLoading := false;
      compareList := [];
      expandedSupplier := None;
      hasLoaded := false;
    }

    /** A material button: the material is selected and the results and compare list go. */
    method SelectMaterial(name: string)
      modifies this
      ensures selectedMaterial == name && suppliers == [] && !hasLoaded && compareList == []
      ensures isLoading == old(isLoading) && expandedSupplier == old(expandedSupplier)
    {
      selectedMaterial := name;
      suppliers := [];
      hasLoaded := false;
      compareList := [];
    }

    /** `fetchSuppliers`: nothing for an empty material; success takes the returned list
        (or none) and marks the search done; failure keeps what was there. Returns the
        material asked for, if a request was made. */
    method FetchSuppliers(outcome: FetchOutcome) returns (requested: Option<string>)
      modifies this`isLoading, this`suppliers, this`hasLoaded
      ensures selectedMaterial == "" ==> requested.None? && unchanged(this)
      ensures selectedMaterial != "" ==> requested == Some(selectedMaterial) && !isLoading
      ensures selectedMaterial != "" && outcome.Fetched? ==>
                suppliers == (if outcome.suppliers.Some? then outcome.suppliers.value else []) && hasLoaded
      ensures selectedMaterial != "" && outcome.Failed? ==>
                suppliers == old(suppliers) && hasLoaded == old(hasLoaded)
    {
      if selectedMaterial == "" {
        return None;
      }
      requested := Some(selectedMaterial);
      isLoading := true;
      if outcome.Fetched? {
        suppliers := if outcome.suppliers.Some? then outcome.suppliers.value else [];
        hasLoaded := true;
      }
      isLoading := false;
    }

    /** The checkbox of a card. */
    method ToggleCompare(supplierName: string)
      modifies this`compareList
      ensures compareList == Toggle(old(compareList), supplierName)
      ensures WellFormed(old(compareList)) ==> WellFormed(compareList)
    {
      if WellFormed(compareList) {
        ToggleKeepsWellFormed(compareList, supplierName);
      }
      compareList := Toggle(compareList, supplierName);
    }

    /** `comparedSuppliers`: the fetched suppliers whose names are listed, in fetch order. */
    function ComparedSuppliers(): (r: seq<AiSupplier>)
      reads this
      ensures r == Compared(suppliers, NameOf, compareList)
    {
      Compared(suppliers, NameOf, compareList)
    }
  }

  /** A refresh that returns other suppliers keeps the compare list, so its names may match
      none of them: then neither the table nor the hint shows, though two names are listed. */
  lemma StaleListShowsNothing(suppliers: seq<AiSupplier>, list: seq<string>)
    requires |list| == 2 && forall k :: 0 <= k < |suppliers| ==> NameOf(suppliers[k]) !in list
    ensures Compared(suppliers, NameOf, list) == []
    ensures !ShowsTable(Compared(suppliers, NameOf, list)) && !ShowsHint(list)
  {
  }
}
