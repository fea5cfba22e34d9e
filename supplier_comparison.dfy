/** The supplier comparison of the plan page: a fixed catalogue of four suppliers (the
    same for every material), a compare list of up to three of them, and the comparison
    table of the selected ones in catalogue order. */
module SupplierComparison {
  import opened Common
  import opened Business
  import opened CompareList

  const Catalogue: seq<Supplier> := [
    Supplier("IndiaMART Verified Seller", "Delhi NCR", 4.5, "₹500-₹2,000", "2-3 days", "₹5,000", "Online",
             ["Wide variety", "Verified sellers", "Easy comparison"], ["Shipping costs extra", "Quality varies"]),
    Supplier("Local Wholesale Market", "City Center", 4.2, "₹400-₹1,800", "Same day", "₹2,000", "In-person",
             ["Negotiate prices", "Check quality", "No shipping"], ["Limited hours", "Cash preferred"]),
    Supplier("TradeIndia Supplier", "Mumbai", 4.0, "₹450-₹1,900", "3-5 days", "₹3,000", "Online",
             ["Bulk discounts", "Regular supply", "Invoice billing"], ["Min order required", "Advance payment"]),
    Supplier("Amazon Business", "Pan India", 4.3, "₹600-₹2,200", "1-2 days", "₹1,000", "Online",
             ["Fast delivery", "Easy returns", "GST invoice"], ["Higher prices", "Limited bulk options"])
  ]

  function NameOf(s: Supplier): string { s.name }

  /** `generateMockSuppliers`: four suppliers with different names and ratings between 3
      and 5 stars, whatever the material. */
  function MockSuppliers(materialName: string): (r: seq<Supplier>)
    ensures |r| == 4
    ensures Distinct(NamesOf(r, NameOf))
    ensures forall i :: 0 <= i < |r| ==> 3.0 <= r[i].rating <= 5.0
  {
    CatalogueNamesDistinct();
    Catalogue
  }

  /** The catalogue's four names are different. */
  lemma CatalogueNamesDistinct()
    ensures Distinct(NamesOf(Catalogue, NameOf))
  {
    var names := NamesOf(Catalogue, NameOf);
    assert names[0] == Catalogue[0].name && names[1] == Catalogue[1].name;
    assert names[2] == Catalogue[2].name && names[3] == Catalogue[3].name;
    var initials := [names[0][0], names[1][0], names[2][0], names[3][0]];
    assert initials == ['I', 'L', 'T', 'A'];
    forall i, j | 0 <= i < j < |names|
      ensures names[i] != names[j]
    {
      assert initials[i] != initials[j];
    }
  }

  /** The comparison view: the selected material, the compare list and the expanded card. */
  class ComparisonView {
    var selectedMaterial: string
    var compareList: seq<string>
    var expandedSupplier: Option<string>

    /** Every listed name is a catalogue card's: the only way a name enters the list. */
    ghost predicate Valid()
      reads this
    {
      WellFormed(compareList) && forall x :: x in compareList ==> x in NamesOf(Catalogue, NameOf)
    }

    /** The first material is selected (`""` without materials), nothing is compared. */
    constructor (materials: seq<RawMaterial>)
      ensures selectedMaterial == (if |materials| > 0 then materials[0].name else "")
      ensures compareList == [] && expandedSupplier.None?
      ensures Valid()
    {
      selectedMaterial := if |materials| > 0 then materials[0].name else "";
      compareList := [];
      expandedSupplier := None;
    }

    /** The cards on show: the same four for any material. */
    function Suppliers(): (r: seq<Supplier>)
      reads this
      ensures r == Catalogue
    {
      MockSuppliers(selectedMaterial)
    }

    /** `comparedSuppliers`: the listed suppliers, in catalogue order. */
    function ComparedSuppliers(): (r: seq<Supplier>)
      reads this
      ensures r == Compared(Catalogue, NameOf, compareList)
    {
      Compared(Suppliers(), NameOf, compareList)
    }

    /** The checkbox of a card; only the catalogue's cards have one. */
    method ToggleCompare(supplierName: string)
      modifies this`compareList
      ensures compareList == Toggle(old(compareList), supplierName)
      ensures old(Valid()) && supplierName in NamesOf(Catalogue, NameOf) ==> Valid()
    {
      if Valid() {
        ToggleKeepsWellFormed(compareList, supplierName);
      }
      compareList := Toggle(compareList, supplierName);
    }

    /** Choosing a material re-renders the same cards and keeps the compare list. */
    method SelectMaterial(name: string)
      modifies this`selectedMaterial
      ensures selectedMaterial == name
      ensures Suppliers() == old(Suppliers())
    {
      selectedMaterial := name;
    }

    /** The chevron of a card opens it, or closes it when it is the open one. */
    method ToggleExpanded(supplierName: string)
      modifies this`expandedSupplier
      ensures old(expandedSupplier) == Some(supplierName) ==> expandedSupplier.None?
      ensures old(expandedSupplier) != Some(supplierName) ==> expandedSupplier == Some(supplierName)
    {
      expandedSupplier := if expandedSupplier == Some(supplierName) then None else Some(supplierName);
    }
  }

  /** With the list built from the cards, there are as many compared suppliers as listed
      names, so the table shows for two or three of them and the hint for one. */
  lemma ComparedMatchesList(list: seq<string>)
    requires WellFormed(list) && forall x :: x in list ==> x in NamesOf(Catalogue, NameOf)
    ensures |Compared(Catalogue, NameOf, list)| == |list|
  {
    CatalogueNamesDistinct();
    ComparedCount(Catalogue, NameOf, list);
  }
}
