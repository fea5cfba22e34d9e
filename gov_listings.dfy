/** The government-listing endpoint: a NIC 2008 division code is pulled out of each MSME
    record's free-text NIC field, mapped to a marketplace category, and the category decides
    whether the record becomes a "buy", "sell" or "export" listing. */
module GovListings {
  import opened Common
  import opened Listing

  // ---------------------------------------------------------------------------
  // Python's int() on a decimal string

  /** Digits with single underscores between them, as `int()` accepts after the sign. */
  predicate PyDigitBody(s: string)
  {
    && |s| > 0 && IsDigit(s[0]) && IsDigit(s[|s| - 1])
    && (forall i :: 0 <= i < |s| ==> IsDigit(s[i]) || s[i] == '_')
    && (forall i :: 0 <= i < |s| - 1 ==> s[i] == '_' ==> s[i + 1] != '_')
  }

  function DropUnderscores(s: string): (r: string)
    requires forall i :: 0 <= i < |s| ==> IsDigit(s[i]) || s[i] == '_'
    ensures AllDigits(r) && |r| <= |s|
    ensures AllDigits(s) ==> r == s
  {
    if s == [] then []
    else (if s[0] == '_' then [] else [s[0]]) + DropUnderscores(s[1..])
  }

  /** A sign, `+` or `-`, followed by a digit body. */
  predicate SignedDigitBody(s: string)
  {
    |s| > 0 && (s[0] == '+' || s[0] == '-') && PyDigitBody(s[1..])
  }

  /** `int(s)` for base 10 on text with no surrounding whitespace (the caller strips it):
      an optional sign, then the digit body with its underscores dropped; `None` is the
      ValueError. */
  function PyInt(s: string): (r: Option<int>)
    ensures AllDigits(s) && |s| > 0 ==> r == Some(DecimalValue(s))
    ensures PyDigitBody(s) ==> r == Some(DecimalValue(DropUnderscores(s)))
    ensures SignedDigitBody(s) && s[0] == '+' ==> r == Some(DecimalValue(DropUnderscores(s[1..])))
    ensures SignedDigitBody(s) && s[0] == '-' ==> r == Some(0 - DecimalValue(DropUnderscores(s[1..])))
    ensures r.None? <==> !PyDigitBody(s) && !SignedDigitBody(s)
  {
    if |s| > 0 && (s[0] == '+' || s[0] == '-') then
      var body := s[1..];
      if PyDigitBody(body) then
        var v := DecimalValue(DropUnderscores(body));
        Some(if s[0] == '-' then 0 - v else v)
      else None
    else if PyDigitBody(s) then Some(DecimalValue(DropUnderscores(s)))
    else None
  }

  /** `int()` reads back what `str()` writes for a natural number, with either sign. */
  lemma PyIntOfNatToString(n: nat)
    ensures PyInt(NatToString(n)) == Some(n)
    ensures PyInt("+" + NatToString(n)) == Some(n)
    ensures PyInt("-" + NatToString(n)) == Some(0 - n)
  {
    var t := NatToString(n);
    DecimalOfNatToString(n);
    assert ("+" + t)[1..] == t;
    assert ("-" + t)[1..] == t;
  }

  /** Underscores between digits are ignored, and a doubled or trailing one is refused. */
  lemma PyIntUnderscores()
    ensures PyInt("1_0") == Some(10)
    ensures PyInt("1__0").None? && PyInt("10_").None? && PyInt("_10").None?
    ensures PyInt("-").None? && PyInt("").None?
  {
    assert DropUnderscores("1_0") == "10";
    assert DecimalValue("10") == 10 by { assert "10"[..1] == "1"; assert "1"[..0] == ""; }
    assert "1__0"[1] == '_' && "1__0"[2] == '_';
    assert "10_"[2] == '_';
  }

  // ---------------------------------------------------------------------------
  // The NIC division map

  const IndustrialCodes: seq<string> := ["16", "17", "18", "19", "20", "21", "22", "23", "24", "25",
                                          "28", "29", "30", "33", "35", "36", "37", "38", "39"]

  /** `map_nic_to_category`: the code is stripped, then classified. */
  function MapNicToCategory(raw: string): string
  {
    CategoryOfCode(PyStrip(raw))
  }

  /** The branches of `map_nic_to_category` on the stripped code, in their order. */
  function CategoryOfCode(code: string): string
  {
    if code in ["10", "11", "12"] then FoodAndBeverages
    else if code in ["13", "14", "15"] then ClothingAndTextiles
    else if code in ["26", "27"] then Electronics
    else if code in ["01", "02", "03"] then Agriculture
    else if code in IndustrialCodes then Industrial
    else if code == "21" then HealthAndBeauty
    else if code in ["31", "32"] then Handicrafts
    else match PyInt(code)
      case Some(n) =>
        if n >= 45 then Services
        else if 10 <= n <= 33 then Industrial
        else Other
      case None => Other
  }

  /** The map read as ranges of the division number, for a two-digit code. */
  function CategoryOfDivision(n: nat): string
  {
    if 10 <= n <= 12 then FoodAndBeverages
    else if 13 <= n <= 15 then ClothingAndTextiles
    else if 26 <= n <= 27 then Electronics
    else if 1 <= n <= 3 then Agriculture
    else if 16 <= n <= 25 || 28 <= n <= 30 || n == 33 || 35 <= n <= 39 then Industrial
    else if 31 <= n <= 32 then Handicrafts
    else if n >= 45 then Services
    else Other
  }

  /** The value of a two-character digit string. */
  function Value2(s: string): nat
    requires |s| == 2 && AllDigits(s)
  {
    10 * DigitValue(s[0]) + DigitValue(s[1])
  }

  lemma Value2Injective(s: string, t: string)
    requires |s| == 2 && AllDigits(s) && |t| == 2 && AllDigits(t)
    ensures s == t <==> Value2(s) == Value2(t)
  {
    if Value2(s) == Value2(t) {
      assert s[0] == t[0] && s[1] == t[1];
    }
  }

  /** On two-digit codes the string tests agree with the ranges. */
  lemma TwoDigitCodesByRange(code: string)
    requires |code| == 2 && AllDigits(code)
    ensures MapNicToCategory(code) == CategoryOfDivision(DecimalValue(code))
  {
    PyStripUnchanged(code);
    DecimalTwoDigits(code);
    CodeByRange(code);
  }

  lemma DecimalTwoDigits(code: string)
    requires |code| == 2 && AllDigits(code)
    ensures DecimalValue(code) == Value2(code)
  {
    var p := code[..1];
    assert p[..0] == [];
    assert DecimalValue(p) == DigitValue(code[0]);
  }

  lemma PyIntTwoDigits(code: string)
    requires |code| == 2 && AllDigits(code)
    ensures PyInt(code) == Some(Value2(code))
  {
    assert PyDigitBody(code);
    DecimalTwoDigits(code);
  }

  predicate TwoDigits(t: string) { |t| == 2 && AllDigits(t) }

  predicate AllTwoDigits(L: seq<string>) { forall k :: 0 <= k < |L| ==> |L[k]| == 2 && AllDigits(L[k]) }

  function Values2(L: seq<string>): (r: seq<nat>)
    requires AllTwoDigits(L)
    ensures |r| == |L|
    ensures forall k :: 0 <= k < |L| ==> r[k] == Value2(L[k])
  {
    if L == [] then [] else [Value2(L[0])] + Values2(L[1..])
  }

  lemma InListByValue(c: string, L: seq<string>)
    requires TwoDigits(c) && AllTwoDigits(L)
    ensures c in L <==> Value2(c) in Values2(L)
  {
    var V := Values2(L);
    if c in L {
      var k :| 0 <= k < |L| && L[k] == c;
      assert V[k] == Value2(c);
    }
    if Value2(c) in V {
      var k :| 0 <= k < |V| && V[k] == Value2(c);
      Value2Injective(c, L[k]);
    }
  }

  lemma FoodCodes(code: string)
    requires TwoDigits(code)
    ensures code in ["10", "11", "12"] <==> 10 <= Value2(code) <= 12
  {
    InListByValue(code, ["10", "11", "12"]);
  }

  lemma ClothingCodes(code: string)
    requires TwoDigits(code)
    ensures code in ["13", "14", "15"] <==> 13 <= Value2(code) <= 15
  {
    InListByValue(code, ["13", "14", "15"]);
  }

  lemma ElectronicsCodes(code: string)
    requires TwoDigits(code)
    ensures code in ["26", "27"] <==> 26 <= Value2(code) <= 27
  {
    InListByValue(code, ["26", "27"]);
  }

  lemma AgricultureCodes(code: string)
    requires TwoDigits(code)
    ensures code in ["01", "02", "03"] <==> 1 <= Value2(code) <= 3
  {
    InListByValue(code, ["01", "02", "03"]);
  }

  lemma IndustrialSplit()
    ensures IndustrialCodes == ["16", "17", "18", "19", "20"] + ["21", "22", "23", "24", "25"] + ["28", "29", "30", "33"] + ["35", "36", "37", "38", "39"]
  {
  }

  lemma IndustrialA(code: string)
    requires TwoDigits(code)
    ensures code in ["16", "17", "18", "19", "20"] <==> 16 <= Value2(code) <= 20
  {
    InListByValue(code, ["16", "17", "18", "19", "20"]);
  }

  lemma IndustrialB(code: string)
    requires TwoDigits(code)
    ensures code in ["21", "22", "23", "24", "25"] <==> 21 <= Value2(code) <= 25
  {
    InListByValue(code, ["21", "22", "23", "24", "25"]);
  }

  lemma IndustrialC(code: string)
    requires TwoDigits(code)
    ensures code in ["28", "29", "30", "33"] <==> 28 <= Value2(code) <= 30 || Value2(code) == 33
  {
    InListByValue(code, ["28", "29", "30", "33"]);
  }

  lemma IndustrialD(code: string)
    requires TwoDigits(code)
    ensures code in ["35", "36", "37", "38", "39"] <==> 35 <= Value2(code) <= 39
  {
    InListByValue(code, ["35", "36", "37", "38", "39"]);
  }

  lemma IndustrialList(code: string)
    requires TwoDigits(code)
    ensures code in IndustrialCodes <==> 16 <= Value2(code) <= 25 || 28 <= Value2(code) <= 30 || Value2(code) == 33 || 35 <= Value2(code) <= 39
  {
    IndustrialSplit();
    IndustrialA(code);
    IndustrialB(code);
    IndustrialC(code);
    IndustrialD(code);
  }

  lemma HandicraftCodes(code: string)
    requires TwoDigits(code)
    ensures code in ["31", "32"] <==> 31 <= Value2(code) <= 32
  {
    InListByValue(code, ["31", "32"]);
  }

  /** On a two-digit code the list tests and the integer fallback agree with the ranges. */
  lemma CodeByRange(code: string)
    requires TwoDigits(code)
    ensures CategoryOfCode(code) == CategoryOfDivision(Value2(code))
  {
    PyIntTwoDigits(code);
    FoodCodes(code);
    ClothingCodes(code);
    ElectronicsCodes(code);
    AgricultureCodes(code);
    IndustrialList(code);
    HandicraftCodes(code);
  }

  /** The "Health & Beauty" branch tests "21" after the industrial list, which holds "21":
      no input reaches it. */
  lemma NeverHealthAndBeauty(raw: string)
    ensures MapNicToCategory(raw) != HealthAndBeauty
  {
    CodeNeverHealthAndBeauty(PyStrip(raw));
  }

  lemma CodeNeverHealthAndBeauty(code: string)
    ensures CategoryOfCode(code) != HealthAndBeauty
  {
    assert "21" in IndustrialCodes;
  }

  /** A code of any other length than two is in none of the lists. */
  lemma NotInTwoDigitList(c: string, L: seq<string>)
    requires |c| != 2 && AllTwoDigits(L)
    ensures c !in L
  {
  }

  /** The integer fallback is reachable: a padded code such as "010" is in no list but
      parses to 10. */
  lemma PaddedCodeFallsBackToIndustrial()
    ensures CategoryOfCode("010") == Industrial
  {
    NotInTwoDigitList("010", ["10", "11", "12"]);
    NotInTwoDigitList("010", ["13", "14", "15"]);
    NotInTwoDigitList("010", ["26", "27"]);
    NotInTwoDigitList("010", ["01", "02", "03"]);
    NotInTwoDigitList("010", IndustrialCodes);
    NotInTwoDigitList("010", ["31", "32"]);
    assert PyInt("010") == Some(10) by {
      assert PyDigitBody("010");
      assert DecimalValue("010") == 10 by {
        assert "010"[..2] == "01" && "01"[..1] == "0";
      }
    }
  }

  /** A signed "+99" is in no list either, and parses past the Services bound. */
  lemma SignedCodeFallsBackToServices()
    ensures CategoryOfCode("+99") == Services
  {
    NotInTwoDigitList("+99", ["10", "11", "12"]);
    NotInTwoDigitList("+99", ["13", "14", "15"]);
    NotInTwoDigitList("+99", ["26", "27"]);
    NotInTwoDigitList("+99", ["01", "02", "03"]);
    NotInTwoDigitList("+99", IndustrialCodes);
    NotInTwoDigitList("+99", ["31", "32"]);
    assert PyInt("+99") == Some(99) by {
      assert "+99"[1..] == "99";
      assert PyDigitBody("99");
      assert DecimalValue("99") == 99 by { assert "99"[..1] == "9"; }
    }
  }

  // ---------------------------------------------------------------------------
  // NIC extraction

  /** `\b(\d{n})\b` matches at `i`: `n` digits with no word character on either side. */
  predicate BoundedRunAt(s: string, i: nat, n: nat)
  {
    && i + n <= |s|
    && (forall k :: i <= k < i + n ==> IsDigit(s[k]))
    && (i == 0 || !IsWordChar(s[i - 1]))
    && (i + n == |s| || !IsWordChar(s[i + n]))
  }

  /** The leftmost match at or after `from`, as `re.search` finds it. */
  function FindBoundedRun(s: string, n: nat, from: nat): (r: Option<nat>)
    requires n > 0
    ensures r.Some? ==> from <= r.value && BoundedRunAt(s, r.value, n)
    ensures r.Some? ==> forall j :: from <= j < r.value ==> !BoundedRunAt(s, j, n)
    ensures r.None? ==> forall j :: from <= j ==> !BoundedRunAt(s, j, n)
    decreases |s| - from
  {
    if from + n > |s| then None
    else if BoundedRunAt(s, from, n) then Some(from)
    else FindBoundedRun(s, n, from + 1)
  }

  /** The two-digit NIC division: the first two digits of the first bounded five-digit run,
      else the first bounded two-digit run, else "00". */
  function ExtractDivision(rawNic: string): (r: string)
    ensures |r| == 2 && AllDigits(r)
    ensures var s := PyStrip(rawNic);
            match FindBoundedRun(s, 5, 0)
            case Some(i) => r == s[i..i + 2]
            case None =>
              match FindBoundedRun(s, 2, 0)
              case Some(i) => r == s[i..i + 2]
              case None => r == "00"
  {
    var s := PyStrip(rawNic);
    match FindBoundedRun(s, 5, 0)
    case Some(i) => s[i..i + 2]
    case None =>
      match FindBoundedRun(s, 2, 0)
      case Some(i) => s[i..i + 2]
      case None => "00"
  }

  /** Whatever the text, the extracted division is classified by its number's range. */
  lemma ExtractedDivisionByRange(rawNic: string)
    ensures MapNicToCategory(ExtractDivision(rawNic)) == CategoryOfDivision(DecimalValue(ExtractDivision(rawNic)))
  {
    TwoDigitCodesByRange(ExtractDivision(rawNic));
  }

  /** A bare five-digit code yields its first two digits. */
  lemma FiveDigitCode(code: string)
    requires |code| == 5 && AllDigits(code)
    ensures ExtractDivision(code) == code[..2]
  {
    PyStripUnchanged(code);
    assert BoundedRunAt(code, 0, 5);
  }

  // ---------------------------------------------------------------------------
  // Records to listings

  /** The fields of an MSME record the endpoint reads; `None` is a missing key. */
  datatype GovRecord = GovRecord(
    dicsCode: Option<string>,
    nicCodeLower: Option<string>,
    nicCode: Option<string>,
    enterpriseName: Option<string>,
    socialCategory: Option<string>,
    district: Option<string>,
    state: Option<string>,
    registrationDate: Option<string>)

  /** `record.get(key, default)`. */
  function Get(v: Option<string>, default: string): (r: string)
    ensures v.Some? ==> r == v.value
    ensures v.None? ==> r == default
  {
    if v.Some? then v.value else default
  }

  /** The raw NIC text: `NIC5DigitCode`, else `nic_5_digit_code`, else empty, stripped. */
  function RawNic(rec: GovRecord): string
  {
    PyStrip(Get(rec.nicCode, Get(rec.nicCodeLower, "")))
  }

  /** The split: what kind of listing a mapped category becomes. */
  datatype Split = Split(listingType: ListingType, titlePrefix: string, category: string, text: string)

  function SplitFor(mapped: string): Split
  {
    if mapped in [Agriculture, Industrial, "Chemicals"] then
      Split(Buy, "Supplier: ", mapped,
            "Verified Supplier of " + mapped + " & Raw Materials. available for bulk procurement.")
    else if mapped in [FoodAndBeverages, ClothingAndTextiles, Electronics, Handicrafts, HealthAndBeauty] then
      Split(Sell, "Manufacturer: ", mapped, "Verified Manufacturer of " + mapped + ". Available for bulk orders.")
    else
      Split(Export, "Export Partner: ", if mapped != Other then mapped else Services,
            "Verified Service Provider. Potential partner for export/logistics.")
  }

  /** Raw-material categories become supplier ("buy") listings, goods categories
      manufacturer ("sell") listings, and every other category an export-partner listing,
      with "Other" shown as "Services". */
  lemma SplitForSpec(mapped: string)
    ensures var sp := SplitFor(mapped);
            && (mapped in [Agriculture, Industrial, "Chemicals"] ==>
                  sp.listingType == Buy && sp.titlePrefix == "Supplier: " && sp.category == mapped)
            && (mapped in [FoodAndBeverages, ClothingAndTextiles, Electronics, Handicrafts, HealthAndBeauty] ==>
                  sp.listingType == Sell && sp.titlePrefix == "Manufacturer: " && sp.category == mapped)
            && (sp.listingType == Export ==>
                  sp.titlePrefix == "Export Partner: " && sp.category == (if mapped == Other then Services else mapped))
            && (sp.listingType == Export <==>
                  mapped !in [Agriculture, Industrial, "Chemicals", FoodAndBeverages, ClothingAndTextiles,
                              Electronics, Handicrafts, HealthAndBeauty])
  {
    var all := [Agriculture, Industrial, "Chemicals", FoodAndBeverages, ClothingAndTextiles,
                Electronics, Handicrafts, HealthAndBeauty];
    assert all == [Agriculture, Industrial, "Chemicals"] + [FoodAndBeverages, ClothingAndTextiles, Electronics, Handicrafts, HealthAndBeauty];
  }

  /** The categories the map can produce. */
  lemma MapRange(raw: string)
    ensures MapNicToCategory(raw) in [FoodAndBeverages, ClothingAndTextiles, Electronics, Agriculture,
                                      Industrial, Handicrafts, Services, Other]
  {
  }

  /** Every export listing's category is "Services", since only "Services" and "Other"
      reach the export branch. */
  lemma ExportIsAlwaysServices(raw: string)
    ensures SplitFor(MapNicToCategory(raw)).listingType == Export ==>
              SplitFor(MapNicToCategory(raw)).category == Services
  {
    MapRange(raw);
    SplitForSpec(MapNicToCategory(raw));
  }

  function ToListing(rec: GovRecord): (l: Listing)
    ensures l.isGovVerified && l.userId == "gov_verified" && l.status == "active"
    ensures l.id == "gov-" + Get(rec.dicsCode, "0") + "-" + Get(rec.nicCodeLower, "0")
    ensures var sp := SplitFor(MapNicToCategory(ExtractDivision(RawNic(rec))));
            l.listingType == sp.listingType && l.category == sp.category &&
            l.title == sp.titlePrefix + Get(rec.enterpriseName, "Verified Enterprise")
    ensures l.location == Get(rec.district, "") + ", " + Get(rec.state, "")
  {
    var sp := SplitFor(MapNicToCategory(ExtractDivision(RawNic(rec))));
    Listing(
      "gov-" + Get(rec.dicsCode, "0") + "-" + Get(rec.nicCodeLower, "0"),
      "gov_verified",
      sp.titlePrefix + Get(rec.enterpriseName, "Verified Enterprise"),
      sp.text + " Registered under " + Get(rec.socialCategory, "General") + " category. Location: "
        + Get(rec.district, "") + ".",
      sp.category,
      sp.listingType,
      Some("Contact for Quotes"),
      Some("Bulk Available"),
      Get(rec.district, "") + ", " + Get(rec.state, ""),
      Some("Verified Government Record"),
      "active",
      Get(rec.registrationDate, ""),
      true)
  }

  /** One listing per record, in record order. */
  function ListingsOf(rs: seq<GovRecord>): (r: seq<Listing>)
    ensures |r| == |rs|
  {
    if rs == [] then [] else ListingsOf(rs[..|rs| - 1]) + [ToListing(rs[|rs| - 1])]
  }

  lemma ListingsOfSnoc(rs: seq<GovRecord>, i: nat)
    requires i < |rs|
    ensures ListingsOf(rs[..i + 1]) == ListingsOf(rs[..i]) + [ToListing(rs[i])]
  {
    assert rs[..i + 1][..i] == rs[..i];
  }

  /** Listing `i` is the conversion of record `i`. */
  lemma {:induction false} ListingsOfPointwise(rs: seq<GovRecord>, i: nat)
    requires i < |rs|
    ensures ListingsOf(rs)[i] == ToListing(rs[i])
  {
    if i < |rs| - 1 {
      ListingsOfPointwise(rs[..|rs| - 1], i);
    }
  }

  /** The endpoint's loop: one listing per record, in record order; no data, or data
      without `records`, gives the empty list. */
  method GetGovListings(records: Option<seq<GovRecord>>) returns (listings: seq<Listing>)
    ensures records.None? ==> listings == []
    ensures records.Some? ==> listings == ListingsOf(records.value)
  {
    listings := [];
    if records.Some? {
      var rs := records.value;
      for i := 0 to |rs|
        invariant listings == ListingsOf(rs[..i])
      {
        ListingsOfSnoc(rs, i);
        var listing := ToListing(rs[i]);
        listings := listings + [listing];
      }
      assert rs[..|rs|] == rs;
    }
  }
}
