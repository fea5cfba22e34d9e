/** The rules both supplier views share: the compare list (a name is removed when it is
    there, added while there are fewer than three, and otherwise ignored), the suppliers it
    selects, when the comparison table and the hint show, and the five-star rating. */
module CompareList {

  /** The most suppliers that can be compared at once. */
  const MaxCompared: nat := 3

  predicate Distinct(list: seq<string>)
  {
    forall i, j :: 0 <= i < j < |list| ==> list[i] != list[j]
  }

  /** What the toggle keeps: at most three names, none twice. */
  predicate WellFormed(list: seq<string>)
  {
    |list| <= MaxCompared && Distinct(list)
  }

  /** `prev.filter(s => s !== name)`. */
  function Remove(list: seq<string>, name: string): (r: seq<string>)
    ensures |r| <= |list|
    ensures forall x :: x in r <==> x in list && x != name
  {
    if list == [] then []
    else (if list[0] == name then [] else [list[0]]) + Remove(list[1..], name)
  }

  /** `toggleCompare`'s update of the list: afterwards the name is listed exactly when it
      was not and there was room, and every other name is listed exactly when it was. */
  function Toggle(list: seq<string>, name: string): (r: seq<string>)
    ensures name in r <==> name !in list && |list| < MaxCompared
    ensures forall x :: x != name ==> (x in r <==> x in list)
    ensures |list| <= MaxCompared ==> |r| <= MaxCompared
    ensures name !in list && |list| >= MaxCompared ==> r == list
  {
    if name in list then Remove(list, name)
    else if |list| < MaxCompared then list + [name]
    else list
  }

  lemma {:induction false} RemoveDistinct(list: seq<string>, name: string)
    requires Distinct(list)
    ensures Distinct(Remove(list, name))
  {
    if list != [] {
      RemoveDistinct(list[1..], name);
      var rest := Remove(list[1..], name);
      assert list[0] !in list[1..];
      assert list[0] !in rest;
    }
  }

  /** Removing a name that is not there changes nothing. */
  lemma {:induction false} RemoveAbsent(list: seq<string>, name: string)
    requires name !in list
    ensures Remove(list, name) == list
  {
    if list != [] {
      RemoveAbsent(list[1..], name);
      assert list == [list[0]] + list[1..];
    }
  }

  /** Removing distributes over concatenation. */
  lemma {:induction false} RemoveAppend(a: seq<string>, b: seq<string>, name: string)
    ensures Remove(a + b, name) == Remove(a, name) + Remove(b, name)
  {
    if a == [] {
      assert a + b == b;
    } else {
      assert (a + b)[1..] == a[1..] + b;
      RemoveAppend(a[1..], b, name);
    }
  }

  /** The list never holds more than three names, nor any name twice. */
  lemma ToggleKeepsWellFormed(list: seq<string>, name: string)
    requires WellFormed(list)
    ensures WellFormed(Toggle(list, name))
  {
    if name in list {
      RemoveDistinct(list, name);
    }
  }

  /** Toggling a name in and out again restores the list. */
  lemma ToggleTwice(list: seq<string>, name: string)
    requires name !in list && |list| < MaxCompared
    ensures Toggle(Toggle(list, name), name) == list
  {
    assert name in list + [name];
    RemoveAppend(list, [name], name);
    RemoveAbsent(list, name);
    assert Remove([name], name) == [];
  }

  // ---------------------------------------------------------------------------
  // The compared suppliers and what is shown

  /** `suppliers.filter(s => compareList.includes(s.name))`, for any kind of supplier. */
  function Compared<T(==)>(suppliers: seq<T>, nameOf: T -> string, list: seq<string>): (r: seq<T>)
    ensures |r| <= |suppliers|
    ensures forall k :: 0 <= k < |r| ==> nameOf(r[k]) in list && r[k] in suppliers
    ensures forall k :: 0 <= k < |suppliers| && nameOf(suppliers[k]) in list ==> suppliers[k] in r
  {
    if suppliers == [] then []
    else (if nameOf(suppliers[0]) in list then [suppliers[0]] else []) + Compared(suppliers[1..], nameOf, list)
  }

  /** The names of a list of suppliers. */
  function NamesOf<T>(suppliers: seq<T>, nameOf: T -> string): (r: seq<string>)
    ensures |r| == |suppliers|
    ensures forall k :: 0 <= k < |r| ==> r[k] == nameOf(suppliers[k])
  {
    if suppliers == [] then [] else [nameOf(suppliers[0])] + NamesOf(suppliers[1..], nameOf)
  }

  /** A list without repeats is as long as the set of its elements. */
  lemma {:induction false} DistinctCardinality(list: seq<string>)
    requires Distinct(list)
    ensures |set x | x in list| == |list|
  {
    if list != [] {
      DistinctCardinality(list[1..]);
      assert list[0] !in list[1..];
      assert (set x | x in list) == (set x | x in list[1..]) + {list[0]};
    }
  }

  /** The names of the compared suppliers never repeat when the catalogue's do not. */
  lemma {:induction false} ComparedNamesDistinct<T>(suppliers: seq<T>, nameOf: T -> string, list: seq<string>)
    requires Distinct(NamesOf(suppliers, nameOf))
    ensures Distinct(NamesOf(Compared(suppliers, nameOf, list), nameOf))
    ensures forall x :: x in NamesOf(Compared(suppliers, nameOf, list), nameOf) <==>
                          x in NamesOf(suppliers, nameOf) && x in list
  {
    if suppliers != [] {
      var names := NamesOf(suppliers, nameOf);
      assert NamesOf(suppliers[1..], nameOf) == names[1..];
      assert Distinct(names[1..]) by {
        forall i, j | 0 <= i < j < |names[1..]| ensures names[1..][i] != names[1..][j] {
          assert names[i + 1] != names[j + 1];
        }
      }
      ComparedNamesDistinct(suppliers[1..], nameOf, list);
      var rest := Compared(suppliers[1..], nameOf, list);
      var restNames := NamesOf(rest, nameOf);
      if nameOf(suppliers[0]) in list {
        var c := Compared(suppliers, nameOf, list);
        assert c == [suppliers[0]] + rest;
        assert c[1..] == rest;
        var cn := NamesOf(c, nameOf);
        assert cn == [nameOf(suppliers[0])] + restNames;
        assert names[0] !in names[1..];
        assert nameOf(suppliers[0]) !in restNames;
      } else {
        assert Compared(suppliers, nameOf, list) == rest;
      }
    }
  }

  /** When the catalogue's names are distinct and every listed name is in it (as in the
      fixed catalogue, whose cards are the only way to list a name), there are as many
      compared suppliers as listed names. */
  lemma ComparedCount<T>(suppliers: seq<T>, nameOf: T -> string, list: seq<string>)
    requires Distinct(NamesOf(suppliers, nameOf)) && Distinct(list)
    requires forall x :: x in list ==> x in NamesOf(suppliers, nameOf)
    ensures |Compared(suppliers, nameOf, list)| == |list|
  {
    var names := NamesOf(Compared(suppliers, nameOf, list), nameOf);
    ComparedNamesDistinct(suppliers, nameOf, list);
    assert (set x | x in names) == (set x | x in list);
    DistinctCardinality(names);
    DistinctCardinality(list);
  }

  /** The comparison table shows for two or more compared suppliers. */
  predicate ShowsTable<T>(compared: seq<T>)
  {
    |compared| >= 2
  }

  /** "Select at least 2 suppliers to compare" shows for exactly one listed name. */
  predicate ShowsHint(list: seq<string>)
  {
    |list| > 0 && |list| < 2
  }

  /** With every listed name in a catalogue of distinct names, the table and the hint never
      show together, and one of them shows whenever a name is listed. */
  lemma TableOrHint<T>(suppliers: seq<T>, nameOf: T -> string, list: seq<string>)
    requires Distinct(NamesOf(suppliers, nameOf)) && Distinct(list)
    requires forall x :: x in list ==> x in NamesOf(suppliers, nameOf)
    ensures ShowsTable(Compared(suppliers, nameOf, list)) <==> |list| >= 2
    ensures ShowsHint(list) <==> |list| == 1
    ensures |list| > 0 ==> (ShowsTable(Compared(suppliers, nameOf, list)) != ShowsHint(list))
  {
    ComparedCount(suppliers, nameOf, list);
  }

  // ---------------------------------------------------------------------------
  // The star rating

  datatype Fill = Full | Half | Empty

  /** Star `star` of a rating: full up to the rating, half within half a star of it. */
  function StarFill(star: nat, rating: real): (f: Fill)
    ensures f == Full <==> star as real <= rating
    ensures f == Half <==> star as real - 0.5 <= rating < star as real
    ensures f == Empty <==> rating < star as real - 0.5
  {
    if star as real <= rating then Full
    else if star as real - 0.5 <= rating then Half
    else Empty
  }

  /** The five stars, first to last: the full ones first, then at most one half star,
      then the empty ones. */
  function Stars(rating: real): (r: seq<Fill>)
    ensures |r| == 5
    ensures forall i :: 0 <= i < 5 ==> r[i] == StarFill(i + 1, rating)
    ensures forall i, j :: 0 <= i < j < 5 && r[j] != Empty ==> r[i] == Full
    ensures forall i, j :: 0 <= i < j < 5 && r[i] == Empty ==> r[j] == Empty
    ensures forall i, j :: 0 <= i < 5 && 0 <= j < 5 && r[i] == Half && r[j] == Half ==> i == j
  {
    seq(5, i requires 0 <= i < 5 => StarFill(i + 1, rating))
  }

  /** A rating between 0 and 5 shows its whole part as full stars, then a half star when
      the fraction is at least one half, and empty stars after; so 4.5 shows four full
      stars and a half star, and 4.2 four full stars and an empty one. */
  lemma StarsOfCatalogueRatings(rating: real)
    requires 0.0 <= rating <= 5.0
    ensures var n := rating.Floor;
            var r := Stars(rating);
            && (forall i :: 0 <= i < n ==> r[i] == Full)
            && (n < 5 ==> r[n] == (if rating - n as real >= 0.5 then Half else Empty))
            && (forall i :: n < i < 5 ==> r[i] == Empty)
    ensures Stars(4.5) == [Full, Full, Full, Full, Half]
    ensures Stars(4.2) == [Full, Full, Full, Full, Empty]
  {
    var n := rating.Floor;
    assert n as real <= rating < n as real + 1.0;
    assert 0 <= n <= 5;
  }
}
