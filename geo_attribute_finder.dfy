/**
 * Finding the longitude and latitude columns of a node table: each axis has
 * a list of case-insensitive patterns built from the bundle's names, and a
 * column is picked when one of the axis's patterns is found in its title and
 * its values are floating point or decimal. Columns are tried in table
 * order, and for each column the patterns in list order.
 */
module GeoAttributes {
  import opened Wrappers
  import opened JavaText
  import opened GephiModels

  /** The bundle strings the pattern lists are built from. */
  datatype GeoResources = GeoResources(
    latitude: string,            // "Latitude"
    latitudeShortNames: string,  // "LatitudeShortNames", comma-separated
    longitude: string,           // "Longitude"
    longitudeShortNames: string) // "LongitudeShortNames", comma-separated

  /**
   * `Pattern.compile(pattern, CASE_INSENSITIVE).matcher(title).find()`,
   * given as a function of the pattern and the title.
   */
  type Finder = (string, string) -> bool

  /** The type classes a coordinate column may have: Float, Double or BigDecimal. */
  predicate IsNumeric(t: TypeClass)
  {
    t.FloatClass? || t.DoubleClass? || t.BigDecimalClass?
  }

  /** `pattern` picks `col`. */
  predicate Accepts(find: Finder, pattern: string, col: Column)
  {
    find(pattern, col.title) && IsNumeric(col.typeClass)
  }

  /** Some pattern of the list picks `col`. */
  predicate AnyAccepts(find: Finder, patterns: seq<string>, col: Column)
  {
    exists j :: 0 <= j < |patterns| && Accepts(find, patterns[j], col)
  }

  /** The index of the first column that some pattern picks, or |columns|. */
  function FirstPicked(find: Finder, patterns: seq<string>, columns: seq<Column>): (k: nat)
    ensures k <= |columns|
    ensures forall i :: 0 <= i < k ==> !AnyAccepts(find, patterns, columns[i])
    ensures k < |columns| ==> AnyAccepts(find, patterns, columns[k])
    decreases |columns|
  {
    if |columns| == 0 then 0
    else if AnyAccepts(find, patterns, columns[0]) then 0
    else FirstPicked(find, patterns, columns[1..]) + 1
  }

  /** The column `getAttributeField` returns, or None where it returns null. */
  function Picked(find: Finder, patterns: seq<string>, columns: seq<Column>): Option<Column>
  {
    var k := FirstPicked(find, patterns, columns);
    if k < |columns| then Some(columns[k]) else None
  }

  /**
   * Column order wins over pattern order: the first column that any pattern
   * picks is returned, however late in the list its pattern comes, and a
   * returned column is always numeric and matched by some pattern.
   */
  lemma {:induction false} PickedIsFirstColumn(find: Finder, patterns: seq<string>, columns: seq<Column>, i: nat, j: nat)
    requires i < |columns| && j < |patterns| && Accepts(find, patterns[j], columns[i])
    requires forall i' :: 0 <= i' < i ==> !AnyAccepts(find, patterns, columns[i'])
    ensures Picked(find, patterns, columns) == Some(columns[i])
  {
    assert AnyAccepts(find, patterns, columns[i]);
  }

  lemma {:induction false} PickedAccepted(find: Finder, patterns: seq<string>, columns: seq<Column>)
    ensures Picked(find, patterns, columns).Some? <==>
      exists i, j :: 0 <= i < |columns| && 0 <= j < |patterns| && Accepts(find, patterns[j], columns[i])
    ensures Picked(find, patterns, columns).Some? ==>
      var c := Picked(find, patterns, columns).value;
      c in columns && IsNumeric(c.typeClass) && AnyAccepts(find, patterns, c)
  {
    var k := FirstPicked(find, patterns, columns);
    if k == |columns| {
      forall i, j | 0 <= i < |columns| && 0 <= j < |patterns|
        ensures !Accepts(find, patterns[j], columns[i])
      {
        assert !AnyAccepts(find, patterns, columns[i]);
      }
    }
  }

  // ---------------------------------------------------------------- Pattern lists

  /** `name + "$"` for each name: the name at the end of the title. */
  function Suffixed(names: seq<string>): (r: seq<string>)
    ensures |r| == |names| && forall i :: 0 <= i < |names| ==> r[i] == names[i] + "$"
    decreases |names|
  {
    if |names| == 0 then [] else Suffixed(names[..|names| - 1]) + [names[|names| - 1] + "$"]
  }

  /** `"(.*)" + name + "(.*)"` for each name: the name anywhere in the title. */
  function Wrapped(names: seq<string>): (r: seq<string>)
    ensures |r| == |names| && forall i :: 0 <= i < |names| ==> r[i] == "(.*)" + names[i] + "(.*)"
    decreases |names|
  {
    if |names| == 0 then [] else Wrapped(names[..|names| - 1]) + ["(.*)" + names[|names| - 1] + "(.*)"]
  }

  /** The patterns of one axis: its full name, its short names at the end, the one-letter name, its short names anywhere. */
  function AxisPatterns(full: string, shortNames: string, letter: string): seq<string>
  {
    var names := Split(shortNames, ',');
    [full] + Suffixed(names) + [letter] + Wrapped(names)
  }

  /** The latitude list as `findGeoFields` builds it: the longitude short names are appended to it as well. */
  function LatitudePatternsAsWritten(res: GeoResources): seq<string>
  {
    var lat := Split(res.latitudeShortNames, ',');
    var lon := Split(res.longitudeShortNames, ',');
    [res.latitude] + Suffixed(lat) + ["^y$"] + Wrapped(lat) + Wrapped(lon)
  }

  /** The longitude list as `findGeoFields` builds it: it never gets the short names anywhere in the title. */
  function LongitudePatternsAsWritten(res: GeoResources): seq<string>
  {
    [res.longitude] + Suffixed(Split(res.longitudeShortNames, ',')) + ["^x$"]
  }

  /** The latitude list the two symmetric halves of `findGeoFields` evidently mean. */
  function IntendedLatitudePatterns(res: GeoResources): seq<string>
  {
    AxisPatterns(res.latitude, res.latitudeShortNames, "^y$")
  }

  function IntendedLongitudePatterns(res: GeoResources): seq<string>
  {
    AxisPatterns(res.longitude, res.longitudeShortNames, "^x$")
  }

  /** `p` is one of the patterns built from an axis's full name, short names and letter pattern. */
  predicate FromAxis(p: string, full: string, names: seq<string>, letter: string)
  {
    p == full || p == letter || exists n :: n in names && (p == n + "$" || p == "(.*)" + n + "(.*)")
  }

  /**
   * Intended: every pattern of an axis's list comes from that axis's own
   * names, so the other axis's names cannot change it.
   */
  lemma {:induction false} IntendedFromOwnAxis(res: GeoResources, lon: string, lonShort: string)
    ensures var ps, names := IntendedLatitudePatterns(res), Split(res.latitudeShortNames, ',');
      forall i :: 0 <= i < |ps| ==> FromAxis(ps[i], res.latitude, names, "^y$")
    ensures var ps, names := IntendedLongitudePatterns(res), Split(res.longitudeShortNames, ',');
      forall i :: 0 <= i < |ps| ==> FromAxis(ps[i], res.longitude, names, "^x$")
    ensures IntendedLatitudePatterns(res) == IntendedLatitudePatterns(res.(longitude := lon, longitudeShortNames := lonShort))
  {
    AxisPatternsFromAxis(res.latitude, res.latitudeShortNames, "^y$");
    AxisPatternsFromAxis(res.longitude, res.longitudeShortNames, "^x$");
  }

  lemma {:induction false} AxisPatternsFromAxis(full: string, shortNames: string, letter: string)
    ensures var ps, names := AxisPatterns(full, shortNames, letter), Split(shortNames, ',');
      forall i :: 0 <= i < |ps| ==> FromAxis(ps[i], full, names, letter)
  {
    var ps, names := AxisPatterns(full, shortNames, letter), Split(shortNames, ',');
    var m := |names|;
    forall i | 0 <= i < |ps| ensures FromAxis(ps[i], full, names, letter) {
      if 1 <= i < 1 + m {
        assert ps[i] == names[i - 1] + "$";
        assert names[i - 1] in names;
      } else if 2 + m <= i {
        assert ps[i] == "(.*)" + names[i - 2 - m] + "(.*)";
        assert names[i - 2 - m] in names;
      }
    }
  }

  /** As written, the latitude list breaks that: it holds a pattern from the longitude names. */
  lemma {:induction false} LatitudeNotFromOwnAxis()
    ensures var ps, names := LatitudePatternsAsWritten(Example), Split(Example.latitudeShortNames, ',');
      !FromAxis(ps[4], Example.latitude, names, "^y$")
  {
    ExampleLists();
    SplitWithoutSeparator("lat", ',');
    var p := "(.*)lon(.*)";
    assert p != "lat" + "$" by { assert |p| != |"lat" + "$"|; }
    assert p != "(.*)" + "lat" + "(.*)" by { assert p[5] != ("(.*)" + "lat" + "(.*)")[5]; }
    assert p != "Latitude" by { assert p[0] != "Latitude"[0]; }
    assert p != "^y$" by { assert |p| != 3; }
  }

  /** As written, the latitude list changes with the longitude names. */
  lemma {:induction false} LatitudeDependsOnLongitude()
    ensures var res := GeoResources("Latitude", "lat", "Longitude", "lon");
      LatitudePatternsAsWritten(res) != LatitudePatternsAsWritten(res.(longitudeShortNames := "lng"))
  {
    var res := GeoResources("Latitude", "lat", "Longitude", "lon");
    SplitWithoutSeparator("lat", ',');
    SplitWithoutSeparator("lon", ',');
    SplitWithoutSeparator("lng", ',');
    var a, b := LatitudePatternsAsWritten(res), LatitudePatternsAsWritten(res.(longitudeShortNames := "lng"));
    assert a[4] == "(.*)lon(.*)" && b[4] == "(.*)lng(.*)";
    assert a[4][5] != b[4][5];
  }

  /** A title in which only `"(.*)lon(.*)"` is found, as a regular expression finder sees `geo_lon_deg`. */
  function OnlyLonInside(pattern: string, title: string): bool
  {
    pattern == "(.*)lon(.*)" && title == "geo_lon_deg"
  }

  /** Bundle names for which the misplaced patterns matter. */
  const Example: GeoResources := GeoResources("Latitude", "lat", "Longitude", "lon")

  /** One numeric column whose title holds the longitude short name. */
  const ExampleColumns: seq<Column> := [Column("geo_lon_deg", DoubleClass)]

  lemma {:induction false} ExampleLists()
    ensures LatitudePatternsAsWritten(Example) == ["Latitude", "lat$", "^y$", "(.*)lat(.*)", "(.*)lon(.*)"]
    ensures LongitudePatternsAsWritten(Example) == ["Longitude", "lon$", "^x$"]
    ensures IntendedLatitudePatterns(Example) == ["Latitude", "lat$", "^y$", "(.*)lat(.*)"]
    ensures IntendedLongitudePatterns(Example) == ["Longitude", "lon$", "^x$", "(.*)lon(.*)"]
  {
    OneShortName("lat");
    OneShortName("lon");
    ExamplePatternTexts();
    ExampleAxes(("lat$", "(.*)lat(.*)"), ("lon$", "(.*)lon(.*)"));
  }

  lemma {:induction false} ExamplePatternTexts()
    ensures "lat" + "$" == "lat$" && "(.*)" + "lat" + "(.*)" == "(.*)lat(.*)"
    ensures "lon" + "$" == "lon$" && "(.*)" + "lon" + "(.*)" == "(.*)lon(.*)"
  {
  }

  /** The four lists of `Example`, in terms of the patterns each short name contributes. */
  lemma {:induction false} ExampleAxes(lat: (string, string), lon: (string, string))
    requires Suffixed(Split("lat", ',')) == [lat.0] && Wrapped(Split("lat", ',')) == [lat.1]
    requires Suffixed(Split("lon", ',')) == [lon.0] && Wrapped(Split("lon", ',')) == [lon.1]
    ensures LatitudePatternsAsWritten(Example) == ["Latitude", lat.0, "^y$", lat.1, lon.1]
    ensures LongitudePatternsAsWritten(Example) == ["Longitude", lon.0, "^x$"]
    ensures IntendedLatitudePatterns(Example) == ["Latitude", lat.0, "^y$", lat.1]
    ensures IntendedLongitudePatterns(Example) == ["Longitude", lon.0, "^x$", lon.1]
  {
  }

  /** The patterns a bundle value holding one short name contributes. */
  lemma {:induction false} OneShortName(n: string)
    requires ',' !in n
    ensures Suffixed(Split(n, ',')) == [n + "$"] && Wrapped(Split(n, ',')) == ["(.*)" + n + "(.*)"]
  {
    SplitWithoutSeparator(n, ',');
    OneName(n);
  }

  /** No pattern of the list is `"(.*)lon(.*)"`. */
  lemma {:induction false} NotOnlyLonInside(patterns: seq<string>)
    requires forall j :: 0 <= j < |patterns| ==> patterns[j] != "(.*)lon(.*)"
    ensures Picked(OnlyLonInside, patterns, ExampleColumns) == None
  {
    forall j | 0 <= j < |patterns| ensures !Accepts(OnlyLonInside, patterns[j], ExampleColumns[0]) {
    }
    PickedNone(OnlyLonInside, patterns, ExampleColumns);
  }

  /**
   * As written, a numeric column titled `geo_lon_deg` is taken for the
   * latitude and no longitude is found; with the intended lists it is the
   * longitude and no latitude is found.
   */
  lemma {:induction false} LongitudeTakenForLatitude()
    ensures Picked(OnlyLonInside, LatitudePatternsAsWritten(Example), ExampleColumns) == Some(ExampleColumns[0])
    ensures Picked(OnlyLonInside, LongitudePatternsAsWritten(Example), ExampleColumns) == None
    ensures Picked(OnlyLonInside, IntendedLongitudePatterns(Example), ExampleColumns) == Some(ExampleColumns[0])
    ensures Picked(OnlyLonInside, IntendedLatitudePatterns(Example), ExampleColumns) == None
  {
    ExampleLists();
    var lw, nw := LatitudePatternsAsWritten(Example), LongitudePatternsAsWritten(Example);
    var li, ni := IntendedLatitudePatterns(Example), IntendedLongitudePatterns(Example);
    PickedIsFirstColumn(OnlyLonInside, lw, ExampleColumns, 0, 4);
    PickedIsFirstColumn(OnlyLonInside, ni, ExampleColumns, 0, 3);
    assert "(.*)lat(.*)" != "(.*)lon(.*)" by { assert "(.*)lat(.*)"[5] != "(.*)lon(.*)"[5]; }
    NotOnlyLonInside(nw);
    NotOnlyLonInside(li);
  }

  lemma {:induction false} OneName(n: string)
    ensures Suffixed([n]) == [n + "$"] && Wrapped([n]) == ["(.*)" + n + "(.*)"]
  {
    assert [n][..0] == [];
  }

  // ---------------------------------------------------------------- The finder object

  class GeoAttributeFinder {
    var longitudeColumn: Option<Column>
    var latitudeColumn: Option<Column>

    constructor ()
      ensures longitudeColumn == None && latitudeColumn == None
    {
      longitudeColumn := None;
      latitudeColumn := None;
    }

    /**
     * Builds both pattern lists, picks a column for each axis and returns
     * `[longitude, latitude]` (None where no column was found).
     */
    method FindGeoFields(res: GeoResources, columns: seq<Column>, find: Finder) returns (result: array<Option<Column>>)
      modifies this
      ensures longitudeColumn == Picked(find, LongitudePatternsAsWritten(res), columns)
      ensures latitudeColumn == Picked(find, LatitudePatternsAsWritten(res), columns)
      ensures fresh(result) && result[..] == [longitudeColumn, latitudeColumn]
    {
      var latNames := Split(res.latitudeShortNames, ',');
      var latAttributes := [res.latitude];
      latAttributes := AddSuffixed(latAttributes, latNames);
      latAttributes := latAttributes + ["^y$"];
      latAttributes := AddWrapped(latAttributes, latNames);

      var lonNames := Split(res.longitudeShortNames, ',');
      var lonAttributes := [res.longitude];
      lonAttributes := AddSuffixed(lonAttributes, lonNames);
      lonAttributes := lonAttributes + ["^x$"];
      latAttributes := AddWrapped(latAttributes, lonNames);

      longitudeColumn := GetAttributeField(lonAttributes, columns, find);
      latitudeColumn := GetAttributeField(latAttributes, columns, find);
      result := new Option<Column>[2];
      result[0] := LongitudeColumn();
      result[1] := LatitudeColumn();
    }

    /**
     * `findGeoFields` with the second wrapped-names loop adding to the
     * longitude list, as the latitude half does for its own list.
     */
    method FindIntendedGeoFields(res: GeoResources, columns: seq<Column>, find: Finder)
        returns (result: array<Option<Column>>)
      modifies this
      ensures longitudeColumn == Picked(find, IntendedLongitudePatterns(res), columns)
      ensures latitudeColumn == Picked(find, IntendedLatitudePatterns(res), columns)
      ensures fresh(result) && result[..] == [longitudeColumn, latitudeColumn]
    {
      var latNames := Split(res.latitudeShortNames, ',');
      var latAttributes := [res.latitude];
      latAttributes := AddSuffixed(latAttributes, latNames);
      latAttributes := latAttributes + ["^y$"];
      latAttributes := AddWrapped(latAttributes, latNames);

      var lonNames := Split(res.longitudeShortNames, ',');
      var lonAttributes := [res.longitude];
      lonAttributes := AddSuffixed(lonAttributes, lonNames);
      lonAttributes := lonAttributes + ["^x$"];
      lonAttributes := AddWrapped(lonAttributes, lonNames);

      longitudeColumn := GetAttributeField(lonAttributes, columns, find);
      latitudeColumn := GetAttributeField(latAttributes, columns, find);
      result := new Option<Column>[2];
      result[0] := LongitudeColumn();
      result[1] := LatitudeColumn();
    }

    /** The loop that adds `name + "$"` for each short name. */
    static method AddSuffixed(list: seq<string>, names: seq<string>) returns (r: seq<string>)
      ensures r == list + Suffixed(names)
    {
      r := list;
      for i := 0 to |names|
        invariant r == list + Suffixed(names[..i])
      {
        assert names[..i + 1][..i] == names[..i];
        r := r + [names[i] + "$"];
      }
      assert names[..|names|] == names;
    }

    /** The loop that adds `"(.*)" + name + "(.*)"` for each short name. */
    static method AddWrapped(list: seq<string>, names: seq<string>) returns (r: seq<string>)
      ensures r == list + Wrapped(names)
    {
      r := list;
      for i := 0 to |names|
        invariant r == list + Wrapped(names[..i])
      {
        assert names[..i + 1][..i] == names[..i];
        r := r + ["(.*)" + names[i] + "(.*)"];
      }
      assert names[..|names|] == names;
    }

    /** Columns in order, and for each column the patterns in order: the first numeric column a pattern is found in. */
    static method GetAttributeField(patterns: seq<string>, columns: seq<Column>, find: Finder) returns (r: Option<Column>)
      ensures r == Picked(find, patterns, columns)
    {
      for i := 0 to |columns|
        invariant forall i' :: 0 <= i' < i ==> !AnyAccepts(find, patterns, columns[i'])
      {
        var col := columns[i];
        for j := 0 to |patterns|
          invariant forall j' :: 0 <= j' < j ==> !Accepts(find, patterns[j'], col)
        {
          if find(patterns[j], col.title) && IsNumeric(col.typeClass) {
            PickedIsFirstColumn(find, patterns, columns, i, j);
            return Some(col);
          }
        }
      }
      PickedNone(find, patterns, columns);
      return None;
    }

    function LongitudeColumn(): (c: Option<Column>)
      reads this
      ensures c == longitudeColumn
    {
      longitudeColumn
    }

    function LatitudeColumn(): (c: Option<Column>)
      reads this
      ensures c == latitudeColumn
    {
      latitudeColumn
    }
  }

  lemma {:induction false} PickedNone(find: Finder, patterns: seq<string>, columns: seq<Column>)
    requires forall i :: 0 <= i < |columns| ==> !AnyAccepts(find, patterns, columns[i])
    ensures Picked(find, patterns, columns) == None
  {
  }
}
