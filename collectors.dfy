/**
 * The entries that the filter and statistics collectors put, in put order;
 * both exporters share these rules and differ only in the filter header.
 * A section's content is `PutEntries([], puts)` of its puts.
 */
module Collectors {
  import opened Wrappers
  import opened JavaText
  import opened LinkedMaps
  import opened GephiModels

  /** `put(getPropertyName(j), String.valueOf(getPropertyValue(j)))` for each j in order. */
  function PropertyPuts(ps: seq<QueryProperty>): (r: Entries)
    ensures |r| == |ps|
    ensures forall j :: 0 <= j < |ps| ==> r[j] == (ps[j].name, ValueOf(ps[j].value))
    decreases |ps|
  {
    if |ps| == 0 then [] else PropertyPuts(ps[..|ps| - 1]) + [(ps[|ps| - 1].name, ValueOf(ps[|ps| - 1].value))]
  }

  /** The header key of query `i`: `prefix + String.valueOf(i)`. */
  function FilterHeader(prefix: string, i: nat): string
  {
    prefix + NatToString(i)
  }

  /** The puts for one query: its header with the query's name, then its properties. */
  function QueryPuts(header: string, q: Query): Entries
  {
    [(header, q.name)] + PropertyPuts(q.properties)
  }

  /** The puts of the filter collector, query by query in the model's order. */
  function FilterPuts(prefix: string, qs: seq<Query>): Entries
    decreases |qs|
  {
    if |qs| == 0 then []
    else
      var n := |qs| - 1;
      FilterPuts(prefix, qs[..n]) + QueryPuts(FilterHeader(prefix, n), qs[n])
  }

  /** The statistics collector's one put. */
  function StatisticsPuts(s: StatisticsModel): Entries
  {
    [("statisticsModel", s.text)]
  }

  /** Headers of different queries never collide. */
  lemma {:induction false} FilterHeadersDistinct(prefix: string, i: nat, j: nat)
    requires i != j
    ensures FilterHeader(prefix, i) != FilterHeader(prefix, j)
  {
    if FilterHeader(prefix, i) == FilterHeader(prefix, j) {
      assert NatToString(i) == FilterHeader(prefix, i)[|prefix|..];
      assert NatToString(j) == FilterHeader(prefix, j)[|prefix|..];
      NatToStringInjective(i, j);
    }
  }

  /** No property of the given queries is named `k`. */
  predicate NoPropertyNamed(qs: seq<Query>, k: string)
  {
    forall q, j :: q in qs && 0 <= j < |q.properties| ==> q.properties[j].name != k
  }

  lemma {:induction false} PropertyPutsMissing(ps: seq<QueryProperty>, k: string)
    requires forall j :: 0 <= j < |ps| ==> ps[j].name != k
    ensures LastPut(PropertyPuts(ps), k) == None
  {
  }

  /**
   * The header of query `i` keeps the query's name whenever no property of
   * query `i` or of a later query has the header as its name: later headers
   * are different keys, so nothing overwrites it.
   */
  lemma {:induction false} FilterHeaderHoldsName(prefix: string, qs: seq<Query>, i: nat)
    requires i < |qs|
    requires NoPropertyNamed(qs[i..], FilterHeader(prefix, i))
    ensures LastPut(FilterPuts(prefix, qs), FilterHeader(prefix, i)) == Some(qs[i].name)
    decreases |qs|
  {
    var n := |qs| - 1;
    var h := FilterHeader(prefix, i);
    assert qs[n] in qs[i..];
    FilterPutsLastQuery(prefix, qs, h);
    if i < n {
      FilterHeadersDistinct(prefix, i, n);
      assert qs[..n][i..] == qs[i..n];
      forall q | q in qs[i..n] ensures q in qs[i..] { }
      FilterHeaderHoldsName(prefix, qs[..n], i);
      assert qs[..n][i] == qs[i];
    }
  }

  /** For a key that no property of the last query has, the last query can only put it as its header. */
  lemma {:induction false} FilterPutsLastQuery(prefix: string, qs: seq<Query>, k: string)
    requires |qs| > 0
    requires forall p :: p in qs[|qs| - 1].properties ==> p.name != k
    ensures var n := |qs| - 1;
      LastPut(FilterPuts(prefix, qs), k)
        == if k == FilterHeader(prefix, n) then Some(qs[n].name) else LastPut(FilterPuts(prefix, qs[..n]), k)
  {
    var n := |qs| - 1;
    var before := FilterPuts(prefix, qs[..n]);
    var header := [(FilterHeader(prefix, n), qs[n].name)];
    var props := PropertyPuts(qs[n].properties);
    assert FilterPuts(prefix, qs) == before + (header + props);
    PropertyPutsMissing(qs[n].properties, k);
    LastPutConcat(header, props, k);
    LastPutConcat(before, header + props, k);
    assert KeysOf(header) == [FilterHeader(prefix, n)];
  }

  /** The last put of `k` in `a + b` is the one in `b`, if any, else the one in `a`. */
  lemma {:induction false} LastPutConcat(a: Entries, b: Entries, k: string)
    ensures LastPut(a + b, k) == if LastPut(b, k).Some? then LastPut(b, k) else LastPut(a, k)
    decreases |b|
  {
    if |b| == 0 {
      assert a + b == a;
    } else {
      var n := |b| - 1;
      assert (a + b)[..|a + b| - 1] == a + b[..n];
      LastPutConcat(a, b[..n], k);
    }
  }

  /**
   * The filter collector's loops: for each query its header and name, then
   * each of its properties, into `settings`.
   */
  method PutFilters(settings: LinkedMap, prefix: string, queries: seq<Query>)
    modifies settings
    ensures settings.entries == PutEntries(old(settings.entries), FilterPuts(prefix, queries))
  {
    for i := 0 to |queries|
      invariant settings.entries == PutEntries(old(settings.entries), FilterPuts(prefix, queries[..i]))
    {
      var query := queries[i];
      var header := FilterHeader(prefix, i);
      ghost var head := FilterPuts(prefix, queries[..i]) + [(header, query.name)];
      PutEntriesSnoc(old(settings.entries), FilterPuts(prefix, queries[..i]), (header, query.name));
      settings.Put(header, query.name);
      ghost var start := settings.entries;
      var ps := query.properties;
      for j := 0 to |ps|
        invariant settings.entries == PutEntries(start, PropertyPuts(ps[..j]))
      {
        PropertyPutsSnoc(ps, j);
        PutEntriesSnoc(start, PropertyPuts(ps[..j]), (ps[j].name, ValueOf(ps[j].value)));
        settings.Put(ps[j].name, ValueOf(ps[j].value));
      }
      assert ps[..|ps|] == ps;
      PutEntriesConcat(old(settings.entries), head, PropertyPuts(ps));
      FilterPutsSnoc(prefix, queries, i);
    }
    assert queries[..|queries|] == queries;
  }

  lemma {:induction false} PropertyPutsSnoc(ps: seq<QueryProperty>, j: nat)
    requires j < |ps|
    ensures PropertyPuts(ps[..j + 1]) == PropertyPuts(ps[..j]) + [(ps[j].name, ValueOf(ps[j].value))]
  {
    assert ps[..j + 1][..j] == ps[..j];
  }

  lemma {:induction false} FilterPutsSnoc(prefix: string, qs: seq<Query>, i: nat)
    requires i < |qs|
    ensures FilterPuts(prefix, qs[..i + 1])
      == FilterPuts(prefix, qs[..i]) + [(FilterHeader(prefix, i), qs[i].name)] + PropertyPuts(qs[i].properties)
  {
    assert qs[..i + 1][..i] == qs[..i];
  }
}
