/**
 * `java.util.LinkedHashMap<String, String>` as the exporters use it: an
 * insertion-ordered list of entries in which `put` of a key already present
 * replaces that entry's value where it stands, and `put` of a new key
 * appends it.
 */
module LinkedMaps {
  import opened Wrappers

  type Entry = (string, string)
  type Entries = seq<Entry>

  /** The keys in iteration order. */
  function KeysOf(m: Entries): (ks: seq<string>)
    ensures |ks| == |m|
    ensures forall i :: 0 <= i < |m| ==> ks[i] == m[i].0
  {
    if |m| == 0 then [] else [m[0].0] + KeysOf(m[1..])
  }

  lemma {:induction false} KeysOfSnoc(m: Entries, e: Entry)
    ensures KeysOf(m + [e]) == KeysOf(m) + [e.0]
  {
  }

  /** No key occurs twice (every map built by PutEntry keeps this). */
  predicate DistinctKeys(m: Entries)
  {
    forall i, j :: 0 <= i < j < |m| ==> m[i].0 != m[j].0
  }

  /** `get`: the value stored under `k`, or null. */
  function Get(m: Entries, k: string): (r: Option<string>)
    ensures r.None? <==> k !in KeysOf(m)
  {
    if |m| == 0 then None
    else if m[0].0 == k then Some(m[0].1)
    else Get(m[1..], k)
  }

  /** `put(k, v)`. */
  function PutEntry(m: Entries, k: string, v: string): (r: Entries)
    ensures |r| == |m| || |r| == |m| + 1
  {
    if |m| == 0 then [(k, v)]
    else if m[0].0 == k then [(k, v)] + m[1..]
    else [m[0]] + PutEntry(m[1..], k, v)
  }

  /** A key already present keeps its place; a new key goes to the end. */
  lemma {:induction false} PutKeys(m: Entries, k: string, v: string)
    ensures k in KeysOf(m) ==> KeysOf(PutEntry(m, k, v)) == KeysOf(m)
    ensures k !in KeysOf(m) ==> KeysOf(PutEntry(m, k, v)) == KeysOf(m) + [k]
  {
    var r := PutEntry(m, k, v);
    if |m| == 0 {
    } else if m[0].0 == k {
      assert KeysOf(m) == [k] + KeysOf(m[1..]);
      assert r[1..] == m[1..];
    } else {
      PutKeys(m[1..], k, v);
      assert KeysOf(m) == [m[0].0] + KeysOf(m[1..]);
      assert r[1..] == PutEntry(m[1..], k, v);
      assert KeysOf(r) == [m[0].0] + KeysOf(PutEntry(m[1..], k, v));
    }
  }

  /** `get` after `put`: the new value under `k`, every other key untouched. */
  lemma {:induction false} PutGet(m: Entries, k: string, v: string, k': string)
    ensures Get(PutEntry(m, k, v), k') == if k' == k then Some(v) else Get(m, k')
  {
    if |m| > 0 && m[0].0 != k {
      PutGet(m[1..], k, v, k');
      assert PutEntry(m, k, v)[1..] == PutEntry(m[1..], k, v);
    } else if |m| > 0 {
      assert PutEntry(m, k, v)[1..] == m[1..];
    }
  }

  lemma {:induction false} PutDistinct(m: Entries, k: string, v: string)
    requires DistinctKeys(m)
    ensures DistinctKeys(PutEntry(m, k, v))
  {
    var r := PutEntry(m, k, v);
    PutKeys(m, k, v);
    var kr, km := KeysOf(r), KeysOf(m);
    if k in km {
      forall i, j | 0 <= i < j < |r| ensures r[i].0 != r[j].0 {
        assert r[i].0 == kr[i] == km[i] && r[j].0 == kr[j] == km[j];
      }
    } else {
      forall i, j | 0 <= i < j < |r| ensures r[i].0 != r[j].0 {
        assert r[i].0 == kr[i] && r[j].0 == kr[j];
        if j < |m| {
          assert kr[i] == km[i] && kr[j] == km[j];
        } else {
          assert kr[j] == k && kr[i] == km[i];
        }
      }
    }
  }

  /** A run of `put` calls, applied in order. */
  function PutEntries(m: Entries, puts: Entries): Entries
    decreases |puts|
  {
    if |puts| == 0 then m
    else
      var n := |puts| - 1;
      PutEntry(PutEntries(m, puts[..n]), puts[n].0, puts[n].1)
  }

  /** The value of the last `put` of `k`, if there is one. */
  function LastPut(puts: Entries, k: string): (r: Option<string>)
    ensures r.None? <==> k !in KeysOf(puts)
    decreases |puts|
  {
    if |puts| == 0 then None
    else
      var n := |puts| - 1;
      if puts[n].0 == k then Some(puts[n].1)
      else
        assert KeysOf(puts) == KeysOf(puts[..n]) + [puts[n].0];
        LastPut(puts[..n], k)
  }

  /** The last put of a key is one of the puts. */
  lemma {:induction false} LastPutIsAPut(puts: Entries, k: string)
    requires LastPut(puts, k).Some?
    ensures exists j :: 0 <= j < |puts| && puts[j] == (k, LastPut(puts, k).value)
    decreases |puts|
  {
    var n := |puts| - 1;
    if puts[n].0 != k {
      LastPutIsAPut(puts[..n], k);
      var j :| 0 <= j < n && puts[..n][j] == (k, LastPut(puts[..n], k).value);
      assert puts[j] == puts[..n][j];
    }
  }

  /** A put that no later put of the same key follows is the last put of that key. */
  lemma {:induction false} LastPutAt(puts: Entries, j: nat)
    requires j < |puts|
    requires forall i :: j < i < |puts| ==> puts[i].0 != puts[j].0
    ensures LastPut(puts, puts[j].0) == Some(puts[j].1)
    decreases |puts|
  {
    var n := |puts| - 1;
    if j < n {
      forall i | j < i < n ensures puts[..n][i].0 != puts[..n][j].0 {
        assert puts[..n][i] == puts[i];
      }
      LastPutAt(puts[..n], j);
      assert puts[..n][j] == puts[j];
    }
  }

  /** The keys with every repetition after the first removed. */
  function FirstOccurrences(ks: seq<string>): (r: seq<string>)
    ensures forall k :: k in r <==> k in ks
    decreases |ks|
  {
    if |ks| == 0 then []
    else
      var n := |ks| - 1;
      var d := FirstOccurrences(ks[..n]);
      assert ks == ks[..n] + [ks[n]];
      if ks[n] in d then d else d + [ks[n]]
  }

  lemma {:induction false} PutEntriesConcat(m: Entries, a: Entries, b: Entries)
    ensures PutEntries(m, a + b) == PutEntries(PutEntries(m, a), b)
    decreases |b|
  {
    if |b| > 0 {
      var n := |b| - 1;
      assert (a + b)[..|a + b| - 1] == a + b[..n];
      PutEntriesConcat(m, a, b[..n]);
    } else {
      assert a + b == a;
    }
  }

  /** After a run of puts, each key holds the value of its last put, or its old value. */
  lemma {:induction false} PutEntriesGet(m: Entries, puts: Entries, k: string)
    ensures Get(PutEntries(m, puts), k) == if LastPut(puts, k).Some? then LastPut(puts, k) else Get(m, k)
    decreases |puts|
  {
    if |puts| > 0 {
      var n := |puts| - 1;
      PutEntriesGet(m, puts[..n], k);
      PutGet(PutEntries(m, puts[..n]), puts[n].0, puts[n].1, k);
    }
  }

  lemma {:induction false} PutEntriesDistinct(m: Entries, puts: Entries)
    requires DistinctKeys(m)
    ensures DistinctKeys(PutEntries(m, puts))
    decreases |puts|
  {
    if |puts| > 0 {
      var n := |puts| - 1;
      PutEntriesDistinct(m, puts[..n]);
      PutDistinct(PutEntries(m, puts[..n]), puts[n].0, puts[n].1);
    }
  }

  lemma {:induction false} FirstOccurrencesOfDistinct(ks: seq<string>)
    requires forall i, j :: 0 <= i < j < |ks| ==> ks[i] != ks[j]
    ensures FirstOccurrences(ks) == ks
    decreases |ks|
  {
    if |ks| > 0 {
      var n := |ks| - 1;
      FirstOccurrencesOfDistinct(ks[..n]);
      assert ks[n] !in ks[..n];
      assert ks == ks[..n] + [ks[n]];
    }
  }

  /**
   * Position is decided by the first put of a key and never moves: the keys
   * of the result are the old keys followed by the new ones in order of
   * their first put.
   */
  lemma {:induction false} PutEntriesKeys(m: Entries, puts: Entries)
    requires DistinctKeys(m)
    ensures KeysOf(PutEntries(m, puts)) == FirstOccurrences(KeysOf(m) + KeysOf(puts))
    decreases |puts|
  {
    if |puts| == 0 {
      assert KeysOf(m) + KeysOf(puts) == KeysOf(m);
      FirstOccurrencesOfDistinct(KeysOf(m));
    } else {
      PutEntriesKeys(m, puts[..|puts| - 1]);
      PutEntriesKeysStep(m, puts);
    }
  }

  lemma {:induction false} PutEntriesKeysStep(m: Entries, puts: Entries)
    requires |puts| > 0
    requires KeysOf(PutEntries(m, puts[..|puts| - 1])) == FirstOccurrences(KeysOf(m) + KeysOf(puts[..|puts| - 1]))
    ensures KeysOf(PutEntries(m, puts)) == FirstOccurrences(KeysOf(m) + KeysOf(puts))
  {
    var n := |puts| - 1;
    var k := puts[n].0;
    var pm := PutEntries(m, puts[..n]);
    PutKeys(pm, k, puts[n].1);
    var pre := KeysOf(m) + KeysOf(puts[..n]);
    KeysOfFront(puts);
    assert KeysOf(m) + KeysOf(puts) == pre + [k];
    FirstOccurrencesSnoc(pre, k);
    assert PutEntries(m, puts) == PutEntry(pm, k, puts[n].1);
  }

  lemma {:induction false} KeysOfFront(puts: Entries)
    requires |puts| > 0
    ensures KeysOf(puts) == KeysOf(puts[..|puts| - 1]) + [puts[|puts| - 1].0]
  {
    var n := |puts| - 1;
    KeysOfSnoc(puts[..n], puts[n]);
    assert puts[..n] + [puts[n]] == puts;
  }

  lemma {:induction false} FirstOccurrencesSnoc(ks: seq<string>, k: string)
    ensures FirstOccurrences(ks + [k])
      == if k in FirstOccurrences(ks) then FirstOccurrences(ks) else FirstOccurrences(ks) + [k]
  {
    assert (ks + [k])[..|ks|] == ks;
  }

  /** One more put at the end of a run. */
  lemma {:induction false} PutEntriesSnoc(m: Entries, puts: Entries, e: Entry)
    ensures PutEntries(m, puts + [e]) == PutEntry(PutEntries(m, puts), e.0, e.1)
  {
    assert (puts + [e])[..|puts|] == puts;
  }

  /** Puts of pairwise different keys into an empty map give exactly those entries. */
  lemma {:induction false} PutEntriesFresh(puts: Entries)
    requires DistinctKeys(puts)
    ensures PutEntries([], puts) == puts
    decreases |puts|
  {
    if |puts| > 0 {
      var n := |puts| - 1;
      PutEntriesFresh(puts[..n]);
      assert puts[n].0 !in KeysOf(puts[..n]);
      PutAppends(puts[..n], puts[n].0, puts[n].1);
      assert puts[..n] + [puts[n]] == puts;
    }
  }

  /** Putting a new key appends one entry. */
  lemma {:induction false} PutAppends(m: Entries, k: string, v: string)
    requires k !in KeysOf(m)
    ensures PutEntry(m, k, v) == m + [(k, v)]
  {
    if |m| > 0 {
      assert k != m[0].0;
      assert KeysOf(m) == [m[0].0] + KeysOf(m[1..]);
      PutAppends(m[1..], k, v);
      assert [m[0]] + (m[1..] + [(k, v)]) == m + [(k, v)];
    }
  }

  /** The same put repeated any positive number of times leaves one entry. */
  lemma {:induction false} PutEntriesRepeated(k: string, v: string, puts: Entries)
    requires |puts| > 0 && forall i :: 0 <= i < |puts| ==> puts[i] == (k, v)
    ensures PutEntries([], puts) == [(k, v)]
    decreases |puts|
  {
    if |puts| > 1 {
      PutEntriesRepeated(k, v, puts[..|puts| - 1]);
      assert KeysOf([(k, v)]) == [k];
    }
  }

  /** The `LinkedHashMap` object a collector fills in place. */
  class LinkedMap {
    var entries: Entries

    /** `new LinkedHashMap<String, String>()`. */
    constructor ()
      ensures entries == []
    {
      entries := [];
    }

    /** `put(key, value)`. */
    method Put(key: string, value: string)
      modifies this
      ensures entries == PutEntry(old(entries), key, value)
    {
      entries := PutEntry(entries, key, value);
    }
  }
}
