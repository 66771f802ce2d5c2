/**
 * The settings document both exporters assemble (named sections of ordered
 * key/value entries) and the `key: value` line each entry becomes.
 */
module Report {
  import opened Wrappers
  import opened LinkedMaps

  datatype Section = Section(name: string, entries: Entries)

  type Document = seq<Section>

  /** The section names, in order. */
  function Names(doc: Document): (ns: seq<string>)
    ensures |ns| == |doc|
    ensures forall i :: 0 <= i < |doc| ==> ns[i] == doc[i].name
  {
    if |doc| == 0 then [] else [doc[0].name] + Names(doc[1..])
  }

  /** The number of entries over all sections. */
  function EntryCount(doc: Document): nat
  {
    if |doc| == 0 then 0 else EntryCount(doc[..|doc| - 1]) + |doc[|doc| - 1].entries|
  }

  /** `key + ": " + value`. */
  function EntryLine(e: Entry): string
  {
    e.0 + ": " + e.1
  }

  /** One line per entry, in insertion order. */
  function EntryLines(es: Entries): (ls: seq<string>)
    ensures |ls| == |es|
    ensures forall i :: 0 <= i < |es| ==> ls[i] == EntryLine(es[i])
    decreases |es|
  {
    if |es| == 0 then [] else EntryLines(es[..|es| - 1]) + [EntryLine(es[|es| - 1])]
  }

  /** The text holds no `": "`, so the first `": "` of its entry line is the separator. */
  predicate NoSeparator(k: string)
  {
    forall i :: 0 <= i < |k| - 1 ==> !(k[i] == ':' && k[i + 1] == ' ')
  }

  /** The index of the first `": "` in the line. */
  function SeparatorAt(s: string): (r: Option<nat>)
    ensures r.Some? ==> r.value + 1 < |s| && s[r.value] == ':' && s[r.value + 1] == ' '
    ensures r.Some? ==> NoSeparator(s[..r.value])
    ensures r.None? ==> NoSeparator(s)
  {
    if |s| < 2 then None
    else if s[0] == ':' && s[1] == ' ' then Some(0)
    else
      match SeparatorAt(s[1..])
      case None => None
      case Some(i) => Some(i + 1)
  }

  /** Reads an entry line back: the key is what precedes the first `": "`. */
  function ParseEntry(line: string): Option<Entry>
  {
    match SeparatorAt(line)
    case None => None
    case Some(i) => Some((line[..i], line[i + 2..]))
  }

  lemma {:induction false} SeparatorAfterKey(k: string, v: string)
    requires NoSeparator(k)
    ensures SeparatorAt(k + ": " + v) == Some(|k|)
    decreases |k|
  {
    var s := k + ": " + v;
    if |k| > 0 {
      assert s[1..] == k[1..] + ": " + v;
      SeparatorAfterKey(k[1..], v);
      assert !(s[0] == ':' && s[1] == ' ') by {
        if |k| > 1 { assert s[1] == k[1]; } else { assert s[1] == ':'; }
      }
    }
  }

  /** Every entry whose key holds no `": "` is read back from its line. */
  lemma {:induction false} ParseEntryLine(e: Entry)
    requires NoSeparator(e.0)
    ensures ParseEntry(EntryLine(e)) == Some(e)
  {
    SeparatorAfterKey(e.0, e.1);
    var line := EntryLine(e);
    assert line[..|e.0|] == e.0;
    assert line[|e.0| + 2..] == e.1;
  }

  /** Every entry line contains a ':'. */
  lemma {:induction false} EntryLineHasColon(e: Entry)
    ensures ':' in EntryLine(e)
  {
    assert EntryLine(e)[|e.0|] == ':';
  }

  /** Reads entry lines back; None if one of them is not an entry line. */
  function ParseEntryLines(lines: seq<string>): Option<Entries>
  {
    if |lines| == 0 then Some([])
    else
      match (ParseEntry(lines[0]), ParseEntryLines(lines[1..]))
      case (Some(e), Some(es)) => Some([e] + es)
      case _ => None
  }

  lemma {:induction false} ParseEntryLinesRoundTrip(es: Entries)
    requires forall i :: 0 <= i < |es| ==> NoSeparator(es[i].0)
    ensures ParseEntryLines(EntryLines(es)) == Some(es)
    decreases |es|
  {
    if |es| > 0 {
      EntryLinesCons(es[0], es[1..]);
      assert [es[0]] + es[1..] == es;
      ParseEntryLinesRoundTrip(es[1..]);
      ParseEntryLine(es[0]);
    }
  }

  lemma {:induction false} EntryLinesCons(e: Entry, es: Entries)
    ensures EntryLines([e] + es) == [EntryLine(e)] + EntryLines(es)
  {
    var l, r := EntryLines([e] + es), [EntryLine(e)] + EntryLines(es);
    assert |l| == |r|;
    forall i | 0 <= i < |l| ensures l[i] == r[i] {
      if i > 0 { assert ([e] + es)[i] == es[i - 1]; }
    }
  }

  /** Lines that start with the entry lines of `es`: the first entry's line, then the rest. */
  lemma {:induction false} EntryLinesFirst(es: Entries, tail: seq<string>)
    requires |es| > 0
    ensures (EntryLines(es) + tail)[0] == EntryLine(es[0])
    ensures (EntryLines(es) + tail)[1..] == EntryLines(es[1..]) + tail
  {
    EntryLinesCons(es[0], es[1..]);
    assert [es[0]] + es[1..] == es;
    DropFirst(EntryLine(es[0]), EntryLines(es[1..]), tail);
  }

  lemma {:induction false} DropFirst<T>(x: T, a: seq<T>, b: seq<T>)
    ensures ([x] + a + b)[0] == x && ([x] + a + b)[1..] == a + b
  {
  }

  /** Every entry line has a `": "` for the reader to find. */
  lemma {:induction false} EntryLineHasSeparator(e: Entry)
    ensures SeparatorAt(EntryLine(e)).Some?
  {
    var line := EntryLine(e);
    assert line[|e.0|] == ':' && line[|e.0| + 1] == ' ';
  }

  /** The sections of a settings list, read through the maps it holds. */
  function Snapshot(list: seq<(string, LinkedMap)>): (d: Document)
    reads set i | 0 <= i < |list| :: list[i].1
    ensures |d| == |list|
    ensures forall i :: 0 <= i < |list| ==> d[i] == Section(list[i].0, list[i].1.entries)
    decreases |list|
  {
    if |list| == 0 then []
    else
      var n := |list| - 1;
      Snapshot(list[..n]) + [Section(list[n].0, list[n].1.entries)]
  }
}
