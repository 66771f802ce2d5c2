/**
 * What `ExportFieldnotesAction` computes and does, as functions: the puts of
 * each collector, the five-section settings document, the report lines with
 * a parser that reads them back, the folder prompts, and the effects of one
 * export on files, dialogs and the graph's read lock.
 */
module FieldnotesSpec {
  import opened Wrappers
  import opened JavaText
  import opened LinkedMaps
  import opened GephiModels
  import opened Desktop
  import opened Report
  import opened Collectors

  const GeneralName: string := "## General settings"
  const FilterName: string := "## Filter settings"
  const LayoutName: string := "## Layout settings"
  const StatisticsName: string := "## Statistics settings"
  const PreviewName: string := "## Preview settings"

  /** The header of query i in this variant: `"# filter " + i`. */
  const FilterPrefix: string := "# filter "

  const LayoutHeader: string := "# layout"
  const NotExtracted: string := "Not extracted"

  /** The preview property name that Gephi misspells, and its correction. */
  const MisspelledName: string := "node.label.proportinalSize"
  const CorrectedName: string := "node.label.proportionalSize"

  /** The exception `split("\\.")[1]` throws when there is no second field. */
  const IndexOutOfBounds: string := "ArrayIndexOutOfBoundsException"

  // ---------------------------------------------------------------- General

  function GeneralPuts(g: GraphFacts): Entries
  {
    [ ("isDirectedGraph", BoolToString(g.directed)),
      ("edgeCount", NatToString(g.edgeCount)),
      ("nodeCount", NatToString(g.nodeCount)) ]
  }

  // ---------------------------------------------------------------- Layout

  /** The second `.`-separated field of the canonical name, or None where `[1]` throws. */
  function LayoutKey(p: LayoutProperty): Option<string>
  {
    if |Split(p.canonicalName, '.')| >= 2 then Some(Split(p.canonicalName, '.')[1]) else None
  }

  predicate LayoutKeysDefined(ps: seq<LayoutProperty>)
  {
    forall i :: 0 <= i < |ps| ==> LayoutKey(ps[i]).Some?
  }

  /** The index of the first property whose key cannot be taken, or |ps|. */
  function FirstBadProperty(ps: seq<LayoutProperty>): (k: nat)
    ensures k <= |ps| && LayoutKeysDefined(ps[..k])
    ensures k < |ps| ==> LayoutKey(ps[k]).None?
    decreases |ps|
  {
    if |ps| == 0 then 0
    else if LayoutKey(ps[0]).None? then 0
    else
      FirstBadProperty(ps[1..]) + 1
  }

  /** The keys of properties whose keys all exist, in order. */
  function LayoutKeys(ps: seq<LayoutProperty>): (ks: seq<string>)
    requires LayoutKeysDefined(ps)
    ensures |ks| == |ps|
    ensures forall i :: 0 <= i < |ps| ==> Some(ks[i]) == LayoutKey(ps[i])
    decreases |ps|
  {
    if |ps| == 0 then []
    else
      var n := |ps| - 1;
      assert LayoutKeysDefined(ps[..n]);
      LayoutKeys(ps[..n]) + [LayoutKey(ps[n]).value]
  }

  /** Each key with the constant value "Not extracted". */
  function NotExtractedPuts(ks: seq<string>): (r: Entries)
    ensures |r| == |ks|
    ensures forall i :: 0 <= i < |ks| ==> r[i] == (ks[i], NotExtracted)
    decreases |ks|
  {
    if |ks| == 0 then [] else NotExtractedPuts(ks[..|ks| - 1]) + [(ks[|ks| - 1], NotExtracted)]
  }

  /** The layout collector throws on the first property without a second field. */
  predicate LayoutThrows(l: Option<Layout>)
  {
    l.Some? && FirstBadProperty(l.value.properties) < |l.value.properties|
  }

  /** The puts the layout collector makes (up to the property that throws, if one does). */
  function LayoutPuts(l: Option<Layout>): Entries
  {
    match l
    case None => []
    case Some(layout) =>
      var ps := layout.properties[..FirstBadProperty(layout.properties)];
      [(LayoutHeader, layout.builderName)] + NotExtractedPuts(LayoutKeys(ps))
  }

  // ---------------------------------------------------------------- Preview

  /** The key a preview property is written under: the misspelled name is corrected. */
  function PreviewKey(name: string): (k: string)
    ensures k != MisspelledName
    ensures name == MisspelledName ==> k == CorrectedName
    ensures name != MisspelledName ==> k == name
  {
    if name == MisspelledName then CorrectedName else name
  }

  /** A colour wrapper is written as its custom colour; anything else as its own `toString`. */
  function PreviewValueText(v: PreviewValue): (s: string)
    ensures v.Plain? ==> s == v.Text()
    ensures !v.Plain? ==> s == v.customColor.text
  {
    match v
    case Plain(t) => t
    case DependantColorValue(_, c) => c.text
    case DependantOriginalColorValue(_, c) => c.text
    case EdgeColorValue(_, c) => c.text
  }

  function PreviewPuts(ps: seq<PreviewProperty>): (r: Entries)
    ensures |r| == |ps|
    ensures forall j :: 0 <= j < |ps| ==> r[j] == (PreviewKey(ps[j].name), PreviewValueText(ps[j].value))
    decreases |ps|
  {
    if |ps| == 0 then []
    else
      var n := |ps| - 1;
      PreviewPuts(ps[..n]) + [(PreviewKey(ps[n].name), PreviewValueText(ps[n].value))]
  }

  // ---------------------------------------------------------------- Document

  /** The sections in `collectSettings`'s order (Appearance is not among them). */
  function SettingsDocument(g: GraphFacts, m: Models): Document
  {
    [ Section(GeneralName, PutEntries([], GeneralPuts(g))),
      Section(FilterName, PutEntries([], FilterPuts(FilterPrefix, m.filter.queries))),
      Section(LayoutName, PutEntries([], LayoutPuts(m.layout.selectedLayout))),
      Section(StatisticsName, PutEntries([], StatisticsPuts(m.statistics))),
      Section(PreviewName, PutEntries([], PreviewPuts(m.preview.properties))) ]
  }

  /** `collectSettings`: the document, unless the layout collector throws. */
  function CollectedSettings(g: GraphFacts, m: Models): Outcome<Document>
  {
    if LayoutThrows(m.layout.selectedLayout) then Threw(IndexOutOfBounds)
    else Done(SettingsDocument(g, m))
  }

  lemma {:induction false} SectionOrder(g: GraphFacts, m: Models)
    ensures CollectedSettings(g, m).Done? <==> !LayoutThrows(m.layout.selectedLayout)
    ensures Names(SettingsDocument(g, m)) == [GeneralName, FilterName, LayoutName, StatisticsName, PreviewName]
  {
  }

  /** General holds exactly directedness, edge count and node count, in that order. */
  lemma {:induction false} GeneralSection(g: GraphFacts, m: Models)
    ensures SettingsDocument(g, m)[0].entries ==
      [ ("isDirectedGraph", BoolToString(g.directed)),
        ("edgeCount", NatToString(g.edgeCount)),
        ("nodeCount", NatToString(g.nodeCount)) ]
  {
    PutEntriesFresh(GeneralPuts(g));
  }

  /** Statistics holds exactly the statistics model's text. */
  lemma {:induction false} StatisticsSection(g: GraphFacts, m: Models)
    ensures SettingsDocument(g, m)[3].entries == [("statisticsModel", m.statistics.text)]
  {
    PutEntriesFresh(StatisticsPuts(m.statistics));
  }

  /** Lemma: `Get` finds the entry at its position when the keys are distinct. */
  lemma {:induction false} GetAt(m: Entries, i: nat)
    requires DistinctKeys(m) && i < |m|
    ensures Get(m, m[i].0) == Some(m[i].1)
  {
    if i > 0 {
      GetAt(m[1..], i - 1);
    }
  }

  lemma {:induction false} FirstOccurrencesHead(ks: seq<string>)
    requires |ks| > 0
    ensures |FirstOccurrences(ks)| > 0 && FirstOccurrences(ks)[0] == ks[0]
    decreases |ks|
  {
    if |ks| > 1 {
      FirstOccurrencesHead(ks[..|ks| - 1]);
    }
  }

  /**
   * Without a selected layout the layout section is empty. With one, its
   * first key is "# layout" and every other entry has the value
   * "Not extracted"; "# layout" keeps the builder's name unless a property
   * key equal to it overwrote it.
   */
  lemma {:induction false} LayoutSection(g: GraphFacts, m: Models)
    ensures var es := SettingsDocument(g, m)[2].entries;
      && (m.layout.selectedLayout.None? ==> es == [])
      && (m.layout.selectedLayout.Some? ==>
            && |es| > 0 && es[0].0 == LayoutHeader
            && (es[0].1 == m.layout.selectedLayout.value.builderName || es[0].1 == NotExtracted)
            && forall i :: 1 <= i < |es| ==> es[i].1 == NotExtracted)
  {
    var l := m.layout.selectedLayout;
    if l.Some? {
      var ps := l.value.properties[..FirstBadProperty(l.value.properties)];
      var rest := NotExtractedPuts(LayoutKeys(ps));
      assert LayoutPuts(l) == [(LayoutHeader, l.value.builderName)] + rest;
      HeaderLeads(l.value.builderName, rest);
    }
  }

  /** A header put followed by placeholder puts leaves the header first and placeholders after it. */
  lemma {:induction false} HeaderLeads(builder: string, rest: Entries)
    requires forall i :: 0 <= i < |rest| ==> rest[i].1 == NotExtracted
    ensures var es := PutEntries([], [(LayoutHeader, builder)] + rest);
      && |es| > 0 && es[0].0 == LayoutHeader
      && (es[0].1 == builder || es[0].1 == NotExtracted)
      && forall i :: 1 <= i < |es| ==> es[i].1 == NotExtracted
  {
    var puts := [(LayoutHeader, builder)] + rest;
    var es := PutEntries([], puts);
    HeaderKeyFirst(puts);
    forall i | 0 <= i < |es|
      ensures i > 0 ==> es[i].1 == NotExtracted
      ensures i == 0 ==> es[i].1 == builder || es[i].1 == NotExtracted
    {
      HeaderLeadsAt(builder, rest, i);
    }
  }

  /** The first put's key is the first key of the map. */
  lemma {:induction false} HeaderKeyFirst(puts: Entries)
    requires |puts| > 0
    ensures |PutEntries([], puts)| > 0 && PutEntries([], puts)[0].0 == puts[0].0
  {
    PutEntriesKeys([], puts);
    assert KeysOf([]) + KeysOf(puts) == KeysOf(puts);
    FirstOccurrencesHead(KeysOf(puts));
    assert KeysOf(PutEntries([], puts))[0] == puts[0].0;
  }

  lemma {:induction false} HeaderLeadsAt(builder: string, rest: Entries, i: nat)
    requires forall i :: 0 <= i < |rest| ==> rest[i].1 == NotExtracted
    requires var es := PutEntries([], [(LayoutHeader, builder)] + rest);
      i < |es| && es[0].0 == LayoutHeader
    ensures var es := PutEntries([], [(LayoutHeader, builder)] + rest);
      && (i > 0 ==> es[i].1 == NotExtracted)
      && (i == 0 ==> es[i].1 == builder || es[i].1 == NotExtracted)
  {
    var puts := [(LayoutHeader, builder)] + rest;
    var es := PutEntries([], puts);
    var j := EntryFromPut(puts, i);
    if j > 0 {
      assert puts[j] == rest[j - 1];
    } else if i > 0 {
      PutEntriesDistinct([], puts);
    }
  }

  /** Every entry of a map built from empty by puts is one of the puts. */
  lemma {:induction false} EntryFromPut(puts: Entries, i: nat) returns (j: nat)
    requires i < |PutEntries([], puts)|
    ensures j < |puts| && puts[j] == PutEntries([], puts)[i]
  {
    var es := PutEntries([], puts);
    PutEntriesDistinct([], puts);
    GetAt(es, i);
    PutEntriesGet([], puts, es[i].0);
    LastPutIsAPut(puts, es[i].0);
    j :| j < |puts| && puts[j] == (es[i].0, LastPut(puts, es[i].0).value);
  }

  /** The misspelled preview name never appears as a key. */
  lemma {:induction false} PreviewSectionCorrectsName(g: GraphFacts, m: Models)
    ensures MisspelledName !in KeysOf(SettingsDocument(g, m)[4].entries)
  {
    var puts := PreviewPuts(m.preview.properties);
    PutEntriesKeys([], puts);
    assert KeysOf([]) + KeysOf(puts) == KeysOf(puts);
  }

  /**
   * Every preview value is the formatted value of a property written under
   * that key; a colour-wrapped property is never written as the wrapper.
   */
  lemma {:induction false} PreviewSectionValues(g: GraphFacts, m: Models, k: string)
    requires k in KeysOf(SettingsDocument(g, m)[4].entries)
    ensures exists j :: (0 <= j < |m.preview.properties| &&
      PreviewKey(m.preview.properties[j].name) == k &&
      Get(SettingsDocument(g, m)[4].entries, k) == Some(PreviewValueText(m.preview.properties[j].value)))
  {
    var ps := m.preview.properties;
    var puts := PreviewPuts(ps);
    PutEntriesGet([], puts, k);
    LastPutIsAPut(puts, k);
    var j :| 0 <= j < |puts| && puts[j] == (k, LastPut(puts, k).value);
    assert puts[j] == (PreviewKey(ps[j].name), PreviewValueText(ps[j].value));
  }

  /**
   * The value under a property's key is that property's formatted value when
   * no later property is written under the same key: a colour wrapper's
   * custom colour, anything else its own `toString`.
   */
  lemma {:induction false} PreviewSectionLastProperty(g: GraphFacts, m: Models, j: nat)
    requires j < |m.preview.properties|
    requires forall i :: j < i < |m.preview.properties| ==>
      PreviewKey(m.preview.properties[i].name) != PreviewKey(m.preview.properties[j].name)
    ensures Get(SettingsDocument(g, m)[4].entries, PreviewKey(m.preview.properties[j].name)) ==
      Some(PreviewValueText(m.preview.properties[j].value))
    ensures !m.preview.properties[j].value.Plain? ==>
      Get(SettingsDocument(g, m)[4].entries, PreviewKey(m.preview.properties[j].name)) ==
      Some(m.preview.properties[j].value.customColor.text)
  {
    var ps := m.preview.properties;
    var puts := PreviewPuts(ps);
    var k := PreviewKey(ps[j].name);
    forall i | j < i < |puts| ensures puts[i].0 != puts[j].0 {
      assert puts[i].0 == PreviewKey(ps[i].name);
    }
    LastPutAt(puts, j);
    PutEntriesGet([], puts, k);
  }

  /**
   * A property under the legacy misspelled name is written under the
   * corrected name, with its own value unless a later property takes that key.
   */
  lemma {:induction false} PreviewSectionRenames(g: GraphFacts, m: Models, j: nat)
    requires j < |m.preview.properties| && m.preview.properties[j].name == MisspelledName
    ensures CorrectedName in KeysOf(SettingsDocument(g, m)[4].entries)
    ensures (forall i :: j < i < |m.preview.properties| ==>
        PreviewKey(m.preview.properties[i].name) != CorrectedName) ==>
      Get(SettingsDocument(g, m)[4].entries, CorrectedName) ==
      Some(PreviewValueText(m.preview.properties[j].value))
  {
    var ps := m.preview.properties;
    var puts := PreviewPuts(ps);
    assert KeysOf(puts)[j] == CorrectedName;
    PutEntriesGet([], puts, CorrectedName);
    if forall i :: j < i < |ps| ==> PreviewKey(ps[i].name) != CorrectedName {
      PreviewSectionLastProperty(g, m, j);
    }
  }

  // ---------------------------------------------------------------- Report lines

  /** One section in the report: the separator line, its name, then one line per entry. */
  function SectionLines(s: Section): seq<string>
  {
    [Dash, s.name] + EntryLines(s.entries)
  }

  /** What `writeSettings` writes, line by line. */
  function SettingsLines(doc: Document): seq<string>
    decreases |doc|
  {
    if |doc| == 0 then [] else SettingsLines(doc[..|doc| - 1]) + SectionLines(doc[|doc| - 1])
  }

  /** Two lines per section plus one per entry. */
  lemma {:induction false} SettingsLineCount(doc: Document)
    ensures |SettingsLines(doc)| == 2 * |doc| + EntryCount(doc)
    decreases |doc|
  {
    if |doc| > 0 {
      SettingsLineCount(doc[..|doc| - 1]);
    }
  }

  lemma {:induction false} SettingsLinesCons(s: Section, rest: Document)
    ensures SettingsLines([s] + rest) == SectionLines(s) + SettingsLines(rest)
    decreases |rest|
  {
    if |rest| == 0 {
      assert [s] + rest == [s];
      assert [s][..0] == [];
    } else {
      var n := |rest| - 1;
      var whole := [s] + rest;
      assert whole[..|whole| - 1] == [s] + rest[..n];
      assert whole[|whole| - 1] == rest[n];
      SettingsLinesCons(s, rest[..n]);
      calc {
        SettingsLines(whole);
        SettingsLines([s] + rest[..n]) + SectionLines(rest[n]);
        (SectionLines(s) + SettingsLines(rest[..n])) + SectionLines(rest[n]);
        SectionLines(s) + (SettingsLines(rest[..n]) + SectionLines(rest[n]));
        SectionLines(s) + SettingsLines(rest);
      }
    }
  }

  /** The number of leading lines that are not separator lines. */
  function BodyLength(lines: seq<string>): (k: nat)
    ensures k <= |lines|
    ensures forall i :: 0 <= i < k ==> lines[i] != Dash
    ensures k < |lines| ==> lines[k] == Dash
  {
    if |lines| == 0 || lines[0] == Dash then 0 else BodyLength(lines[1..]) + 1
  }

  /** Reads a report back into its sections; None if the lines are not a report. */
  function ParseSettings(lines: seq<string>): Option<Document>
    decreases |lines|
  {
    if |lines| == 0 then Some([])
    else if lines[0] != Dash || |lines| < 2 then None
    else
      var body := lines[2..];
      var k := BodyLength(body);
      match (ParseEntryLines(body[..k]), ParseSettings(body[k..]))
      case (Some(es), Some(rest)) => Some([Section(lines[1], es)] + rest)
      case _ => None
  }

  /** `n` dashes. */
  function Dashes(n: nat): (d: string)
    ensures |d| == n
  {
    seq(n, i => '-')
  }

  /** The separator line: 120 dashes. */
  const Dash: string := Dashes(120)

  /** No entry line is a separator line: the former has a ':', the latter only dashes. */
  lemma {:induction false} EntryLineIsNotDash(e: Entry)
    ensures EntryLine(e) != Dash
  {
    EntryLineHasColon(e);
    assert forall i :: 0 <= i < |Dash| ==> Dash[i] != ':';
  }

  lemma {:induction false} BodyLengthOfEntries(es: Entries, tail: seq<string>)
    requires |tail| > 0 ==> tail[0] == Dash
    ensures BodyLength(EntryLines(es) + tail) == |es|
    decreases |es|
  {
    if |es| == 0 {
      assert EntryLines(es) + tail == tail;
    } else {
      EntryLinesFirst(es, tail);
      EntryLineIsNotDash(es[0]);
      BodyLengthOfEntries(es[1..], tail);
    }
  }

  /** Keys that contain no `": "`. */
  predicate KeysReadable(doc: Document)
  {
    forall s, i :: s in doc && 0 <= i < |s.entries| ==> NoSeparator(s.entries[i].0)
  }

  /**
   * The settings file as left on disk: when no write fails it reads back to
   * the document; when one fails it holds a strict prefix of the report.
   */
  lemma {:induction false} WrittenSettingsReadBack(doc: Document, io: WriteOracle)
    requires KeysReadable(doc)
    ensures !WriteFails(SettingsLines(doc), io) ==> ParseSettings(WrittenLines(SettingsLines(doc), io)) == Some(doc)
    ensures WriteFails(SettingsLines(doc), io) ==> WrittenLines(SettingsLines(doc), io) < SettingsLines(doc)
  {
    ParseSettingsRoundTrip(doc);
  }

  /**
   * Round trip: the report determines the document. Reading the lines back
   * gives every section with its name and its entries in order, as long as
   * no key contains `": "`.
   */
  lemma {:induction false} ParseSettingsRoundTrip(doc: Document)
    requires KeysReadable(doc)
    ensures ParseSettings(SettingsLines(doc)) == Some(doc)
    decreases |doc|
  {
    if |doc| > 0 {
      var s, rest := doc[0], doc[1..];
      assert [s] + rest == doc;
      assert KeysReadable(rest) by {
        forall t | t in rest ensures t in doc { }
      }
      assert forall i :: 0 <= i < |s.entries| ==> NoSeparator(s.entries[i].0) by {
        assert s in doc;
      }
      ParseSettingsRoundTrip(rest);
      ParseSettingsStep(s, rest);
    }
  }

  /** The first section rides in front of the rest of the report. */
  lemma {:induction false} ParseSettingsStep(s: Section, rest: Document)
    requires forall i :: 0 <= i < |s.entries| ==> NoSeparator(s.entries[i].0)
    requires ParseSettings(SettingsLines(rest)) == Some(rest)
    ensures ParseSettings(SettingsLines([s] + rest)) == Some([s] + rest)
  {
    SettingsLinesCons(s, rest);
    var tail := SettingsLines(rest);
    if |rest| > 0 {
      SettingsLinesCons(rest[0], rest[1..]);
      assert [rest[0]] + rest[1..] == rest;
    }
    BodyLengthOfEntries(s.entries, tail);
    ParseEntryLinesRoundTrip(s.entries);
    ParseSection(s.name, EntryLines(s.entries), tail);
  }

  /** One unfolding of `ParseSettings` over a section of `body` followed by `tail`. */
  lemma {:induction false} ParseSection(name: string, body: seq<string>, tail: seq<string>)
    requires BodyLength(body + tail) == |body|
    requires ParseEntryLines(body).Some? && ParseSettings(tail).Some?
    ensures ParseSettings([Dash, name] + body + tail)
      == Some([Section(name, ParseEntryLines(body).value)] + ParseSettings(tail).value)
  {
    var lines := [Dash, name] + body + tail;
    var rest := body + tail;
    assert lines == [Dash, name] + rest;
    assert lines[2..] == rest;
    assert rest[..|body|] == body;
    assert rest[|body|..] == tail;
  }

  // ---------------------------------------------------------------- Files and dialogs

  const SaveError: Notice := Error("Error Saving", "Sorry, file could not be written due to a disk error.")
  const ExportComplete: Notice := Info("Export Complete", "Fieldnotes Export Complete")

  /** The message shown when the chosen folder is not writable. */
  function NoPermission(folder: string): Notice
  {
    Info("No permission", "Cannot create files in folder '" + folder + "'. Please choose an different folder.")
  }

  function SettingsFile(folder: string, ts: string): Path
  {
    Path(folder, "settings_" + ts + ".txt")
  }

  function GraphFile(folder: string, ts: string): Path
  {
    Path(folder, "graph_" + ts + ".gexf")
  }

  /** The two files of one export are different files, and each name determines the timestamp. */
  lemma {:induction false} FileNamesCorrelate(folder: string, ts: string, ts': string)
    ensures SettingsFile(folder, ts) != GraphFile(folder, ts)
    ensures SettingsFile(folder, ts) == SettingsFile(folder, ts') ==> ts == ts'
    ensures GraphFile(folder, ts) == GraphFile(folder, ts') ==> ts == ts'
  {
    assert SettingsFile(folder, ts).name[0] == 's' && GraphFile(folder, ts).name[0] == 'g';
    if SettingsFile(folder, ts) == SettingsFile(folder, ts') {
      var n, n' := SettingsFile(folder, ts).name, SettingsFile(folder, ts').name;
      assert |ts| == |ts'|;
      assert ts == n[9..9 + |ts|] && ts' == n'[9..9 + |ts'|];
    }
    if GraphFile(folder, ts) == GraphFile(folder, ts') {
      var n, n' := GraphFile(folder, ts).name, GraphFile(folder, ts').name;
      assert |ts| == |ts'|;
      assert ts == n[6..6 + |ts|] && ts' == n'[6..6 + |ts'|];
    }
  }

  /**
   * The dialogs `writeSettings` raises: an open failure is reported twice
   * (by the catch, then by `close` on the null writer in the finally); else
   * one for a failed write and one for a failed close.
   */
  function WriteNotices(lines: seq<string>, io: WriteOracle): seq<Notice>
  {
    if io.openFails then [SaveError, SaveError]
    else (if WriteFails(lines, io) then [SaveError] else []) + (if io.closeFails then [SaveError] else [])
  }

  /** How the two file operations of one export go. */
  datatype ExportIo = ExportIo(settings: WriteOracle, graphExportFails: bool)

  /** What one `handleFolderSelected` does: files written in order, dialogs shown, and whether the lock is left held. */
  datatype ExportEffects = ExportEffects(writes: seq<(Path, FileContent)>, notices: seq<Notice>, lockHeld: bool)

  /**
   * What one export does apart from where: the settings file's content if
   * it was opened, whether the graph file was written, the dialogs shown,
   * and whether the lock is left held.
   */
  datatype ExportPlan = ExportPlan(settingsFile: Option<FileContent>, graphWritten: bool, notices: seq<Notice>,
                                   lockHeld: bool)

  /** The plan of `handleFolderSelected`, given what `collectSettings` gives; each failure on disk shows an error dialog and the export goes on. */
  function Plan(settings: Outcome<Document>, io: ExportIo): ExportPlan
  {
    match settings
    case Threw(_) => ExportPlan(None, false, [], true)
    case Done(doc) =>
      var lines := SettingsLines(doc);
      ExportPlan(
        if io.settings.openFails then None else Some(TextLines(WrittenLines(lines, io.settings))),
        !io.graphExportFails,
        WriteNotices(lines, io.settings) + (if io.graphExportFails then [SaveError] else []) + [ExportComplete],
        false)
  }

  /** A plan carried out in `folder`: the settings file first, then the graph file. */
  function Placed(plan: ExportPlan, folder: string, ts: string): ExportEffects
  {
    ExportEffects(
      (if plan.settingsFile.Some? then [(SettingsFile(folder, ts), plan.settingsFile.value)] else [])
        + (if plan.graphWritten then [(GraphFile(folder, ts), GraphData)] else []),
      plan.notices,
      plan.lockHeld)
  }

  /** `handleFolderSelected` to `folder`, given what `collectSettings` gives. */
  function ExportRun(settings: Outcome<Document>, folder: string, ts: string, io: ExportIo): ExportEffects
  {
    Placed(Plan(settings, io), folder, ts)
  }

  function ApplyWrites(files: map<Path, FileContent>, writes: seq<(Path, FileContent)>): map<Path, FileContent>
    decreases |writes|
  {
    if |writes| == 0 then files else ApplyWrites(files[writes[0].0 := writes[0].1], writes[1..])
  }

  /**
   * One export: both files are in the chosen folder and carry the same
   * timestamp; errors do not stop it, so it always ends with the success
   * dialog and the lock released. Only a layout property without a second
   * name field aborts it, before any file is written, with the lock held.
   */
  lemma {:induction false} ExportRunFacts(g: GraphFacts, m: Models, folder: string, ts: string, io: ExportIo)
    ensures var e := ExportRun(CollectedSettings(g, m), folder, ts, io);
      && (forall w :: w in e.writes ==> w.0 == SettingsFile(folder, ts) || w.0 == GraphFile(folder, ts))
      && (LayoutThrows(m.layout.selectedLayout) <==> e.lockHeld)
      && (LayoutThrows(m.layout.selectedLayout) ==> e.writes == [] && e.notices == [])
      && (!LayoutThrows(m.layout.selectedLayout) ==> |e.notices| > 0 && e.notices[|e.notices| - 1] == ExportComplete)
      && (!LayoutThrows(m.layout.selectedLayout) ==> forall i :: 0 <= i < |e.notices| - 1 ==> e.notices[i] == SaveError)
  {
    PlacedInFolder(Plan(CollectedSettings(g, m), io), folder, ts);
    if !LayoutThrows(m.layout.selectedLayout) {
      DocumentPlanFacts(SettingsDocument(g, m), io);
    }
  }

  lemma {:induction false} PlacedInFolder(plan: ExportPlan, folder: string, ts: string)
    ensures forall w :: w in Placed(plan, folder, ts).writes ==> w.0 == SettingsFile(folder, ts) || w.0 == GraphFile(folder, ts)
  {
  }

  lemma {:induction false} DocumentPlanFacts(doc: Document, io: ExportIo)
    ensures var p := Plan(Done(doc), io);
      && !p.lockHeld && |p.notices| > 0 && p.notices[|p.notices| - 1] == ExportComplete
      && (forall i :: 0 <= i < |p.notices| - 1 ==> p.notices[i] == SaveError)
  {
  }

  // ---------------------------------------------------------------- Folder prompts

  /** How a folder chooser was closed: OK with a folder, or any other way. */
  datatype Answer = Approve(folder: string) | Dismiss

  /**
   * The folder choosers shown (by start folder), the folders refused for
   * lack of write permission, and the folder finally exported to.
   */
  datatype PromptRun = PromptRun(prompts: seq<string>, refused: seq<string>, chosen: Option<string>)

  /**
   * `promptUserForFolder(start)` answered by `answers` in turn (a chooser
   * left open has no answer), with `writable` the folders one may write in.
   */
  function RunPrompts(start: string, answers: seq<Answer>, writable: set<string>): (r: PromptRun)
    ensures |r.prompts| == |r.refused| + 1 && r.prompts[0] == start
    decreases |answers|
  {
    if |answers| == 0 then PromptRun([start], [], None)
    else
      match answers[0]
      case Dismiss => PromptRun([start], [], None)
      case Approve(folder) =>
        if folder in writable then PromptRun([start], [], Some(folder))
        else
          var rest := RunPrompts(folder, answers[1..], writable);
          PromptRun([start] + rest.prompts, [folder] + rest.refused, rest.chosen)
  }

  /**
   * The choosers open in turn on the start folder and then on each refused
   * folder; every refused folder was approved and is not writable; the run
   * ends at the first writable folder approved, at the first chooser closed
   * another way, or when the answers run out.
   */
  lemma {:induction false} RunPromptsFacts(start: string, answers: seq<Answer>, writable: set<string>)
    ensures var r := RunPrompts(start, answers, writable);
      && (forall i :: 0 <= i < |r.refused| ==> r.prompts[i + 1] == r.refused[i])
      && (forall i :: 0 <= i < |r.refused| ==> r.refused[i] !in writable && i < |answers| && answers[i] == Approve(r.refused[i]))
      && (r.chosen.Some? ==> r.chosen.value in writable && |r.refused| < |answers| && answers[|r.refused|] == Approve(r.chosen.value))
      && (r.chosen.None? ==> |r.refused| == |answers| || (|r.refused| < |answers| && answers[|r.refused|] == Dismiss))
    decreases |answers|
  {
    if |answers| > 0 && answers[0].Approve? && answers[0].folder !in writable {
      var folder := answers[0].folder;
      var rest := RunPrompts(folder, answers[1..], writable);
      RunPromptsFacts(folder, answers[1..], writable);
      var r := RunPrompts(start, answers, writable);
      assert r.refused == [folder] + rest.refused && r.prompts == [start] + rest.prompts;
      forall i | 1 <= i < |r.refused|
        ensures r.prompts[i + 1] == r.refused[i]
        ensures r.refused[i] !in writable && i < |answers| && answers[i] == Approve(r.refused[i])
      {
        assert r.refused[i] == rest.refused[i - 1] && r.prompts[i + 1] == rest.prompts[i];
        assert answers[i] == answers[1..][i - 1];
      }
    }
  }

  function NoPermissionNotices(refused: seq<string>): (r: seq<Notice>)
    ensures |r| == |refused| && forall i :: 0 <= i < |refused| ==> r[i] == NoPermission(refused[i])
  {
    if |refused| == 0 then [] else [NoPermission(refused[0])] + NoPermissionNotices(refused[1..])
  }

  /**
   * Everything one run of folder choosers does: choosers opened (by start
   * folder), dialogs shown, files written, whether the lock is left held,
   * and the folder last approved, if any.
   */
  datatype ActionEffects = ActionEffects(
    prompts: seq<string>,
    notices: seq<Notice>,
    writes: seq<(Path, FileContent)>,
    lockHeld: bool,
    selected: Option<string>)

  /** A chooser opened on `start`, answered by `answers`, carrying out `plan` in the folder approved. */
  function PromptEffects(plan: ExportPlan, start: string, answers: seq<Answer>, writable: set<string>, ts: string)
    : ActionEffects
    decreases |answers|
  {
    if |answers| == 0 then ActionEffects([start], [], [], false, None)
    else
      match answers[0]
      case Dismiss => ActionEffects([start], [], [], false, None)
      case Approve(folder) =>
        if folder in writable then
          var e := Placed(plan, folder, ts);
          ActionEffects([start], e.notices, e.writes, e.lockHeld, Some(folder))
        else
          var r := PromptEffects(plan, folder, answers[1..], writable, ts);
          ActionEffects([start] + r.prompts, [NoPermission(folder)] + r.notices, r.writes, r.lockHeld,
                        if r.selected.Some? then r.selected else Some(folder))
  }

  /**
   * A run of choosers shows one "No permission" dialog per refused folder,
   * re-opening the chooser there, and either exports exactly once to the
   * writable folder finally approved, or writes nothing and keeps no lock.
   */
  lemma {:induction false} PromptEffectsRun(plan: ExportPlan, start: string, answers: seq<Answer>,
                                            writable: set<string>, ts: string)
    ensures var a, run := PromptEffects(plan, start, answers, writable, ts), RunPrompts(start, answers, writable);
      && a.prompts == run.prompts
      && (run.chosen.None? ==> a.notices == NoPermissionNotices(run.refused) && a.writes == [] && !a.lockHeld)
      && (run.chosen.Some? ==>
            var e := Placed(plan, run.chosen.value, ts);
            && a.notices == NoPermissionNotices(run.refused) + e.notices
            && a.writes == e.writes && a.lockHeld == e.lockHeld
            && a.selected == run.chosen)
    decreases |answers|
  {
    PromptsOpened(plan, start, answers, writable, ts);
    NothingChosen(plan, start, answers, writable, ts);
    FolderChosen(plan, start, answers, writable, ts);
  }

  lemma {:induction false} PromptsOpened(plan: ExportPlan, start: string, answers: seq<Answer>,
                                         writable: set<string>, ts: string)
    ensures PromptEffects(plan, start, answers, writable, ts).prompts == RunPrompts(start, answers, writable).prompts
    decreases |answers|
  {
    if |answers| > 0 && answers[0].Approve? && answers[0].folder !in writable {
      PromptsOpened(plan, answers[0].folder, answers[1..], writable, ts);
    }
  }

  lemma {:induction false} NothingChosen(plan: ExportPlan, start: string, answers: seq<Answer>,
                                         writable: set<string>, ts: string)
    ensures var a, run := PromptEffects(plan, start, answers, writable, ts), RunPrompts(start, answers, writable);
      run.chosen.None? ==> a.notices == NoPermissionNotices(run.refused) && a.writes == [] && !a.lockHeld
    decreases |answers|
  {
    if |answers| > 0 && answers[0].Approve? && answers[0].folder !in writable {
      var folder := answers[0].folder;
      var rest := RunPrompts(folder, answers[1..], writable);
      NothingChosen(plan, folder, answers[1..], writable, ts);
      assert ([folder] + rest.refused)[1..] == rest.refused;
    }
  }

  lemma {:induction false} FolderChosen(plan: ExportPlan, start: string, answers: seq<Answer>,
                                        writable: set<string>, ts: string)
    ensures var a, run := PromptEffects(plan, start, answers, writable, ts), RunPrompts(start, answers, writable);
      run.chosen.Some? ==>
        var e := Placed(plan, run.chosen.value, ts);
        && a.notices == NoPermissionNotices(run.refused) + e.notices
        && a.writes == e.writes && a.lockHeld == e.lockHeld
        && a.selected == run.chosen
    decreases |answers|
  {
    if |answers| > 0 && answers[0].Approve? && answers[0].folder !in writable {
      var folder := answers[0].folder;
      var rest := RunPrompts(folder, answers[1..], writable);
      FolderChosen(plan, folder, answers[1..], writable, ts);
      assert ([folder] + rest.refused)[1..] == rest.refused;
      if rest.chosen.Some? {
        var e := Placed(plan, rest.chosen.value, ts);
        assert NoPermissionNotices([folder] + rest.refused) == [NoPermission(folder)] + NoPermissionNotices(rest.refused);
        assert [NoPermission(folder)] + (NoPermissionNotices(rest.refused) + e.notices)
            == [NoPermission(folder)] + NoPermissionNotices(rest.refused) + e.notices;
      }
    }
  }
}
