/**
 * The settings exporter offered in Gephi's export dialog: it takes the read
 * lock of the whole or the visible graph, collects six sections of
 * settings and writes them, without separator lines, to
 * `settings_<timestamp>.txt` in the working directory.
 */
module SettingsExport {
  import opened Wrappers
  import opened JavaText
  import opened LinkedMaps
  import opened GephiModels
  import opened Desktop
  import opened Report
  import opened Collectors

  const GeneralName: string := "General settings"
  const FilterName: string := "Filter settings"
  const LayoutName: string := "Layout settings"
  const AppearanceName: string := "Appearance settings"
  const StatisticsName: string := "Statistics settings"
  const PreviewName: string := "Preview settings"

  /** The header of query i in this exporter: `"filter " + i`. */
  const FilterPrefix: string := "filter "

  /** What `getEdgeFunctions(graph)[0]` throws on an empty array. */
  const IndexOutOfBounds: string := "ArrayIndexOutOfBoundsException"

  // ---------------------------------------------------------------- Collected settings

  /** The general puts; four of the keys end in `": "`. */
  function GeneralPuts(g: GraphFacts): Entries
  {
    [ ("isDirectedGraph", BoolToString(g.directed)),
      ("timeZone: ", g.timeZone),
      ("edgeCount: ", NatToString(g.edgeCount)),
      ("nodeCount: ", NatToString(g.nodeCount)),
      ("attributeKeys: ", CollectionToString(g.attributeKeys)) ]
  }

  /** The layout collector puts the same placeholder once per property of the selected layout. */
  function LayoutPuts(l: Option<Layout>): (r: Entries)
    ensures l.None? ==> r == []
    ensures l.Some? ==> |r| == |l.value.properties|
    ensures forall i :: 0 <= i < |r| ==> r[i] == ("property0", "0")
  {
    match l
    case None => []
    case Some(layout) => seq(|layout.properties|, _ => ("property0", "0"))
  }

  /** The appearance collector reads the first edge function, so it throws when there is none. */
  predicate AppearanceThrows(a: AppearanceModel)
  {
    |a.edgeFunctions| == 0
  }

  /** `PreviewProperties.getValue(name)`: the index of the first property with that name. */
  function FirstNamed(ps: seq<PreviewProperty>, name: string): (j: nat)
    ensures j <= |ps|
    ensures j < |ps| ==> ps[j].name == name
    ensures forall i :: 0 <= i < |ps| && ps[i].name == name ==> j <= i
    decreases |ps|
  {
    if |ps| == 0 then 0
    else if ps[0].name == name then 0
    else FirstNamed(ps[1..], name) + 1
  }

  /** Each preview property's name with the `toString` of the value looked up under that name. */
  function PreviewPuts(ps: seq<PreviewProperty>): (r: Entries)
    ensures |r| == |ps|
    ensures forall j :: 0 <= j < |ps| ==>
      FirstNamed(ps, ps[j].name) <= j && r[j] == (ps[j].name, ps[FirstNamed(ps, ps[j].name)].value.Text())
  {
    seq(|ps|, j requires 0 <= j < |ps| => (ps[j].name, ps[FirstNamed(ps, ps[j].name)].value.Text()))
  }

  /** The six sections in `execute`'s order; Appearance is always empty. */
  function ExporterDocument(g: GraphFacts, m: Models): Document
  {
    [ Section(GeneralName, PutEntries([], GeneralPuts(g))),
      Section(FilterName, PutEntries([], FilterPuts(FilterPrefix, m.filter.queries))),
      Section(LayoutName, PutEntries([], LayoutPuts(m.layout.selectedLayout))),
      Section(AppearanceName, []),
      Section(StatisticsName, PutEntries([], StatisticsPuts(m.statistics))),
      Section(PreviewName, PutEntries([], PreviewPuts(m.preview.properties))) ]
  }

  /** The collectors' outcome: the document, unless the appearance collector throws. */
  function ExportedSettings(g: GraphFacts, m: Models): Outcome<Document>
  {
    if AppearanceThrows(m.appearance) then Threw(IndexOutOfBounds) else Done(ExporterDocument(g, m))
  }

  /** The file `execute` writes: a relative path, so in the working directory. */
  function SettingsPath(timeLog: string): Path
  {
    Path("", "settings_" + timeLog + ".txt")
  }

  /** General holds exactly its five entries in put order; Appearance is empty. */
  lemma {:induction false} GeneralSection(g: GraphFacts, m: Models)
    ensures ExporterDocument(g, m)[0].entries == GeneralPuts(g)
    ensures ExporterDocument(g, m)[3].entries == []
    ensures Names(ExporterDocument(g, m)) == [GeneralName, FilterName, LayoutName, AppearanceName, StatisticsName, PreviewName]
  {
    GeneralKeysFresh(g);
  }

  /** The five general keys differ, so putting them in a row keeps them all. */
  lemma {:induction false} GeneralKeysFresh(g: GraphFacts)
    ensures PutEntries([], GeneralPuts(g)) == GeneralPuts(g)
  {
    var puts := GeneralPuts(g);
    assert forall i, j :: 0 <= i < j < |puts| ==> puts[i].0 != puts[j].0 by {
      assert puts[0].0[0] == 'i' && puts[1].0[0] == 't' && puts[2].0[0] == 'e'
          && puts[3].0[0] == 'n' && puts[4].0[0] == 'a';
    }
    PutEntriesFresh(puts);
  }

  /**
   * Every property of the layout is put under the same key, so the layout
   * section holds one placeholder entry when the layout has properties and
   * none otherwise.
   */
  lemma {:induction false} LayoutSection(g: GraphFacts, m: Models)
    ensures var es := ExporterDocument(g, m)[2].entries;
      es == if m.layout.selectedLayout.Some? && |m.layout.selectedLayout.value.properties| > 0
            then [("property0", "0")] else []
  {
    var puts := LayoutPuts(m.layout.selectedLayout);
    if |puts| > 0 {
      PutEntriesRepeated("property0", "0", puts);
    }
  }

  /**
   * With distinct property names (as the preview properties' own map keeps
   * them), each name is written with its own value's `toString`, in order.
   */
  lemma {:induction false} PreviewSection(g: GraphFacts, m: Models)
    requires var ps := m.preview.properties; forall i, j :: 0 <= i < j < |ps| ==> ps[i].name != ps[j].name
    ensures var ps := m.preview.properties;
      ExporterDocument(g, m)[5].entries == seq(|ps|, j requires 0 <= j < |ps| => (ps[j].name, ps[j].value.Text()))
  {
    var ps := m.preview.properties;
    var puts := PreviewPuts(ps);
    forall j | 0 <= j < |ps| ensures puts[j] == (ps[j].name, ps[j].value.Text()) {
      var k := FirstNamed(ps, ps[j].name);
      assert k == j;
    }
    PutEntriesFresh(puts);
  }

  /**
   * Without assuming distinct names: every name is written with the
   * `toString` of the first property of that name, which `getValue` returns.
   */
  lemma {:induction false} PreviewSectionLooksUp(g: GraphFacts, m: Models, j: nat)
    requires j < |m.preview.properties|
    ensures var ps := m.preview.properties;
      Get(ExporterDocument(g, m)[5].entries, ps[j].name) == Some(ps[FirstNamed(ps, ps[j].name)].value.Text())
  {
    var ps := m.preview.properties;
    var puts := PreviewPuts(ps);
    var k := ps[j].name;
    assert KeysOf(puts)[j] == k;
    PutEntriesGet([], puts, k);
    LastPutIsAPut(puts, k);
    var i :| 0 <= i < |puts| && puts[i] == (k, LastPut(puts, k).value);
    assert puts[i] == (ps[i].name, ps[FirstNamed(ps, ps[i].name)].value.Text());
  }

  // ---------------------------------------------------------------- The written report

  /** One section in this exporter's report: its name, then one line per entry. */
  function ExporterSectionLines(s: Section): seq<string>
  {
    [s.name] + EntryLines(s.entries)
  }

  /** What `writeSettings` writes: the sections' lines in order. */
  function ExporterLines(doc: Document): seq<string>
    decreases |doc|
  {
    if |doc| == 0 then [] else ExporterLines(doc[..|doc| - 1]) + ExporterSectionLines(doc[|doc| - 1])
  }

  /** One line per section plus one per entry. */
  lemma {:induction false} ExporterLineCount(doc: Document)
    ensures |ExporterLines(doc)| == |doc| + EntryCount(doc)
    decreases |doc|
  {
    if |doc| > 0 {
      ExporterLineCount(doc[..|doc| - 1]);
    }
  }

  lemma {:induction false} ExporterLinesCons(s: Section, rest: Document)
    ensures ExporterLines([s] + rest) == [s.name] + EntryLines(s.entries) + ExporterLines(rest)
    decreases |rest|
  {
    if |rest| == 0 {
      assert [s] + rest == [s];
      assert [s][..0] == [];
    } else {
      var n := |rest| - 1;
      var whole := [s] + rest;
      assert whole[..|whole| - 1] == [s] + rest[..n];
      assert whole[|whole| - 1] == rest[n];
      ExporterLinesCons(s, rest[..n]);
      calc {
        ExporterLines(whole);
        ExporterLines([s] + rest[..n]) + ExporterSectionLines(rest[n]);
        (ExporterSectionLines(s) + ExporterLines(rest[..n])) + ExporterSectionLines(rest[n]);
        ExporterSectionLines(s) + (ExporterLines(rest[..n]) + ExporterSectionLines(rest[n]));
        ExporterSectionLines(s) + ExporterLines(rest);
      }
    }
  }

  /** The number of leading lines that are entry lines (have a `": "`). */
  function EntryRun(lines: seq<string>): (k: nat)
    ensures k <= |lines|
    ensures forall i :: 0 <= i < k ==> SeparatorAt(lines[i]).Some?
    ensures k < |lines| ==> SeparatorAt(lines[k]).None?
  {
    if |lines| == 0 || SeparatorAt(lines[0]).None? then 0 else EntryRun(lines[1..]) + 1
  }

  /** Reads a report back: a line without `": "` starts a section, the entry lines after it are its entries. */
  function ParseExport(lines: seq<string>): Option<Document>
    decreases |lines|
  {
    if |lines| == 0 then Some([])
    else if SeparatorAt(lines[0]).Some? then None
    else
      var body := lines[1..];
      var k := EntryRun(body);
      match (ParseEntryLines(body[..k]), ParseExport(body[k..]))
      case (Some(es), Some(rest)) => Some([Section(lines[0], es)] + rest)
      case _ => None
  }

  lemma {:induction false} EntryRunOfEntries(es: Entries, tail: seq<string>)
    requires |tail| > 0 ==> SeparatorAt(tail[0]).None?
    ensures EntryRun(EntryLines(es) + tail) == |es|
    decreases |es|
  {
    if |es| == 0 {
      assert EntryLines(es) + tail == tail;
    } else {
      EntryLinesFirst(es, tail);
      EntryLineHasSeparator(es[0]);
      EntryRunOfEntries(es[1..], tail);
    }
  }

  /** Section names and keys that hold no `": "`. */
  predicate Readable(doc: Document)
  {
    forall s, i :: s in doc && 0 <= i < |s.entries| ==> NoSeparator(s.name) && NoSeparator(s.entries[i].0)
  }

  /**
   * Round trip: without separator lines the report still determines the
   * document, as long as no section name or key contains `": "`.
   */
  lemma {:induction false} ParseExportRoundTrip(doc: Document)
    requires Readable(doc) && forall i :: 0 <= i < |doc| ==> NoSeparator(doc[i].name)
    ensures ParseExport(ExporterLines(doc)) == Some(doc)
    decreases |doc|
  {
    if |doc| > 0 {
      var s, rest := doc[0], doc[1..];
      assert [s] + rest == doc;
      assert Readable(rest) by {
        forall t | t in rest ensures t in doc { }
      }
      assert forall i :: 0 <= i < |s.entries| ==> NoSeparator(s.entries[i].0) by {
        assert s in doc;
      }
      assert forall i :: 0 <= i < |rest| ==> NoSeparator(rest[i].name) by {
        forall i | 0 <= i < |rest| ensures NoSeparator(rest[i].name) {
          assert rest[i] == doc[i + 1];
        }
      }
      ParseExportRoundTrip(rest);
      ParseExportStep(s, rest);
    }
  }

  lemma {:induction false} ParseExportStep(s: Section, rest: Document)
    requires NoSeparator(s.name) && forall i :: 0 <= i < |s.entries| ==> NoSeparator(s.entries[i].0)
    requires |rest| > 0 ==> NoSeparator(rest[0].name)
    requires ParseExport(ExporterLines(rest)) == Some(rest)
    ensures ParseExport(ExporterLines([s] + rest)) == Some([s] + rest)
  {
    ExporterLinesCons(s, rest);
    var tail := ExporterLines(rest);
    if |rest| > 0 {
      ExporterLinesCons(rest[0], rest[1..]);
      assert [rest[0]] + rest[1..] == rest;
    }
    EntryRunOfEntries(s.entries, tail);
    ParseEntryLinesRoundTrip(s.entries);
    ParseExportSection(s.name, EntryLines(s.entries), tail);
  }

  lemma {:induction false} ParseExportSection(name: string, body: seq<string>, tail: seq<string>)
    requires NoSeparator(name)
    requires EntryRun(body + tail) == |body|
    requires ParseEntryLines(body).Some? && ParseExport(tail).Some?
    ensures ParseExport([name] + body + tail)
      == Some([Section(name, ParseEntryLines(body).value)] + ParseExport(tail).value)
  {
    var lines := [name] + body + tail;
    var rest := body + tail;
    assert lines == [name] + rest;
    assert lines[1..] == rest;
    assert rest[..|body|] == body;
    assert rest[|body|..] == tail;
  }

  /**
   * A key that ends in `": "` doubles the separator: the line for
   * `("edgeCount: ", v)` reads back as key "edgeCount" with value `": " + v`.
   */
  lemma {:induction false} DoubledSeparator(k: string, v: string)
    requires NoSeparator(k)
    ensures ParseEntry(EntryLine((k + ": ", v))) == Some((k, ": " + v))
  {
    assert EntryLine((k + ": ", v)) == EntryLine((k, ": " + v));
    ParseEntryLine((k, ": " + v));
  }

  /**
   * The general entries as a reader of the report gets them back: the four
   * keys written with a trailing `": "` lose it, and their values gain a
   * leading `": "`.
   */
  function ReadBackGeneral(g: GraphFacts): Entries
  {
    [ ("isDirectedGraph", BoolToString(g.directed)),
      ("timeZone", ": " + g.timeZone),
      ("edgeCount", ": " + NatToString(g.edgeCount)),
      ("nodeCount", ": " + NatToString(g.nodeCount)),
      ("attributeKeys", ": " + CollectionToString(g.attributeKeys)) ]
  }

  /**
   * No report this exporter writes reads back to the document it was written
   * from: even when the other sections are readable, General comes back as
   * `ReadBackGeneral`.
   */
  lemma {:induction false} ExporterReportReadsBack(g: GraphFacts, m: Models)
    requires Readable(ExporterDocument(g, m)[1..])
    ensures ParseExport(ExporterLines(ExporterDocument(g, m)))
      == Some([Section(GeneralName, ReadBackGeneral(g))] + ExporterDocument(g, m)[1..])
    ensures ParseExport(ExporterLines(ExporterDocument(g, m))) != Some(ExporterDocument(g, m))
  {
    var doc := ExporterDocument(g, m);
    GeneralSection(g, m);
    SectionNamesReadable();
    forall i | 0 < i < |doc| ensures NoSeparator(doc[i].name) {
      assert doc[i].name == Names(doc)[i];
    }
    ReadBackAfterGeneral(doc, g);
  }

  /** The exporter's file as left on disk, when no write fails, reads back as the report does. */
  lemma {:induction false} WrittenExportReadBack(g: GraphFacts, m: Models, io: WriteOracle)
    requires Readable(ExporterDocument(g, m)[1..])
    ensures var lines := ExporterLines(ExporterDocument(g, m));
      !WriteFails(lines, io) ==>
        ParseExport(WrittenLines(lines, io)) == Some([Section(GeneralName, ReadBackGeneral(g))] + ExporterDocument(g, m)[1..])
  {
    ExporterReportReadsBack(g, m);
  }

  /** The read-back of any report whose first section is General. */
  lemma {:induction false} ReadBackAfterGeneral(doc: Document, g: GraphFacts)
    requires |doc| > 0 && doc[0] == Section(GeneralName, GeneralPuts(g))
    requires Readable(doc[1..]) && forall i :: 0 < i < |doc| ==> NoSeparator(doc[i].name)
    ensures ParseExport(ExporterLines(doc)) == Some([Section(GeneralName, ReadBackGeneral(g))] + doc[1..])
    ensures ParseExport(ExporterLines(doc)) != Some(doc)
  {
    var rest := doc[1..];
    var gen := Section(GeneralName, ReadBackGeneral(g));
    var doc' := [gen] + rest;
    GeneralLinesAgree(g);
    assert [doc[0]] + rest == doc;
    ExporterLinesCons(doc[0], rest);
    ExporterLinesCons(gen, rest);
    assert ExporterLines(doc) == ExporterLines(doc');
    GeneralReadable(g);
    assert Readable(doc') by {
      forall t, i | t in doc' && 0 <= i < |t.entries|
        ensures NoSeparator(t.name) && NoSeparator(t.entries[i].0)
      {
        if t != gen {
          assert t in rest;
        }
      }
    }
    forall i | 0 <= i < |doc'| ensures NoSeparator(doc'[i].name) {
      if i > 0 {
        assert doc'[i] == doc[i];
      }
    }
    ParseExportRoundTrip(doc');
    assert doc'[0].entries[1].0 != doc[0].entries[1].0;
  }

  /** The general entries as written and as read back give the same lines. */
  lemma {:induction false} GeneralLinesAgree(g: GraphFacts)
    ensures EntryLines(GeneralPuts(g)) == EntryLines(ReadBackGeneral(g))
  {
    var a, b := GeneralPuts(g), ReadBackGeneral(g);
    forall i | 0 <= i < 5 ensures EntryLine(a[i]) == EntryLine(b[i]) {
      if i > 0 {
        assert a[i].0 == b[i].0 + ": " && b[i].1 == ": " + a[i].1;
      }
    }
  }

  lemma {:induction false} GeneralReadable(g: GraphFacts)
    ensures forall i :: 0 <= i < 5 ==> NoSeparator(ReadBackGeneral(g)[i].0) && NoSeparator(GeneralName)
  {
  }

  lemma {:induction false} SectionNamesReadable()
    ensures NoSeparator(GeneralName) && NoSeparator(FilterName) && NoSeparator(LayoutName)
    ensures NoSeparator(AppearanceName) && NoSeparator(StatisticsName) && NoSeparator(PreviewName)
  {
  }

  // ---------------------------------------------------------------- The exporter object

  class SettingsExporter {
    /** Export only the visible graph. */
    var exportVisible: bool
    /** Set by `cancel`; `execute` never reads it. */
    var cancelled: bool

    constructor ()
      ensures !exportVisible && !cancelled
    {
      exportVisible := false;
      cancelled := false;
    }

    method SetExportVisible(visible: bool)
      modifies this
      ensures exportVisible == visible && cancelled == old(cancelled)
    {
      exportVisible := visible;
    }

    /** The flag the last `SetExportVisible` set (false before any). */
    function IsExportVisible(): (visible: bool)
      reads this
      ensures visible <==> exportVisible
    {
      exportVisible
    }

    /** `cancel` always succeeds, and only raises the flag. */
    method Cancel() returns (r: bool)
      modifies this
      ensures r && cancelled && exportVisible == old(exportVisible)
    {
      cancelled := true;
      r := cancelled;
    }

    /**
     * One export: the chosen graph's read lock is taken and never released;
     * the report is written and the success dialog shown, unless the
     * appearance collector throws first. `title` and `message` are the
     * bundle's "ExportCompleteTitle" and "ExportCompleteMessage".
     */
    method Execute(host: Host, workspace: GraphModel, models: Models, timeLog: string, io: WriteOracle,
                   title: string, message: string) returns (r: Outcome<bool>)
      modifies host, workspace.graph, workspace.visibleGraph
      ensures var graph := if exportVisible then workspace.visibleGraph else workspace.graph;
        && graph.readLocks == old(graph.readLocks) + 1
        && r == (if AppearanceThrows(models.appearance) then Threw(IndexOutOfBounds) else Done(true))
        && host.files == (if r.Threw? || io.openFails then old(host.files)
                          else old(host.files)[SettingsPath(timeLog) :=
                            TextLines(WrittenLines(ExporterLines(ExporterDocument(graph.facts, models)), io))])
        && host.notices == old(host.notices) + (if r.Threw? then [] else [Info(title, message)])
        && host.prompts == old(host.prompts)
      ensures workspace.graph != workspace.visibleGraph ==>
        var other := if exportVisible then workspace.graph else workspace.visibleGraph;
        other.readLocks == old(other.readLocks)
    {
      var graph := if exportVisible then workspace.visibleGraph else workspace.graph;
      graph.ReadLock();

      var settings := CollectSettings(graph.facts, models);
      if settings.Threw? {
        return Threw(settings.exception);
      }
      WriteSettings(host, settings.value, SettingsPath(timeLog), io);
      host.notices := host.notices + [Info(title, message)];
      r := Done(true);
    }

    /**
     * The collecting part of `execute`: the section maps are put into the
     * list first and filled afterwards, so the list sees what the collectors
     * put; the appearance collector's exception ends it.
     */
    method CollectSettings(g: GraphFacts, models: Models) returns (r: Outcome<Document>)
      ensures r == ExportedSettings(g, models)
    {
      var settings := new LinkedMap();
      var filterSettings := new LinkedMap();
      var layoutSettings := new LinkedMap();
      var appearanceSettings := new LinkedMap();
      var statisticsSettings := new LinkedMap();
      var previewSettings := new LinkedMap();
      var settingsList := [(GeneralName, settings), (FilterName, filterSettings), (LayoutName, layoutSettings),
                           (AppearanceName, appearanceSettings), (StatisticsName, statisticsSettings),
                           (PreviewName, previewSettings)];

      settings.Put("isDirectedGraph", BoolToString(g.directed));
      settings.Put("timeZone: ", g.timeZone);
      settings.Put("edgeCount: ", NatToString(g.edgeCount));
      settings.Put("nodeCount: ", NatToString(g.nodeCount));
      settings.Put("attributeKeys: ", CollectionToString(g.attributeKeys));
      GeneralEntries(g);

      AddFiltersToSettings(filterSettings, models.filter);
      AddLayoutToSettings(layoutSettings, models.layout);
      var ok := AddAppearanceToSettings(appearanceSettings, models.appearance);
      if !ok {
        return Threw(IndexOutOfBounds);
      }
      AddStatisticsToSettings(statisticsSettings, models.statistics);
      AddPreviewToSettings(previewSettings, models.preview);
      SnapshotOfSix(settingsList);
      r := Done(Snapshot(settingsList));
    }

    method AddFiltersToSettings(settings: LinkedMap, filterModel: FilterModel)
      modifies settings
      ensures settings.entries == PutEntries(old(settings.entries), FilterPuts(FilterPrefix, filterModel.queries))
    {
      PutFilters(settings, FilterPrefix, filterModel.queries);
    }

    method AddLayoutToSettings(settings: LinkedMap, layoutModel: LayoutModel)
      modifies settings
      ensures settings.entries == PutEntries(old(settings.entries), LayoutPuts(layoutModel.selectedLayout))
    {
      if layoutModel.selectedLayout.None? {
        return;
      }
      var properties := layoutModel.selectedLayout.value.properties;
      ghost var puts := LayoutPuts(layoutModel.selectedLayout);
      for i := 0 to |properties|
        invariant settings.entries == PutEntries(old(settings.entries), puts[..i])
      {
        PutEntriesSnoc(old(settings.entries), puts[..i], ("property0", "0"));
        assert puts[..i + 1] == puts[..i] + [("property0", "0")];
        settings.Put("property0", "0");
      }
      assert puts[..|properties|] == puts;
    }

    /** Only reads the first edge function (and prints it); `ok` is false where that throws. */
    method AddAppearanceToSettings(settings: LinkedMap, appearanceModel: AppearanceModel) returns (ok: bool)
      ensures ok <==> !AppearanceThrows(appearanceModel)
    {
      ok := |appearanceModel.edgeFunctions| > 0;
    }

    method AddStatisticsToSettings(settings: LinkedMap, statisticsModel: StatisticsModel)
      modifies settings
      ensures settings.entries == PutEntries(old(settings.entries), StatisticsPuts(statisticsModel))
    {
      PutEntriesSnoc(old(settings.entries), [], ("statisticsModel", statisticsModel.text));
      settings.Put("statisticsModel", statisticsModel.text);
    }

    method AddPreviewToSettings(settings: LinkedMap, previewModel: PreviewModel)
      modifies settings
      ensures settings.entries == PutEntries(old(settings.entries), PreviewPuts(previewModel.properties))
    {
      var list := previewModel.properties;
      for j := 0 to |list|
        invariant settings.entries == PutEntries(old(settings.entries), PreviewPuts(list)[..j])
      {
        var name := list[j].name;
        var value := list[FirstNamed(list, name)].value.Text();
        PutEntriesSnoc(old(settings.entries), PreviewPuts(list)[..j], (name, value));
        assert PreviewPuts(list)[..j + 1] == PreviewPuts(list)[..j] + [(name, value)];
        settings.Put(name, value);
      }
      assert PreviewPuts(list)[..|list|] == PreviewPuts(list);
    }

    /**
     * Writes the report to `file`. Every failure is swallowed: a failed
     * open leaves no file, a failed write ends the writing, a failed close
     * changes nothing, and no dialog is shown.
     */
    method WriteSettings(host: Host, doc: Document, file: Path, io: WriteOracle)
      modifies host
      ensures host.files == if io.openFails then old(host.files)
                            else old(host.files)[file := TextLines(WrittenLines(ExporterLines(doc), io))]
      ensures host.notices == old(host.notices) && host.prompts == old(host.prompts)
    {
      if io.openFails {
        return;
      }
      var lines := FormatSettings(doc);
      var _ := WriteLines(host, file, lines, io);
    }

    /** The report's lines: per section its name, then one line per entry. */
    static method FormatSettings(doc: Document) returns (lines: seq<string>)
      ensures lines == ExporterLines(doc)
    {
      lines := [];
      for i := 0 to |doc|
        invariant lines == ExporterLines(doc[..i])
      {
        var sectionLines := FormatSection(doc[i]);
        lines := lines + sectionLines;
        assert doc[..i + 1][..i] == doc[..i];
      }
      assert doc[..|doc|] == doc;
    }

    /** One section's lines: its name, then one line per entry. */
    static method FormatSection(section: Section) returns (lines: seq<string>)
      ensures lines == ExporterSectionLines(section)
    {
      lines := [section.name];
      for j := 0 to |section.entries|
        invariant lines == [section.name] + EntryLines(section.entries[..j])
      {
        var entry := section.entries[j];
        assert section.entries[..j + 1][..j] == section.entries[..j];
        lines := lines + [entry.0 + ": " + entry.1];
      }
      assert section.entries[..|section.entries|] == section.entries;
    }
  }

  lemma {:induction false} SnapshotOfSix(list: seq<(string, LinkedMap)>)
    requires |list| == 6
    ensures Snapshot(list) == [ Section(list[0].0, list[0].1.entries), Section(list[1].0, list[1].1.entries),
                                Section(list[2].0, list[2].1.entries), Section(list[3].0, list[3].1.entries),
                                Section(list[4].0, list[4].1.entries), Section(list[5].0, list[5].1.entries) ]
  {
  }

  /** The five general puts in a row give the general section. */
  lemma {:induction false} GeneralEntries(g: GraphFacts)
    ensures PutEntries([], GeneralPuts(g))
      == PutEntry(PutEntry(PutEntry(PutEntry(PutEntry([], "isDirectedGraph", BoolToString(g.directed)),
                                             "timeZone: ", g.timeZone),
                                    "edgeCount: ", NatToString(g.edgeCount)),
                           "nodeCount: ", NatToString(g.nodeCount)),
                  "attributeKeys: ", CollectionToString(g.attributeKeys))
  {
    var puts := GeneralPuts(g);
    PutEntriesSnoc([], [], puts[0]);
    PutEntriesSnoc([], puts[..1], puts[1]);
    PutEntriesSnoc([], puts[..2], puts[2]);
    PutEntriesSnoc([], puts[..3], puts[3]);
    PutEntriesSnoc([], puts[..4], puts[4]);
    assert puts[..1] == [] + [puts[0]];
    assert puts[..2] == puts[..1] + [puts[1]];
    assert puts[..3] == puts[..2] + [puts[2]];
    assert puts[..4] == puts[..3] + [puts[3]];
    assert puts == puts[..4] + [puts[4]];
  }
}
