/**
 * The "Fieldnotes > Export" menu action: it asks for a folder, re-asking
 * while the chosen folder is not writable, then takes the graph's read
 * lock, collects the settings into five linked maps, writes them to
 * `settings_<timestamp>.txt`, exports the graph to `graph_<timestamp>.gexf`,
 * tells the user it is done and releases the lock.
 */
module ExportFieldnotes {
  import opened Wrappers
  import opened JavaText
  import opened LinkedMaps
  import opened GephiModels
  import opened Desktop
  import opened Report
  import opened Collectors
  import opened FieldnotesSpec

  lemma {:induction false} SnapshotOfFive(list: seq<(string, LinkedMap)>)
    requires |list| == 5
    ensures Snapshot(list) == [ Section(list[0].0, list[0].1.entries), Section(list[1].0, list[1].1.entries),
                                Section(list[2].0, list[2].1.entries), Section(list[3].0, list[3].1.entries),
                                Section(list[4].0, list[4].1.entries) ]
  {
  }

  class ExportFieldnotesAction {
    /** The folder last approved in a folder chooser. */
    var selectedFolder: Option<string>
    /** The graph whose read lock an export holds. */
    var graph: Graph?

    constructor ()
      ensures selectedFolder == None && graph == null
    {
      selectedFolder := None;
      graph := null;
    }

    /**
     * The menu entry: the folder chooser opens on the working directory.
     * The dialog is not modal, so its answers, the writable folders, the
     * clock and the disk are inputs.
     */
    method ActionPerformed(host: Host, answers: seq<Answer>, writable: set<string>, current: GraphModel,
                           models: Models, ts: string, io: ExportIo)
      modifies this, host, current.graph
      ensures var a := PromptEffects(Plan(CollectedSettings(current.graph.facts, models), io), ".", answers, writable, ts);
        && host.prompts == old(host.prompts) + a.prompts
        && host.notices == old(host.notices) + a.notices
        && host.files == ApplyWrites(old(host.files), a.writes)
        && current.graph.readLocks == old(current.graph.readLocks) + (if a.lockHeld then 1 else 0)
        && selectedFolder == (if a.selected.Some? then a.selected else old(selectedFolder))
    {
      PromptUserForFolder(host, ".", answers, writable, current, models, ts, io);
    }

    /**
     * One folder chooser opened on `startPath`. It is not modal: when no
     * answer comes it stays open and nothing else happens.
     */
    method PromptUserForFolder(host: Host, startPath: string, answers: seq<Answer>, writable: set<string>,
                               current: GraphModel, models: Models, ts: string, io: ExportIo)
      modifies this, host, current.graph
      ensures var a := PromptEffects(Plan(CollectedSettings(current.graph.facts, models), io), startPath, answers, writable, ts);
        && host.prompts == old(host.prompts) + a.prompts
        && host.notices == old(host.notices) + a.notices
        && host.files == ApplyWrites(old(host.files), a.writes)
        && current.graph.readLocks == old(current.graph.readLocks) + (if a.lockHeld then 1 else 0)
        && selectedFolder == (if a.selected.Some? then a.selected else old(selectedFolder))
      decreases |answers|, 1
    {
      host.prompts := host.prompts + [startPath];
      if |answers| > 0 {
        DialogClosed(host, startPath, answers, writable, current, models, ts, io);
      }
    }

    /**
     * The chooser's listener, given how the chooser opened on `startPath`
     * was closed: OK on a writable folder exports there; OK on any other
     * folder says so and opens a new chooser on that folder; any other way
     * of closing it does nothing.
     */
    method DialogClosed(host: Host, startPath: string, answers: seq<Answer>, writable: set<string>,
                        current: GraphModel, models: Models, ts: string, io: ExportIo)
      requires |answers| > 0
      modifies this, host, current.graph
      ensures var a := PromptEffects(Plan(CollectedSettings(current.graph.facts, models), io), startPath, answers, writable, ts);
        && host.prompts == old(host.prompts) + a.prompts[1..]
        && host.notices == old(host.notices) + a.notices
        && host.files == ApplyWrites(old(host.files), a.writes)
        && current.graph.readLocks == old(current.graph.readLocks) + (if a.lockHeld then 1 else 0)
        && selectedFolder == (if a.selected.Some? then a.selected else old(selectedFolder))
      decreases |answers|, 0
    {
      match answers[0]
      case Dismiss =>
      case Approve(folder) =>
        selectedFolder := Some(folder);
        if folder in writable {
          var _ := HandleFolderSelected(host, current, models, ts, io);
        } else {
          host.notices := host.notices + [NoPermission(folder)];
          PromptUserForFolder(host, folder, answers[1..], writable, current, models, ts, io);
          ghost var rest := PromptEffects(Plan(CollectedSettings(current.graph.facts, models), io), folder, answers[1..], writable, ts);
          assert ([startPath] + rest.prompts)[1..] == rest.prompts;
        }
    }

    /**
     * One export to the selected folder: it ends with the success dialog
     * and the lock released whatever failed on disk, unless collecting the
     * settings throws, which leaves the lock held and nothing written.
     */
    method HandleFolderSelected(host: Host, current: GraphModel, models: Models, ts: string, io: ExportIo)
        returns (r: Outcome<()>)
      requires selectedFolder.Some?
      modifies this, host, current.graph
      ensures var e := ExportRun(CollectedSettings(current.graph.facts, models), old(selectedFolder).value, ts, io);
        && (r.Threw? <==> e.lockHeld)
        && host.files == ApplyWrites(old(host.files), e.writes)
        && host.notices == old(host.notices) + e.notices
        && host.prompts == old(host.prompts)
        && current.graph.readLocks == old(current.graph.readLocks) + (if e.lockHeld then 1 else 0)
      ensures selectedFolder == old(selectedFolder) && graph == current.graph
    {
      Init(current);
      var folder := selectedFolder.value;
      var settings := CollectSettings(models);
      if settings.Threw? {
        return Threw(settings.exception);
      }
      ExportDocument(host, settings.value, folder, ts, io);
      Dispose();
      return Done(());
    }

    /**
     * The part of an export after collecting: the settings file, the graph
     * file, then the success dialog; each failure on disk shows an error
     * dialog and the export goes on.
     */
    method ExportDocument(host: Host, doc: Document, folder: string, ts: string, io: ExportIo)
      modifies host
      ensures var e := ExportRun(Done(doc), folder, ts, io);
        && host.files == ApplyWrites(old(host.files), e.writes)
        && host.notices == old(host.notices) + e.notices
        && host.prompts == old(host.prompts)
    {
      var settingsFile := SettingsFile(folder, ts);
      var graphFile := GraphFile(folder, ts);
      ghost var files0 := host.files;
      WriteSettings(host, doc, settingsFile, io.settings);
      ExportGraph(host, graphFile, io.graphExportFails);
      host.notices := host.notices + [ExportComplete];
      ghost var lines := SettingsLines(doc);
      ghost var w1: seq<(Path, FileContent)> :=
        if io.settings.openFails then [] else [(settingsFile, TextLines(WrittenLines(lines, io.settings)))];
      ghost var w2: seq<(Path, FileContent)> := if io.graphExportFails then [] else [(graphFile, GraphData)];
      ApplyWritesConcat(files0, w1, w2);
    }

    /** Takes the current graph and its read lock. */
    method Init(current: GraphModel)
      modifies this, current.graph
      ensures graph == current.graph && selectedFolder == old(selectedFolder)
      ensures current.graph.readLocks == old(current.graph.readLocks) + 1
    {
      graph := current.graph;
      graph.ReadLock();
    }

    /** Releases the read lock taken by `Init`. */
    method Dispose()
      requires graph != null && graph.readLocks > 0
      modifies graph
      ensures graph.readLocks == old(graph.readLocks) - 1
    {
      graph.ReadUnlock();
    }

    /** Exports the whole graph; a failure is reported and does not stop the export. */
    method ExportGraph(host: Host, file: Path, fails: bool)
      modifies host
      ensures host.files == if fails then old(host.files) else old(host.files)[file := GraphData]
      ensures host.notices == old(host.notices) + (if fails then [SaveError] else [])
      ensures host.prompts == old(host.prompts)
    {
      if fails {
        host.notices := host.notices + [SaveError];
      } else {
        host.files := host.files[file := GraphData];
      }
    }

    /**
     * Collects the five sections: the section maps are put into the list
     * first and filled afterwards, so the list sees what the collectors put.
     */
    method CollectSettings(models: Models) returns (r: Outcome<Document>)
      requires graph != null
      ensures r == CollectedSettings(graph.facts, models)
    {
      var settings := new LinkedMap();
      var filterSettings := new LinkedMap();
      var layoutSettings := new LinkedMap();
      var appearanceSettings := new LinkedMap();
      var statisticsSettings := new LinkedMap();
      var previewSettings := new LinkedMap();
      var settingsList := [(GeneralName, settings), (FilterName, filterSettings), (LayoutName, layoutSettings),
                           (StatisticsName, statisticsSettings), (PreviewName, previewSettings)];

      var g := graph.facts;
      settings.Put("isDirectedGraph", BoolToString(g.directed));
      settings.Put("edgeCount", NatToString(g.edgeCount));
      settings.Put("nodeCount", NatToString(g.nodeCount));
      GeneralEntries(g);

      AddFiltersToSettings(filterSettings, models.filter);
      var ok := AddLayoutToSettings(layoutSettings, models.layout);
      if !ok {
        return Threw(IndexOutOfBounds);
      }
      AddStatisticsToSettings(statisticsSettings, models.statistics);
      AddPreviewToSettings(previewSettings, models.preview);
      assert settings.entries == PutEntries([], GeneralPuts(g));
      assert filterSettings.entries == PutEntries([], FilterPuts(FilterPrefix, models.filter.queries));
      assert layoutSettings.entries == PutEntries([], LayoutPuts(models.layout.selectedLayout));
      assert statisticsSettings.entries == PutEntries([], StatisticsPuts(models.statistics));
      assert previewSettings.entries == PutEntries([], PreviewPuts(models.preview.properties));
      SnapshotOfFive(settingsList);
      r := Done(Snapshot(settingsList));
    }

    /** Puts each query's header and name, then its properties, query by query. */
    method AddFiltersToSettings(settings: LinkedMap, filterModel: FilterModel)
      modifies settings
      ensures settings.entries == PutEntries(old(settings.entries), FilterPuts(FilterPrefix, filterModel.queries))
    {
      PutFilters(settings, FilterPrefix, filterModel.queries);
    }

    /**
     * Puts the builder's name and then each property's key with "Not
     * extracted"; `ok` is false where the collector throws, on the first
     * property whose canonical name has no second field.
     */
    method AddLayoutToSettings(settings: LinkedMap, layoutModel: LayoutModel) returns (ok: bool)
      modifies settings
      ensures ok <==> !LayoutThrows(layoutModel.selectedLayout)
      ensures ok ==> settings.entries == PutEntries(old(settings.entries), LayoutPuts(layoutModel.selectedLayout))
    {
      if layoutModel.selectedLayout.None? {
        return true;
      }
      var layout := layoutModel.selectedLayout.value;
      ghost var header := (LayoutHeader, layout.builderName);
      PutEntriesSnoc(old(settings.entries), [], header);
      settings.Put(LayoutHeader, layout.builderName);
      ghost var start := settings.entries;
      var ps := layout.properties;
      for i := 0 to |ps|
        invariant LayoutKeysDefined(ps[..i])
        invariant settings.entries == PutEntries(start, NotExtractedPuts(LayoutKeys(ps[..i])))
      {
        var key := LayoutKey(ps[i]);
        if key.None? {
          FirstBadPropertyAt(ps, i);
          return false;
        }
        ghost var ks := LayoutKeys(ps[..i]);
        LayoutKeysSnoc(ps, i);
        NotExtractedSnoc(ks, key.value);
        PutEntriesSnoc(start, NotExtractedPuts(ks), (key.value, NotExtracted));
        settings.Put(key.value, NotExtracted);
      }
      assert ps[..|ps|] == ps;
      FirstBadPropertyAt(ps, |ps|);
      PutEntriesConcat(old(settings.entries), [header], NotExtractedPuts(LayoutKeys(ps)));
      ok := true;
    }

    /** Puts the statistics model's text under "statisticsModel". */
    method AddStatisticsToSettings(settings: LinkedMap, statisticsModel: StatisticsModel)
      modifies settings
      ensures settings.entries == PutEntries(old(settings.entries), StatisticsPuts(statisticsModel))
    {
      PutEntriesSnoc(old(settings.entries), [], ("statisticsModel", statisticsModel.text));
      settings.Put("statisticsModel", statisticsModel.text);
    }

    /** Puts each preview property under its corrected name with its value's text. */
    method AddPreviewToSettings(settings: LinkedMap, previewModel: PreviewModel)
      modifies settings
      ensures settings.entries == PutEntries(old(settings.entries), PreviewPuts(previewModel.properties))
    {
      var list := previewModel.properties;
      for j := 0 to |list|
        invariant settings.entries == PutEntries(old(settings.entries), PreviewPuts(list[..j]))
      {
        var property := list[j];
        var name := property.name;
        if name == MisspelledName {
          name := CorrectedName;
        }
        var value := property.value.Text();
        match property.value {
          case DependantColorValue(_, color) => value := color.text;
          case DependantOriginalColorValue(_, color) => value := color.text;
          case EdgeColorValue(_, color) => value := color.text;
          case Plain(_) =>
        }
        assert list[..j + 1][..j] == list[..j];
        assert PreviewPuts(list[..j + 1]) == PreviewPuts(list[..j]) + [(name, value)];
        PutEntriesSnoc(old(settings.entries), PreviewPuts(list[..j]), (name, value));
        settings.Put(name, value);
      }
      assert list[..|list|] == list;
    }

    /** All columns of a table in a new array. */
    static method GetColumns(table: Table) returns (columns: array<Column>)
      ensures fresh(columns) && columns[..] == table.columns
    {
      columns := new Column[|table.columns|];
      for i := 0 to columns.Length
        invariant forall k :: 0 <= k < i ==> columns[k] == table.columns[k]
      {
        columns[i] := table.columns[i];
      }
    }

    /**
     * Writes the report to `file`; a failure to open, to write or to close
     * is reported in a dialog and ends the writing but not the export.
     */
    method WriteSettings(host: Host, doc: Document, file: Path, io: WriteOracle)
      modifies host
      ensures host.files == if io.openFails then old(host.files)
                            else old(host.files)[file := TextLines(WrittenLines(SettingsLines(doc), io))]
      ensures host.notices == old(host.notices) + WriteNotices(SettingsLines(doc), io)
      ensures host.prompts == old(host.prompts)
    {
      if io.openFails {
        // the catch reports the failed open; the finally then calls close on a null writer
        host.notices := host.notices + [SaveError];
        host.notices := host.notices + [SaveError];
        return;
      }
      var lines := FormatSettings(doc);
      var failed := WriteLines(host, file, lines, io);
      if failed {
        host.notices := host.notices + [SaveError];
      }
      if io.closeFails {
        host.notices := host.notices + [SaveError];
      }
    }

    /** The report's lines: per section a separator and its name, then one line per entry. */
    static method FormatSettings(doc: Document) returns (lines: seq<string>)
      ensures lines == SettingsLines(doc)
    {
      lines := [];
      for i := 0 to |doc|
        invariant lines == SettingsLines(doc[..i])
      {
        var sectionLines := FormatSection(doc[i]);
        lines := lines + sectionLines;
        assert doc[..i + 1][..i] == doc[..i];
      }
      assert doc[..|doc|] == doc;
    }

    /** One section's lines: the separator, its name, then one line per entry. */
    static method FormatSection(section: Section) returns (lines: seq<string>)
      ensures lines == SectionLines(section)
    {
      lines := [Dash, section.name];
      for j := 0 to |section.entries|
        invariant lines == [Dash, section.name] + EntryLines(section.entries[..j])
      {
        var entry := section.entries[j];
        assert section.entries[..j + 1][..j] == section.entries[..j];
        lines := lines + [entry.0 + ": " + entry.1];
      }
      assert section.entries[..|section.entries|] == section.entries;
    }
  }

  /** The three general puts in a row give the general section. */
  lemma {:induction false} GeneralEntries(g: GraphFacts)
    ensures PutEntries([], GeneralPuts(g))
      == PutEntry(PutEntry(PutEntry([], "isDirectedGraph", BoolToString(g.directed)),
                           "edgeCount", NatToString(g.edgeCount)),
                  "nodeCount", NatToString(g.nodeCount))
  {
    var puts := GeneralPuts(g);
    PutEntriesSnoc([], [], puts[0]);
    PutEntriesSnoc([], [puts[0]], puts[1]);
    PutEntriesSnoc([], [puts[0], puts[1]], puts[2]);
    assert [puts[0]] == [] + [puts[0]];
    assert [puts[0], puts[1]] == [puts[0]] + [puts[1]];
    assert puts == [puts[0], puts[1]] + [puts[2]];
  }

  lemma {:induction false} LayoutKeysSnoc(ps: seq<LayoutProperty>, i: nat)
    requires i < |ps| && LayoutKeysDefined(ps[..i]) && LayoutKey(ps[i]).Some?
    ensures LayoutKeysDefined(ps[..i + 1])
    ensures LayoutKeys(ps[..i + 1]) == LayoutKeys(ps[..i]) + [LayoutKey(ps[i]).value]
  {
    KeysDefinedSnoc(ps, i);
    assert ps[..i + 1][..i] == ps[..i];
  }

  lemma {:induction false} KeysDefinedSnoc(ps: seq<LayoutProperty>, i: nat)
    requires i < |ps| && LayoutKeysDefined(ps[..i]) && LayoutKey(ps[i]).Some?
    ensures LayoutKeysDefined(ps[..i + 1])
  {
    var qs := ps[..i + 1];
    forall j | 0 <= j < |qs| ensures LayoutKey(qs[j]).Some? {
      if j < i {
        assert qs[j] == ps[..i][j];
      }
    }
  }

  lemma {:induction false} NotExtractedSnoc(ks: seq<string>, k: string)
    ensures NotExtractedPuts(ks + [k]) == NotExtractedPuts(ks) + [(k, NotExtracted)]
  {
    assert (ks + [k])[..|ks|] == ks;
  }

  /** The loop stops at `i` exactly when `i` is the first property without a key. */
  lemma {:induction false} FirstBadPropertyAt(ps: seq<LayoutProperty>, i: nat)
    requires i <= |ps| && LayoutKeysDefined(ps[..i])
    requires i < |ps| ==> LayoutKey(ps[i]).None?
    ensures FirstBadProperty(ps) == i
    decreases i
  {
    if i > 0 {
      assert ps[..i][0] == ps[0];
      var q := ps[1..][..i - 1];
      forall j | 0 <= j < |q|
        ensures LayoutKey(q[j]).Some?
      {
        assert q[j] == ps[..i][j + 1];
      }
      assert ps[1..][i - 1..] == ps[i..];
      FirstBadPropertyAt(ps[1..], i - 1);
    }
  }

  /** Writing two runs of files one after the other. */
  lemma {:induction false} ApplyWritesConcat(files: map<Path, FileContent>, a: seq<(Path, FileContent)>,
                                             b: seq<(Path, FileContent)>)
    ensures ApplyWrites(files, a + b) == ApplyWrites(ApplyWrites(files, a), b)
    decreases |a|
  {
    if |a| == 0 {
      assert a + b == b;
    } else {
      assert (a + b)[0] == a[0] && (a + b)[1..] == a[1..] + b;
      ApplyWritesConcat(files[a[0].0 := a[0].1], a[1..], b);
    }
  }
}
