# Fieldnotes settings export, modelled in Dafny

The Fieldnotes plugin for Gephi records how a graph was produced. It does this in two ways, and it also offers a helper for geographic columns:

* **The "Fieldnotes > Export" menu action (`ExportFieldnotesAction`).**
  * It opens a folder chooser on the working directory.
  * When the user approves a folder that cannot be written, it says so and opens a new chooser on that folder.
  * In a writable folder it takes the graph's read lock and collects five sections of settings (General, Filter, Layout, Statistics, Preview) into insertion-ordered maps.
  * It writes them to `settings_<timestamp>.txt`, with a line of 120 dashes before each section's name and one `key: value` line per entry.
  * It exports the graph to `graph_<timestamp>.gexf` and shows "Fieldnotes Export Complete".
  * It then releases the lock.
  * Every disk failure shows an "Error Saving" dialog and the export carries on.
  * A layout property whose canonical name has no second `.`-field throws out of the collector. The export then stops with the lock still held.
* **The graph exporter `SettingsExporter`.**
  * It takes the read lock of the whole or the visible graph and never releases it.
  * It collects six sections (Appearance stays empty) and writes them without separator lines to `settings_<timestamp>.txt` in the working directory.
  * All write failures are swallowed.
  * Its appearance collector reads the first edge function, so an empty edge-function array makes `execute` throw.
* **`GeoAttributeFinder`.** It builds a list of case-insensitive patterns for each of latitude and longitude from bundle names. For each axis it picks the first numeric column (Float, Double or BigDecimal) whose title one of the patterns is found in. Columns come first in the search order, patterns second.

How the model is organised:

* `Wrappers`, `GephiModels`, `Desktop`: Gephi's models as data.
  * The graph is a class whose read lock is a counter.
  * The disk, the dialogs and the folder choosers form a `Host` object, and an oracle decides which file operation fails.
* `LinkedMaps`: a `LinkedHashMap<String, String>`, as a sequence of entries and as a class the collectors fill in place.
* `JavaText`: `String.valueOf` and `String.split`.
* `Report`: the settings document and its `key: value` lines.
* `Collectors`: the filter and statistics collectors, which both exporters share.
* `FieldnotesSpec`: the action's behaviour as functions:
  * the collectors' puts and the document;
  * the report lines and a parser that reads them back;
  * the folder-prompt run;
  * the effects of one export.
* `ExportFieldnotes`: the action as a class whose methods are proved against those functions.
* `SettingsExport`: the exporter, in one module.
* `GeoAttributes`: the finder.

Properties proved:

* Collectors and maps:
  * Each collector method leaves its map equal to the model map after its list of puts. Each collecting method returns exactly the document function, or the exception the source throws.
  * The map keeps the first-put order of keys. After a run of puts, a key holds the value of its last put.
  * Filter headers never collide.
  * The misspelled preview name never reaches the report. A property under that name is written under the corrected name, with its own value unless a later property takes that key.
  * In the exporter, the layout section collapses to one placeholder entry.
* Reports:
  * The action's report reads back to the document it was written from, provided no key contains `": "`. So does its file on disk when no write fails; a failed write leaves a strict prefix.
  * The exporter's reader recovers any document whose section names and keys hold no `": "`. But four of the exporter's own General keys end in `": "`, so no report it writes reads back to its document: those keys come back without the `": "`, and their values come back with `": "` in front.
* Folder prompts and exports:
  * A run of folder choosers re-opens on each refused folder and shows one "No permission" dialog per refusal. It then either exports exactly once to the writable folder finally approved, or writes nothing and keeps no lock.
  * Both files of an export lie in the same folder under the same timestamp.
  * Unless collecting throws, the dialogs of an export are only "Error Saving" ones followed by "Export Complete".
* Geographic columns:
  * The finder returns the first numeric column any pattern matches.
  * As written, the latitude list holds patterns made from the longitude names (see Findings).

## Model

Source paths are relative to the repository root.

| member | source | states |
|---|---|---|
| LinkedMaps.KeysOf | modules/Fieldnotes/src/main/java/edu/dhlabuu/fieldnotes/ExportFieldnotesAction.java:311 | the map's keys in iteration order, one per entry |
| LinkedMaps.Get | modules/Fieldnotes/src/main/java/edu/dhlabuu/fieldnotes/ExportFieldnotesAction.java:311-313 | the value the writer pairs with a key as it iterates the map; null exactly when the key is not among the map's keys |
| LinkedMaps.PutEntry | modules/Fieldnotes/src/main/java/edu/dhlabuu/fieldnotes/ExportFieldnotesAction.java:204 | `put` grows the map by at most one entry |
| LinkedMaps.PutKeys | modules/Fieldnotes/src/main/java/edu/dhlabuu/fieldnotes/ExportFieldnotesAction.java:204 | `put` of a present key keeps the key order; `put` of a new key appends it |
| LinkedMaps.PutGet | modules/Fieldnotes/src/main/java/edu/dhlabuu/fieldnotes/ExportFieldnotesAction.java:204 | `get` after `put` gives the new value for that key and the old value for every other key |
| LinkedMaps.PutDistinct | modules/Fieldnotes/src/main/java/edu/dhlabuu/fieldnotes/ExportFieldnotesAction.java:167-172 | `put` keeps the keys pairwise distinct |
| LinkedMaps.LastPut | modules/Fieldnotes/src/main/java/edu/dhlabuu/fieldnotes/ExportFieldnotesAction.java:204 | a run of puts has a last put of `k` exactly when `k` is one of its keys |
| LinkedMaps.FirstOccurrences | modules/Fieldnotes/src/main/java/edu/dhlabuu/fieldnotes/ExportFieldnotesAction.java:311 | removing repeated keys keeps exactly the same set of keys |
| LinkedMaps.PutEntriesConcat | modules/Fieldnotes/src/main/java/edu/dhlabuu/fieldnotes/ExportFieldnotesAction.java:182-190 | two runs of puts one after the other are one run of their concatenation |
| LinkedMaps.PutEntries | modules/Fieldnotes/src/main/java/edu/dhlabuu/fieldnotes/ExportFieldnotesAction.java:198-207 | definition: a run of `put` calls in order (PutEntriesGet, PutEntriesKeys, PutEntriesDistinct) |
| LinkedMaps.PutEntriesGet | modules/Fieldnotes/src/main/java/edu/dhlabuu/fieldnotes/ExportFieldnotesAction.java:204 | after a run of puts each key holds the value of its last put, else its old value |
| LinkedMaps.PutEntriesDistinct | modules/Fieldnotes/src/main/java/edu/dhlabuu/fieldnotes/ExportFieldnotesAction.java:167-172 | a run of puts keeps the keys pairwise distinct |
| LinkedMaps.FirstOccurrencesOfDistinct | modules/Fieldnotes/src/main/java/edu/dhlabuu/fieldnotes/ExportFieldnotesAction.java:311 | distinct keys are their own first occurrences |
| LinkedMaps.PutEntriesKeys | modules/Fieldnotes/src/main/java/edu/dhlabuu/fieldnotes/ExportFieldnotesAction.java:311 | iteration order is the old keys followed by the new ones in order of their first put |
| LinkedMaps.PutEntriesKeysStep | modules/Fieldnotes/src/main/java/edu/dhlabuu/fieldnotes/ExportFieldnotesAction.java:311 | the iteration order survives one more put |
| LinkedMaps.KeysOfFront | modules/Fieldnotes/src/main/java/edu/dhlabuu/fieldnotes/ExportFieldnotesAction.java:311 | the keys of a non-empty run are those of all but the last put, then the last put's key |
| LinkedMaps.FirstOccurrencesSnoc | modules/Fieldnotes/src/main/java/edu/dhlabuu/fieldnotes/ExportFieldnotesAction.java:311 | a new key is appended to the first occurrences; a repeated one changes nothing |
| LinkedMaps.PutEntriesSnoc | modules/Fieldnotes/src/main/java/edu/dhlabuu/fieldnotes/ExportFieldnotesAction.java:204 | one more put at the end of a run is one more `put` |
| LinkedMaps.PutEntriesFresh | modules/Fieldnotes/src/main/java/edu/dhlabuu/fieldnotes/ExportFieldnotesAction.java:182-184 | puts of pairwise different keys into an empty map give exactly those entries, in order |
| LinkedMaps.PutAppends | modules/Fieldnotes/src/main/java/edu/dhlabuu/fieldnotes/ExportFieldnotesAction.java:204 | `put` of a new key appends exactly that entry |
| LinkedMaps.PutEntriesRepeated | modules/Fieldnotes/src/main/java/edu/dhlabuu/fieldnotes/SettingsExporter.java:174-183 | the same put repeated one or more times leaves exactly one entry |
| LinkedMaps.LinkedMap.constructor | modules/Fieldnotes/src/main/java/edu/dhlabuu/fieldnotes/ExportFieldnotesAction.java:167 | a new map is empty |
| LinkedMaps.LinkedMap.Put | modules/Fieldnotes/src/main/java/edu/dhlabuu/fieldnotes/ExportFieldnotesAction.java:182 | the map's entries become `PutEntry` of the old entries |
| JavaText.DigitChar | modules/Fieldnotes/src/main/java/edu/dhlabuu/fieldnotes/ExportFieldnotesAction.java:183 | a digit below ten prints as the decimal digit of that value |
| JavaText.BoolToString | modules/Fieldnotes/src/main/java/edu/dhlabuu/fieldnotes/ExportFieldnotesAction.java:182 | definition: `String.valueOf(boolean)` |
| JavaText.CollectionToString | modules/Fieldnotes/src/main/java/edu/dhlabuu/fieldnotes/SettingsExporter.java:118 | definition: `AbstractCollection.toString`, the items between brackets separated by ", " |
| JavaText.NatToString | modules/Fieldnotes/src/main/java/edu/dhlabuu/fieldnotes/ExportFieldnotesAction.java:183 | `String.valueOf` of a non-negative int is a non-empty string of digits with no leading zero |
| JavaText.DecimalRoundTrip | modules/Fieldnotes/src/main/java/edu/dhlabuu/fieldnotes/ExportFieldnotesAction.java:200 | reading the printed number back gives the number |
| JavaText.NatToStringInjective | modules/Fieldnotes/src/main/java/edu/dhlabuu/fieldnotes/ExportFieldnotesAction.java:200 | distinct numbers print differently |
| JavaText.Pieces | modules/Fieldnotes/src/main/java/edu/dhlabuu/fieldnotes/ExportFieldnotesAction.java:221 | splitting at `c` gives at least one piece, and no piece contains `c` |
| JavaText.JoinPieces | modules/Fieldnotes/src/main/java/edu/dhlabuu/fieldnotes/ExportFieldnotesAction.java:221 | joining the pieces with `c` gives back the string |
| JavaText.PiecesAfterHead | modules/Fieldnotes/src/main/java/edu/dhlabuu/fieldnotes/ExportFieldnotesAction.java:221 | a `c`-free head followed by `c` is the first piece |
| JavaText.DropTrailingEmpty | modules/Fieldnotes/src/main/java/edu/dhlabuu/fieldnotes/ExportFieldnotesAction.java:221 | `split` drops exactly the trailing empty pieces and keeps the rest as a prefix |
| JavaText.Split | modules/Fieldnotes/src/main/java/edu/dhlabuu/fieldnotes/GeoAttributeFinder.java:27 | no piece returned by `split` contains the separator |
| JavaText.PiecesWithoutSeparator | modules/Fieldnotes/src/main/java/edu/dhlabuu/fieldnotes/GeoAttributeFinder.java:27 | a string without the separator is a single piece |
| JavaText.SplitKeepsPiece | modules/Fieldnotes/src/main/java/edu/dhlabuu/fieldnotes/ExportFieldnotesAction.java:221 | `split` keeps every non-empty piece at its index |
| JavaText.SecondField | modules/Fieldnotes/src/main/java/edu/dhlabuu/fieldnotes/ExportFieldnotesAction.java:219-221 | for a canonical name `layout.property.rest`, `split("\\.")[1]` exists and is the property name |
| JavaText.SplitWithoutSeparator | modules/Fieldnotes/src/main/java/edu/dhlabuu/fieldnotes/GeoAttributeFinder.java:27 | a bundle value without a comma splits into itself alone |
| GephiModels.Graph.ReadLock | modules/Fieldnotes/src/main/java/edu/dhlabuu/fieldnotes/ExportFieldnotesAction.java:102 | taking the read lock adds one reader |
| GephiModels.Graph.ReadUnlock | modules/Fieldnotes/src/main/java/edu/dhlabuu/fieldnotes/ExportFieldnotesAction.java:109 | a reader that holds the lock releases it |
| GephiModels.ValueOf | modules/Fieldnotes/src/main/java/edu/dhlabuu/fieldnotes/ExportFieldnotesAction.java:204 | definition: `String.valueOf(Object)`, "null" for null (Collectors.PropertyPuts) |
| FieldnotesSpec.WrittenSettingsReadBack | modules/Fieldnotes/src/main/java/edu/dhlabuu/fieldnotes/ExportFieldnotesAction.java:302-317 | the settings file left on disk reads back to the collected document when no write fails, and is a strict prefix of the report when one does |
| Desktop.Host.constructor | modules/Fieldnotes/src/main/java/edu/dhlabuu/fieldnotes/ExportFieldnotesAction.java:333-340 | the host starts with the given files, no dialogs and no choosers |
| Desktop.WriteLines | modules/Fieldnotes/src/main/java/edu/dhlabuu/fieldnotes/ExportFieldnotesAction.java:302-317 | the write loop reports a failure exactly when the oracle's failing line is reached, and the file holds exactly the lines written before it |
| Report.Names | modules/Fieldnotes/src/main/java/edu/dhlabuu/fieldnotes/ExportFieldnotesAction.java:302-303 | the section names in order, one per section |
| Report.EntryLines | modules/Fieldnotes/src/main/java/edu/dhlabuu/fieldnotes/ExportFieldnotesAction.java:311-316 | one `key: value` line per entry, in iteration order |
| Report.EntryLine | modules/Fieldnotes/src/main/java/edu/dhlabuu/fieldnotes/ExportFieldnotesAction.java:314 | definition: `key + ": " + value` (ParseEntryLine, EntryLineHasSeparator) |
| Report.SeparatorAt | modules/Fieldnotes/src/main/java/edu/dhlabuu/fieldnotes/ExportFieldnotesAction.java:314 | the position found is the first `": "` of the line, and none means the line has none |
| Report.SeparatorAfterKey | modules/Fieldnotes/src/main/java/edu/dhlabuu/fieldnotes/ExportFieldnotesAction.java:314 | in `key + ": " + value` the first separator follows the key when the key has none |
| Report.ParseEntryLine | modules/Fieldnotes/src/main/java/edu/dhlabuu/fieldnotes/ExportFieldnotesAction.java:314 | an entry line reads back to its entry when the key holds no `": "` |
| Report.EntryLineHasColon | modules/Fieldnotes/src/main/java/edu/dhlabuu/fieldnotes/ExportFieldnotesAction.java:314 | every entry line contains a colon |
| Report.ParseEntryLinesRoundTrip | modules/Fieldnotes/src/main/java/edu/dhlabuu/fieldnotes/ExportFieldnotesAction.java:311-316 | a section's entry lines read back to its entries, in order |
| Report.EntryLinesCons | modules/Fieldnotes/src/main/java/edu/dhlabuu/fieldnotes/ExportFieldnotesAction.java:311-316 | the first entry's line comes first, then the lines of the others |
| Report.EntryLinesFirst | modules/Fieldnotes/src/main/java/edu/dhlabuu/fieldnotes/ExportFieldnotesAction.java:311-316 | lines that start with entry lines start with the first entry's line, and the rest follows |
| Report.EntryLineHasSeparator | modules/Fieldnotes/src/main/java/edu/dhlabuu/fieldnotes/ExportFieldnotesAction.java:314 | every entry line holds a `": "` |
| Report.Snapshot | modules/Fieldnotes/src/main/java/edu/dhlabuu/fieldnotes/ExportFieldnotesAction.java:174-180 | the settings list is read as one section per list entry, with the name and the map's current entries |
| Collectors.PropertyPuts | modules/Fieldnotes/src/main/java/edu/dhlabuu/fieldnotes/ExportFieldnotesAction.java:203-205 | one put per query property in index order: its name with `String.valueOf` of its value |
| Collectors.FilterHeader | modules/Fieldnotes/src/main/java/edu/dhlabuu/fieldnotes/ExportFieldnotesAction.java:200 | definition: the prefix followed by the decimal query index (FilterHeadersDistinct) |
| Collectors.QueryPuts | modules/Fieldnotes/src/main/java/edu/dhlabuu/fieldnotes/ExportFieldnotesAction.java:200-205 | definition: the header put with the query's name, then its property puts (FilterPutsSnoc) |
| Collectors.FilterPuts | modules/Fieldnotes/src/main/java/edu/dhlabuu/fieldnotes/ExportFieldnotesAction.java:198-207 | definition: the filter collector's puts, query by query (PutFilters, FilterHeaderHoldsName, FilterPutsLastQuery) |
| Collectors.StatisticsPuts | modules/Fieldnotes/src/main/java/edu/dhlabuu/fieldnotes/ExportFieldnotesAction.java:255-259 | definition: the one put of the statistics model's text (FieldnotesSpec.StatisticsSection) |
| Collectors.FilterHeadersDistinct | modules/Fieldnotes/src/main/java/edu/dhlabuu/fieldnotes/ExportFieldnotesAction.java:200 | the headers of two different queries are different keys |
| Collectors.PropertyPutsMissing | modules/Fieldnotes/src/main/java/edu/dhlabuu/fieldnotes/ExportFieldnotesAction.java:203-205 | properties never put a key that none of them is named |
| Collectors.FilterHeaderHoldsName | modules/Fieldnotes/src/main/java/edu/dhlabuu/fieldnotes/ExportFieldnotesAction.java:198-207 | a query's header keeps the query's name unless a property of that query or a later one has the header as its name |
| Collectors.FilterPutsLastQuery | modules/Fieldnotes/src/main/java/edu/dhlabuu/fieldnotes/ExportFieldnotesAction.java:198-207 | the last query can only put its own header among keys its properties lack |
| Collectors.LastPutConcat | modules/Fieldnotes/src/main/java/edu/dhlabuu/fieldnotes/ExportFieldnotesAction.java:198-207 | the last put of a key in two runs is the one in the second run, if any |
| Collectors.PutFilters | modules/Fieldnotes/src/main/java/edu/dhlabuu/fieldnotes/ExportFieldnotesAction.java:195-208 | the two nested loops leave the map equal to the old map after the filter puts |
| Collectors.PropertyPutsSnoc | modules/Fieldnotes/src/main/java/edu/dhlabuu/fieldnotes/ExportFieldnotesAction.java:203-205 | one more property is one more put at the end |
| Collectors.FilterPutsSnoc | modules/Fieldnotes/src/main/java/edu/dhlabuu/fieldnotes/ExportFieldnotesAction.java:198-207 | one more query adds its header put and then its property puts |
| FieldnotesSpec.FirstBadProperty | modules/Fieldnotes/src/main/java/edu/dhlabuu/fieldnotes/ExportFieldnotesAction.java:217-221 | every property before the index has a second name field, and the property at it (if any) does not |
| FieldnotesSpec.LayoutKeys | modules/Fieldnotes/src/main/java/edu/dhlabuu/fieldnotes/ExportFieldnotesAction.java:221 | each property's key is the second field of its canonical name, in order |
| FieldnotesSpec.NotExtractedPuts | modules/Fieldnotes/src/main/java/edu/dhlabuu/fieldnotes/ExportFieldnotesAction.java:223-225 | every layout key is put with "Not extracted" |
| FieldnotesSpec.GeneralPuts | modules/Fieldnotes/src/main/java/edu/dhlabuu/fieldnotes/ExportFieldnotesAction.java:182-184 | definition: the three general puts in source order (GeneralSection proves the section holds exactly them) |
| FieldnotesSpec.LayoutKey | modules/Fieldnotes/src/main/java/edu/dhlabuu/fieldnotes/ExportFieldnotesAction.java:221 | definition: the second `.`-field of the canonical name, none where `[1]` throws (JavaText.SecondField gives it for three-field names) |
| FieldnotesSpec.LayoutPuts | modules/Fieldnotes/src/main/java/edu/dhlabuu/fieldnotes/ExportFieldnotesAction.java:212-226 | definition: the header put, then one "Not extracted" put per property up to the one that throws (LayoutSection) |
| FieldnotesSpec.PreviewKey | modules/Fieldnotes/src/main/java/edu/dhlabuu/fieldnotes/ExportFieldnotesAction.java:269-272 | the misspelled name becomes the corrected one, every other name is kept, and the key is never the misspelled name |
| FieldnotesSpec.PreviewPuts | modules/Fieldnotes/src/main/java/edu/dhlabuu/fieldnotes/ExportFieldnotesAction.java:265-290 | one put per preview property in order, with the corrected key and the formatted value |
| FieldnotesSpec.SettingsDocument | modules/Fieldnotes/src/main/java/edu/dhlabuu/fieldnotes/ExportFieldnotesAction.java:174-190 | definition: the five sections `collectSettings` fills (SectionOrder and the section lemmas state what each holds) |
| FieldnotesSpec.CollectedSettings | modules/Fieldnotes/src/main/java/edu/dhlabuu/fieldnotes/ExportFieldnotesAction.java:151-193 | definition: the document, or the layout collector's exception (SectionOrder; CollectSettings is proved against it) |
| FieldnotesSpec.SectionOrder | modules/Fieldnotes/src/main/java/edu/dhlabuu/fieldnotes/ExportFieldnotesAction.java:174-180 | collecting succeeds exactly when the layout collector does not throw, and the sections are General, Filter, Layout, Statistics, Preview |
| FieldnotesSpec.GeneralSection | modules/Fieldnotes/src/main/java/edu/dhlabuu/fieldnotes/ExportFieldnotesAction.java:182-184 | General holds exactly directedness, edge count and node count, in that order |
| FieldnotesSpec.StatisticsSection | modules/Fieldnotes/src/main/java/edu/dhlabuu/fieldnotes/ExportFieldnotesAction.java:255-259 | Statistics holds exactly the statistics model's text |
| FieldnotesSpec.SectionLines | modules/Fieldnotes/src/main/java/edu/dhlabuu/fieldnotes/ExportFieldnotesAction.java:305-316 | definition: a line of dashes, the section name, then its entry lines (ParseSection, BodyLengthOfEntries) |
| FieldnotesSpec.SettingsLines | modules/Fieldnotes/src/main/java/edu/dhlabuu/fieldnotes/ExportFieldnotesAction.java:302-317 | definition: the whole report, section after section (ParseSettingsRoundTrip, SettingsLineCount; FormatSettings is proved against it) |
| FieldnotesSpec.ParseSettings | modules/Fieldnotes/src/main/java/edu/dhlabuu/fieldnotes/ExportFieldnotesAction.java:302-317 | definition: the reader of the report, the independent partner ParseSettingsRoundTrip connects to SettingsLines |
| FieldnotesSpec.GetAt | modules/Fieldnotes/src/main/java/edu/dhlabuu/fieldnotes/ExportFieldnotesAction.java:311-313 | with distinct keys, `get` of an entry's key gives that entry's value |
| FieldnotesSpec.FirstOccurrencesHead | modules/Fieldnotes/src/main/java/edu/dhlabuu/fieldnotes/ExportFieldnotesAction.java:214 | the first key put stays the first key |
| FieldnotesSpec.LayoutSection | modules/Fieldnotes/src/main/java/edu/dhlabuu/fieldnotes/ExportFieldnotesAction.java:210-229 | without a layout the section is empty; with one it starts with "# layout" holding the builder's name (or "Not extracted" if a key overwrote it), and every other value is "Not extracted" |
| FieldnotesSpec.EntryFromPut | modules/Fieldnotes/src/main/java/edu/dhlabuu/fieldnotes/ExportFieldnotesAction.java:225 | every entry of a map filled from empty is one of the puts made |
| LinkedMaps.LastPutIsAPut | modules/Fieldnotes/src/main/java/edu/dhlabuu/fieldnotes/ExportFieldnotesAction.java:289 | the last put of a key is one of the puts |
| LinkedMaps.LastPutAt | modules/Fieldnotes/src/main/java/edu/dhlabuu/fieldnotes/ExportFieldnotesAction.java:289 | a put that no later put of the same key follows is the value the key ends with |
| FieldnotesSpec.PreviewSectionCorrectsName | modules/Fieldnotes/src/main/java/edu/dhlabuu/fieldnotes/ExportFieldnotesAction.java:269-272 | the misspelled preview name never appears as a key |
| FieldnotesSpec.PreviewSectionValues | modules/Fieldnotes/src/main/java/edu/dhlabuu/fieldnotes/ExportFieldnotesAction.java:274-289 | each preview key holds the formatted value of a property written under that key |
| FieldnotesSpec.PreviewSectionLastProperty | modules/Fieldnotes/src/main/java/edu/dhlabuu/fieldnotes/ExportFieldnotesAction.java:274-289 | a property no later property shares a key with is what its key holds: a colour wrapper's custom colour, anything else its own `toString` |
| FieldnotesSpec.PreviewSectionRenames | modules/Fieldnotes/src/main/java/edu/dhlabuu/fieldnotes/ExportFieldnotesAction.java:269-272 | a property under the misspelled name puts the corrected name among the keys, holding that property's value unless a later property takes the key |
| FieldnotesSpec.SettingsLineCount | modules/Fieldnotes/src/main/java/edu/dhlabuu/fieldnotes/ExportFieldnotesAction.java:302-317 | the report has two lines per section plus one per entry |
| FieldnotesSpec.SettingsLinesCons | modules/Fieldnotes/src/main/java/edu/dhlabuu/fieldnotes/ExportFieldnotesAction.java:302-317 | the first section's lines come first, then the report of the rest |
| FieldnotesSpec.BodyLength | modules/Fieldnotes/src/main/java/edu/dhlabuu/fieldnotes/ExportFieldnotesAction.java:305-316 | a section's body runs up to the next line of dashes |
| FieldnotesSpec.Dashes | modules/Fieldnotes/src/main/java/edu/dhlabuu/fieldnotes/ExportFieldnotesAction.java:305-306 | the separator is a line of exactly the given number (120) of dashes |
| FieldnotesSpec.EntryLineIsNotDash | modules/Fieldnotes/src/main/java/edu/dhlabuu/fieldnotes/ExportFieldnotesAction.java:305-314 | no entry line is a line of dashes |
| FieldnotesSpec.BodyLengthOfEntries | modules/Fieldnotes/src/main/java/edu/dhlabuu/fieldnotes/ExportFieldnotesAction.java:311-316 | a section's body is exactly its entry lines |
| FieldnotesSpec.ParseSettingsRoundTrip | modules/Fieldnotes/src/main/java/edu/dhlabuu/fieldnotes/ExportFieldnotesAction.java:302-317 | reading the report back gives the document, every section with its name and its entries in order, when no key holds `": "` |
| FieldnotesSpec.ParseSettingsStep | modules/Fieldnotes/src/main/java/edu/dhlabuu/fieldnotes/ExportFieldnotesAction.java:302-317 | a section in front of a readable report reads back as well |
| FieldnotesSpec.ParseSection | modules/Fieldnotes/src/main/java/edu/dhlabuu/fieldnotes/ExportFieldnotesAction.java:305-309 | a line of dashes, a name and a body read back as one section |
| FieldnotesSpec.SettingsFile | modules/Fieldnotes/src/main/java/edu/dhlabuu/fieldnotes/ExportFieldnotesAction.java:80-81 | definition: `settings_<timestamp>.txt` in the chosen folder (FileNamesCorrelate) |
| FieldnotesSpec.GraphFile | modules/Fieldnotes/src/main/java/edu/dhlabuu/fieldnotes/ExportFieldnotesAction.java:80-82 | definition: `graph_<timestamp>.gexf` in the chosen folder (FileNamesCorrelate) |
| FieldnotesSpec.WriteNotices | modules/Fieldnotes/src/main/java/edu/dhlabuu/fieldnotes/ExportFieldnotesAction.java:319-329 | definition: the "Error Saving" dialogs of `writeSettings`, two for a failed open (the catch, then `close` on the null writer), else one per failed write and one per failed close (ExportRunFacts) |
| FieldnotesSpec.Plan | modules/Fieldnotes/src/main/java/edu/dhlabuu/fieldnotes/ExportFieldnotesAction.java:84-94 | definition: the files and dialogs of one export before it is placed in a folder; a collector that throws leaves the lock held (ExportRunFacts, DocumentPlanFacts) |
| FieldnotesSpec.Placed | modules/Fieldnotes/src/main/java/edu/dhlabuu/fieldnotes/ExportFieldnotesAction.java:81-90 | definition: the settings file, then the graph file, in the folder under one timestamp (PlacedInFolder) |
| FieldnotesSpec.ExportRun | modules/Fieldnotes/src/main/java/edu/dhlabuu/fieldnotes/ExportFieldnotesAction.java:73-97 | definition: one `handleFolderSelected` (ExportRunFacts; HandleFolderSelected is proved against it) |
| FieldnotesSpec.NoPermission | modules/Fieldnotes/src/main/java/edu/dhlabuu/fieldnotes/ExportFieldnotesAction.java:129 | definition: the "No permission" dialog naming the refused folder (NoPermissionNotices) |
| FieldnotesSpec.PromptEffects | modules/Fieldnotes/src/main/java/edu/dhlabuu/fieldnotes/ExportFieldnotesAction.java:112-136 | definition: the effects of a run of choosers answered in turn (PromptEffectsRun, NothingChosen, FolderChosen; PromptUserForFolder is proved against it) |
| FieldnotesSpec.FileNamesCorrelate | modules/Fieldnotes/src/main/java/edu/dhlabuu/fieldnotes/ExportFieldnotesAction.java:80-82 | the settings and graph files differ, and each file name determines the timestamp |
| FieldnotesSpec.ExportRunFacts | modules/Fieldnotes/src/main/java/edu/dhlabuu/fieldnotes/ExportFieldnotesAction.java:73-97 | an export writes only its two files; a layout that throws leaves the lock held and writes and shows nothing; otherwise the dialogs are "Error Saving" ones followed by "Export Complete" and the lock is released |
| FieldnotesSpec.PlacedInFolder | modules/Fieldnotes/src/main/java/edu/dhlabuu/fieldnotes/ExportFieldnotesAction.java:81-82 | every file written is the settings or the graph file of that folder and timestamp |
| FieldnotesSpec.DocumentPlanFacts | modules/Fieldnotes/src/main/java/edu/dhlabuu/fieldnotes/ExportFieldnotesAction.java:88-94 | once settings are collected, the lock is released and the last dialog is "Export Complete", after error dialogs only |
| FieldnotesSpec.RunPrompts | modules/Fieldnotes/src/main/java/edu/dhlabuu/fieldnotes/ExportFieldnotesAction.java:112-136 | one chooser per refused folder plus the first, and the first opens on the start folder |
| FieldnotesSpec.RunPromptsFacts | modules/Fieldnotes/src/main/java/edu/dhlabuu/fieldnotes/ExportFieldnotesAction.java:119-134 | each new chooser opens on the folder refused before it; every refused folder was approved and is not writable; the run ends at the first writable folder approved, the first chooser closed another way, or the last answer |
| FieldnotesSpec.NoPermissionNotices | modules/Fieldnotes/src/main/java/edu/dhlabuu/fieldnotes/ExportFieldnotesAction.java:129 | one "No permission" dialog naming each refused folder, in order |
| FieldnotesSpec.PromptEffectsRun | modules/Fieldnotes/src/main/java/edu/dhlabuu/fieldnotes/ExportFieldnotesAction.java:119-134 | a run of choosers shows one "No permission" per refusal and either exports exactly once to the folder finally chosen, or writes nothing and keeps no lock |
| FieldnotesSpec.PromptsOpened | modules/Fieldnotes/src/main/java/edu/dhlabuu/fieldnotes/ExportFieldnotesAction.java:130 | the choosers opened are those of the prompt run |
| FieldnotesSpec.NothingChosen | modules/Fieldnotes/src/main/java/edu/dhlabuu/fieldnotes/ExportFieldnotesAction.java:122-131 | when no writable folder is approved, only "No permission" dialogs are shown, nothing is written and no lock is held |
| FieldnotesSpec.FolderChosen | modules/Fieldnotes/src/main/java/edu/dhlabuu/fieldnotes/ExportFieldnotesAction.java:125-126 | when a writable folder is approved, its export follows the "No permission" dialogs, and that folder is the one selected |
| ExportFieldnotes.SnapshotOfFive | modules/Fieldnotes/src/main/java/edu/dhlabuu/fieldnotes/ExportFieldnotesAction.java:174-180 | a five-entry settings list reads as its five sections |
| ExportFieldnotes.GeneralEntries | modules/Fieldnotes/src/main/java/edu/dhlabuu/fieldnotes/ExportFieldnotesAction.java:182-184 | the general puts are the three `put` calls in that order |
| ExportFieldnotes.LayoutKeysSnoc | modules/Fieldnotes/src/main/java/edu/dhlabuu/fieldnotes/ExportFieldnotesAction.java:217-225 | one more property with a key adds its key at the end |
| ExportFieldnotes.KeysDefinedSnoc | modules/Fieldnotes/src/main/java/edu/dhlabuu/fieldnotes/ExportFieldnotesAction.java:221 | the keys stay defined over one more property with a key |
| ExportFieldnotes.NotExtractedSnoc | modules/Fieldnotes/src/main/java/edu/dhlabuu/fieldnotes/ExportFieldnotesAction.java:223-225 | one more key is one more "Not extracted" put |
| ExportFieldnotes.FirstBadPropertyAt | modules/Fieldnotes/src/main/java/edu/dhlabuu/fieldnotes/ExportFieldnotesAction.java:217-221 | the loop stops at the first property whose canonical name has no second field |
| ExportFieldnotes.ApplyWritesConcat | modules/Fieldnotes/src/main/java/edu/dhlabuu/fieldnotes/ExportFieldnotesAction.java:88-90 | writing two runs of files in turn is writing their concatenation |
| ExportFieldnotes.ExportFieldnotesAction.constructor | modules/Fieldnotes/src/main/java/edu/dhlabuu/fieldnotes/ExportFieldnotesAction.java:57-61 | no folder is selected and no graph is held |
| ExportFieldnotes.ExportFieldnotesAction.ActionPerformed | modules/Fieldnotes/src/main/java/edu/dhlabuu/fieldnotes/ExportFieldnotesAction.java:67-71 | the menu entry has the effect of a prompt run starting in the working directory |
| ExportFieldnotes.ExportFieldnotesAction.PromptUserForFolder | modules/Fieldnotes/src/main/java/edu/dhlabuu/fieldnotes/ExportFieldnotesAction.java:112-136 | choosers, dialogs, files, the lock count and the selected folder all change exactly as the prompt-run function says |
| ExportFieldnotes.ExportFieldnotesAction.DialogClosed | modules/Fieldnotes/src/main/java/edu/dhlabuu/fieldnotes/ExportFieldnotesAction.java:121-133 | the listener: OK on a writable folder exports there; OK on any other folder shows "No permission" and re-prompts there; other closings do nothing |
| ExportFieldnotes.ExportFieldnotesAction.HandleFolderSelected | modules/Fieldnotes/src/main/java/edu/dhlabuu/fieldnotes/ExportFieldnotesAction.java:73-97 | throws exactly when the export leaves the lock held; files, dialogs and the lock count are those of the export |
| ExportFieldnotes.ExportFieldnotesAction.ExportDocument | modules/Fieldnotes/src/main/java/edu/dhlabuu/fieldnotes/ExportFieldnotesAction.java:88-92 | writes the settings file, then the graph file, then shows "Export Complete", as the export function says |
| ExportFieldnotes.ExportFieldnotesAction.Init | modules/Fieldnotes/src/main/java/edu/dhlabuu/fieldnotes/ExportFieldnotesAction.java:99-106 | holds the current graph and takes one read lock on it |
| ExportFieldnotes.ExportFieldnotesAction.Dispose | modules/Fieldnotes/src/main/java/edu/dhlabuu/fieldnotes/ExportFieldnotesAction.java:108-110 | releases one read lock |
| ExportFieldnotes.ExportFieldnotesAction.ExportGraph | modules/Fieldnotes/src/main/java/edu/dhlabuu/fieldnotes/ExportFieldnotesAction.java:138-149 | writes the graph file, or on failure shows "Error Saving" and writes nothing |
| ExportFieldnotes.ExportFieldnotesAction.CollectSettings | modules/Fieldnotes/src/main/java/edu/dhlabuu/fieldnotes/ExportFieldnotesAction.java:151-193 | returns exactly the five-section document, or the layout collector's exception |
| ExportFieldnotes.ExportFieldnotesAction.AddFiltersToSettings | modules/Fieldnotes/src/main/java/edu/dhlabuu/fieldnotes/ExportFieldnotesAction.java:195-208 | the map becomes the old map after the "# filter i" puts |
| ExportFieldnotes.ExportFieldnotesAction.AddLayoutToSettings | modules/Fieldnotes/src/main/java/edu/dhlabuu/fieldnotes/ExportFieldnotesAction.java:210-229 | fails exactly when some property has no second name field; otherwise the map becomes the old map after the layout puts |
| ExportFieldnotes.ExportFieldnotesAction.AddStatisticsToSettings | modules/Fieldnotes/src/main/java/edu/dhlabuu/fieldnotes/ExportFieldnotesAction.java:255-259 | the map becomes the old map after putting the statistics text |
| ExportFieldnotes.ExportFieldnotesAction.AddPreviewToSettings | modules/Fieldnotes/src/main/java/edu/dhlabuu/fieldnotes/ExportFieldnotesAction.java:261-292 | the map becomes the old map after the corrected, formatted preview puts |
| ExportFieldnotes.ExportFieldnotesAction.GetColumns | modules/Fieldnotes/src/main/java/edu/dhlabuu/fieldnotes/ExportFieldnotesAction.java:231-239 | a new array holding the table's columns in order |
| ExportFieldnotes.ExportFieldnotesAction.WriteSettings | modules/Fieldnotes/src/main/java/edu/dhlabuu/fieldnotes/ExportFieldnotesAction.java:294-330 | a failed open writes nothing and shows two errors; otherwise the file holds the report's written prefix, with one error for a failed write and one for a failed close |
| ExportFieldnotes.ExportFieldnotesAction.FormatSettings | modules/Fieldnotes/src/main/java/edu/dhlabuu/fieldnotes/ExportFieldnotesAction.java:302-317 | the outer loop's lines are the report of the document |
| ExportFieldnotes.ExportFieldnotesAction.FormatSection | modules/Fieldnotes/src/main/java/edu/dhlabuu/fieldnotes/ExportFieldnotesAction.java:303-316 | a line of dashes, the section name, then one line per entry |
| SettingsExport.FirstNamed | modules/Fieldnotes/src/main/java/edu/dhlabuu/fieldnotes/SettingsExporter.java:210 | the first preview property with the given name, if any |
| SettingsExport.GeneralPuts | modules/Fieldnotes/src/main/java/edu/dhlabuu/fieldnotes/SettingsExporter.java:114-118 | definition: the five general puts, four keys ending in `": "` (GeneralKeysFresh, ExporterReportReadsBack) |
| SettingsExport.AppearanceThrows | modules/Fieldnotes/src/main/java/edu/dhlabuu/fieldnotes/SettingsExporter.java:188-191 | definition: reading the first edge function throws exactly when there is none (AddAppearanceToSettings) |
| SettingsExport.ExporterDocument | modules/Fieldnotes/src/main/java/edu/dhlabuu/fieldnotes/SettingsExporter.java:102-124 | definition: the six sections in `execute`'s order (GeneralSection, LayoutSection, PreviewSection) |
| SettingsExport.ExportedSettings | modules/Fieldnotes/src/main/java/edu/dhlabuu/fieldnotes/SettingsExporter.java:111-124 | definition: the document, or the appearance collector's exception (CollectSettings is proved against it) |
| SettingsExport.SettingsPath | modules/Fieldnotes/src/main/java/edu/dhlabuu/fieldnotes/SettingsExporter.java:126-127 | definition: `settings_<timeLog>.txt` relative to the working directory (Execute) |
| SettingsExport.PreviewSectionLooksUp | modules/Fieldnotes/src/main/java/edu/dhlabuu/fieldnotes/SettingsExporter.java:206-211 | whatever the names, the value under each name is the `toString` of the first property of that name, which `getValue` returns |
| SettingsExport.GeneralSection | modules/Fieldnotes/src/main/java/edu/dhlabuu/fieldnotes/SettingsExporter.java:102-118 | six sections in order; General holds its five puts; Appearance is empty |
| SettingsExport.GeneralKeysFresh | modules/Fieldnotes/src/main/java/edu/dhlabuu/fieldnotes/SettingsExporter.java:114-118 | the five general keys are distinct, so all five entries stay |
| SettingsExport.LayoutSection | modules/Fieldnotes/src/main/java/edu/dhlabuu/fieldnotes/SettingsExporter.java:171-183 | the layout section holds one placeholder entry when the layout has properties, and none otherwise |
| SettingsExport.PreviewSection | modules/Fieldnotes/src/main/java/edu/dhlabuu/fieldnotes/SettingsExporter.java:206-211 | with distinct names, each preview property is written with its own value, in order |
| SettingsExport.ExporterLineCount | modules/Fieldnotes/src/main/java/edu/dhlabuu/fieldnotes/SettingsExporter.java:225-239 | one line per section plus one per entry |
| SettingsExport.ExporterLinesCons | modules/Fieldnotes/src/main/java/edu/dhlabuu/fieldnotes/SettingsExporter.java:225-239 | the first section's lines come first, then the report of the rest |
| SettingsExport.ExporterLines | modules/Fieldnotes/src/main/java/edu/dhlabuu/fieldnotes/SettingsExporter.java:225-239 | definition: each section's name line, then its entry lines (ExporterLineCount; FormatSettings is proved against it) |
| SettingsExport.ParseExport | modules/Fieldnotes/src/main/java/edu/dhlabuu/fieldnotes/SettingsExporter.java:225-239 | definition: the reader of the exporter's report, the partner ParseExportRoundTrip connects to ExporterLines |
| SettingsExport.EntryRun | modules/Fieldnotes/src/main/java/edu/dhlabuu/fieldnotes/SettingsExporter.java:232-238 | the leading entry lines run up to the first line without `": "` |
| SettingsExport.EntryRunOfEntries | modules/Fieldnotes/src/main/java/edu/dhlabuu/fieldnotes/SettingsExporter.java:232-238 | a section's entry lines are exactly its leading run |
| SettingsExport.ParseExportRoundTrip | modules/Fieldnotes/src/main/java/edu/dhlabuu/fieldnotes/SettingsExporter.java:225-239 | without separator lines the report still reads back to its document, when no name or key holds `": "` |
| SettingsExport.ParseExportStep | modules/Fieldnotes/src/main/java/edu/dhlabuu/fieldnotes/SettingsExporter.java:225-239 | a section in front of a readable report reads back as well |
| SettingsExport.ParseExportSection | modules/Fieldnotes/src/main/java/edu/dhlabuu/fieldnotes/SettingsExporter.java:229-238 | a name line and its entry lines read back as one section |
| SettingsExport.DoubledSeparator | modules/Fieldnotes/src/main/java/edu/dhlabuu/fieldnotes/SettingsExporter.java:115-118 | a key ending in `": "` doubles the separator: the line reads back as the bare key with `": "` in front of the value |
| SettingsExport.ExporterReportReadsBack | modules/Fieldnotes/src/main/java/edu/dhlabuu/fieldnotes/SettingsExporter.java:114-118 | no exporter report reads back to its document: even with the other sections readable, General comes back with the four keys stripped of `": "` and their values prefixed with it |
| SettingsExport.ReadBackAfterGeneral | modules/Fieldnotes/src/main/java/edu/dhlabuu/fieldnotes/SettingsExporter.java:225-239 | any report whose first section is the exporter's General reads back as that read-back, never as itself |
| SettingsExport.WrittenExportReadBack | modules/Fieldnotes/src/main/java/edu/dhlabuu/fieldnotes/SettingsExporter.java:216-239 | the exporter's file left on disk, when no write fails, reads back as its report does |
| SettingsExport.ReadBackGeneral | modules/Fieldnotes/src/main/java/edu/dhlabuu/fieldnotes/SettingsExporter.java:114-118 | the general entries a reader gets back: the bare keys, and `": "` in front of four of the values (the reference that ExporterReportReadsBack compares with) |
| SettingsExport.SnapshotOfSix | modules/Fieldnotes/src/main/java/edu/dhlabuu/fieldnotes/SettingsExporter.java:102-108 | a six-entry settings list reads as its six sections |
| SettingsExport.GeneralEntries | modules/Fieldnotes/src/main/java/edu/dhlabuu/fieldnotes/SettingsExporter.java:114-118 | the general puts are the five `put` calls in that order |
| SettingsExport.SettingsExporter.constructor | modules/Fieldnotes/src/main/java/edu/dhlabuu/fieldnotes/SettingsExporter.java:45-47 | the exporter starts neither visible-only nor cancelled |
| SettingsExport.SettingsExporter.SetExportVisible | modules/Fieldnotes/src/main/java/edu/dhlabuu/fieldnotes/SettingsExporter.java:55-58 | sets the flag and nothing else |
| SettingsExport.SettingsExporter.IsExportVisible | modules/Fieldnotes/src/main/java/edu/dhlabuu/fieldnotes/SettingsExporter.java:60-63 | returns the flag last set |
| SettingsExport.SettingsExporter.Cancel | modules/Fieldnotes/src/main/java/edu/dhlabuu/fieldnotes/SettingsExporter.java:265-268 | returns true and raises only the cancelled flag |
| SettingsExport.SettingsExporter.Execute | modules/Fieldnotes/src/main/java/edu/dhlabuu/fieldnotes/SettingsExporter.java:65-145 | locks the chosen graph once and never releases it, leaving the other graph alone; throws exactly when there is no edge function; otherwise writes the report's written prefix (unless the open fails), shows the completion dialog and returns true |
| SettingsExport.SettingsExporter.CollectSettings | modules/Fieldnotes/src/main/java/edu/dhlabuu/fieldnotes/SettingsExporter.java:95-124 | returns exactly the six-section document, or the appearance collector's exception |
| SettingsExport.SettingsExporter.AddFiltersToSettings | modules/Fieldnotes/src/main/java/edu/dhlabuu/fieldnotes/SettingsExporter.java:147-164 | the map becomes the old map after the "filter i" puts |
| SettingsExport.SettingsExporter.AddLayoutToSettings | modules/Fieldnotes/src/main/java/edu/dhlabuu/fieldnotes/SettingsExporter.java:166-186 | the map becomes the old map after one placeholder put per layout property |
| SettingsExport.SettingsExporter.AddAppearanceToSettings | modules/Fieldnotes/src/main/java/edu/dhlabuu/fieldnotes/SettingsExporter.java:188-191 | succeeds exactly when there is a first edge function; puts nothing |
| SettingsExport.SettingsExporter.AddStatisticsToSettings | modules/Fieldnotes/src/main/java/edu/dhlabuu/fieldnotes/SettingsExporter.java:193-198 | the map becomes the old map after putting the statistics text |
| SettingsExport.SettingsExporter.AddPreviewToSettings | modules/Fieldnotes/src/main/java/edu/dhlabuu/fieldnotes/SettingsExporter.java:200-214 | the map becomes the old map after the preview puts |
| SettingsExport.SettingsExporter.WriteSettings | modules/Fieldnotes/src/main/java/edu/dhlabuu/fieldnotes/SettingsExporter.java:216-253 | a failed open writes nothing; otherwise the file holds the report's written prefix; no dialog ever |
| SettingsExport.SettingsExporter.FormatSettings | modules/Fieldnotes/src/main/java/edu/dhlabuu/fieldnotes/SettingsExporter.java:225-239 | the outer loop's lines are the exporter's report of the document |
| SettingsExport.SettingsExporter.FormatSection | modules/Fieldnotes/src/main/java/edu/dhlabuu/fieldnotes/SettingsExporter.java:227-238 | the section name, then one line per entry |
| GeoAttributes.FirstPicked | modules/Fieldnotes/src/main/java/edu/dhlabuu/fieldnotes/GeoAttributeFinder.java:53-65 | no column before the index is picked by any pattern, and the column at it (if any) is |
| GeoAttributes.PickedIsFirstColumn | modules/Fieldnotes/src/main/java/edu/dhlabuu/fieldnotes/GeoAttributeFinder.java:53-62 | the first column any pattern accepts is returned, however late its pattern comes |
| GeoAttributes.PickedAccepted | modules/Fieldnotes/src/main/java/edu/dhlabuu/fieldnotes/GeoAttributeFinder.java:52-66 | a column is returned exactly when some pattern accepts some column, and it is a numeric table column that a pattern matches |
| GeoAttributes.PickedNone | modules/Fieldnotes/src/main/java/edu/dhlabuu/fieldnotes/GeoAttributeFinder.java:65 | null when no column is accepted |
| GeoAttributes.Picked | modules/Fieldnotes/src/main/java/edu/dhlabuu/fieldnotes/GeoAttributeFinder.java:52-66 | definition: the column at the first picked index, or null (PickedIsFirstColumn, PickedAccepted; GetAttributeField is proved against it) |
| GeoAttributes.Suffixed | modules/Fieldnotes/src/main/java/edu/dhlabuu/fieldnotes/GeoAttributeFinder.java:27-29 | each short name with `$` after it, in order |
| GeoAttributes.Wrapped | modules/Fieldnotes/src/main/java/edu/dhlabuu/fieldnotes/GeoAttributeFinder.java:31-33 | each short name between `(.*)` and `(.*)`, in order |
| GeoAttributes.AxisPatterns | modules/Fieldnotes/src/main/java/edu/dhlabuu/fieldnotes/GeoAttributeFinder.java:25-33 | definition: one axis's list as the latitude half builds it (AxisPatternsFromAxis) |
| GeoAttributes.LatitudePatternsAsWritten | modules/Fieldnotes/src/main/java/edu/dhlabuu/fieldnotes/GeoAttributeFinder.java:25-43 | definition: the latitude list with the longitude names appended by the second loop (LatitudeNotFromOwnAxis, LatitudeDependsOnLongitude) |
| GeoAttributes.LongitudePatternsAsWritten | modules/Fieldnotes/src/main/java/edu/dhlabuu/fieldnotes/GeoAttributeFinder.java:35-40 | definition: the longitude list without any `(.*)name(.*)` pattern (LongitudeTakenForLatitude) |
| GeoAttributes.AxisPatternsFromAxis | modules/Fieldnotes/src/main/java/edu/dhlabuu/fieldnotes/GeoAttributeFinder.java:25-33 | every pattern of an axis's list comes from that axis's own names |
| GeoAttributes.IntendedFromOwnAxis | modules/Fieldnotes/src/main/java/edu/dhlabuu/fieldnotes/GeoAttributeFinder.java:35-43 | corrected lists: each axis's patterns come from its own names, and the latitude list does not depend on the longitude names |
| GeoAttributes.LatitudeNotFromOwnAxis | modules/Fieldnotes/src/main/java/edu/dhlabuu/fieldnotes/GeoAttributeFinder.java:41-43 | as written, the latitude list holds a pattern that none of the latitude names gives |
| GeoAttributes.LatitudeDependsOnLongitude | modules/Fieldnotes/src/main/java/edu/dhlabuu/fieldnotes/GeoAttributeFinder.java:41-43 | as written, changing the longitude short names changes the latitude list |
| GeoAttributes.ExampleLists | modules/Fieldnotes/src/main/java/edu/dhlabuu/fieldnotes/GeoAttributeFinder.java:25-43 | the four lists, written out, for the names Latitude/lat and Longitude/lon |
| GeoAttributes.OneShortName | modules/Fieldnotes/src/main/java/edu/dhlabuu/fieldnotes/GeoAttributeFinder.java:27-32 | a bundle value holding one short name adds one pattern of each kind |
| GeoAttributes.LongitudeTakenForLatitude | modules/Fieldnotes/src/main/java/edu/dhlabuu/fieldnotes/GeoAttributeFinder.java:41-47 | as written, a numeric column `geo_lon_deg` is taken for the latitude and no longitude is found; the corrected lists do the reverse |
| GeoAttributes.GeoAttributeFinder.constructor | modules/Fieldnotes/src/main/java/edu/dhlabuu/fieldnotes/GeoAttributeFinder.java:17-18 | no column is selected yet |
| GeoAttributes.GeoAttributeFinder.FindGeoFields | modules/Fieldnotes/src/main/java/edu/dhlabuu/fieldnotes/GeoAttributeFinder.java:24-50 | the fields hold the columns picked by the two lists as written, and the new array is [longitude, latitude] |
| GeoAttributes.GeoAttributeFinder.FindIntendedGeoFields | modules/Fieldnotes/src/main/java/edu/dhlabuu/fieldnotes/GeoAttributeFinder.java:35-47 | corrected: the fields hold the columns picked by the intended lists, the longitude list getting its own wrapped names |
| GeoAttributes.GeoAttributeFinder.AddSuffixed | modules/Fieldnotes/src/main/java/edu/dhlabuu/fieldnotes/GeoAttributeFinder.java:27-29 | the loop appends exactly the suffixed short names |
| GeoAttributes.GeoAttributeFinder.AddWrapped | modules/Fieldnotes/src/main/java/edu/dhlabuu/fieldnotes/GeoAttributeFinder.java:31-33 | the loop appends exactly the wrapped short names |
| GeoAttributes.GeoAttributeFinder.GetAttributeField | modules/Fieldnotes/src/main/java/edu/dhlabuu/fieldnotes/GeoAttributeFinder.java:52-66 | the nested loops return the first column that any pattern accepts, or null |
| GeoAttributes.GeoAttributeFinder.LongitudeColumn | modules/Fieldnotes/src/main/java/edu/dhlabuu/fieldnotes/GeoAttributeFinder.java:71-73 | the longitude column selected |
| GeoAttributes.GeoAttributeFinder.LatitudeColumn | modules/Fieldnotes/src/main/java/edu/dhlabuu/fieldnotes/GeoAttributeFinder.java:78-80 | the latitude column selected |

## Left out

- Logging (`logMessage`, `logError`, `printStackTrace`, `System.out`) is left out because it has no effect the model can observe.
- Progress tickets, `setProgressTicket`, `setOutputStream` and `setWorkspace`/`getWorkspace` are left out. The workspace's graph model is a parameter of `Execute`.
- The logo `ImageIcon` that `init` loads for the dialogs is not modelled; a dialog is its title, its message and its kind.
- GEXF content: a graph export is an opaque `GraphData` file.
- Clock and date format: each timestamp is a parameter. The exporter's unused first timestamp (`SettingsExporter.java:113`) is left out.
- Regular expressions: `Pattern.compile(...).matcher(title).find()` is a function parameter of the finder, so invalid patterns (`PatternSyntaxException`) are not modelled.
- The `split` patterns `","` and `"\\."` are modelled as splitting at one character.
- NetBeans bundle strings are parameters: the finder's `GeoResources`, and the exporter's completion title and message.
- The folder chooser is not modal. Its answers are an input sequence, and a chooser left open has no answer. Swing's threading is not modelled.
- `Files.isWritable` becomes a set of writable folders. A folder is its absolute path, so `getAbsolutePath` is the identity.
- Null handling is left out:
  - a null selected file on OK;
  - a null builder name or property name;
  - a null preview value (its `toString` would throw);
  - `getEdgeFunctions` returning null.
  `String.valueOf(Object)` of a null filter value is modelled ("null").
- `toString` of Gephi objects (statistics model, colours, preview values, edge-function transformers, the time zone) is uninterpreted text.
- The action's `addAppearanceToSettings` is not modelled: its call and its section are commented out. `getColumns` is modelled although nothing in the core calls it.
- In the exporter, the `catch (IOException)` of `execute` is unreachable (`writeSettings` catches every exception itself), so the model has no path for it.
- The exporter's `addAppearanceToSettings` is modelled only as far as whether it throws; what it prints is left out.
- ExportFieldnotes.ExportFieldnotesAction.AddPreviewToSettings: the `==` comparison with the misspelled name is modelled as string equality. Java compares references there, which agrees only when Gephi hands out the interned literal.
- Desktop.WriteLines: `BufferedWriter` buffering is abstracted. A failing write loses exactly the lines from the failing one on, and whether `close` fails is independent of it.
- ExportFieldnotes.ExportFieldnotesAction.HandleFolderSelected: as in the source, an exception from the layout collector leaves the read lock held. The model records this but does not correct it.
- SettingsExport.SettingsExporter.Execute: as in the source, the read lock is never released. The `cancelled` flag is never read, so cancelling does not stop an export.
- Line breaks: a report is modelled as a list of lines, so the round trips do not cover a section name, key or value that holds `'\n'` or `'\r'`. On disk such text splits into several lines.
- SettingsExport.FirstNamed: `PreviewProperties.getValue(name)` is taken to return the first property of that name. Gephi keeps its preview properties in a map, so their names are distinct, and that is what SettingsExport.PreviewSection requires; SettingsExport.PreviewSectionLooksUp holds without it.
- GephiModels.PreviewValue: one tag stands for both `getType()` and the value's class, so a property whose declared type is a colour wrapper but whose value is not one cannot be expressed. In Java, the `cast` calls throw `ClassCastException` for it.
- Integer widths: edge counts, node counts and query indices are unbounded naturals. Their printed form matches `String.valueOf` for every non-negative `int`.
- `SettingsExporterUI`, `SettingsExporterBuilder`, `Filter.java` and `Fieldnotes.java` are not part of this model.

## Findings

| source | as written | input that shows it | evidently intended | confidence | as-written member | corrected member |
|---|---|---|---|---|---|---|
| modules/Fieldnotes/src/main/java/edu/dhlabuu/fieldnotes/GeoAttributeFinder.java:41-43 | the loop over the longitude short names adds the `(.*)name(.*)` patterns to `latAttributes`, so the latitude list holds longitude patterns and the longitude list has none of that kind | bundle names Latitude/"lat" and Longitude/"lon" with one numeric column titled `geo_lon_deg`: latitude pattern 4 is `(.*)lon(.*)`, so the column is taken for the latitude and no longitude is found | the second loop adds to `lonAttributes`, mirroring lines 31-33 | not executed | GeoAttributes.LatitudeNotFromOwnAxis, GeoAttributes.LatitudeDependsOnLongitude, GeoAttributes.LongitudeTakenForLatitude | GeoAttributes.GeoAttributeFinder.FindIntendedGeoFields, GeoAttributes.IntendedFromOwnAxis |
