/**
 * The parts of the Gephi session the exporters read, as plain data. Every
 * Gephi object that the code only turns into text is represented by the text
 * it prints (its `toString`); the graph is the one object whose state the
 * exporters change, through its read lock.
 */
module GephiModels {
  import opened Wrappers

  /** What the exporters ask of a graph (`isDirected`, counts, time zone, attribute keys). */
  datatype GraphFacts = GraphFacts(
    directed: bool,
    edgeCount: nat,
    nodeCount: nat,
    timeZone: string,          // String.valueOf of the model's time zone
    attributeKeys: seq<string> // the graph's attribute keys in iteration order
  )

  /** A graph together with its read lock, which is modelled by the number of reads held. */
  class Graph {
    const facts: GraphFacts
    var readLocks: nat

    constructor (facts: GraphFacts)
      ensures this.facts == facts && readLocks == 0
    {
      this.facts := facts;
      readLocks := 0;
    }

    /** `readLock()`. */
    method ReadLock()
      modifies this
      ensures readLocks == old(readLocks) + 1
    {
      readLocks := readLocks + 1;
    }

    /** `readUnlock()`: only a reader that holds the lock may release it. */
    method ReadUnlock()
      requires readLocks > 0
      modifies this
      ensures readLocks == old(readLocks) - 1
    {
      readLocks := readLocks - 1;
    }
  }

  /** A workspace's graph model: `getGraph()` and `getGraphVisible()`. */
  datatype GraphModel = GraphModel(graph: Graph, visibleGraph: Graph)

  /** An arbitrary Java object, by its `toString`, or null. */
  datatype JavaObject = Null | Instance(text: string)

  /** `String.valueOf(Object)`. */
  function ValueOf(o: JavaObject): string
  {
    match o
    case Null => "null"
    case Instance(text) => text
  }

  /** Property j of a filter query: `getPropertyName(j)` and `getPropertyValue(j)`. */
  datatype QueryProperty = QueryProperty(name: string, value: JavaObject)

  datatype Query = Query(name: string, properties: seq<QueryProperty>)

  /** `FilterModel.getQueries()`. */
  datatype FilterModel = FilterModel(queries: seq<Query>)

  /** A layout property, by `getCanonicalName()`. */
  datatype LayoutProperty = LayoutProperty(canonicalName: string)

  /** The selected layout: its builder's name and `getProperties()`. */
  datatype Layout = Layout(builderName: string, properties: seq<LayoutProperty>)

  /** `LayoutModel.getSelectedLayout()`, which may be null. */
  datatype LayoutModel = LayoutModel(selectedLayout: Option<Layout>)

  /** `AppearanceModel.getEdgeFunctions(graph)`, each by its transformer's `toString`. */
  datatype AppearanceModel = AppearanceModel(edgeFunctions: seq<string>)

  /** The statistics model, by its `toString`. */
  datatype StatisticsModel = StatisticsModel(text: string)

  /** A `java.awt.Color`, by its `toString`. */
  datatype Color = Color(text: string)

  /**
   * The value of a preview property, tagged by the property's type. Each
   * wrapper carries its own `toString` and the custom colour it wraps.
   */
  datatype PreviewValue =
    | Plain(text: string)
    | DependantColorValue(text: string, customColor: Color)
    | DependantOriginalColorValue(text: string, customColor: Color)
    | EdgeColorValue(text: string, customColor: Color)
  {
    /** The value's own `toString`. */
    function Text(): string
    {
      match this
      case Plain(t) => t
      case DependantColorValue(t, _) => t
      case DependantOriginalColorValue(t, _) => t
      case EdgeColorValue(t, _) => t
    }
  }

  datatype PreviewProperty = PreviewProperty(name: string, value: PreviewValue)

  /** `PreviewModel.getProperties().getProperties()`. */
  datatype PreviewModel = PreviewModel(properties: seq<PreviewProperty>)

  /** The five subsystem models the exporters look up. */
  datatype Models = Models(
    filter: FilterModel,
    layout: LayoutModel,
    appearance: AppearanceModel,
    statistics: StatisticsModel,
    preview: PreviewModel
  )

  /** `Column.getTypeClass()`, with the numeric classes named. */
  datatype TypeClass = FloatClass | DoubleClass | BigDecimalClass | OtherClass(name: string)

  datatype Column = Column(title: string, typeClass: TypeClass)

  /** A table, by `countColumns()` and `getColumn(i)`. */
  datatype Table = Table(columns: seq<Column>)
}
