/**
 * CreateInternalDataSource: derives an in-memory feature type from the
 * symbolizers of a styled layer descriptor, so that a style can be shown
 * without an external data source.
 */
module InternalDataSource {
  import opened Nullable

  // ---------------------------------------------------------------------
  // The styled layer descriptor, reduced to what the geometry count reads
  // ---------------------------------------------------------------------

  /** The symbolizer kinds of a rule; only the first three are counted. */
  datatype SymbolizerKind = PointSymbolizer | LineSymbolizer | PolygonSymbolizer | TextSymbolizer | RasterSymbolizer

  datatype Rule = Rule(symbolizers: seq<SymbolizerKind>)
  datatype FeatureTypeStyle = FeatureTypeStyle(rules: seq<Rule>)
  datatype Style = Style(featureTypeStyles: seq<FeatureTypeStyle>)

  /** A styled layer: a named layer (NamedLayerImpl) or a user layer with its own styles. */
  datatype StyledLayer = NamedLayer(styles: seq<Style>) | UserLayer(userStyles: seq<Style>)

  datatype StyledLayerDescriptor = StyledLayerDescriptor(layers: seq<StyledLayer>)

  /** GeometryTypeEnum. */
  datatype GeometryType = Unknown | Point | Line | Polygon | Raster

  // ---------------------------------------------------------------------
  // How many symbolizers of a kind a document holds, level by level
  // ---------------------------------------------------------------------

  function SymbolizerCount(symbolizers: seq<SymbolizerKind>, kind: SymbolizerKind): nat
  {
    if |symbolizers| == 0 then 0
    else SymbolizerCount(symbolizers[..|symbolizers| - 1], kind) + (if symbolizers[|symbolizers| - 1] == kind then 1 else 0)
  }

  function RuleCount(rules: seq<Rule>, kind: SymbolizerKind): nat
  {
    if |rules| == 0 then 0
    else RuleCount(rules[..|rules| - 1], kind) + SymbolizerCount(rules[|rules| - 1].symbolizers, kind)
  }

  function FeatureTypeStyleCount(ftss: seq<FeatureTypeStyle>, kind: SymbolizerKind): nat
  {
    if |ftss| == 0 then 0
    else FeatureTypeStyleCount(ftss[..|ftss| - 1], kind) + RuleCount(ftss[|ftss| - 1].rules, kind)
  }

  function StyleCount(styles: seq<Style>, kind: SymbolizerKind): nat
  {
    if |styles| == 0 then 0
    else StyleCount(styles[..|styles| - 1], kind) + FeatureTypeStyleCount(styles[|styles| - 1].featureTypeStyles, kind)
  }

  /** Only named layers are looked into; user layers add nothing. */
  function LayerCount(layers: seq<StyledLayer>, kind: SymbolizerKind): nat
  {
    if |layers| == 0 then 0
    else
      var last := layers[|layers| - 1];
      LayerCount(layers[..|layers| - 1], kind) + (if last.NamedLayer? then StyleCount(last.styles, kind) else 0)
  }

  // ---------------------------------------------------------------------
  // Whether a document holds a symbolizer of a kind, stated directly
  // ---------------------------------------------------------------------

  ghost predicate RulesHave(rules: seq<Rule>, kind: SymbolizerKind)
  {
    exists r :: r in rules && kind in r.symbolizers
  }

  ghost predicate FeatureTypeStylesHave(ftss: seq<FeatureTypeStyle>, kind: SymbolizerKind)
  {
    exists f :: f in ftss && RulesHave(f.rules, kind)
  }

  ghost predicate StylesHave(styles: seq<Style>, kind: SymbolizerKind)
  {
    exists s :: s in styles && FeatureTypeStylesHave(s.featureTypeStyles, kind)
  }

  /** Some named layer of the list holds a symbolizer of the kind somewhere below it. */
  ghost predicate NamedLayersHave(layers: seq<StyledLayer>, kind: SymbolizerKind)
  {
    exists l :: l in layers && l.NamedLayer? && StylesHave(l.styles, kind)
  }

  lemma {:induction false} SymbolizerCountPositive(symbolizers: seq<SymbolizerKind>, kind: SymbolizerKind)
    ensures SymbolizerCount(symbolizers, kind) > 0 <==> kind in symbolizers
  {
    if |symbolizers| > 0 {
      var front := symbolizers[..|symbolizers| - 1];
      SymbolizerCountPositive(front, kind);
      assert symbolizers == front + [symbolizers[|symbolizers| - 1]];
    }
  }

  lemma {:induction false} RuleCountPositive(rules: seq<Rule>, kind: SymbolizerKind)
    ensures RuleCount(rules, kind) > 0 <==> RulesHave(rules, kind)
  {
    if |rules| > 0 {
      var front, last := rules[..|rules| - 1], rules[|rules| - 1];
      RuleCountPositive(front, kind);
      SymbolizerCountPositive(last.symbolizers, kind);
      assert rules == front + [last];
      if RulesHave(rules, kind) {
        var r :| r in rules && kind in r.symbolizers;
        if r != last {
          assert r in front;
        }
      }
      if RulesHave(front, kind) {
        var r :| r in front && kind in r.symbolizers;
        assert r in rules;
      }
    }
  }

  lemma {:induction false} FeatureTypeStyleCountPositive(ftss: seq<FeatureTypeStyle>, kind: SymbolizerKind)
    ensures FeatureTypeStyleCount(ftss, kind) > 0 <==> FeatureTypeStylesHave(ftss, kind)
  {
    if |ftss| > 0 {
      var front, last := ftss[..|ftss| - 1], ftss[|ftss| - 1];
      FeatureTypeStyleCountPositive(front, kind);
      RuleCountPositive(last.rules, kind);
      assert ftss == front + [last];
      if FeatureTypeStylesHave(ftss, kind) {
        var f :| f in ftss && RulesHave(f.rules, kind);
        if f != last {
          assert f in front;
        }
      }
      if FeatureTypeStylesHave(front, kind) {
        var f :| f in front && RulesHave(f.rules, kind);
        assert f in ftss;
      }
    }
  }

  lemma {:induction false} StyleCountPositive(styles: seq<Style>, kind: SymbolizerKind)
    ensures StyleCount(styles, kind) > 0 <==> StylesHave(styles, kind)
  {
    if |styles| > 0 {
      var front, last := styles[..|styles| - 1], styles[|styles| - 1];
      StyleCountPositive(front, kind);
      FeatureTypeStyleCountPositive(last.featureTypeStyles, kind);
      assert styles == front + [last];
      if StylesHave(styles, kind) {
        var s :| s in styles && FeatureTypeStylesHave(s.featureTypeStyles, kind);
        if s != last {
          assert s in front;
        }
      }
      if StylesHave(front, kind) {
        var s :| s in front && FeatureTypeStylesHave(s.featureTypeStyles, kind);
        assert s in styles;
      }
    }
  }

  /** The counter for a kind is positive exactly when some named layer holds a symbolizer of that kind. */
  lemma {:induction false} LayerCountPositive(layers: seq<StyledLayer>, kind: SymbolizerKind)
    ensures LayerCount(layers, kind) > 0 <==> NamedLayersHave(layers, kind)
  {
    if |layers| > 0 {
      var front, last := layers[..|layers| - 1], layers[|layers| - 1];
      LayerCountPositive(front, kind);
      if last.NamedLayer? {
        StyleCountPositive(last.styles, kind);
      }
      assert layers == front + [last];
      if NamedLayersHave(layers, kind) {
        var l :| l in layers && l.NamedLayer? && StylesHave(l.styles, kind);
        if l != last {
          assert l in front;
        }
      }
      if NamedLayersHave(front, kind) {
        var l :| l in front && l.NamedLayer? && StylesHave(l.styles, kind);
        assert l in layers;
      }
    }
  }

  /** Appending a user layer, whatever its styles, changes no counter. */
  lemma UserLayerIgnored(layers: seq<StyledLayer>, userStyles: seq<Style>, kind: SymbolizerKind)
    ensures LayerCount(layers + [UserLayer(userStyles)], kind) == LayerCount(layers, kind)
  {
    assert (layers + [UserLayer(userStyles)])[..|layers|] == layers;
  }

  /** The counters of a list of layers are the sums of the counters of its two parts. */
  lemma {:induction false} LayerCountAppend(a: seq<StyledLayer>, b: seq<StyledLayer>, kind: SymbolizerKind)
    ensures LayerCount(a + b, kind) == LayerCount(a, kind) + LayerCount(b, kind)
  {
    if |b| > 0 {
      var front := b[..|b| - 1];
      LayerCountAppend(a, front, kind);
      assert (a + b)[..|a + b| - 1] == a + front;
    } else {
      assert a + b == a;
    }
  }

  // ---------------------------------------------------------------------
  // determineGeometryType
  // ---------------------------------------------------------------------

  /** The precedence rule: point beats line, line beats polygon, otherwise the type is kept. */
  function SelectGeometryType(current: GeometryType, pointCount: nat, lineCount: nat, polygonCount: nat): (t: GeometryType)
    ensures pointCount > 0 ==> t == Point
    ensures pointCount == 0 && lineCount > 0 ==> t == Line
    ensures pointCount == 0 && lineCount == 0 && polygonCount > 0 ==> t == Polygon
    ensures pointCount == 0 && lineCount == 0 && polygonCount == 0 ==> t == current
  {
    if pointCount > 0 then Point
    else if lineCount > 0 then Line
    else if polygonCount > 0 then Polygon
    else current
  }

  /** The geometry type determineGeometryType leaves for a document (null keeps the current type). */
  function DeterminedGeometryType(current: GeometryType, sld: Option<StyledLayerDescriptor>): GeometryType
  {
    match sld
    case None => current
    case Some(d) =>
      SelectGeometryType(current, LayerCount(d.layers, PointSymbolizer),
                         LayerCount(d.layers, LineSymbolizer), LayerCount(d.layers, PolygonSymbolizer))
  }

  /** The determined type in terms of the symbolizers present, without counting. */
  lemma DeterminedByPresence(current: GeometryType, sld: StyledLayerDescriptor)
    ensures var t := DeterminedGeometryType(current, Some(sld));
            && (NamedLayersHave(sld.layers, PointSymbolizer) ==> t == Point)
            && (!NamedLayersHave(sld.layers, PointSymbolizer) && NamedLayersHave(sld.layers, LineSymbolizer) ==> t == Line)
            && ((!NamedLayersHave(sld.layers, PointSymbolizer) && !NamedLayersHave(sld.layers, LineSymbolizer)
                 && NamedLayersHave(sld.layers, PolygonSymbolizer)) ==> t == Polygon)
            && ((!NamedLayersHave(sld.layers, PointSymbolizer) && !NamedLayersHave(sld.layers, LineSymbolizer)
                 && !NamedLayersHave(sld.layers, PolygonSymbolizer)) ==> t == current)
  {
    LayerCountPositive(sld.layers, PointSymbolizer);
    LayerCountPositive(sld.layers, LineSymbolizer);
    LayerCountPositive(sld.layers, PolygonSymbolizer);
  }

  /** The innermost loop: the symbolizers of one rule, counted by kind. */
  method CountSymbolizers(symbolizers: seq<SymbolizerKind>) returns (pointCount: nat, lineCount: nat, polygonCount: nat)
    ensures pointCount == SymbolizerCount(symbolizers, PointSymbolizer)
    ensures lineCount == SymbolizerCount(symbolizers, LineSymbolizer)
    ensures polygonCount == SymbolizerCount(symbolizers, PolygonSymbolizer)
  {
    pointCount, lineCount, polygonCount := 0, 0, 0;
    var i := 0;
    while i < |symbolizers|
      invariant 0 <= i <= |symbolizers|
      invariant pointCount == SymbolizerCount(symbolizers[..i], PointSymbolizer)
      invariant lineCount == SymbolizerCount(symbolizers[..i], LineSymbolizer)
      invariant polygonCount == SymbolizerCount(symbolizers[..i], PolygonSymbolizer)
    {
      assert symbolizers[..i + 1][..i] == symbolizers[..i];
      var symbolizer := symbolizers[i];
      if symbolizer == PointSymbolizer {
        pointCount := pointCount + 1;
      } else if symbolizer == LineSymbolizer {
        lineCount := lineCount + 1;
      } else if symbolizer == PolygonSymbolizer {
        polygonCount := polygonCount + 1;
      }
      i := i + 1;
    }
    assert symbolizers[..i] == symbolizers;
  }

  /** The loop over the rules of a feature type style. */
  method CountRules(rules: seq<Rule>) returns (pointCount: nat, lineCount: nat, polygonCount: nat)
    ensures pointCount == RuleCount(rules, PointSymbolizer)
    ensures lineCount == RuleCount(rules, LineSymbolizer)
    ensures polygonCount == RuleCount(rules, PolygonSymbolizer)
  {
    pointCount, lineCount, polygonCount := 0, 0, 0;
    var i := 0;
    while i < |rules|
      invariant 0 <= i <= |rules|
      invariant pointCount == RuleCount(rules[..i], PointSymbolizer)
      invariant lineCount == RuleCount(rules[..i], LineSymbolizer)
      invariant polygonCount == RuleCount(rules[..i], PolygonSymbolizer)
    {
      assert rules[..i + 1][..i] == rules[..i];
      var p, l, g := CountSymbolizers(rules[i].symbolizers);
      pointCount, lineCount, polygonCount := pointCount + p, lineCount + l, polygonCount + g;
      i := i + 1;
    }
    assert rules[..i] == rules;
  }

  /** The loop over the feature type styles of a style. */
  method CountFeatureTypeStyles(ftss: seq<FeatureTypeStyle>) returns (pointCount: nat, lineCount: nat, polygonCount: nat)
    ensures pointCount == FeatureTypeStyleCount(ftss, PointSymbolizer)
    ensures lineCount == FeatureTypeStyleCount(ftss, LineSymbolizer)
    ensures polygonCount == FeatureTypeStyleCount(ftss, PolygonSymbolizer)
  {
    pointCount, lineCount, polygonCount := 0, 0, 0;
    var i := 0;
    while i < |ftss|
      invariant 0 <= i <= |ftss|
      invariant pointCount == FeatureTypeStyleCount(ftss[..i], PointSymbolizer)
      invariant lineCount == FeatureTypeStyleCount(ftss[..i], LineSymbolizer)
      invariant polygonCount == FeatureTypeStyleCount(ftss[..i], PolygonSymbolizer)
    {
      assert ftss[..i + 1][..i] == ftss[..i];
      var p, l, g := CountRules(ftss[i].rules);
      pointCount, lineCount, polygonCount := pointCount + p, lineCount + l, polygonCount + g;
      i := i + 1;
    }
    assert ftss[..i] == ftss;
  }

  /** The loop over the styles of a named layer. */
  method CountStyles(styles: seq<Style>) returns (pointCount: nat, lineCount: nat, polygonCount: nat)
    ensures pointCount == StyleCount(styles, PointSymbolizer)
    ensures lineCount == StyleCount(styles, LineSymbolizer)
    ensures polygonCount == StyleCount(styles, PolygonSymbolizer)
  {
    pointCount, lineCount, polygonCount := 0, 0, 0;
    var i := 0;
    while i < |styles|
      invariant 0 <= i <= |styles|
      invariant pointCount == StyleCount(styles[..i], PointSymbolizer)
      invariant lineCount == StyleCount(styles[..i], LineSymbolizer)
      invariant polygonCount == StyleCount(styles[..i], PolygonSymbolizer)
    {
      assert styles[..i + 1][..i] == styles[..i];
      var p, l, g := CountFeatureTypeStyles(styles[i].featureTypeStyles);
      pointCount, lineCount, polygonCount := pointCount + p, lineCount + l, polygonCount + g;
      i := i + 1;
    }
    assert styles[..i] == styles;
  }

  /** The outer loop over the layers of a document; layers that are not named layers are skipped. */
  method CountLayers(layers: seq<StyledLayer>) returns (pointCount: nat, lineCount: nat, polygonCount: nat)
    ensures pointCount == LayerCount(layers, PointSymbolizer)
    ensures lineCount == LayerCount(layers, LineSymbolizer)
    ensures polygonCount == LayerCount(layers, PolygonSymbolizer)
  {
    pointCount, lineCount, polygonCount := 0, 0, 0;
    var i := 0;
    while i < |layers|
      invariant 0 <= i <= |layers|
      invariant pointCount == LayerCount(layers[..i], PointSymbolizer)
      invariant lineCount == LayerCount(layers[..i], LineSymbolizer)
      invariant polygonCount == LayerCount(layers[..i], PolygonSymbolizer)
    {
      assert layers[..i + 1][..i] == layers[..i];
      if layers[i].NamedLayer? {
        var p, l, g := CountStyles(layers[i].styles);
        pointCount, lineCount, polygonCount := pointCount + p, lineCount + l, polygonCount + g;
      }
      i := i + 1;
    }
    assert layers[..i] == layers;
  }

  // ---------------------------------------------------------------------
  // The feature type being built
  // ---------------------------------------------------------------------

  /** The Java class an attribute is bound to. */
  datatype AttributeClass = GeometryClass | PointClass | LineStringClass | MultiPolygonClass | OtherClass(className: string)

  /** One attribute of the feature type: its name and its binding. */
  datatype Attribute = Attribute(name: string, binding: AttributeClass)

  /** A built feature type (SimpleFeatureType): name, ordered attributes and default geometry. */
  datatype FeatureType = FeatureType(typeName: Option<string>, attributes: seq<Attribute>, defaultGeometry: Option<string>)

  /** One field of the document's field list (DataSourceFieldInterface). */
  datatype DataSourceField = DataSourceField(name: string, fieldType: AttributeClass)

  /** The binding of the geometry attribute for a geometry type: polygons, lines, and points otherwise. */
  function GeometryBinding(geometryType: GeometryType): (c: AttributeClass)
    ensures geometryType == Polygon ==> c == MultiPolygonClass
    ensures geometryType == Line ==> c == LineStringClass
    ensures geometryType != Polygon && geometryType != Line ==> c == PointClass
  {
    match geometryType
    case Polygon => MultiPolygonClass
    case Line => LineStringClass
    case _ => PointClass
  }

  /** The attributes addFields appends for a field list, in order. */
  function FieldAttributes(fields: seq<DataSourceField>, geometryType: GeometryType): (attributes: seq<Attribute>)
    ensures |attributes| == |fields|
    ensures forall i :: 0 <= i < |fields| ==> attributes[i].name == fields[i].name
    ensures forall i :: 0 <= i < |fields| ==>
              attributes[i].binding == if fields[i].fieldType == GeometryClass then GeometryBinding(geometryType) else fields[i].fieldType
  {
    if |fields| == 0 then []
    else
      var last := fields[|fields| - 1];
      FieldAttributes(fields[..|fields| - 1], geometryType)
        + [Attribute(last.name, if last.fieldType == GeometryClass then GeometryBinding(geometryType) else last.fieldType)]
  }

  /** The default geometry after addFields: the last geometry field's name, or the previous default. */
  function LastGeometryField(fields: seq<DataSourceField>, previous: Option<string>): Option<string>
  {
    if |fields| == 0 then previous
    else if fields[|fields| - 1].fieldType == GeometryClass then Some(fields[|fields| - 1].name)
    else LastGeometryField(fields[..|fields| - 1], previous)
  }

  /** A geometry field that no later geometry field follows names the default geometry. */
  lemma {:induction false} LastGeometryFieldWins(fields: seq<DataSourceField>, previous: Option<string>, i: int)
    requires 0 <= i < |fields| && fields[i].fieldType == GeometryClass
    requires forall j :: i < j < |fields| ==> fields[j].fieldType != GeometryClass
    ensures LastGeometryField(fields, previous) == Some(fields[i].name)
  {
    if i < |fields| - 1 {
      LastGeometryFieldWins(fields[..|fields| - 1], previous, i);
    }
  }

  /** Without a geometry field the default geometry is kept. */
  lemma {:induction false} NoGeometryFieldKeepsDefault(fields: seq<DataSourceField>, previous: Option<string>)
    requires forall j :: 0 <= j < |fields| ==> fields[j].fieldType != GeometryClass
    ensures LastGeometryField(fields, previous) == previous
  {
    if |fields| > 0 {
      NoGeometryFieldKeepsDefault(fields[..|fields| - 1], previous);
    }
  }

  /** SimpleFeatureTypeBuilder: a name, the attributes added so far and the default geometry name. */
  class FeatureTypeBuilder {
    var typeName: Option<string>
    var attributes: seq<Attribute>
    var defaultGeometry: Option<string>

    constructor ()
      ensures typeName == None && attributes == [] && defaultGeometry == None
    {
      typeName := None;
      attributes := [];
      defaultGeometry := None;
    }

    method SetName(name: string)
      modifies this`typeName
      ensures typeName == Some(name)
    {
      typeName := Some(name);
    }

    /** add(name, binding): one attribute appended. */
    method Add(name: string, binding: AttributeClass)
      modifies this`attributes
      ensures attributes == old(attributes) + [Attribute(name, binding)]
    {
      attributes := attributes + [Attribute(name, binding)];
    }

    method SetDefaultGeometry(name: string)
      modifies this`defaultGeometry
      ensures defaultGeometry == Some(name)
    {
      defaultGeometry := Some(name);
    }

    /** buildFeatureType: the feature type described so far. */
    function BuildFeatureType(): (t: FeatureType)
      reads this
      ensures t.typeName == typeName && t.attributes == attributes && t.defaultGeometry == defaultGeometry
    {
      FeatureType(typeName, attributes, defaultGeometry)
    }
  }

  // ---------------------------------------------------------------------
  // The data source description and the document's data
  // ---------------------------------------------------------------------

  /**
   * DataSourceInfo, reduced to the fields connect sets; the memory data
   * store filled with sample data is only recorded as present.
   */
  class DataSourceInfo {
    var typeName: Option<string>
    var geometryType: GeometryType
    var schema: Option<FeatureType>
    var hasDataStore: bool

    constructor ()
      ensures typeName == None && geometryType == Unknown && schema == None && !hasDataStore
    {
      typeName := None;
      geometryType := Unknown;
      schema := None;
      hasDataStore := false;
    }

    /** reset: back to the state of a fresh description. */
    method Reset()
      modifies this
      ensures typeName == None && geometryType == Unknown && schema == None && !hasDataStore
    {
      typeName := None;
      geometryType := Unknown;
      schema := None;
      hasDataStore := false;
    }
  }

  /** SLDDataInterface, reduced to its field list (null when none was stored). */
  class SLDData {
    var fieldList: Option<seq<DataSourceField>>

    constructor (fieldList: Option<seq<DataSourceField>>)
      ensures this.fieldList == fieldList
    {
      this.fieldList := fieldList;
    }
  }

  /** SLDEditorFileInterface: the document and its data. */
  datatype EditorFile = EditorFile(sld: Option<StyledLayerDescriptor>, sldData: SLDData)

  /**
   * What ExtractAttributes.addDefaultFields does for a document that has no
   * field list: the attributes it appends to the builder, the default
   * geometry it sets on the builder (None when it leaves the builder's) and
   * the field list it returns. It reads the encoded document, so the model
   * takes its outcome as given.
   */
  datatype DefaultFields = DefaultFields(attributes: seq<Attribute>, defaultGeometry: Option<string>, fields: seq<DataSourceField>)

  /** The schema name of the internal data source. */
  const InternalSchemaName := "MEMORY"

  /** The name of the geometry attribute every internal schema starts with. */
  const DefaultGeometryFieldName := "geom"

  /** True when the document brings its own non-empty field list. */
  predicate HasFieldList(data: Option<seq<DataSourceField>>)
  {
    data.Some? && data.value != []
  }

  /** The attributes connect builds: the "geom" attribute, then the fields' or the defaults' attributes. */
  function ConnectedAttributes(geometryType: GeometryType, data: Option<seq<DataSourceField>>, defaults: DefaultFields): (attributes: seq<Attribute>)
    ensures |attributes| >= 1 && attributes[0] == Attribute(DefaultGeometryFieldName, GeometryBinding(geometryType))
    ensures HasFieldList(data) ==> |attributes| == 1 + |data.value|
    ensures HasFieldList(data) ==> attributes[1..] == FieldAttributes(data.value, geometryType)
    ensures !HasFieldList(data) ==> attributes[1..] == defaults.attributes
  {
    [Attribute(DefaultGeometryFieldName, GeometryBinding(geometryType))]
      + if HasFieldList(data) then FieldAttributes(data.value, geometryType) else defaults.attributes
  }

  class CreateInternalDataSource {
    const dsInfo: DataSourceInfo

    constructor ()
      ensures fresh(dsInfo)
      ensures dsInfo.typeName == None && dsInfo.geometryType == Unknown && dsInfo.schema == None && !dsInfo.hasDataStore
    {
      dsInfo := new DataSourceInfo();
    }

    /** determineGeometryType: the counts of the named layers decide, by the precedence rule. */
    method DetermineGeometryType(sld: Option<StyledLayerDescriptor>)
      modifies dsInfo`geometryType
      ensures dsInfo.geometryType == DeterminedGeometryType(old(dsInfo.geometryType), sld)
    {
      if sld.None? {
        return;
      }
      var pointCount, lineCount, polygonCount := CountLayers(sld.value.layers);
      if pointCount > 0 {
        dsInfo.geometryType := Point;
      } else if lineCount > 0 {
        dsInfo.geometryType := Line;
      } else if polygonCount > 0 {
        dsInfo.geometryType := Polygon;
      }
    }

    /** setGeometryField: a geometry attribute bound by the geometry type, which becomes the default geometry. */
    method SetGeometryField(b: FeatureTypeBuilder, geometryFieldName: string)
      modifies b`attributes, b`defaultGeometry
      ensures b.attributes == old(b.attributes) + [Attribute(geometryFieldName, GeometryBinding(dsInfo.geometryType))]
      ensures b.defaultGeometry == Some(geometryFieldName)
    {
      var binding := match dsInfo.geometryType
        case Polygon => MultiPolygonClass
        case Line => LineStringClass
        case _ => PointClass;
      b.Add(geometryFieldName, binding);
      b.SetDefaultGeometry(geometryFieldName);
    }

    /**
     * addFields: one attribute per field, in order; geometry fields go
     * through setGeometryField under their own name.
     */
    method AddFields(b: FeatureTypeBuilder, fieldList: seq<DataSourceField>)
      modifies b`attributes, b`defaultGeometry
      ensures b.attributes == old(b.attributes) + FieldAttributes(fieldList, dsInfo.geometryType)
      ensures |b.attributes| == |old(b.attributes)| + |fieldList|
      ensures b.defaultGeometry == LastGeometryField(fieldList, old(b.defaultGeometry))
    {
      var i := 0;
      while i < |fieldList|
        invariant 0 <= i <= |fieldList|
        invariant b.attributes == old(b.attributes) + FieldAttributes(fieldList[..i], dsInfo.geometryType)
        invariant b.defaultGeometry == LastGeometryField(fieldList[..i], old(b.defaultGeometry))
      {
        assert fieldList[..i + 1][..i] == fieldList[..i];
        var field := fieldList[i];
        if field.fieldType == GeometryClass {
          SetGeometryField(b, field.name);
        } else {
          b.Add(field.name, field.fieldType);
        }
        i := i + 1;
      }
      assert fieldList[..i] == fieldList;
    }

    /**
     * connect: a null editor file gives the freshly reset description;
     * otherwise the geometry type is determined, the schema "MEMORY" is
     * built with the "geom" attribute first and then the document's fields
     * (or the extracted defaults when it has none), the field list is
     * stored back and the sample data store is attached.
     */
    method Connect(editorFile: Option<EditorFile>, defaults: DefaultFields) returns (info: DataSourceInfo)
      modifies dsInfo, if editorFile.Some? then {editorFile.value.sldData} else {}
      ensures info == dsInfo
      ensures editorFile.None? ==>
                info.typeName == None && info.geometryType == Unknown && info.schema == None && !info.hasDataStore
      ensures editorFile.Some? ==>
                var data := old(editorFile.value.sldData.fieldList);
                var geometryType := DeterminedGeometryType(Unknown, editorFile.value.sld);
                && info.typeName == Some(InternalSchemaName)
                && info.geometryType == geometryType
                && info.schema == Some(FeatureType(Some(InternalSchemaName),
                                                   ConnectedAttributes(geometryType, data, defaults),
                                                   if HasFieldList(data) then LastGeometryField(data.value, Some(DefaultGeometryFieldName))
                                                   else if defaults.defaultGeometry.Some? then defaults.defaultGeometry
                                                   else Some(DefaultGeometryFieldName)))
                && editorFile.value.sldData.fieldList == (if HasFieldList(data) then data else Some(defaults.fields))
                && info.hasDataStore
    {
      dsInfo.Reset();
      info := dsInfo;
      if editorFile.Some? {
        var sld := editorFile.value.sld;
        var sldData := editorFile.value.sldData;

        DetermineGeometryType(sld);

        var b := new FeatureTypeBuilder();
        dsInfo.typeName := Some(InternalSchemaName);
        b.SetName(InternalSchemaName);

        var fieldList := sldData.fieldList;
        SetGeometryField(b, DefaultGeometryFieldName);
        assert b.attributes == [Attribute(DefaultGeometryFieldName, GeometryBinding(dsInfo.geometryType))];

        if fieldList.None? || fieldList.value == [] {
          b.attributes := b.attributes + defaults.attributes;
          if defaults.defaultGeometry.Some? {
            b.SetDefaultGeometry(defaults.defaultGeometry.value);
          }
          fieldList := Some(defaults.fields);
        } else {
          AddFields(b, fieldList.value);
        }

        sldData.fieldList := fieldList;

        dsInfo.schema := Some(b.BuildFeatureType());
        dsInfo.hasDataStore := true;
      }
    }
  }
}
