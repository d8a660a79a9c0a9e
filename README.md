# SLD Editor field configurations, internal data source and filter descriptors in Dafny

This project models three parts of the SLD Editor, a desktop editor for
Styled Layer Descriptor documents, and proves properties of the model:

- **Two field configurations with undo history.** `FieldConfigEnum` is a
  drop-down over options declared by symbol-type configurations. Its
  selection decides which dependent fields of the panel are enabled.
  `FieldConfigTransformation` is a read-only text area that shows a
  rendering transformation and has Edit and Clear buttons. Both commit
  their edits to the process-wide undo manager. The model reduces the
  manager to an append-only log of events, so "exactly one event per
  commit" and "replay pushes nothing" can be stated.
- **The internal data source** (`CreateInternalDataSource`). It counts
  the point, line and polygon symbolizers of the named layers of a
  document. It picks a geometry type from those counts (point beats line,
  line beats polygon). It then builds the in-memory schema `MEMORY`: the
  `geom` attribute comes first, then the document's fields.
- **Two filter-function descriptors** (`Contains`, `TEquals`). Each has
  a fixed name, return type and ordered parameters. Each builds binary
  filters from a parameter list and has a fixed `toString` format.

Files:

- `common.dfy`: `Option` (Java null) and the shared field-configuration types.
- `undo.dfy`: undo payloads, events and the undo manager's event log.
- `field_config_enum.dfy`: module `EnumConfig`.
- `field_config_transformation.dfy`: module `TransformConfig`.
- `create_internal_data_source.dfy`: module `InternalDataSource`.
- `filter_function.dfy`: module `FilterFunction`, the descriptor and
  filter types shared by both filter configurations.
- `contains.dfy`, `tequals.dfy`: modules `Contains` and `TEquals`.

The Java classes whose fields change become Dafny classes:

- the two field configurations;
- the feature-type builder;
- `DataSourceInfo`;
- `SLDData`;
- `CreateInternalDataSource`.

Their loops become `while` loops. Each loop is specified by a recursive
function over the prefix it has processed, and lemmas prove what the
source promises about these functions. The filter descriptors are pure
and become functions.

Swing widgets are plain state:

- The drop-down is its items, its selected item and its enabled flag.
- The text area is its text and its enabled flag.
- `None` stands for a widget that `createUI` has not built yet.

Calls into code that is not part of this model stay abstract:
- `ParameterFunctionUtils.getString` becomes the field's `render`
  function.
- The transformation dialog becomes a parameter of the Edit action.
- `ExtractAttributes.addDefaultFields` becomes a `DefaultFields`
  parameter: the attributes it appends, the default geometry it sets (if
  any) and the field list it returns.
- Expressions inside filters have a type parameter `E`, shown through a
  `show` function.

Behaviour of the code worth knowing, which the model follows as written:

- The enum field's `populateField` pushes no undo event itself. The event
  comes from the selection listener, which is modelled on its own as
  `CommitSelection`.
- The transformation field's `populateExpression` goes through
  `populateField(ProcessFunction)`. It therefore pushes an undo event
  whenever the text area exists, although load semantics would push none.
- The Edit action's undo event records the function that was *replaced*
  as its new value, not the function chosen.
- Neither the Edit action nor the Clear action updates `oldValueObj`.
- The transformation field's undo and redo write only the text. They
  restore neither the function nor `oldValueObj`. The text therefore
  need not equal the rendering of the current function.
- The enum field's `setTestValue` sends one `valueUpdated` notification
  more than `populateField` does.
- The enum field leaves the enabling of dependent fields to its owner.
  The model states the enable map that `getFieldEnableState` hands over.

## Model

| member | source | states |
|---|---|---|
| Undo.UndoManager.AddUndoEvent | modules/common/src/main/java/com/sldeditor/ui/detail/config/FieldConfigEnum.java:167 | exactly the given event is appended to the log, which never loses an earlier event |
| EnumConfig.OptionKeys | modules/common/src/main/java/com/sldeditor/ui/detail/config/FieldConfigEnum.java:335-338 | one key per option of an option map, in order, with a null or empty key stored as "" |
| EnumConfig.ComboData | modules/common/src/main/java/com/sldeditor/ui/detail/config/FieldConfigEnum.java:125-130 | one entry per key, in key order, carrying the key, its label from the value map and the field's panel id |
| EnumConfig.ConfigKeysInOrder | modules/common/src/main/java/com/sldeditor/ui/detail/config/FieldConfigEnum.java:327-340 | the o-th option of configuration c is stored right after the keys of all configurations before c |
| EnumConfig.ConfigLabelsCoverKeys | modules/common/src/main/java/com/sldeditor/ui/detail/config/FieldConfigEnum.java:327-340 | after addConfig every appended key, and every key present before, has a label |
| EnumConfig.PutOptionsCoverKeys | modules/common/src/main/java/com/sldeditor/ui/detail/config/FieldConfigEnum.java:335-338 | after one option map every appended key, and every key present before, has a label |
| EnumConfig.LastFieldMapWins | modules/common/src/main/java/com/sldeditor/ui/detail/config/FieldConfigEnum.java:329-331 | for a panel id, the enable map of the last configuration declaring it wins over earlier ones |
| EnumConfig.UndeclaredPanelKept | modules/common/src/main/java/com/sldeditor/ui/detail/config/FieldConfigEnum.java:329-331 | a panel id no configuration declares keeps its previous enable map, or stays absent |
| EnumConfig.IndexedComboData | modules/common/src/main/java/com/sldeditor/ui/detail/config/FieldConfigEnum.java:147-153 | after indexing, every key maps to its own entry, every other key keeps its entry, and no new keys appear |
| EnumConfig.CreatedIndexValid | modules/common/src/main/java/com/sldeditor/ui/detail/config/FieldConfigEnum.java:125-153 | the rebuilt index holds only option keys under their own entries and covers every drop-down item and the first-item selection |
| EnumConfig.FieldConfigEnum.constructor | modules/common/src/main/java/com/sldeditor/ui/detail/config/FieldConfigEnum.java:89-91 | a field with no options, an empty default, no remembered value, no drop-down and the given configuration and undo manager |
| EnumConfig.FieldConfigEnum.AddValue | modules/common/src/main/java/com/sldeditor/ui/detail/config/FieldConfigEnum.java:99-110 | exactly one key is appended (null or empty stored as "") and the value map sends it to the label |
| EnumConfig.FieldConfigEnum.AddOptions | modules/common/src/main/java/com/sldeditor/ui/detail/config/FieldConfigEnum.java:333-338 | the keys of one option map are appended in order and their labels put into the value map |
| EnumConfig.FieldConfigEnum.AddConfig | modules/common/src/main/java/com/sldeditor/ui/detail/config/FieldConfigEnum.java:327-340 | the keys of every configuration are appended in order, labels put, and the enable maps merged configuration by configuration |
| EnumConfig.FieldConfigEnum.CreateUI | modules/common/src/main/java/com/sldeditor/ui/detail/config/FieldConfigEnum.java:119-153 | the drop-down holds one entry per key and selects the first, the default becomes the first key when there is one, an attribute control exists iff the field is not value-only, and each entry is indexed under its key |
| EnumConfig.FieldConfigEnum.BuildComboData | modules/common/src/main/java/com/sldeditor/ui/detail/config/FieldConfigEnum.java:125-130 | the loop builds exactly the entry list of the keys in order |
| EnumConfig.FieldConfigEnum.PutEntries | modules/common/src/main/java/com/sldeditor/ui/detail/config/FieldConfigEnum.java:147-153 | the loop puts every entry under its key, in order, into comboDataMap |
| EnumConfig.FieldConfigEnum.CommitSelection | modules/common/src/main/java/com/sldeditor/ui/detail/config/FieldConfigEnum.java:155-174 | with a selection, exactly one event from the remembered key (the first item's key when none) to the selected key is logged, even when equal, and the selected key is remembered; without one nothing changes |
| EnumConfig.FieldConfigEnum.Select | modules/common/src/main/java/com/sldeditor/ui/detail/config/FieldConfigEnum.java:155-160 | picking an item of the drop-down changes only the selection, which stays covered by the index |
| EnumConfig.FieldConfigEnum.SelectThenUndo | modules/common/src/main/java/com/sldeditor/ui/detail/config/FieldConfigEnum.java:155-174 | picking an item logs exactly one event, from the remembered key (the first item's key when none) to the picked key, and undoing that event shows and remembers the previous key again |
| EnumConfig.FieldConfigEnum.SelectUndoRedo | modules/common/src/main/java/com/sldeditor/ui/detail/config/FieldConfigEnum.java:368-389 | pick, undo and redo leave the picked key shown and remembered, with only that one event logged |
| EnumConfig.FieldConfigEnum.AttributeSelection | modules/common/src/main/java/com/sldeditor/ui/detail/config/FieldConfigEnum.java:186-192 | only the drop-down's enabled flag changes: enabled iff no attribute is chosen; selection and options kept |
| EnumConfig.FieldConfigEnum.SetEnabled | modules/common/src/main/java/com/sldeditor/ui/detail/config/FieldConfigEnum.java:203-209 | only the drop-down's enabled flag changes, never the selection; isEnabled then reports it when the field has no attribute-selection control |
| EnumConfig.FieldConfigEnum.IsEnabled | modules/common/src/main/java/com/sldeditor/ui/detail/config/FieldConfigEnum.java:244-258 | the attribute control's flag for a field that is not value-only, else the drop-down's flag, else false |
| EnumConfig.FieldConfigEnum.GenerateExpression | modules/common/src/main/java/com/sldeditor/ui/detail/config/FieldConfigEnum.java:219-233 | null without a drop-down or selection, else a literal of the same key getStringValue returns, which is a key of the option list and not a label |
| EnumConfig.FieldConfigEnum.GetEnumValue | modules/common/src/main/java/com/sldeditor/ui/detail/config/FieldConfigEnum.java:298-303 | the selected entry, which is the entry indexed under its key |
| EnumConfig.FieldConfigEnum.GetStringValue | modules/common/src/main/java/com/sldeditor/ui/detail/config/FieldConfigEnum.java:311-320 | null exactly when nothing is selected, else the selected entry's key, a key of the option list |
| EnumConfig.FieldConfigEnum.GetFieldEnableState | modules/common/src/main/java/com/sldeditor/ui/detail/config/FieldConfigEnum.java:347-357 | null when nothing is selected or the panel has no map, else fieldMap of the field's panel id |
| EnumConfig.FieldConfigEnum.PopulateField | modules/common/src/main/java/com/sldeditor/ui/detail/config/FieldConfigEnum.java:410-421 | a known key is selected and remembered, and getStringValue and generateExpression then yield that key; an unknown key changes nothing; no event is logged |
| EnumConfig.FieldConfigEnum.PopulateExpression | modules/common/src/main/java/com/sldeditor/ui/detail/config/FieldConfigEnum.java:282-290 | with a drop-down, exactly populateField of the key; otherwise, or for a null key, nothing changes |
| EnumConfig.FieldConfigEnum.SetTestValue | modules/common/src/main/java/com/sldeditor/ui/detail/config/FieldConfigEnum.java:398-402 | populateField of the test value plus one notification, with no event logged |
| EnumConfig.FieldConfigEnum.RevertToDefaultValue | modules/common/src/main/java/com/sldeditor/ui/detail/config/FieldConfigEnum.java:267-270 | exactly populateField of the default value |
| EnumConfig.FieldConfigEnum.SetDefaultValue | modules/common/src/main/java/com/sldeditor/ui/detail/config/FieldConfigEnum.java:428-431 | only the default changes |
| EnumConfig.FieldConfigEnum.UndoAction | modules/common/src/main/java/com/sldeditor/ui/detail/config/FieldConfigEnum.java:368-373 | populateField of the event's old key (a null key changes nothing), and nothing is logged |
| EnumConfig.FieldConfigEnum.RedoAction | modules/common/src/main/java/com/sldeditor/ui/detail/config/FieldConfigEnum.java:384-389 | populateField of the event's new key (a null key changes nothing), and nothing is logged |
| EnumConfig.FieldConfigEnum.CreateCopy | modules/common/src/main/java/com/sldeditor/ui/detail/config/FieldConfigEnum.java:440-447 | a fresh field with the given static configuration and the same undo manager, with no keys, labels, index or enable maps, an empty default, no remembered value, no drop-down and no attribute control |
| TransformConfig.FunctionPayload | modules/common/src/main/java/com/sldeditor/ui/detail/config/transform/FieldConfigTransformation.java:425 | a process function is recorded as itself and null as null |
| TransformConfig.PayloadText | modules/common/src/main/java/com/sldeditor/ui/detail/config/transform/FieldConfigTransformation.java:314-338 | a String payload is shown as itself and null as the empty text |
| TransformConfig.FieldConfigTransformation.constructor | modules/common/src/main/java/com/sldeditor/ui/detail/config/transform/FieldConfigTransformation.java:55-91 | the given configuration and button texts, default "", no remembered value, no function and no text area |
| TransformConfig.FieldConfigTransformation.CreateUI | modules/common/src/main/java/com/sldeditor/ui/detail/config/transform/FieldConfigTransformation.java:111-113 | an empty, enabled text area |
| TransformConfig.FieldConfigTransformation.EditAction | modules/common/src/main/java/com/sldeditor/ui/detail/config/transform/FieldConfigTransformation.java:127-146 | a function from the dialog replaces the value and is shown, and one event (remembered value, replaced function) is logged; no dialog or a cancelled one changes nothing |
| TransformConfig.FieldConfigTransformation.ClearAction | modules/common/src/main/java/com/sldeditor/ui/detail/config/transform/FieldConfigTransformation.java:158-166 | the function becomes null, the text empty, generateExpression null, and one event (remembered value, null) is logged; the remembered value is kept |
| TransformConfig.FieldConfigTransformation.SetEnabled | modules/common/src/main/java/com/sldeditor/ui/detail/config/transform/FieldConfigTransformation.java:196-202 | only the text area's enabled flag changes, and isEnabled then reports it |
| TransformConfig.FieldConfigTransformation.IsEnabled | modules/common/src/main/java/com/sldeditor/ui/detail/config/transform/FieldConfigTransformation.java:237-252 | true only with a text area, and then exactly the text area's enabled flag; false before createUI |
| TransformConfig.FieldConfigTransformation.GenerateExpression | modules/common/src/main/java/com/sldeditor/ui/detail/config/transform/FieldConfigTransformation.java:213-226 | null exactly when there is no text area or the text is empty, else a literal equal to the text |
| TransformConfig.FieldConfigTransformation.GetStringValue | modules/common/src/main/java/com/sldeditor/ui/detail/config/transform/FieldConfigTransformation.java:299-306 | the text, and null exactly when there is no text area |
| TransformConfig.FieldConfigTransformation.PopulateFieldString | modules/common/src/main/java/com/sldeditor/ui/detail/config/transform/FieldConfigTransformation.java:357-368 | with a text area: the text becomes the value, generateExpression yields it (null for ""), one event (old, value) is logged and the value remembered; without one nothing changes |
| TransformConfig.FieldConfigTransformation.PopulateFieldFunction | modules/common/src/main/java/com/sldeditor/ui/detail/config/transform/FieldConfigTransformation.java:418-431 | the function always becomes the value; with a text area its rendering is shown, one event (old, function) is logged and the function remembered |
| TransformConfig.FieldConfigTransformation.PopulateExpression | modules/common/src/main/java/com/sldeditor/ui/detail/config/transform/FieldConfigTransformation.java:276-281 | populateField of the value cast to a process function (null stays null): the function is replaced; with a text area its rendering is shown, one event from the remembered value to the value itself is logged, the value is remembered and one notification is sent; without one nothing else changes; the default is kept |
| TransformConfig.FieldConfigTransformation.SetTestValue | modules/common/src/main/java/com/sldeditor/ui/detail/config/transform/FieldConfigTransformation.java:347-349 | populateField of the test string: with a text area the text becomes it (the enabled flag kept), one event from the remembered value is logged, the string is remembered, one notification is sent and getStringValue/generateExpression yield it; without one nothing changes; the function and default are kept |
| TransformConfig.FieldConfigTransformation.RevertToDefaultValue | modules/common/src/main/java/com/sldeditor/ui/detail/config/transform/FieldConfigTransformation.java:261-264 | populateField of the default string, with the same effects as setTestValue, so getStringValue then yields the default |
| TransformConfig.FieldConfigTransformation.SetDefaultValue | modules/common/src/main/java/com/sldeditor/ui/detail/config/transform/FieldConfigTransformation.java:288-291 | only the default changes |
| TransformConfig.FieldConfigTransformation.UndoAction | modules/common/src/main/java/com/sldeditor/ui/detail/config/transform/FieldConfigTransformation.java:314-322 | with a text area the text becomes the event's old value (null gives ""); nothing else changes and nothing is logged |
| TransformConfig.FieldConfigTransformation.RedoAction | modules/common/src/main/java/com/sldeditor/ui/detail/config/transform/FieldConfigTransformation.java:330-338 | with a text area the text becomes the event's new value (null gives ""); nothing else changes and nothing is logged |
| TransformConfig.FieldConfigTransformation.CreateCopy | modules/common/src/main/java/com/sldeditor/ui/detail/config/transform/FieldConfigTransformation.java:377-386 | a fresh field with the given static configuration and both button texts, carrying no function, no remembered value, an empty default and no text area |
| InternalDataSource.SymbolizerCountPositive | modules/common/src/main/java/com/sldeditor/datasource/impl/CreateInternalDataSource.java:206-220 | a rule's counter for a kind is positive iff the rule has a symbolizer of that kind |
| InternalDataSource.RuleCountPositive | modules/common/src/main/java/com/sldeditor/datasource/impl/CreateInternalDataSource.java:204-221 | the counter over rules is positive iff some rule has a symbolizer of that kind |
| InternalDataSource.FeatureTypeStyleCountPositive | modules/common/src/main/java/com/sldeditor/datasource/impl/CreateInternalDataSource.java:202-222 | the counter over feature type styles is positive iff one of them has such a symbolizer |
| InternalDataSource.StyleCountPositive | modules/common/src/main/java/com/sldeditor/datasource/impl/CreateInternalDataSource.java:200-223 | the counter over styles is positive iff one of them has such a symbolizer |
| InternalDataSource.LayerCountPositive | modules/common/src/main/java/com/sldeditor/datasource/impl/CreateInternalDataSource.java:194-225 | the counter over layers is positive iff some named layer has such a symbolizer |
| InternalDataSource.UserLayerIgnored | modules/common/src/main/java/com/sldeditor/datasource/impl/CreateInternalDataSource.java:196 | a layer that is not a named layer adds nothing to any counter |
| InternalDataSource.LayerCountAppend | modules/common/src/main/java/com/sldeditor/datasource/impl/CreateInternalDataSource.java:194-225 | the counters of a layer list are the sums of the counters of its parts |
| InternalDataSource.SelectGeometryType | modules/common/src/main/java/com/sldeditor/datasource/impl/CreateInternalDataSource.java:227-238 | point if any point, else line if any line, else polygon if any polygon, else the type is unchanged |
| InternalDataSource.DeterminedByPresence | modules/common/src/main/java/com/sldeditor/datasource/impl/CreateInternalDataSource.java:182-238 | the determined type in terms of which symbolizer kinds the named layers contain |
| InternalDataSource.CountSymbolizers | modules/common/src/main/java/com/sldeditor/datasource/impl/CreateInternalDataSource.java:206-220 | the loop yields the number of point, line and polygon symbolizers of a rule |
| InternalDataSource.CountRules | modules/common/src/main/java/com/sldeditor/datasource/impl/CreateInternalDataSource.java:204-221 | the loop yields the three counts summed over the rules |
| InternalDataSource.CountFeatureTypeStyles | modules/common/src/main/java/com/sldeditor/datasource/impl/CreateInternalDataSource.java:202-222 | the loop yields the three counts summed over the feature type styles |
| InternalDataSource.CountStyles | modules/common/src/main/java/com/sldeditor/datasource/impl/CreateInternalDataSource.java:200-223 | the loop yields the three counts summed over the styles |
| InternalDataSource.CountLayers | modules/common/src/main/java/com/sldeditor/datasource/impl/CreateInternalDataSource.java:189-225 | the loop yields the three counts summed over the named layers only |
| InternalDataSource.GeometryBinding | modules/common/src/main/java/com/sldeditor/datasource/impl/CreateInternalDataSource.java:139-151 | MultiPolygon for polygons, LineString for lines, Point for every other type |
| InternalDataSource.FieldAttributes | modules/common/src/main/java/com/sldeditor/datasource/impl/CreateInternalDataSource.java:164-174 | one attribute per field, in order, named after the field; geometry fields bound by the geometry type, others by their own type |
| InternalDataSource.LastGeometryFieldWins | modules/common/src/main/java/com/sldeditor/datasource/impl/CreateInternalDataSource.java:164-174 | the last geometry field of the list names the default geometry |
| InternalDataSource.NoGeometryFieldKeepsDefault | modules/common/src/main/java/com/sldeditor/datasource/impl/CreateInternalDataSource.java:164-174 | without geometry fields the default geometry is kept |
| InternalDataSource.ConnectedAttributes | modules/common/src/main/java/com/sldeditor/datasource/impl/CreateInternalDataSource.java:104-113 | the geom attribute comes first, then one attribute per field of a non-empty field list, or the extracted defaults |
| InternalDataSource.FeatureTypeBuilder.constructor | modules/common/src/main/java/com/sldeditor/datasource/impl/CreateInternalDataSource.java:84 | a builder without name, attributes or default geometry |
| InternalDataSource.FeatureTypeBuilder.SetName | modules/common/src/main/java/com/sldeditor/datasource/impl/CreateInternalDataSource.java:89 | the name is set |
| InternalDataSource.FeatureTypeBuilder.Add | modules/common/src/main/java/com/sldeditor/datasource/impl/CreateInternalDataSource.java:172 | exactly one attribute is appended |
| InternalDataSource.FeatureTypeBuilder.SetDefaultGeometry | modules/common/src/main/java/com/sldeditor/datasource/impl/CreateInternalDataSource.java:152 | the default geometry name is set |
| InternalDataSource.FeatureTypeBuilder.BuildFeatureType | modules/common/src/main/java/com/sldeditor/datasource/impl/CreateInternalDataSource.java:119 | the feature type has the builder's name, attributes and default geometry |
| InternalDataSource.DataSourceInfo.Reset | modules/common/src/main/java/com/sldeditor/datasource/impl/CreateInternalDataSource.java:75 | no type name, unknown geometry, no schema, no data store |
| InternalDataSource.CreateInternalDataSource.DetermineGeometryType | modules/common/src/main/java/com/sldeditor/datasource/impl/CreateInternalDataSource.java:182-239 | a null document keeps the type; otherwise the named layers' counts decide by the precedence rule |
| InternalDataSource.CreateInternalDataSource.SetGeometryField | modules/common/src/main/java/com/sldeditor/datasource/impl/CreateInternalDataSource.java:137-153 | one attribute with the name and the geometry type's binding is appended and becomes the default geometry |
| InternalDataSource.CreateInternalDataSource.AddFields | modules/common/src/main/java/com/sldeditor/datasource/impl/CreateInternalDataSource.java:161-175 | the fields' attributes are appended in order, the count grows by the field count, and the last geometry field becomes the default geometry |
| InternalDataSource.CreateInternalDataSource.Connect | modules/common/src/main/java/com/sldeditor/datasource/impl/CreateInternalDataSource.java:73-129 | a null file gives the reset info; otherwise type name MEMORY, the determined geometry type, a schema starting with geom whose default geometry is geom, overridden by the last geometry field of a non-empty field list or else by the one the extracted defaults set, the field list stored unchanged when non-empty, and a data store |
| FilterFunction.NewFilterName | modules/common/src/main/java/com/sldeditor/filter/v2/function/geometry/Contains.java:77 | a descriptor with the name and return type and no parameters |
| FilterFunction.AddParameter | modules/common/src/main/java/com/sldeditor/filter/v2/function/geometry/Contains.java:78-79 | the parameter is appended last and nothing else changes |
| FilterFunction.BinaryToString | modules/common/src/main/java/com/sldeditor/filter/v2/function/geometry/Contains.java:53-55 | the rendering splits into "[ ", the first expression, the operator between spaces, the second expression and " ]" |
| FilterFunction.FromParameterList | modules/common/src/main/java/com/sldeditor/filter/v2/function/geometry/Contains.java:111-116 | the filter takes list elements 0 and 1 |
| FilterFunction.FromParameterListIgnoresRest | modules/common/src/main/java/com/sldeditor/filter/v2/function/geometry/Contains.java:113 | elements after the second do not change the filter |
| Contains.GetFilterConfiguration | modules/common/src/main/java/com/sldeditor/filter/v2/function/geometry/Contains.java:76-82 | name "Contains", Boolean result, parameters (property, PROPERTY, Geometry) then (expression, EXPRESSION, Geometry) |
| Contains.CreateFilter | modules/common/src/main/java/com/sldeditor/filter/v2/function/geometry/Contains.java:90-92 | a Contains filter with both expressions null |
| Contains.CreateFilterFromList | modules/common/src/main/java/com/sldeditor/filter/v2/function/geometry/Contains.java:111-116 | a Contains filter over list elements 0 and 1 |
| Contains.CreateLogicFilter | modules/common/src/main/java/com/sldeditor/filter/v2/function/geometry/Contains.java:125-128 | null for every filter list |
| Contains.GetFilterClass | modules/common/src/main/java/com/sldeditor/filter/v2/function/geometry/Contains.java:100-102 | ContainsImpl |
| Contains.GetOriginalFilter | modules/common/src/main/java/com/sldeditor/filter/v2/function/geometry/Contains.java:58-60 | ContainsImpl |
| Contains.ToString | modules/common/src/main/java/com/sldeditor/filter/v2/function/geometry/Contains.java:53-55 | "[ " + e1 + " Contains " + e2 + " ]" with null written "null", split back into its pieces |
| Contains.CreatedFiltersMatchFilterClass | modules/common/src/main/java/com/sldeditor/filter/v2/function/geometry/Contains.java:58-116 | both constructors build filters of the reported filter class, which is also their original filter |
| Contains.EmptyFilterString | modules/common/src/main/java/com/sldeditor/filter/v2/function/geometry/Contains.java:43-55 | the empty filter renders as "[ null Contains null ]" |
| Contains.SignatureMatchesConstructor | modules/common/src/main/java/com/sldeditor/filter/v2/function/geometry/Contains.java:76-116 | a list with one expression per advertised parameter builds the filter over them, in order |
| TEquals.GetFilterConfiguration | modules/common/src/main/java/com/sldeditor/filter/v2/function/temporal/TEquals.java:70-76 | name "TEquals", Boolean result, parameters (expression1, PROPERTY, Date) then (expression2, LITERAL, Date) |
| TEquals.CreateFilter | modules/common/src/main/java/com/sldeditor/filter/v2/function/temporal/TEquals.java:84-86 | a TEquals filter with both expressions null |
| TEquals.CreateFilterFromList | modules/common/src/main/java/com/sldeditor/filter/v2/function/temporal/TEquals.java:105-110 | a TEquals filter over list elements 0 and 1 |
| TEquals.CreateLogicFilter | modules/common/src/main/java/com/sldeditor/filter/v2/function/temporal/TEquals.java:119-122 | null for every filter list |
| TEquals.GetFilterClass | modules/common/src/main/java/com/sldeditor/filter/v2/function/temporal/TEquals.java:94-96 | TEqualsImpl |
| TEquals.ToString | modules/common/src/main/java/com/sldeditor/filter/v2/function/temporal/TEquals.java:52-54 | "[ " + e1 + " TEquals " + e2 + " ]" with null written "null", split back into its pieces |
| TEquals.CreatedFiltersMatchFilterClass | modules/common/src/main/java/com/sldeditor/filter/v2/function/temporal/TEquals.java:84-110 | both constructors build filters of the reported filter class |
| TEquals.EmptyFilterString | modules/common/src/main/java/com/sldeditor/filter/v2/function/temporal/TEquals.java:42-54 | the empty filter renders as "[ null TEquals null ]" |
| TEquals.SignatureMatchesConstructor | modules/common/src/main/java/com/sldeditor/filter/v2/function/temporal/TEquals.java:70-110 | a list with one expression per advertised parameter builds the filter over them, in order |

## Left out

- EnumConfig.FieldConfigEnum.IsEnabled: for a field that is not value-only it reports the attribute-selection control's flag, which createUI sets to true and no modelled operation changes, so `setEnabled(false)` leaves `isEnabled` true, as in the source. The control's own toggling is Swing plumbing.
- Swing layout and widget plumbing (`setBounds`, `FieldPanel`, scroll panes, buttons, `setVisible`): only the state the fields read back is modelled.
- `getClassType` (a constant `String.class`): nothing to prove about it. `getProcessFunction` returns the `processFunction` field, which the model's contracts read directly.
- The transformation field's `attributeSelection`, whose body is empty. That field never creates an attribute-selection control, so its `isEnabled` is the text area's flag, or false before `createUI`.
- Logging. Each `valueUpdated()` notification is only counted, in a ghost counter.
- The undo manager's stacks, popping and redo clearing: `UndoManager` is not part of this model. Only the events pushed onto it are kept.
- `ValueComboBox` is not part of this model. `initialiseSingle` is taken to select the first item. `setSelectedItem` re-firing the selection listener is not modelled: the listener is the separate `CommitSelection`.
- The iteration order of a configuration's option map (a Java `Map`): the model takes the options in the order given.
- `DataSourceInfo` is not part of this model. `reset` is taken to clear the type name, geometry type, schema and data store.
- InternalDataSource.CreateInternalDataSource.Connect: takes `addDefaultFields` to act on the builder only by appending attributes after geom and possibly setting the default geometry; any other change it might make to the builder (reordering or removing attributes, renaming the type) is not modelled.
- The SLD writer, `ExtractAttributes.addDefaultFields`, the CRS, the namespace and `CreateSampleData`: foreign calls. Their outcome is a parameter, or only recorded as present.
- Filter evaluation (`ContainsImpl`, `TEqualsImpl`), and the values of `ExpressionTypeEnum` that these descriptors do not use.
- The end-to-end test driver and the cookbook test classes: they launch the whole application.
- EnumConfig.FieldConfigEnum.PopulateExpression: takes the value already cast to String. A payload of another class, which the source rejects with a cast exception, is not modelled.
- TransformConfig.FieldConfigTransformation.PopulateExpression: excludes a String payload, which the source rejects with a cast exception.
- TransformConfig.FieldConfigTransformation.UndoAction and RedoAction: exclude a process-function payload, which the source's String cast rejects. As written, replaying an Edit event or a `populateField(ProcessFunction)` event therefore fails in the source.
- TransformConfig.FieldConfigTransformation.PopulateFieldString: the value is never null. A null string, which `setText` would show as empty, is not modelled.
- TransformConfig.FieldConfigTransformation.EditAction and ClearAction: require the text area. The buttons exist only after `createUI` has built it.
- EnumConfig.FieldConfigEnum.GetEnumValue, GetStringValue and GetFieldEnableState: require the drop-down. Before `createUI` the source dereferences null.
