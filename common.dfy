/** Java's nullable references: None stands for null. */
module Nullable {
  datatype Option<+T> = None | Some(value: T)
}

/**
 * Types shared by the field configurations of the detail panels
 * (the parts of FieldConfigBase that the enum and transformation fields use).
 */
module FieldConfigCommon {

  /** Identifies one editable property inside a panel (FieldId). */
  datatype FieldId = FieldId(name: string)

  /** The kind of detail panel a field belongs to (a Java Class<?> used as panel id). */
  datatype PanelId = PanelId(className: string)

  /**
   * The static configuration every field configuration is built from:
   * panel id, field id, label, value-only flag and multiple-values flag.
   */
  datatype FieldConfigData = FieldConfigData(
    panelId: PanelId,
    fieldId: FieldId,
    labelText: string,
    valueOnly: bool,
    multipleValues: bool)

  /**
   * The expression-tree node the fields generate. The two field kinds
   * modelled here only ever build literal nodes.
   */
  datatype Expression = Literal(value: string)

  /**
   * Stands for GeoTools' ProcessFunction: an opaque named function with
   * parameters. The field stores it verbatim and never inspects it.
   */
  datatype ProcessFunction = ProcessFunction(name: string, parameters: seq<string>)
}
