/**
 * FieldConfigTransformation: a read-only text area showing a rendering
 * transformation, with an Edit button that opens the transformation dialog
 * and a Clear button, whose edits are undoable.
 */
module TransformConfig {
  import opened Nullable
  import opened FieldConfigCommon
  import opened Undo

  /** The text area reduced to its text and its enabled flag. */
  datatype TextArea = TextArea(text: string, enabled: bool)

  /** The undo payload recording a (possibly null) process function. */
  function FunctionPayload(f: Option<ProcessFunction>): (v: UndoValue)
    ensures v == NullValue <==> f.None?
    ensures f.Some? ==> v == FunctionValue(f.value)
  {
    match f
    case None => NullValue
    case Some(p) => FunctionValue(p)
  }

  /**
   * The text a String-cast undo payload puts in the text area: setText of
   * a null string leaves the area empty.
   */
  function PayloadText(v: UndoValue): (text: string)
    requires !v.FunctionValue?
    ensures v.StringValue? ==> text == v.s
    ensures v == NullValue ==> text == ""
  {
    match v
    case NullValue => ""
    case StringValue(s) => s
  }

  /**
   * The transformation dialog, when an implementation is registered: it is
   * shown the current function and answers with a new one, or with null
   * when the user cancels.
   */
  type TransformationDialog = Option<ProcessFunction> -> Option<ProcessFunction>

  class FieldConfigTransformation {
    const config: FieldConfigData
    const undo: UndoManager
    const editButtonText: Option<string>
    const clearButtonText: Option<string>
    /** ParameterFunctionUtils.getString: how a process function is displayed. */
    const render: Option<ProcessFunction> -> string

    /** The text area; None until createUI has built it. */
    var textField: Option<TextArea>
    var defaultValue: string
    /** The value the next undo event records as its old value. */
    var oldValueObj: UndoValue
    /** The transformation being edited (null when none). */
    var processFunction: Option<ProcessFunction>
    /** The number of valueUpdated() notifications sent. */
    ghost var updates: nat

    constructor (config: FieldConfigData, undo: UndoManager, editButtonText: Option<string>,
                 clearButtonText: Option<string>, render: Option<ProcessFunction> -> string)
      ensures this.config == config && this.undo == undo
      ensures this.editButtonText == editButtonText && this.clearButtonText == clearButtonText
      ensures this.render == render
      ensures textField == None && defaultValue == "" && oldValueObj == NullValue
      ensures processFunction == None && updates == 0
    {
      this.config := config;
      this.undo := undo;
      this.editButtonText := editButtonText;
      this.clearButtonText := clearButtonText;
      this.render := render;
      textField := None;
      defaultValue := "";
      oldValueObj := NullValue;
      processFunction := None;
      updates := 0;
    }

    /** createUI: an empty, enabled text area; the value and the undo history are kept. */
    method CreateUI()
      modifies this`textField
      ensures textField == Some(TextArea("", true))
    {
      textField := Some(TextArea("", true));
    }

    /**
     * The Edit button: when a dialog is registered and answers with a
     * function, that function becomes the value and is displayed, and one
     * undo event is committed whose new value is the function that was
     * replaced, not the one chosen. The remembered old value is not
     * updated. A missing dialog or a cancelled one changes nothing.
     */
    method EditAction(dialog: Option<TransformationDialog>)
      requires textField.Some?
      modifies this, undo
      ensures oldValueObj == old(oldValueObj) && defaultValue == old(defaultValue)
      ensures dialog.Some? && dialog.value(old(processFunction)).Some? ==>
                && processFunction == dialog.value(old(processFunction))
                && textField == Some(old(textField).value.(text := render(processFunction)))
                && undo.events == old(undo.events) + [UndoEvent(this, config.fieldId, old(oldValueObj), FunctionPayload(old(processFunction)))]
                && updates == old(updates) + 1
      ensures dialog.None? || dialog.value(old(processFunction)).None? ==>
                && processFunction == old(processFunction) && textField == old(textField)
                && undo.events == old(undo.events) && updates == old(updates)
    {
      if dialog.Some? {
        var expression := dialog.value(processFunction);
        if expression.Some? {
          var newValueObj := processFunction;
          processFunction := expression;
          textField := Some(textField.value.(text := render(processFunction)));
          undo.AddUndoEvent(UndoEvent(this, config.fieldId, oldValueObj, FunctionPayload(newValueObj)));
          updates := updates + 1;
        }
      }
    }

    /**
     * The Clear button: the function is dropped, the text area emptied and
     * one undo event from the remembered old value to null is committed;
     * the remembered old value is not updated.
     */
    method ClearAction()
      requires textField.Some?
      modifies this, undo
      ensures processFunction == None && textField == Some(old(textField).value.(text := ""))
      ensures GetStringValue() == Some("") && GenerateExpression() == None
      ensures undo.events == old(undo.events) + [UndoEvent(this, config.fieldId, old(oldValueObj), NullValue)]
      ensures oldValueObj == old(oldValueObj) && defaultValue == old(defaultValue)
      ensures updates == old(updates) + 1
    {
      processFunction := None;
      textField := Some(textField.value.(text := ""));
      undo.AddUndoEvent(UndoEvent(this, config.fieldId, oldValueObj, NullValue));
      updates := updates + 1;
    }

    /** setEnabled: the text area, when there is one, takes the flag. */
    method SetEnabled(enabled: bool)
      modifies this`textField
      ensures old(textField).None? ==> textField == None
      ensures old(textField).Some? ==> textField == Some(old(textField).value.(enabled := enabled))
      ensures textField.Some? ==> IsEnabled() == enabled
    {
      if textField.Some? {
        textField := Some(textField.value.(enabled := enabled));
      }
    }

    /**
     * isEnabled: the text area's flag, false before createUI. The field
     * never creates an attribute-selection control, so the base class's
     * first branch is never taken.
     */
    function IsEnabled(): (r: bool)
      reads this
      ensures r ==> GetStringValue().Some?
      ensures GetStringValue().Some? ==> (r <==> textField.value.enabled)
    {
      textField.Some? && textField.value.enabled
    }

    /** generateExpression: a literal of the shown text, or null when there is no text. */
    function GenerateExpression(): (r: Option<Expression>)
      reads this
      ensures r.Some? <==> GetStringValue().Some? && GetStringValue().value != ""
      ensures r.Some? ==> r.value == Literal(GetStringValue().value)
    {
      if textField.Some? && textField.value.text != "" then Some(Literal(textField.value.text)) else None
    }

    /** getStringValue: the shown text, or null before createUI. */
    function GetStringValue(): (r: Option<string>)
      reads this
      ensures r.Some? <==> textField.Some?
      ensures r.Some? ==> r.value == textField.value.text
    {
      match textField
      case None => None
      case Some(t) => Some(t.text)
    }

    /**
     * The effect of populateField(String value): with a text area the value
     * is shown, one undo event from the remembered old value to it is
     * committed, it is remembered and one notification is sent; before
     * createUI nothing changes. The function and the default are kept.
     */
    twostate predicate PopulatedString(value: string)
      reads this, undo
    {
      && processFunction == old(processFunction) && defaultValue == old(defaultValue)
      && if old(textField).Some? then
           && textField == Some(old(textField).value.(text := value))
           && undo.events == old(undo.events) + [UndoEvent(this, config.fieldId, old(oldValueObj), StringValue(value))]
           && oldValueObj == StringValue(value)
           && updates == old(updates) + 1
         else
           && textField == None && undo.events == old(undo.events)
           && oldValueObj == old(oldValueObj) && updates == old(updates)
    }

    /**
     * The effect of populateField(ProcessFunction value): the function
     * always becomes the value; with a text area its rendering is shown,
     * one undo event from the remembered old value to it is committed, it
     * is remembered and one notification is sent. The default is kept.
     */
    twostate predicate PopulatedFunction(value: Option<ProcessFunction>)
      reads this, undo
    {
      && processFunction == value && defaultValue == old(defaultValue)
      && if old(textField).Some? then
           && textField == Some(old(textField).value.(text := render(value)))
           && undo.events == old(undo.events) + [UndoEvent(this, config.fieldId, old(oldValueObj), FunctionPayload(value))]
           && oldValueObj == FunctionPayload(value)
           && updates == old(updates) + 1
         else
           && textField == None && undo.events == old(undo.events)
           && oldValueObj == old(oldValueObj) && updates == old(updates)
    }

    /**
     * populateField(String): with a text area, shows the value, commits
     * one undo event from the remembered old value to it and remembers it,
     * so that getStringValue and generateExpression then yield it; before
     * createUI nothing changes. The function is not touched.
     */
    method PopulateFieldString(value: string)
      modifies this, undo
      ensures PopulatedString(value)
      ensures old(textField).Some? ==>
                && GetStringValue() == Some(value)
                && GenerateExpression() == (if value == "" then None else Some(Literal(value)))
    {
      if textField.Some? {
        textField := Some(textField.value.(text := value));
        undo.AddUndoEvent(UndoEvent(this, config.fieldId, oldValueObj, StringValue(value)));
        oldValueObj := StringValue(value);
        updates := updates + 1;
      }
    }

    /** populateField(ProcessFunction): see PopulatedFunction. */
    method PopulateFieldFunction(value: Option<ProcessFunction>)
      modifies this, undo
      ensures PopulatedFunction(value)
    {
      processFunction := value;
      if textField.Some? {
        textField := Some(textField.value.(text := render(processFunction)));
        undo.AddUndoEvent(UndoEvent(this, config.fieldId, oldValueObj, FunctionPayload(value)));
        oldValueObj := FunctionPayload(value);
        updates := updates + 1;
      }
    }

    /**
     * populateExpression: the value is cast to ProcessFunction and
     * populated, so a String value is excluded; null populates null. The
     * committed event records the value itself.
     */
    method PopulateExpression(objValue: UndoValue)
      requires !objValue.StringValue?
      modifies this, undo
      ensures PopulatedFunction(if objValue.FunctionValue? then Some(objValue.f) else None)
      ensures FunctionPayload(if objValue.FunctionValue? then Some(objValue.f) else None) == objValue
    {
      var f := if objValue.FunctionValue? then Some(objValue.f) else None;
      PopulateFieldFunction(f);
    }

    /** setTestValue: exactly populateField of the test string. */
    method SetTestValue(fieldId: FieldId, testValue: string)
      modifies this, undo
      ensures PopulatedString(testValue)
      ensures old(textField).Some? ==>
                && GetStringValue() == Some(testValue)
                && GenerateExpression() == (if testValue == "" then None else Some(Literal(testValue)))
    {
      PopulateFieldString(testValue);
    }

    /** revertToDefaultValue: exactly populateField of the default string. */
    method RevertToDefaultValue()
      modifies this, undo
      ensures PopulatedString(old(defaultValue))
      ensures old(textField).Some? ==> GetStringValue() == Some(defaultValue)
    {
      PopulateFieldString(defaultValue);
    }

    /** setDefaultValue: remembers the default for revertToDefaultValue. */
    method SetDefaultValue(value: string)
      modifies this`defaultValue
      ensures defaultValue == value
    {
      defaultValue := value;
    }

    /**
     * undoAction: the text area shows the event's old value (cast to
     * String, so a function payload is excluded). Neither the function nor
     * the remembered old value is restored and no undo event is committed.
     */
    method UndoAction(e: UndoEvent)
      requires !e.oldValue.FunctionValue?
      modifies this`textField
      ensures old(textField).Some? ==> textField == Some(old(textField).value.(text := PayloadText(e.oldValue)))
      ensures old(textField).None? ==> textField == None
    {
      if textField.Some? {
        textField := Some(textField.value.(text := PayloadText(e.oldValue)));
      }
    }

    /** redoAction: the text area shows the event's new value, as undoAction does for the old one. */
    method RedoAction(e: UndoEvent)
      requires !e.newValue.FunctionValue?
      modifies this`textField
      ensures old(textField).Some? ==> textField == Some(old(textField).value.(text := PayloadText(e.newValue)))
      ensures old(textField).None? ==> textField == None
    {
      if textField.Some? {
        textField := Some(textField.value.(text := PayloadText(e.newValue)));
      }
    }

    /**
     * createCopy: a fresh field with the given static configuration and
     * this field's button texts, without value or text area.
     */
    method CreateCopy(from: FieldConfigData) returns (copy: FieldConfigTransformation)
      ensures fresh(copy)
      ensures copy.config == from && copy.undo == undo && copy.render == render
      ensures copy.editButtonText == editButtonText && copy.clearButtonText == clearButtonText
      ensures copy.textField == None && copy.processFunction == None && copy.oldValueObj == NullValue
      ensures copy.defaultValue == ""
    {
      copy := new FieldConfigTransformation(from, undo, editButtonText, clearButtonText, render);
    }
  }
}
