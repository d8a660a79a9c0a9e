/**
 * The undo events the fields commit and the process-wide undo manager,
 * reduced to an append-only log of the events pushed onto it.
 */
module Undo {
  import opened FieldConfigCommon

  /**
   * The payload of an undo event. The Java code stores an Object; the
   * fields modelled here store a String, a ProcessFunction or null.
   */
  datatype UndoValue = NullValue | StringValue(s: string) | FunctionValue(f: ProcessFunction)

  /** One reversible edit: the field that committed it, its id, the old and the new value. */
  datatype UndoEvent = UndoEvent(target: object, fieldId: FieldId, oldValue: UndoValue, newValue: UndoValue)

  /**
   * The undo manager singleton, injected into every field. Only
   * addUndoEvent is visible to the fields, so the model keeps the sequence
   * of events ever added; stack popping and redo clearing belong to the
   * manager itself, which is not part of this model.
   */
  class UndoManager {
    ghost var events: seq<UndoEvent>

    constructor ()
      ensures events == []
    {
      events := [];
    }

    /** addUndoEvent: the event is appended to the log. */
    method AddUndoEvent(e: UndoEvent)
      modifies this
      ensures events == old(events) + [e]
    {
      events := events + [e];
    }
  }
}
