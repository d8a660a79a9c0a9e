/**
 * FieldConfigEnum: a drop-down field whose options come from symbol-type
 * configurations, whose selection decides which dependent fields of the
 * panel are enabled, and whose committed selections are undoable.
 */
module EnumConfig {
  import opened Nullable
  import opened FieldConfigCommon
  import opened Undo

  /** One drop-down entry (ValueComboBoxData): key, display label and owning panel. */
  datatype ValueComboBoxData = ValueComboBoxData(key: string, value: string, panelId: PanelId)

  /** The drop-down widget reduced to its items, its selected item and its enabled flag. */
  datatype ComboBoxState = ComboBoxState(
    items: seq<ValueComboBoxData>,
    selected: Option<ValueComboBoxData>,
    enabled: bool)

  /** Which dependent fields are enabled. */
  type EnableMap = map<FieldId, bool>

  /** One entry of a symbol-type configuration's option map, in iteration order; a null key is None. */
  datatype OptionEntry = OptionEntry(key: Option<string>, caption: string)

  /** SymbolTypeConfig: an enable map per panel and the ordered option map. */
  datatype SymbolTypeConfig = SymbolTypeConfig(fieldMap: map<PanelId, EnableMap>, options: seq<OptionEntry>)

  /** The key addValue stores for a given key: null becomes "" and every other key is kept. */
  function StoredKey(key: Option<string>): string
  {
    match key
    case None => ""
    case Some(k) => if k == "" then "" else k
  }

  /** The keys addValue appends for an option map, in order. */
  function OptionKeys(options: seq<OptionEntry>): (keys: seq<string>)
    ensures |keys| == |options|
    ensures forall i :: 0 <= i < |options| ==> keys[i] == StoredKey(options[i].key)
  {
    if |options| == 0 then []
    else OptionKeys(options[..|options| - 1]) + [StoredKey(options[|options| - 1].key)]
  }

  /** The keys addConfig appends for a list of configurations, configuration by configuration. */
  function ConfigKeys(configs: seq<SymbolTypeConfig>): seq<string>
  {
    if |configs| == 0 then []
    else ConfigKeys(configs[..|configs| - 1]) + OptionKeys(configs[|configs| - 1].options)
  }

  /** The label map after putting every option of an option map, in order. */
  function PutOptions(labels: map<string, string>, options: seq<OptionEntry>): map<string, string>
  {
    if |options| == 0 then labels
    else
      var last := options[|options| - 1];
      PutOptions(labels, options[..|options| - 1])[StoredKey(last.key) := last.caption]
  }

  /** The label map after addConfig has put the options of every configuration. */
  function ConfigLabels(labels: map<string, string>, configs: seq<SymbolTypeConfig>): map<string, string>
  {
    if |configs| == 0 then labels
    else PutOptions(ConfigLabels(labels, configs[..|configs| - 1]), configs[|configs| - 1].options)
  }

  /** The panel map after addConfig's putAll of every configuration's enable maps. */
  function MergeFieldMaps(fieldMap: map<PanelId, EnableMap>, configs: seq<SymbolTypeConfig>): map<PanelId, EnableMap>
  {
    if |configs| == 0 then fieldMap
    else MergeFieldMaps(fieldMap, configs[..|configs| - 1]) + configs[|configs| - 1].fieldMap
  }

  /** The entries createUI builds from the key list. */
  function ComboData(keys: seq<string>, labels: map<string, string>, panelId: PanelId): (data: seq<ValueComboBoxData>)
    requires forall k :: k in keys ==> k in labels
    ensures |data| == |keys|
    ensures forall i :: 0 <= i < |keys| ==> data[i] == ValueComboBoxData(keys[i], labels[keys[i]], panelId)
  {
    if |keys| == 0 then []
    else ComboData(keys[..|keys| - 1], labels, panelId)
         + [ValueComboBoxData(keys[|keys| - 1], labels[keys[|keys| - 1]], panelId)]
  }

  /** comboDataMap after createUI has put every entry under its key, in order. */
  function IndexEntries(index: map<string, ValueComboBoxData>, data: seq<ValueComboBoxData>): map<string, ValueComboBoxData>
  {
    if |data| == 0 then index
    else IndexEntries(index, data[..|data| - 1])[data[|data| - 1].key := data[|data| - 1]]
  }

  /** The undo payload of a remembered key. */
  function KeyValue(key: Option<string>): UndoValue
  {
    match key
    case None => NullValue
    case Some(k) => StringValue(k)
  }

  /**
   * addConfig appends the options of the configurations in order: the
   * o-th option of configuration c lands right after the keys of the
   * configurations before c.
   */
  lemma {:induction false} ConfigKeysInOrder(configs: seq<SymbolTypeConfig>, c: nat, o: nat)
    requires c < |configs| && o < |configs[c].options|
    ensures |ConfigKeys(configs[..c])| + o < |ConfigKeys(configs)|
    ensures ConfigKeys(configs)[|ConfigKeys(configs[..c])| + o] == StoredKey(configs[c].options[o].key)
  {
    var n := |configs|;
    assert configs[..n - 1] == configs[..n][..n - 1];
    if c == n - 1 {
    } else {
      assert configs[..n - 1][..c] == configs[..c];
      ConfigKeysInOrder(configs[..n - 1], c, o);
    }
  }

  /** Every key the configurations declare ends up in the label map. */
  lemma {:induction false} ConfigLabelsCoverKeys(labels: map<string, string>, configs: seq<SymbolTypeConfig>)
    ensures forall k :: k in ConfigKeys(configs) ==> k in ConfigLabels(labels, configs)
    ensures forall k :: k in labels ==> k in ConfigLabels(labels, configs)
  {
    if |configs| > 0 {
      var n := |configs|;
      ConfigLabelsCoverKeys(labels, configs[..n - 1]);
      PutOptionsCoverKeys(ConfigLabels(labels, configs[..n - 1]), configs[n - 1].options);
    }
  }

  lemma {:induction false} PutOptionsCoverKeys(labels: map<string, string>, options: seq<OptionEntry>)
    ensures forall k :: k in OptionKeys(options) ==> k in PutOptions(labels, options)
    ensures forall k :: k in labels ==> k in PutOptions(labels, options)
  {
    if |options| > 0 {
      PutOptionsCoverKeys(labels, options[..|options| - 1]);
    }
  }

  /**
   * Merging the configurations' enable maps: for a panel id, the map of the
   * last configuration that declares it wins over earlier ones and over the
   * field map the merge started from.
   */
  lemma {:induction false} LastFieldMapWins(fieldMap: map<PanelId, EnableMap>, configs: seq<SymbolTypeConfig>, panel: PanelId, c: nat)
    requires c < |configs| && panel in configs[c].fieldMap
    requires forall d :: c < d < |configs| ==> panel !in configs[d].fieldMap
    ensures panel in MergeFieldMaps(fieldMap, configs)
    ensures MergeFieldMaps(fieldMap, configs)[panel] == configs[c].fieldMap[panel]
  {
    var n := |configs|;
    if c < n - 1 {
      assert panel !in configs[n - 1].fieldMap;
      LastFieldMapWins(fieldMap, configs[..n - 1], panel, c);
    }
  }

  /** A panel id no configuration declares keeps the enable map the merge started from. */
  lemma {:induction false} UndeclaredPanelKept(fieldMap: map<PanelId, EnableMap>, configs: seq<SymbolTypeConfig>, panel: PanelId)
    requires forall d :: 0 <= d < |configs| ==> panel !in configs[d].fieldMap
    ensures panel in MergeFieldMaps(fieldMap, configs) <==> panel in fieldMap
    ensures panel in fieldMap ==> MergeFieldMaps(fieldMap, configs)[panel] == fieldMap[panel]
  {
    var n := |configs|;
    if n > 0 {
      assert panel !in configs[n - 1].fieldMap;
      UndeclaredPanelKept(fieldMap, configs[..n - 1], panel);
    }
  }

  /** Every indexed entry is stored under its own key, belongs to the panel and has a key of the option list. */
  ghost predicate IndexedBy(index: map<string, ValueComboBoxData>, keys: seq<string>, panelId: PanelId)
  {
    forall k :: k in index ==> index[k].key == k && index[k].panelId == panelId && k in keys
  }

  /** Every item of the drop-down, and its selection, is the entry indexed under its key. */
  ghost predicate CoveredBy(combo: ComboBoxState, index: map<string, ValueComboBoxData>)
  {
    && (forall d :: d in combo.items ==> d.key in index && index[d.key] == d)
    && (combo.selected.Some? ==> combo.selected.value.key in index && index[combo.selected.value.key] == combo.selected.value)
  }

  /**
   * Indexing the entries built from a key list: every key is found with
   * its own entry, every other key keeps its previous entry, and no key
   * already indexed is lost.
   */
  lemma {:induction false} IndexedComboData(index: map<string, ValueComboBoxData>, keys: seq<string>, labels: map<string, string>, panelId: PanelId)
    requires forall k :: k in keys ==> k in labels
    ensures var m := IndexEntries(index, ComboData(keys, labels, panelId));
            && (forall k :: k in m ==> k in index || k in keys)
            && (forall k :: k in index ==> k in m)
            && (forall k :: k in keys ==> k in m && m[k] == ValueComboBoxData(k, labels[k], panelId))
            && (forall k :: k in m && k !in keys ==> m[k] == index[k])
  {
    if |keys| > 0 {
      var n := |keys|;
      var front := keys[..n - 1];
      var data := ComboData(keys, labels, panelId);
      assert keys == front + [keys[n - 1]];
      assert forall k :: k in front ==> k in keys;
      assert data[..n - 1] == ComboData(front, labels, panelId);
      IndexedComboData(index, front, labels, panelId);
    }
  }

  /**
   * After createUI the index still only holds option keys under their own
   * entries, and it covers the new drop-down and its first-item selection.
   */
  lemma CreatedIndexValid(index: map<string, ValueComboBoxData>, keys: seq<string>, labels: map<string, string>, panelId: PanelId)
    requires forall k :: k in keys ==> k in labels
    requires IndexedBy(index, keys, panelId)
    ensures var data := ComboData(keys, labels, panelId);
            var m := IndexEntries(index, data);
            && IndexedBy(m, keys, panelId)
            && (forall k :: k in index ==> k in m)
            && CoveredBy(ComboBoxState(data, if data == [] then None else Some(data[0]), true), m)
  {
    var data := ComboData(keys, labels, panelId);
    var m := IndexEntries(index, data);
    IndexedComboData(index, keys, labels, panelId);
    forall d | d in data
      ensures d.key in m && m[d.key] == d
    {
      var i :| 0 <= i < |data| && data[i] == d;
      assert keys[i] in keys;
    }
  }

  class FieldConfigEnum {
    const config: FieldConfigData
    const undo: UndoManager

    var keyList: seq<string>
    var valueMap: map<string, string>
    var comboDataMap: map<string, ValueComboBoxData>
    var fieldMap: map<PanelId, EnableMap>
    var defaultValue: string
    /** The last committed key (null before the first commit). */
    var oldValueObj: Option<string>
    /** The drop-down; None until createUI has built it. */
    var comboBox: Option<ComboBoxState>
    /** The attribute-selection control's enabled flag; None when there is none. */
    var attributeSelectionPanel: Option<bool>
    /** The number of valueUpdated() notifications sent. */
    ghost var updates: nat

    ghost predicate Valid()
      reads this
    {
      && (forall k :: k in keyList ==> k in valueMap)
      && IndexedBy(comboDataMap, keyList, config.panelId)
      && (comboDataMap != map[] ==> comboBox.Some?)
      && (comboBox.Some? ==> CoveredBy(comboBox.value, comboDataMap))
      && (attributeSelectionPanel.Some? ==> !config.valueOnly)
      && (oldValueObj.Some? ==> oldValueObj.value in comboDataMap)
    }

    /** The option lists, the panel map and the default are kept. */
    twostate predicate OptionsUnchanged()
      reads this
    {
      && keyList == old(keyList)
      && valueMap == old(valueMap)
      && comboDataMap == old(comboDataMap)
      && fieldMap == old(fieldMap)
      && defaultValue == old(defaultValue)
    }

    /**
     * The effect of populateField(value): a known key is selected and
     * remembered as the last committed value; an unknown key changes
     * nothing (the source only logs it).
     */
    twostate predicate PopulatedWith(value: string)
      reads this
    {
      && OptionsUnchanged()
      && attributeSelectionPanel == old(attributeSelectionPanel)
      && if value in old(comboDataMap) then
           && oldValueObj == Some(value)
           && old(comboBox).Some?
           && comboBox == Some(old(comboBox).value.(selected := Some(old(comboDataMap)[value])))
         else
           && oldValueObj == old(oldValueObj)
           && comboBox == old(comboBox)
    }

    constructor (config: FieldConfigData, undo: UndoManager)
      ensures Valid() && this.config == config && this.undo == undo
      ensures keyList == [] && valueMap == map[] && comboDataMap == map[] && fieldMap == map[]
      ensures defaultValue == "" && oldValueObj == None
      ensures comboBox == None && attributeSelectionPanel == None && updates == 0
    {
      this.config := config;
      this.undo := undo;
      keyList := [];
      valueMap := map[];
      comboDataMap := map[];
      fieldMap := map[];
      defaultValue := "";
      oldValueObj := None;
      comboBox := None;
      attributeSelectionPanel := None;
      updates := 0;
    }

    /** addValue: appends one key (null or empty stored as "") and maps it to its label. */
    method AddValue(key: Option<string>, value: string)
      requires Valid()
      modifies this`keyList, this`valueMap
      ensures Valid()
      ensures keyList == old(keyList) + [StoredKey(key)]
      ensures valueMap == old(valueMap)[StoredKey(key) := value]
    {
      if key.None? || key.value == "" {
        keyList := keyList + [""];
        valueMap := valueMap["" := value];
      } else {
        keyList := keyList + [key.value];
        valueMap := valueMap[key.value := value];
      }
    }

    /** The inner loop of addConfig: addValue for every option of one option map, in order. */
    method AddOptions(options: seq<OptionEntry>)
      requires Valid()
      modifies this`keyList, this`valueMap
      ensures Valid()
      ensures keyList == old(keyList) + OptionKeys(options)
      ensures valueMap == PutOptions(old(valueMap), options)
    {
      var j := 0;
      while j < |options|
        invariant 0 <= j <= |options|
        invariant Valid()
        invariant keyList == old(keyList) + OptionKeys(options[..j])
        invariant valueMap == PutOptions(old(valueMap), options[..j])
      {
        assert options[..j + 1][..j] == options[..j];
        AddValue(options[j].key, options[j].caption);
        j := j + 1;
      }
      assert options[..j] == options;
    }

    /**
     * addConfig: merges each configuration's enable maps into fieldMap and
     * appends each of its options, configuration by configuration.
     */
    method AddConfig(configList: seq<SymbolTypeConfig>)
      requires Valid()
      modifies this`keyList, this`valueMap, this`fieldMap
      ensures Valid()
      ensures keyList == old(keyList) + ConfigKeys(configList)
      ensures valueMap == ConfigLabels(old(valueMap), configList)
      ensures fieldMap == MergeFieldMaps(old(fieldMap), configList)
    {
      var i := 0;
      while i < |configList|
        invariant 0 <= i <= |configList|
        invariant Valid()
        invariant keyList == old(keyList) + ConfigKeys(configList[..i])
        invariant valueMap == ConfigLabels(old(valueMap), configList[..i])
        invariant fieldMap == MergeFieldMaps(old(fieldMap), configList[..i])
      {
        var cfg := configList[i];
        assert configList[..i + 1][..i] == configList[..i];
        fieldMap := fieldMap + cfg.fieldMap;
        AddOptions(cfg.options);
        i := i + 1;
      }
      assert configList[..i] == configList;
    }

    /**
     * createUI without the layout: builds one entry per key, makes the first
     * key the default, builds the drop-down (its first entry selected and
     * enabled), creates the attribute-selection control unless the field is
     * value-only, and indexes the entries by key.
     */
    method CreateUI()
      requires Valid()
      modifies this`defaultValue, this`comboBox, this`attributeSelectionPanel, this`comboDataMap
      ensures Valid()
      ensures comboBox == Some(ComboBoxState(
                ComboData(keyList, valueMap, config.panelId),
                if keyList == [] then None
                else Some(ValueComboBoxData(keyList[0], valueMap[keyList[0]], config.panelId)),
                true))
      ensures defaultValue == if keyList == [] then old(defaultValue) else keyList[0]
      ensures comboDataMap == IndexEntries(old(comboDataMap), ComboData(keyList, valueMap, config.panelId))
      ensures attributeSelectionPanel == if config.valueOnly then old(attributeSelectionPanel) else Some(true)
    {
      var dataList := BuildComboData();
      if dataList != [] {
        defaultValue := dataList[0].key;
      }
      comboBox := Some(ComboBoxState(dataList, if dataList == [] then None else Some(dataList[0]), true));
      if !config.valueOnly {
        attributeSelectionPanel := Some(true);
      }
      PutEntries(dataList);
      CreatedIndexValid(old(comboDataMap), keyList, valueMap, config.panelId);
    }

    /** The first loop of createUI: one entry per key, in key order, labelled from the value map. */
    method BuildComboData() returns (dataList: seq<ValueComboBoxData>)
      requires forall k :: k in keyList ==> k in valueMap
      ensures dataList == ComboData(keyList, valueMap, config.panelId)
    {
      dataList := [];
      var i := 0;
      while i < |keyList|
        invariant 0 <= i <= |keyList|
        invariant dataList == ComboData(keyList[..i], valueMap, config.panelId)
      {
        assert keyList[..i + 1][..i] == keyList[..i];
        dataList := dataList + [ValueComboBoxData(keyList[i], valueMap[keyList[i]], config.panelId)];
        i := i + 1;
      }
      assert keyList[..i] == keyList;
    }

    /** The second loop of createUI: every entry is put in comboDataMap under its key, in order. */
    method PutEntries(data: seq<ValueComboBoxData>)
      modifies this`comboDataMap
      ensures comboDataMap == IndexEntries(old(comboDataMap), data)
    {
      var j := 0;
      while j < |data|
        invariant 0 <= j <= |data|
        invariant comboDataMap == IndexEntries(old(comboDataMap), data[..j])
      {
        assert data[..j + 1][..j] == data[..j];
        comboDataMap := comboDataMap[data[j].key := data[j]];
        j := j + 1;
      }
      assert data[..j] == data;
    }

    /**
     * The selection listener: when an item is selected, commits exactly one
     * undo event from the last committed key (the first item's key when
     * there is none yet) to the selected key, even when the two are equal,
     * remembers the selected key and notifies.
     */
    method CommitSelection()
      requires Valid() && comboBox.Some?
      modifies this, undo
      ensures Valid() && OptionsUnchanged()
      ensures comboBox == old(comboBox) && attributeSelectionPanel == old(attributeSelectionPanel)
      ensures old(comboBox).value.selected == None ==>
                oldValueObj == old(oldValueObj) && undo.events == old(undo.events) && updates == old(updates)
      ensures old(comboBox).value.selected != None ==>
                var newKey := old(comboBox).value.selected.value.key;
                var previous :=
                  if old(oldValueObj) == None && |old(comboBox).value.items| > 0
                  then StringValue(old(comboBox).value.items[0].key)
                  else KeyValue(old(oldValueObj));
                && undo.events == old(undo.events) + [UndoEvent(this, config.fieldId, previous, StringValue(newKey))]
                && oldValueObj == Some(newKey)
                && updates == old(updates) + 1
    {
      var combo := comboBox.value;
      if combo.selected.Some? {
        var newValueObj := combo.selected.value.key;
        if oldValueObj.None? && |combo.items| > 0 {
          oldValueObj := Some(combo.items[0].key);
        }
        undo.AddUndoEvent(UndoEvent(this, config.fieldId, KeyValue(oldValueObj), StringValue(newValueObj)));
        oldValueObj := Some(newValueObj);
        updates := updates + 1;
      }
    }

    /**
     * The user picks an item of the drop-down: only the selection changes.
     * The selection listener then runs as CommitSelection.
     */
    method Select(d: ValueComboBoxData)
      requires Valid() && comboBox.Some? && d in comboBox.value.items
      modifies this`comboBox
      ensures Valid()
      ensures comboBox == Some(old(comboBox).value.(selected := Some(d)))
    {
      comboBox := Some(comboBox.value.(selected := Some(d)));
    }

    /**
     * Picking an item and undoing the event its commit logged restores the
     * key remembered before (the first item's key when none was): exactly
     * one event is logged, it is the one returned, and the drop-down shows
     * the previous key again.
     */
    method SelectThenUndo(d: ValueComboBoxData) returns (e: UndoEvent)
      requires Valid() && comboBox.Some? && d in comboBox.value.items
      modifies this, undo
      ensures Valid() && OptionsUnchanged()
      ensures var previous := if old(oldValueObj) == None then old(comboBox).value.items[0].key else old(oldValueObj).value;
              && e == UndoEvent(this, config.fieldId, StringValue(previous), StringValue(d.key))
              && undo.events == old(undo.events) + [e]
              && oldValueObj == Some(previous)
              && comboBox != None && GetStringValue() == Some(previous)
    {
      var previous := if oldValueObj.None? then comboBox.value.items[0].key else oldValueObj.value;
      e := UndoEvent(this, config.fieldId, StringValue(previous), StringValue(d.key));
      Select(d);
      CommitSelection();
      UndoAction(e);
    }

    /**
     * Picking an item, undoing its event and redoing it shows the picked
     * key again, with that single event logged.
     */
    method SelectUndoRedo(d: ValueComboBoxData)
      requires Valid() && comboBox.Some? && d in comboBox.value.items
      modifies this, undo
      ensures Valid() && OptionsUnchanged()
      ensures |undo.events| == |old(undo.events)| + 1 && undo.events[..|old(undo.events)|] == old(undo.events)
      ensures oldValueObj == Some(d.key)
      ensures comboBox != None && GetStringValue() == Some(d.key)
    {
      var e := SelectThenUndo(d);
      RedoAction(e);
    }

    /** attributeSelection: the drop-down is enabled exactly when no attribute is chosen. */
    method AttributeSelection(field: Option<string>)
      requires Valid()
      modifies this
      ensures Valid() && OptionsUnchanged()
      ensures comboBox == if old(comboBox) == None then None else Some(old(comboBox).value.(enabled := field == None))
      ensures oldValueObj == old(oldValueObj) && attributeSelectionPanel == old(attributeSelectionPanel)
      ensures updates == old(updates)
    {
      if comboBox.Some? {
        comboBox := Some(comboBox.value.(enabled := field.None?));
      }
    }

    /** setEnabled: only the drop-down's enabled flag changes, never its selection. */
    method SetEnabled(enabled: bool)
      requires Valid()
      modifies this
      ensures Valid() && OptionsUnchanged()
      ensures comboBox == if old(comboBox) == None then None else Some(old(comboBox).value.(enabled := enabled))
      ensures oldValueObj == old(oldValueObj) && attributeSelectionPanel == old(attributeSelectionPanel)
      ensures updates == old(updates)
      ensures comboBox != None && attributeSelectionPanel == None ==> IsEnabled() == enabled
    {
      if comboBox.Some? {
        comboBox := Some(comboBox.value.(enabled := enabled));
      }
    }

    /**
     * isEnabled: the attribute-selection control's flag when there is one
     * (a field that is not value-only), else the drop-down's, else false.
     */
    function IsEnabled(): (r: bool)
      reads this
      ensures attributeSelectionPanel != None && !config.valueOnly ==> r == attributeSelectionPanel.value
      ensures (attributeSelectionPanel == None || config.valueOnly) ==>
                (r <==> comboBox != None && comboBox.value.enabled)
    {
      if attributeSelectionPanel.Some? && !config.valueOnly then attributeSelectionPanel.value
      else if comboBox.Some? then comboBox.value.enabled
      else false
    }

    /**
     * generateExpression: a literal carrying the selected option's key (a key
     * of the option list, not a label), null when nothing is selected or
     * there is no drop-down; it agrees with getStringValue.
     */
    function GenerateExpression(): (r: Option<Expression>)
      reads this
      ensures comboBox == None ==> r == None
      ensures comboBox != None ==>
                r == (if GetStringValue() == None then None else Some(Literal(GetStringValue().value)))
      ensures Valid() && r != None ==> r.value.value in keyList
    {
      if comboBox.Some? && comboBox.value.selected.Some?
      then Some(Literal(comboBox.value.selected.value.key))
      else None
    }

    /** getEnumValue: the selected entry (the drop-down must exist). */
    function GetEnumValue(): (r: Option<ValueComboBoxData>)
      reads this
      requires comboBox != None
      ensures Valid() && r != None ==> r.value.key in comboDataMap && comboDataMap[r.value.key] == r.value
    {
      comboBox.value.selected
    }

    /** getStringValue: the selected entry's key, or null. */
    function GetStringValue(): (r: Option<string>)
      reads this
      requires comboBox != None
      ensures r == None <==> GetEnumValue() == None
      ensures r != None ==> r.value == GetEnumValue().value.key
      ensures Valid() && r != None ==> r.value in keyList
    {
      match comboBox.value.selected
      case None => None
      case Some(d) => Some(d.key)
    }

    /**
     * getFieldEnableState: the enable map of the selected entry's panel;
     * every entry carries this field's own panel id, so it is the map of
     * that panel, or null when nothing is selected or the panel has none.
     */
    function GetFieldEnableState(): (r: Option<EnableMap>)
      reads this
      requires comboBox != None
      ensures Valid() ==>
                r == (if comboBox.value.selected == None || config.panelId !in fieldMap then None
                      else Some(fieldMap[config.panelId]))
    {
      match comboBox.value.selected
      case None => None
      case Some(d) => if d.panelId in fieldMap then Some(fieldMap[d.panelId]) else None
    }

    /**
     * populateField: selecting a known key selects its entry and remembers
     * it, so that generateExpression then yields that key; an unknown key
     * changes nothing. No undo event is pushed here.
     */
    method PopulateField(value: string)
      requires Valid()
      modifies this
      ensures Valid() && PopulatedWith(value) && updates == old(updates)
      ensures value in old(comboDataMap) ==>
                comboBox != None && GetStringValue() == Some(value) && GenerateExpression() == Some(Literal(value))
    {
      if value in comboDataMap {
        var data := comboDataMap[value];
        oldValueObj := Some(data.key);
        comboBox := Some(comboBox.value.(selected := Some(data)));
      }
    }

    /**
     * populateExpression: with a drop-down, populates from the given key;
     * a null key is an unknown key.
     */
    method PopulateExpression(objValue: Option<string>, expression: Option<Expression>)
      requires Valid()
      modifies this
      ensures Valid() && updates == old(updates)
      ensures old(comboBox) != None && objValue != None ==> PopulatedWith(objValue.value)
      ensures old(comboBox) == None || objValue == None ==> unchanged(this)
    {
      if comboBox.Some? && objValue.Some? {
        PopulateField(objValue.value);
      }
    }

    /** setTestValue: populateField followed by a notification. */
    method SetTestValue(fieldId: FieldId, testValue: string)
      requires Valid()
      modifies this
      ensures Valid() && PopulatedWith(testValue) && updates == old(updates) + 1
      ensures undo.events == old(undo.events)
    {
      PopulateField(testValue);
      updates := updates + 1;
    }

    /** revertToDefaultValue: exactly populateField(defaultValue). */
    method RevertToDefaultValue()
      requires Valid()
      modifies this
      ensures Valid() && PopulatedWith(old(defaultValue)) && updates == old(updates)
    {
      PopulateField(defaultValue);
    }

    /** setDefaultValue: replaces the default and nothing else. */
    method SetDefaultValue(value: string)
      requires Valid()
      modifies this`defaultValue
      ensures Valid() && defaultValue == value
    {
      defaultValue := value;
    }

    /**
     * undoAction: populates from the event's old key; replay pushes no
     * undo event. A null old value is an unknown key. The source casts the
     * payload to String, so a ProcessFunction payload is excluded.
     */
    method UndoAction(e: UndoEvent)
      requires Valid() && !e.oldValue.FunctionValue?
      modifies this
      ensures Valid() && updates == old(updates) && undo.events == old(undo.events)
      ensures e.oldValue.StringValue? ==> PopulatedWith(e.oldValue.s)
      ensures e.oldValue == NullValue ==> unchanged(this)
    {
      if e.oldValue.StringValue? {
        PopulateField(e.oldValue.s);
      }
    }

    /** redoAction: populates from the event's new key; replay pushes no undo event. */
    method RedoAction(e: UndoEvent)
      requires Valid() && !e.newValue.FunctionValue?
      modifies this
      ensures Valid() && updates == old(updates) && undo.events == old(undo.events)
      ensures e.newValue.StringValue? ==> PopulatedWith(e.newValue.s)
      ensures e.newValue == NullValue ==> unchanged(this)
    {
      if e.newValue.StringValue? {
        PopulateField(e.newValue.s);
      }
    }

    /**
     * createCopy: a fresh field with the given static configuration and
     * the same undo manager, without options, value or drop-down.
     */
    method CreateCopy(from: FieldConfigData) returns (copy: FieldConfigEnum)
      ensures fresh(copy) && copy.Valid()
      ensures copy.config == from && copy.undo == undo
      ensures copy.keyList == [] && copy.valueMap == map[] && copy.comboDataMap == map[] && copy.fieldMap == map[]
      ensures copy.defaultValue == "" && copy.oldValueObj == None && copy.comboBox == None
      ensures copy.attributeSelectionPanel == None
    {
      copy := new FieldConfigEnum(from, undo);
    }
  }
}
