/**
 * The widget's binding logic (DateAndTimeWidgetLogic.cs): the host objects it
 * reaches, the references it keeps between calls, the initialisation done by
 * Start, the clean-up done by Stop and the three exported actions.
 */
module Widget {
  import opened TimeZones
  import opened Settings

  /** The occasions on which the widget calls Log.Error (the message text is left out). */
  datatype LoggedError =
    | SystemNodePointerNotFound
    | SystemNodeNotDefined
    | SystemNodeNotFound
    | AutoModeRadioButtonNotFound
    | ManualModeRadioButtonNotFound
    | TimeZoneComboBoxNotFound
    | TimeZoneNotRecognized(timeZone: string)
    | TimeZonesEnumerationNotFound
    | LanCheckBoxNotFound
    | WanCheckBoxNotFound
    | RebootFailed
    | SynchronizationModeUpdateFailed
    | LocalNTPServerUpdateFailed

  /** The host's System node: the settings store the widget reads and writes. */
  class SystemNode {
    var synchronizationMode: SyncMode
    var timeZone: string
    var localNTPServerInterfaces: seq<string>
    /** How many times Reboot() has been called on the device. */
    var reboots: nat

    constructor (mode: SyncMode, timeZone: string, interfaces: seq<string>)
      ensures synchronizationMode == mode && this.timeZone == timeZone
      ensures localNTPServerInterfaces == interfaces && reboots == 0
    {
      synchronizationMode := mode;
      this.timeZone := timeZone;
      localNTPServerInterfaces := interfaces;
      reboots := 0;
    }
  }

  /** How the lookup of the System node through the SystemNode pointer variable ends. */
  datatype SystemNodeLookup =
    | PointerNotFound
    | NodeIdNotDefined
    | NodeNotFound
    | Found(node: SystemNode)

  class RadioButton {
    var checked: bool

    constructor (checked: bool)
      ensures this.checked == checked
    {
      this.checked := checked;
    }
  }

  class CheckBox {
    var checked: bool
    var enabled: bool

    constructor (checked: bool, enabled: bool)
      ensures this.checked == checked && this.enabled == enabled
    {
      this.checked := checked;
      this.enabled := enabled;
    }
  }

  /** The time-zone combo box; its selected value is linked to a node's TimeZone variable, or to nothing. */
  class ComboBox {
    var selectedValueLink: SystemNode?

    constructor ()
      ensures selectedValueLink == null
    {
      selectedValueLink := null;
    }
  }

  /** The TimeZonesEnumeration object that the combo box lists. */
  class TimeZonesEnumeration {
    var entries: seq<Entry>

    constructor ()
      ensures entries == []
    {
      entries := [];
    }
  }

  /**
   * The widget that owns the logic: what each of its lookups by name finds
   * (null when nothing by that name exists).
   */
  class Owner {
    const systemNodePointer: SystemNodeLookup
    const autoMode: RadioButton?
    const manualMode: RadioButton?
    const timeZoneComboBox: ComboBox?
    const timeZonesEnumeration: TimeZonesEnumeration?
    const lanCheckBox: CheckBox?
    const wanCheckBox: CheckBox?

    /** Children found under different names are different objects. */
    ghost predicate Valid()
    {
      (autoMode != null ==> autoMode != manualMode) &&
      (lanCheckBox != null ==> lanCheckBox != wanCheckBox)
    }

    constructor (systemNodePointer: SystemNodeLookup,
                 autoMode: RadioButton?, manualMode: RadioButton?,
                 timeZoneComboBox: ComboBox?, timeZonesEnumeration: TimeZonesEnumeration?,
                 lanCheckBox: CheckBox?, wanCheckBox: CheckBox?)
      requires autoMode != null ==> autoMode != manualMode
      requires lanCheckBox != null ==> lanCheckBox != wanCheckBox
      ensures Valid()
      ensures this.systemNodePointer == systemNodePointer
      ensures this.autoMode == autoMode && this.manualMode == manualMode
      ensures this.timeZoneComboBox == timeZoneComboBox && this.timeZonesEnumeration == timeZonesEnumeration
      ensures this.lanCheckBox == lanCheckBox && this.wanCheckBox == wanCheckBox
    {
      this.systemNodePointer := systemNodePointer;
      this.autoMode := autoMode;
      this.manualMode := manualMode;
      this.timeZoneComboBox := timeZoneComboBox;
      this.timeZonesEnumeration := timeZonesEnumeration;
      this.lanCheckBox := lanCheckBox;
      this.wanCheckBox := wanCheckBox;
    }
  }

  class DateAndTimeWidgetLogic {
    const owner: Owner
    /** The static time-zone table, held by each instance. */
    const timeZonesMap: seq<Group>

    var systemNode: SystemNode?
    var timeZonesEnumerationObject: TimeZonesEnumeration?
    var synchAutoModeOption: RadioButton?
    var lanCheckBox: CheckBox?
    var wanCheckBox: CheckBox?
    /** Everything passed to Log.Error so far, oldest first. */
    var log: seq<LoggedError>

    ghost predicate Valid()
    {
      owner.Valid() && WellFormed(timeZonesMap)
    }

    /** A fresh logic object: every reference null, as .NET initialises fields. */
    constructor (owner: Owner)
      requires owner.Valid()
      ensures Valid() && this.owner == owner && timeZonesMap == TimeZonesMap
      ensures systemNode == null && timeZonesEnumerationObject == null
      ensures synchAutoModeOption == null && lanCheckBox == null && wanCheckBox == null
      ensures log == []
    {
      CatalogueWellFormed();
      this.owner := owner;
      timeZonesMap := TimeZonesMap;
      systemNode := null;
      timeZonesEnumerationObject := null;
      synchAutoModeOption := null;
      lanCheckBox := null;
      wanCheckBox := null;
      log := [];
    }

    /** What InitializeSynchronizationModeRadioButtons logs. */
    ghost function RadioButtonsLog(): seq<LoggedError>
    {
      if owner.autoMode == null then [AutoModeRadioButtonNotFound]
      else if owner.manualMode == null then [ManualModeRadioButtonNotFound]
      else []
    }

    /** What InitializeTimeZoneComboBoxBindings logs when the stored time zone is `timeZone`. */
    ghost function ComboBoxLog(timeZone: string): seq<LoggedError>
      requires WellFormed(timeZonesMap)
    {
      if owner.timeZoneComboBox == null then [TimeZoneComboBoxNotFound]
      else if Resolve(timeZonesMap, timeZone) == "" then [TimeZoneNotRecognized(timeZone)]
      else if owner.timeZonesEnumeration == null then [TimeZonesEnumerationNotFound]
      else []
    }

    /** What InitializeLocalNTPServerInterfacesCheckBoxes logs. */
    ghost function CheckBoxesLog(): seq<LoggedError>
    {
      if owner.lanCheckBox == null then [LanCheckBoxNotFound]
      else if owner.wanCheckBox == null then [WanCheckBoxNotFound]
      else []
    }

    /**
     * The radios after InitializeSynchronizationModeRadioButtons, against the
     * state before it: the auto radio reference is taken from the owner; the
     * radios show `node`'s mode when both exist, and neither changes otherwise.
     */
    twostate predicate RadiosInitialised(node: SystemNode)
      reads this`synchAutoModeOption, owner.autoMode, owner.manualMode, node
    {
      synchAutoModeOption == owner.autoMode &&
      if owner.autoMode != null && owner.manualMode != null then
        (owner.autoMode.checked, owner.manualMode.checked) == RadioStates(node.synchronizationMode)
      else
        (owner.autoMode != null ==> unchanged(owner.autoMode)) &&
        (owner.manualMode != null ==> unchanged(owner.manualMode))
    }

    /**
     * The combo box and the enumeration after InitializeTimeZoneComboBoxBindings,
     * against the state before it. When the combo box exists and `node`'s time
     * zone resolves, the enumeration gains every entry and the combo box is
     * linked to `node`, unless the exception escapes first, which happens
     * exactly when the enumeration object is missing; otherwise nothing changes.
     */
    twostate predicate TimeZoneBound(node: SystemNode, thrown: bool)
      requires WellFormed(timeZonesMap)
      reads this`timeZonesEnumerationObject, owner.timeZoneComboBox, owner.timeZonesEnumeration, node
    {
      var recognised := owner.timeZoneComboBox != null && Resolve(timeZonesMap, node.timeZone) != "";
      (thrown <==> recognised && owner.timeZonesEnumeration == null && |timeZonesMap| > 0) &&
      if recognised then
        timeZonesEnumerationObject == owner.timeZonesEnumeration &&
        (owner.timeZonesEnumeration != null ==>
          owner.timeZonesEnumeration.entries == old(owner.timeZonesEnumeration.entries) + Enumeration(timeZonesMap) &&
          owner.timeZoneComboBox.selectedValueLink == node) &&
        (thrown ==> unchanged(owner.timeZoneComboBox))
      else
        timeZonesEnumerationObject == old(timeZonesEnumerationObject) &&
        (owner.timeZonesEnumeration != null ==> unchanged(owner.timeZonesEnumeration)) &&
        (owner.timeZoneComboBox != null ==> unchanged(owner.timeZoneComboBox))
    }

    /**
     * The checkboxes after InitializeLocalNTPServerInterfacesCheckBoxes, against
     * the state before it: the references are taken up to the first missing
     * one; with both present their checked states decode `node`'s interface
     * array and their enabled flags are kept, otherwise neither changes.
     */
    twostate predicate CheckBoxesInitialised(node: SystemNode)
      reads this`lanCheckBox, this`wanCheckBox, owner.lanCheckBox, owner.wanCheckBox, node
    {
      lanCheckBox == owner.lanCheckBox &&
      wanCheckBox == (if owner.lanCheckBox == null then old(wanCheckBox) else owner.wanCheckBox) &&
      if owner.lanCheckBox != null && owner.wanCheckBox != null then
        (owner.lanCheckBox.checked, owner.wanCheckBox.checked) == DecodeInterfaces(node.localNTPServerInterfaces) &&
        owner.lanCheckBox.enabled == old(owner.lanCheckBox.enabled) &&
        owner.wanCheckBox.enabled == old(owner.wanCheckBox.enabled)
      else
        (owner.lanCheckBox != null ==> unchanged(owner.lanCheckBox)) &&
        (owner.wanCheckBox != null ==> unchanged(owner.wanCheckBox))
    }

    /** Neither the checkbox references nor the checkboxes changed. */
    twostate predicate CheckBoxesUntouched()
      reads this`lanCheckBox, this`wanCheckBox, owner.lanCheckBox, owner.wanCheckBox
    {
      lanCheckBox == old(lanCheckBox) && wanCheckBox == old(wanCheckBox) &&
      (owner.lanCheckBox != null ==> unchanged(owner.lanCheckBox)) &&
      (owner.wanCheckBox != null ==> unchanged(owner.wanCheckBox))
    }

    /**
     * Start: find the System node, then initialise the radio buttons, the
     * time-zone combo box and the NTP checkboxes. `thrown` is true when the
     * null dereference in AddTimeZone escapes (missing enumeration object).
     */
    method Start() returns (thrown: bool)
      requires Valid()
      modifies this, owner.autoMode, owner.manualMode, owner.timeZoneComboBox,
               owner.timeZonesEnumeration, owner.lanCheckBox, owner.wanCheckBox
      // The System node is not found: nothing is initialised.
      ensures !owner.systemNodePointer.Found? ==>
        !thrown &&
        systemNode == (if owner.systemNodePointer.NodeNotFound? then null else old(systemNode)) &&
        log == old(log) + [match owner.systemNodePointer
                           case PointerNotFound => SystemNodePointerNotFound
                           case NodeIdNotDefined => SystemNodeNotDefined
                           case _ => SystemNodeNotFound] &&
        timeZonesEnumerationObject == old(timeZonesEnumerationObject) &&
        synchAutoModeOption == old(synchAutoModeOption) &&
        lanCheckBox == old(lanCheckBox) && wanCheckBox == old(wanCheckBox) &&
        (owner.autoMode != null ==> unchanged(owner.autoMode)) &&
        (owner.manualMode != null ==> unchanged(owner.manualMode)) &&
        (owner.timeZoneComboBox != null ==> unchanged(owner.timeZoneComboBox)) &&
        (owner.timeZonesEnumeration != null ==> unchanged(owner.timeZonesEnumeration)) &&
        (owner.lanCheckBox != null ==> unchanged(owner.lanCheckBox)) &&
        (owner.wanCheckBox != null ==> unchanged(owner.wanCheckBox))
      // The System node is found: the three initialisations run in order.
      ensures owner.systemNodePointer.Found? ==>
        var node := owner.systemNodePointer.node;
        systemNode == node &&
        RadiosInitialised(node) &&
        TimeZoneBound(node, thrown) &&
        (thrown ==>
          log == old(log) + RadioButtonsLog() + ComboBoxLog(node.timeZone) && CheckBoxesUntouched()) &&
        (!thrown ==>
          log == old(log) + RadioButtonsLog() + ComboBoxLog(node.timeZone) + CheckBoxesLog() &&
          CheckBoxesInitialised(node))
    {
      thrown := false;
      match owner.systemNodePointer {
        case PointerNotFound =>
          log := log + [SystemNodePointerNotFound];
          return;
        case NodeIdNotDefined =>
          log := log + [SystemNodeNotDefined];
          return;
        case NodeNotFound =>
          systemNode := null;
          log := log + [SystemNodeNotFound];
          return;
        case Found(node) =>
          systemNode := node;
          thrown := InitializeControls();
      }
    }

    /** Lines 42 to 47 of Start: the three initialisations, in order, once the System node is known. */
    method InitializeControls() returns (thrown: bool)
      requires Valid() && systemNode != null
      modifies this`synchAutoModeOption, this`timeZonesEnumerationObject, this`lanCheckBox, this`wanCheckBox,
               this`log, owner.autoMode, owner.manualMode, owner.timeZoneComboBox,
               owner.timeZonesEnumeration, owner.lanCheckBox, owner.wanCheckBox
      ensures RadiosInitialised(systemNode)
      ensures TimeZoneBound(systemNode, thrown)
      ensures thrown ==>
        log == old(log) + RadioButtonsLog() + ComboBoxLog(systemNode.timeZone) && CheckBoxesUntouched()
      ensures !thrown ==>
        log == old(log) + RadioButtonsLog() + ComboBoxLog(systemNode.timeZone) + CheckBoxesLog() &&
        CheckBoxesInitialised(systemNode)
    {
      InitializeSynchronizationModeRadioButtons();
      thrown := InitializeTimeZoneAndInterfaces();
    }

    /** Lines 45 to 47 of Start: the combo box, then the checkboxes unless the exception escaped. */
    method InitializeTimeZoneAndInterfaces() returns (thrown: bool)
      requires Valid() && systemNode != null
      modifies this`timeZonesEnumerationObject, this`lanCheckBox, this`wanCheckBox,
               this`log, owner.timeZoneComboBox, owner.timeZonesEnumeration, owner.lanCheckBox, owner.wanCheckBox
      ensures TimeZoneBound(systemNode, thrown)
      ensures thrown ==>
        log == old(log) + ComboBoxLog(systemNode.timeZone) && CheckBoxesUntouched()
      ensures !thrown ==>
        log == old(log) + ComboBoxLog(systemNode.timeZone) + CheckBoxesLog() &&
        CheckBoxesInitialised(systemNode)
    {
      thrown := InitializeTimeZoneComboBoxBindings();
      if thrown {
        return;
      }
      InitializeLocalNTPServerInterfacesCheckBoxes();
    }

    /** Stop: drop every reference the widget holds. */
    method Stop()
      modifies this
      ensures systemNode == null && timeZonesEnumerationObject == null
      ensures synchAutoModeOption == null && lanCheckBox == null && wanCheckBox == null
      ensures log == old(log)
    {
      systemNode := null;
      timeZonesEnumerationObject := null;
      synchAutoModeOption := null;
      lanCheckBox := null;
      wanCheckBox := null;
    }

    /** Clear both radios, then check the one that matches the node's mode. */
    method InitializeSynchronizationModeRadioButtons()
      requires Valid() && systemNode != null
      modifies this`synchAutoModeOption, this`log, owner.autoMode, owner.manualMode
      ensures log == old(log) + RadioButtonsLog()
      ensures RadiosInitialised(systemNode)
    {
      synchAutoModeOption := owner.autoMode;
      if synchAutoModeOption == null {
        log := log + [AutoModeRadioButtonNotFound];
        return;
      }
      var synchManualModeOption := owner.manualMode;
      if synchManualModeOption == null {
        log := log + [ManualModeRadioButtonNotFound];
        return;
      }
      synchAutoModeOption.checked := false;
      synchManualModeOption.checked := false;
      if systemNode.synchronizationMode == Auto {
        synchAutoModeOption.checked := true;
      } else if systemNode.synchronizationMode == Manual {
        synchManualModeOption.checked := true;
      }
    }

    /**
     * Check that the stored time zone has a representative, fill the
     * enumeration and link the combo box to the node's TimeZone variable.
     */
    method InitializeTimeZoneComboBoxBindings() returns (thrown: bool)
      requires Valid() && systemNode != null
      modifies this`timeZonesEnumerationObject, this`log, owner.timeZoneComboBox, owner.timeZonesEnumeration
      ensures log == old(log) + ComboBoxLog(systemNode.timeZone)
      ensures TimeZoneBound(systemNode, thrown)
    {
      thrown := false;
      var timeZoneComboBox := owner.timeZoneComboBox;
      if timeZoneComboBox == null {
        log := log + [TimeZoneComboBoxNotFound];
        return;
      }
      var startingTimeZone := systemNode.timeZone;
      var representativeTimeZone := GetCurrentTimeZone(timeZonesMap, startingTimeZone);
      if representativeTimeZone == "" {
        log := log + [TimeZoneNotRecognized(startingTimeZone)];
        return;
      }
      thrown := InitializeTimeZonesObject();
      if thrown {
        return;
      }
      timeZoneComboBox.selectedValueLink := null;
      timeZoneComboBox.selectedValueLink := systemNode;
    }

    /** Add one entry per group of the table, numbering them from 0. */
    method InitializeTimeZonesObject() returns (thrown: bool)
      requires Valid()
      modifies this`timeZonesEnumerationObject, this`log, owner.timeZonesEnumeration
      ensures timeZonesEnumerationObject == owner.timeZonesEnumeration
      ensures log == old(log) + (if owner.timeZonesEnumeration == null then [TimeZonesEnumerationNotFound] else [])
      ensures thrown <==> owner.timeZonesEnumeration == null && |timeZonesMap| > 0
      ensures owner.timeZonesEnumeration != null ==>
        owner.timeZonesEnumeration.entries == old(owner.timeZonesEnumeration.entries) + Enumeration(timeZonesMap)
    {
      thrown := false;
      timeZonesEnumerationObject := owner.timeZonesEnumeration;
      if timeZonesEnumerationObject == null {
        log := log + [TimeZonesEnumerationNotFound];
      }
      var cnt := 0;
      while cnt < |timeZonesMap|
        invariant 0 <= cnt <= |timeZonesMap|
        invariant timeZonesEnumerationObject == owner.timeZonesEnumeration
        invariant log == old(log) + (if owner.timeZonesEnumeration == null then [TimeZonesEnumerationNotFound] else [])
        invariant !thrown && (owner.timeZonesEnumeration == null ==> cnt == 0)
        invariant owner.timeZonesEnumeration != null ==>
          owner.timeZonesEnumeration.entries == old(owner.timeZonesEnumeration.entries) + Enumeration(timeZonesMap)[..cnt]
      {
        thrown := AddTimeZone(timeZonesMap[cnt].0, timeZonesMap[cnt].1, cnt);
        if thrown {
          return;
        }
        cnt := cnt + 1;
      }
    }

    /** Append the entry for one group; dereferences the enumeration object, so it throws when that is null. */
    method AddTimeZone(value: seq<string>, displayName: string, index: nat) returns (thrown: bool)
      requires |value| > 0
      modifies timeZonesEnumerationObject
      ensures thrown <==> timeZonesEnumerationObject == null
      ensures timeZonesEnumerationObject != null ==>
        timeZonesEnumerationObject.entries == old(timeZonesEnumerationObject.entries) + [Entry(index, value[0], displayName)]
    {
      if timeZonesEnumerationObject == null {
        return true;
      }
      timeZonesEnumerationObject.entries := timeZonesEnumerationObject.entries + [Entry(index, value[0], displayName)];
      return false;
    }

    /** Clear both checkboxes, then check each one whose interface name the node lists. */
    method InitializeLocalNTPServerInterfacesCheckBoxes()
      requires Valid() && systemNode != null
      modifies this`lanCheckBox, this`wanCheckBox, this`log, owner.lanCheckBox, owner.wanCheckBox
      ensures log == old(log) + CheckBoxesLog()
      ensures CheckBoxesInitialised(systemNode)
    {
      lanCheckBox := owner.lanCheckBox;
      if lanCheckBox == null {
        log := log + [LanCheckBoxNotFound];
        return;
      }
      wanCheckBox := owner.wanCheckBox;
      if wanCheckBox == null {
        log := log + [WanCheckBoxNotFound];
        return;
      }
      lanCheckBox.checked := false;
      wanCheckBox.checked := false;
      var interfaces := systemNode.localNTPServerInterfaces;
      var i := 0;
      while i < |interfaces|
        invariant 0 <= i <= |interfaces|
        invariant lanCheckBox == owner.lanCheckBox && wanCheckBox == owner.wanCheckBox
        invariant lanCheckBox != null && wanCheckBox != null
        invariant (lanCheckBox.checked, wanCheckBox.checked) == DecodeInterfaces(interfaces[..i])
        invariant lanCheckBox.enabled == old(owner.lanCheckBox.enabled) && wanCheckBox.enabled == old(owner.wanCheckBox.enabled)
        invariant log == old(log)
      {
        assert interfaces[..i + 1][..i] == interfaces[..i];
        if interfaces[i] == LanInterfaceName {
          lanCheckBox.checked := true;
        } else if interfaces[i] == WanInterfaceName {
          wanCheckBox.checked := true;
        }
        i := i + 1;
      }
      assert interfaces[..i] == interfaces;
    }

    /** Reboot_Device: reboot the device, unless the node reference is missing. */
    method Reboot_Device()
      modifies this`log, systemNode
      ensures systemNode == null ==> log == old(log) + [RebootFailed]
      ensures systemNode != null ==>
        log == old(log) && systemNode.reboots == old(systemNode.reboots) + 1 &&
        systemNode.synchronizationMode == old(systemNode.synchronizationMode) &&
        systemNode.timeZone == old(systemNode.timeZone) &&
        systemNode.localNTPServerInterfaces == old(systemNode.localNTPServerInterfaces)
    {
      if systemNode == null {
        log := log + [RebootFailed];
        return;
      }
      systemNode.reboots := systemNode.reboots + 1;
    }

    /** SynchronizationModeChanged: write Auto when the auto radio is checked, Manual otherwise. */
    method SynchronizationModeChanged()
      modifies this`log, systemNode
      ensures synchAutoModeOption == null ==>
        log == old(log) + [AutoModeRadioButtonNotFound] && (systemNode != null ==> unchanged(systemNode))
      ensures synchAutoModeOption != null && systemNode == null ==>
        log == old(log) + [SynchronizationModeUpdateFailed]
      ensures synchAutoModeOption != null && systemNode != null ==>
        log == old(log) &&
        systemNode.synchronizationMode == CommittedMode(synchAutoModeOption.checked) &&
        systemNode.timeZone == old(systemNode.timeZone) &&
        systemNode.localNTPServerInterfaces == old(systemNode.localNTPServerInterfaces) &&
        systemNode.reboots == old(systemNode.reboots)
    {
      if synchAutoModeOption == null {
        log := log + [AutoModeRadioButtonNotFound];
        return;
      }
      if systemNode == null {
        log := log + [SynchronizationModeUpdateFailed];
        return;
      }
      if synchAutoModeOption.checked {
        systemNode.synchronizationMode := Auto;
      } else {
        systemNode.synchronizationMode := Manual;
      }
    }

    /** LocalNTPServerOptionsChanged: write the interface array built from the two checkboxes. */
    method LocalNTPServerOptionsChanged()
      modifies this`log, systemNode
      ensures lanCheckBox == null ==>
        log == old(log) + [LanCheckBoxNotFound] && (systemNode != null ==> unchanged(systemNode))
      ensures lanCheckBox != null && wanCheckBox == null ==>
        log == old(log) + [WanCheckBoxNotFound] && (systemNode != null ==> unchanged(systemNode))
      ensures lanCheckBox != null && wanCheckBox != null && systemNode == null ==>
        log == old(log) + [LocalNTPServerUpdateFailed]
      ensures lanCheckBox != null && wanCheckBox != null && systemNode != null ==>
        log == old(log) &&
        systemNode.localNTPServerInterfaces == EncodeInterfaces(lanCheckBox.checked, wanCheckBox.checked, wanCheckBox.enabled) &&
        systemNode.synchronizationMode == old(systemNode.synchronizationMode) &&
        systemNode.timeZone == old(systemNode.timeZone) &&
        systemNode.reboots == old(systemNode.reboots)
    {
      if lanCheckBox == null {
        log := log + [LanCheckBoxNotFound];
        return;
      }
      if wanCheckBox == null {
        log := log + [WanCheckBoxNotFound];
        return;
      }
      if systemNode == null {
        log := log + [LocalNTPServerUpdateFailed];
        return;
      }
      var listOfEnabledLocalNTPServerInterfaces: seq<string> := [];
      if lanCheckBox.checked {
        listOfEnabledLocalNTPServerInterfaces := listOfEnabledLocalNTPServerInterfaces + [LanInterfaceName];
      } else {
        listOfEnabledLocalNTPServerInterfaces := listOfEnabledLocalNTPServerInterfaces + [""];
      }
      if wanCheckBox.checked {
        listOfEnabledLocalNTPServerInterfaces := listOfEnabledLocalNTPServerInterfaces + [WanInterfaceName];
      } else if wanCheckBox.enabled {
        listOfEnabledLocalNTPServerInterfaces := listOfEnabledLocalNTPServerInterfaces + [""];
      }
      systemNode.localNTPServerInterfaces := listOfEnabledLocalNTPServerInterfaces;
    }
  }

  /**
   * After Stop the three actions change no settings: each finds its first
   * guard failing and only logs.
   */
  method ActionsAfterStop(w: DateAndTimeWidgetLogic, node: SystemNode)
    modifies w, w.systemNode
    ensures unchanged(node)
    ensures w.log == old(w.log) + [RebootFailed, AutoModeRadioButtonNotFound, LanCheckBoxNotFound]
  {
    w.Stop();
    w.Reboot_Device();
    w.SynchronizationModeChanged();
    w.LocalNTPServerOptionsChanged();
  }

  /**
   * Starting on a node whose mode is Auto or Manual and then committing the
   * radios, untouched, writes that same mode back.
   */
  method ModeSurvivesStartAndCommit(w: DateAndTimeWidgetLogic, node: SystemNode)
    requires w.Valid() && w.owner.systemNodePointer == Found(node)
    requires w.owner.autoMode != null && w.owner.manualMode != null
    requires node.synchronizationMode != Other
    modifies w, w.owner.autoMode, w.owner.manualMode, w.owner.timeZoneComboBox,
             w.owner.timeZonesEnumeration, w.owner.lanCheckBox, w.owner.wanCheckBox, node
    ensures node.synchronizationMode == old(node.synchronizationMode)
  {
    var _ := w.Start();
    SyncModeRoundTrip(node.synchronizationMode);
    w.SynchronizationModeChanged();
  }

  /**
   * Committing the checkboxes and reading them back from the node restores
   * both checked states, whether or not the WAN box is enabled.
   */
  method InterfacesSurviveCommitAndReload(w: DateAndTimeWidgetLogic)
    requires w.Valid() && w.systemNode != null
    requires w.lanCheckBox == w.owner.lanCheckBox && w.wanCheckBox == w.owner.wanCheckBox
    requires w.lanCheckBox != null && w.wanCheckBox != null
    modifies w, w.systemNode, w.owner.lanCheckBox, w.owner.wanCheckBox
    ensures w.owner.lanCheckBox != null && w.owner.lanCheckBox.checked == old(w.owner.lanCheckBox.checked)
    ensures w.owner.wanCheckBox != null && w.owner.wanCheckBox.checked == old(w.owner.wanCheckBox.checked)
  {
    w.LocalNTPServerOptionsChanged();
    InterfacesRoundTrip(old(w.lanCheckBox.checked), old(w.wanCheckBox.checked), old(w.wanCheckBox.enabled));
    w.InitializeLocalNTPServerInterfacesCheckBoxes();
  }
}
