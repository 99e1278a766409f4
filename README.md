# Date and time widget logic

A Dafny model of `DateAndTimeWidgetLogic`, the NetLogic class behind the
FT Optix date-and-time widget. The class binds three device settings held on
the host's System node to the controls of the widget:

- the **time synchronisation mode**, shown as two exclusive radio buttons
  (Auto, Manual) and written back when the user changes them;
- the **time zone**, shown in a combo box that lists one entry per group of a
  fixed 128-group table and is linked to the node's TimeZone variable, after
  the stored time zone has been checked against the table;
- the **local NTP server interfaces**, shown as a LAN and a WAN checkbox and
  stored on the node as an array of interface names.

The model has four modules:

- `TimeZones` (`time_zones.dfy`): the table, held verbatim and in
  declaration order, split into four blocks of 32 groups. It also holds
  resolution (`Resolve`, the first group that lists the identifier gives its
  first element, or `""`), the loop `GetCurrentTimeZone` proved against it,
  and the enumeration the combo box lists.
- `TimeZoneFacts` (`time_zone_facts.dfy`): concrete results on the real table.
  "Europe/Paris" resolves to "Europe/Brussels". "Europe/Sarajevo" resolves
  to "Europe/Belgrade", which itself resolves to "Europe/Budapest", because
  "Europe/Belgrade" is also listed in an earlier group. And an identifier
  that no group lists resolves to `""`.
- `Settings` (`settings.dfy`): the settings as values. It holds the
  radio-button mapping and the commit of the mode, and the interface-array
  encoder and decoder, with their round trips.
- `Widget` (`widget.dfy`): the class itself (`DateAndTimeWidgetLogic`):
  - its fields, held in place: `systemNode`, `timeZonesEnumerationObject`,
    `synchAutoModeOption`, `lanCheckBox` and `wanCheckBox`;
  - the host objects it reaches, as small classes whose fields the methods
    update;
  - `Owner`, which plays the widget that owns the logic: what each lookup by
    name finds;
  - the calls to `Log.Error`, recorded in order in `log`.

  Each method is proved against the `Settings` and `TimeZones` functions.
  It states every guard and early return, and what stays unchanged on each
  path. The post-state of each of the three initialisations is a two-state
  predicate of the class (`RadiosInitialised`, `TimeZoneBound`,
  `CheckBoxesInitialised`, `CheckBoxesUntouched`).

Some of the code's behaviour is easy to misread; the model follows the code:

- Time zones are matched with `List<string>.Contains`, which is exact
  equality of whole identifiers.
- "Europe/Paris" resolves to "Europe/Brussels", the first element of its
  group at line 267.
- The empty WAN placeholder is written only when the WAN checkbox is enabled.
  So the stored interface array has length 1 when WAN is unchecked and
  disabled, and length 2 otherwise.
- A synchronisation mode other than Auto or Manual leaves both radio buttons
  cleared and logs nothing. Committing the radios afterwards writes Manual.
- When the TimeZonesEnumeration object is missing, the error is logged, but
  the method does not return. The first `AddTimeZone` then dereferences null
  at line 132, and the exception leaves `Start` before the NTP checkboxes are
  initialised. The model returns this as `thrown`.
- If the System node lookup itself fails (line 35), `systemNode` becomes
  null. The two earlier failures (lines 22-33) return with the old
  reference kept.

A second `Start` appends the enumeration entries again, after those already
there; the contracts state the new entries as the old ones followed by the
whole enumeration.

## Model

| member | source | states |
|---|---|---|
| TimeZones.FirstIndex | ProjectFiles/NetSolution/DateAndTimeWidgetLogic.cs:138-143 | the index is at most the table length. No group before it lists the identifier, and the group at it does whenever it is inside the table |
| TimeZones.Resolve | ProjectFiles/NetSolution/DateAndTimeWidgetLogic.cs:135-146 | the result is `""` exactly when no group lists the identifier. Otherwise it is the first element of a group that lists the identifier, where no earlier group lists it |
| TimeZones.GetCurrentTimeZone | ProjectFiles/NetSolution/DateAndTimeWidgetLogic.cs:135-146 | the early-return loop over the groups returns exactly the first-match resolution of the identifier |
| TimeZones.FirstIndexIsFirstMatch | ProjectFiles/NetSolution/DateAndTimeWidgetLogic.cs:138-143 | a position with no listing before it and a listing at it is the first match |
| TimeZones.ResolveConcat | ProjectFiles/NetSolution/DateAndTimeWidgetLogic.cs:138-143 | resolving in the table `a + b` gives the result in `a` when it has one, and the result in `b` otherwise |
| TimeZones.Block0WellFormed | ProjectFiles/NetSolution/DateAndTimeWidgetLogic.cs:261-292 | every group in the first 32 rows has a first identifier, and that identifier is not empty |
| TimeZones.Block1WellFormed | ProjectFiles/NetSolution/DateAndTimeWidgetLogic.cs:293-324 | every group in rows 32 to 63 has a first identifier, and that identifier is not empty |
| TimeZones.Block2WellFormed | ProjectFiles/NetSolution/DateAndTimeWidgetLogic.cs:325-356 | every group in rows 64 to 95 has a first identifier, and that identifier is not empty |
| TimeZones.Block3WellFormed | ProjectFiles/NetSolution/DateAndTimeWidgetLogic.cs:357-388 | every group in rows 96 to 127 has a first identifier, and that identifier is not empty |
| TimeZones.CatalogueWellFormed | ProjectFiles/NetSolution/DateAndTimeWidgetLogic.cs:259-389 | every group of the whole table has a non-empty first identifier. So `value[0]` at line 142 and line 124 always exists, and a resolved value is never `""` |
| TimeZones.Enumeration | ProjectFiles/NetSolution/DateAndTimeWidgetLogic.cs:116-130 | there is one entry per group, in table order. Entry i has index i, the group's first identifier as its value and the group's label |
| TimeZones.ResolveIdempotentWhenDisjoint | ProjectFiles/NetSolution/DateAndTimeWidgetLogic.cs:138-143 | in a table where no group lists another group's identifier earlier, resolving a resolved value gives it back |
| TimeZones.ResolvedValueIsEnumerated | ProjectFiles/NetSolution/DateAndTimeWidgetLogic.cs:116-146 | every resolved value is the value of some entry of the enumeration the combo box lists |
| TimeZoneFacts.ResolveInFirstBlock | ProjectFiles/NetSolution/DateAndTimeWidgetLogic.cs:261-292 | an identifier resolved within the first 32 groups resolves the same way in the whole table |
| TimeZoneFacts.FirstBlockRow | ProjectFiles/NetSolution/DateAndTimeWidgetLogic.cs:261-292 | the first 32 groups of the table are those rows in order |
| TimeZoneFacts.ParisInFirstBlock | ProjectFiles/NetSolution/DateAndTimeWidgetLogic.cs:261-267 | within the first block, "Europe/Paris" first appears at line 267 and resolves to "Europe/Brussels" |
| TimeZoneFacts.ParisResolvesToBrussels | ProjectFiles/NetSolution/DateAndTimeWidgetLogic.cs:261-267 | "Europe/Paris" resolves to "Europe/Brussels" |
| TimeZoneFacts.ParisGroupEnumerated | ProjectFiles/NetSolution/DateAndTimeWidgetLogic.cs:267 | entry 6 of the enumeration has the value "Europe/Brussels" and the Brussels/Copenhagen/Madrid/Paris label |
| TimeZoneFacts.SarajevoInFirstBlock | ProjectFiles/NetSolution/DateAndTimeWidgetLogic.cs:261-268 | within the first block, "Europe/Sarajevo" resolves to "Europe/Belgrade" |
| TimeZoneFacts.SarajevoResolvesToBelgrade | ProjectFiles/NetSolution/DateAndTimeWidgetLogic.cs:261-268 | "Europe/Sarajevo" resolves to "Europe/Belgrade" |
| TimeZoneFacts.BelgradeInFirstBlock | ProjectFiles/NetSolution/DateAndTimeWidgetLogic.cs:261-266 | within the first block, "Europe/Belgrade" resolves to "Europe/Budapest" |
| TimeZoneFacts.BelgradeResolvesToBudapest | ProjectFiles/NetSolution/DateAndTimeWidgetLogic.cs:261-266 | "Europe/Belgrade" resolves to "Europe/Budapest", because line 266 lists it before line 268 |
| TimeZoneFacts.CatalogueGroupsOverlap | ProjectFiles/NetSolution/DateAndTimeWidgetLogic.cs:266-268 | the table's groups are not disjoint: the representative of line 268 is listed at line 266 |
| TimeZoneFacts.CatalogueResolutionNotIdempotent | ProjectFiles/NetSolution/DateAndTimeWidgetLogic.cs:266-268 | resolving "Europe/Sarajevo" twice differs from resolving it once |
| TimeZoneFacts.SarajevoGroupRepresentative | ProjectFiles/NetSolution/DateAndTimeWidgetLogic.cs:268 | the group at line 268 lists "Europe/Sarajevo", and its first element is "Europe/Belgrade" |
| TimeZoneFacts.Block0Lacks | ProjectFiles/NetSolution/DateAndTimeWidgetLogic.cs:261-292 | no group in the first block lists "Mars/OlympusMons" |
| TimeZoneFacts.Block1Lacks | ProjectFiles/NetSolution/DateAndTimeWidgetLogic.cs:293-324 | no group in the second block lists "Mars/OlympusMons" |
| TimeZoneFacts.Block2Lacks | ProjectFiles/NetSolution/DateAndTimeWidgetLogic.cs:325-356 | no group in the third block lists "Mars/OlympusMons" |
| TimeZoneFacts.Block3Lacks | ProjectFiles/NetSolution/DateAndTimeWidgetLogic.cs:357-388 | no group in the fourth block lists "Mars/OlympusMons" |
| TimeZoneFacts.UnknownTimeZoneUnresolved | ProjectFiles/NetSolution/DateAndTimeWidgetLogic.cs:138-145 | an identifier that no group lists resolves to `""` |
| Settings.RadioStates | ProjectFiles/NetSolution/DateAndTimeWidgetLogic.cs:77-83 | the auto radio is checked iff the mode is Auto, the manual radio iff it is Manual, and never both |
| Settings.CommittedMode | ProjectFiles/NetSolution/DateAndTimeWidgetLogic.cs:207-210 | the written mode is never Other, and it is Auto exactly when the auto radio is checked |
| Settings.SyncModeRoundTrip | ProjectFiles/NetSolution/DateAndTimeWidgetLogic.cs:77-83 | initialising the radios and committing them gives back Auto and Manual unchanged, and turns any other mode into Manual |
| Settings.EncodeInterfaces | ProjectFiles/NetSolution/DateAndTimeWidgetLogic.cs:234-243 | slot 0 is "LAN" or `""`. Slot 1 is "WAN" or `""`, and is present unless WAN is unchecked and disabled. So the length is 1 in that case and 2 otherwise |
| Settings.DecodeInterfaces | ProjectFiles/NetSolution/DateAndTimeWidgetLogic.cs:166-175 | LAN ends checked iff some element equals "LAN", and WAN iff some element equals "WAN". Other elements are ignored |
| Settings.InterfacesRoundTrip | ProjectFiles/NetSolution/DateAndTimeWidgetLogic.cs:234-243 | decoding the encoder's output gives back both checked states, for all eight combinations including the length-1 array |
| Widget.DateAndTimeWidgetLogic.constructor | ProjectFiles/NetSolution/DateAndTimeWidgetLogic.cs:247-259 | a new logic object holds the table and null references, and has logged nothing |
| Widget.DateAndTimeWidgetLogic.Start | ProjectFiles/NetSolution/DateAndTimeWidgetLogic.cs:18-48 | (1) When the node lookup fails, one error is logged, no control changes and the node reference is kept; it is nulled only when the node is missing. (2) Otherwise the three initialisations run in order, with their logs in order, each leaving its controls unchanged on its own early exits. (3) An escaping exception leaves the combo box link and the checkboxes untouched |
| Widget.DateAndTimeWidgetLogic.InitializeControls | ProjectFiles/NetSolution/DateAndTimeWidgetLogic.cs:43-47 | once the node is known: (1) the radios show the node's mode, or neither changes when one is missing; (2) the combo box is bound, and nothing changes when its time zone is unrecognised; its link is kept when the exception escapes; (3) the checkboxes show the node's interfaces with their enabled flags kept, neither changes when one is missing, and none is touched after the exception |
| Widget.DateAndTimeWidgetLogic.InitializeTimeZoneAndInterfaces | ProjectFiles/NetSolution/DateAndTimeWidgetLogic.cs:45-47 | the combo-box binding, then the checkbox initialisation unless the exception escaped, with the logs of both in order and the checkboxes untouched after the exception |
| Widget.DateAndTimeWidgetLogic.Stop | ProjectFiles/NetSolution/DateAndTimeWidgetLogic.cs:50-58 | all five references are null afterwards, and nothing is logged |
| Widget.DateAndTimeWidgetLogic.InitializeSynchronizationModeRadioButtons | ProjectFiles/NetSolution/DateAndTimeWidgetLogic.cs:61-84 | the auto radio reference is kept. A missing radio logs its error and changes neither radio. Otherwise the radios equal `RadioStates` of the node's mode |
| Widget.DateAndTimeWidgetLogic.InitializeTimeZoneComboBoxBindings | ProjectFiles/NetSolution/DateAndTimeWidgetLogic.cs:88-109 | (1) A missing combo box, or a stored time zone that does not resolve, logs one error. In that case the enumeration, the combo box and the enumeration reference do not change. (2) Otherwise the enumeration gains every entry. (3) The combo box is then linked to the node; when the exception escapes, its link is kept |
| Widget.DateAndTimeWidgetLogic.InitializeTimeZonesObject | ProjectFiles/NetSolution/DateAndTimeWidgetLogic.cs:110-119 | (1) The counting loop appends the whole enumeration, in order. (2) A missing object logs once. (3) It then throws exactly when the table is non-empty |
| Widget.DateAndTimeWidgetLogic.AddTimeZone | ProjectFiles/NetSolution/DateAndTimeWidgetLogic.cs:121-133 | appends the entry made of the index, the group's first element and its label; throws exactly when the enumeration reference is null |
| Widget.DateAndTimeWidgetLogic.InitializeLocalNTPServerInterfacesCheckBoxes | ProjectFiles/NetSolution/DateAndTimeWidgetLogic.cs:150-176 | (1) The references are set until the first missing checkbox, whose error is logged, and then no checkbox changes. (2) Otherwise the clear-then-set loop leaves the checked states equal to `DecodeInterfaces` of the node's array, with the enabled flags kept |
| Widget.DateAndTimeWidgetLogic.Reboot_Device | ProjectFiles/NetSolution/DateAndTimeWidgetLogic.cs:179-190 | a null node reference logs the error. Otherwise the node is rebooted once, with its settings unchanged |
| Widget.DateAndTimeWidgetLogic.SynchronizationModeChanged | ProjectFiles/NetSolution/DateAndTimeWidgetLogic.cs:192-211 | (1) Guards in source order: a missing radio, then a missing node, each logs and writes nothing. (2) Otherwise the node's mode becomes `CommittedMode` of the auto radio, and nothing else on the node changes |
| Widget.DateAndTimeWidgetLogic.LocalNTPServerOptionsChanged | ProjectFiles/NetSolution/DateAndTimeWidgetLogic.cs:213-245 | (1) Guards in source order: LAN, WAN, then the node, each logs and writes nothing. (2) Otherwise the node's array becomes `EncodeInterfaces` of the two boxes, and nothing else on the node changes |
| Widget.ActionsAfterStop | ProjectFiles/NetSolution/DateAndTimeWidgetLogic.cs:50-58 | after Stop, Reboot_Device, SynchronizationModeChanged and LocalNTPServerOptionsChanged change no node and only log, in that order |
| Widget.ModeSurvivesStartAndCommit | ProjectFiles/NetSolution/DateAndTimeWidgetLogic.cs:207-210 | Start followed by committing the untouched radios leaves an Auto or Manual mode unchanged on the node |
| Widget.InterfacesSurviveCommitAndReload | ProjectFiles/NetSolution/DateAndTimeWidgetLogic.cs:166-175 | committing the checkboxes and reloading them from the node restores both checked states |

## Left out

- Host object model: what each `Owner.Get*` and `InformationModel.Get` lookup finds is a field of `Owner`. `NodeId` null and `NodeId.Empty` are one case.
- `MakeVariable` and its `TimeZone<index>` browse name are not modelled. The variable is an `Entry` appended to the enumeration object.
- Combo box dynamic link: modelled only as the combo box's link reference being reset and set to the node (lines 107-108). The read-write propagation of later selections is host behaviour.
- Localization: `Session.User.LocaleId` and `LocalizedText` (lines 126-130) are not modelled, and neither is the "no locale" error at line 128. An entry keeps the raw label.
- `Log.Error`: only which error was logged, in order, is kept. The message text and the logging category are not.
- `Reboot()`: the device restart is a host side effect. The model counts the calls.
- .NET `Dictionary` order: the table is taken to enumerate in declaration order. The groups are listed in insertion order, and no group is ever removed.
- Exceptions: only the null dereference at line 132 is modelled. Host failures are not: an invalid pointer cast at line 28, a null `DateAndTime` or interface array, and a failing `Add`.
- The private initialisation methods require a non-null node reference, which `Start` always provides before calling them.
- TimeZoneFacts.CatalogueResolutionNotIdempotent: the claim that every other group's representative is a fixed point of resolution is not proved for the real table. What is proved:
  - the general rule for tables whose groups do not overlap (`TimeZones.ResolveIdempotentWhenDisjoint`);
  - the overlap at lines 266 and 268;
  - the resulting counterexample.

  Proving the claim for all 128 groups would need every representative compared with every earlier group, which is several thousand string comparisons over the table literal.
- No concurrency and no threads: the host calls the widget's methods one at a time.
