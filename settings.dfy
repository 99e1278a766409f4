/**
 * The two settings the widget mirrors between the System node and its
 * controls: the time synchronisation mode (two exclusive radio buttons) and
 * the interfaces the local NTP server listens on (two checkboxes, stored as
 * an array of interface names).
 */
module Settings {

  /**
   * The node's TimeSynchronizationMode. Other stands for any further value
   * the host's enumeration may hold; the widget recognises only the two.
   */
  datatype SyncMode = Auto | Manual | Other

  const LanInterfaceName: string := "LAN"
  const WanInterfaceName: string := "WAN"

  /**
   * The (auto, manual) radio states after initialisation from `mode`: both
   * are cleared, then the one matching the mode is checked.
   */
  function RadioStates(mode: SyncMode): (r: (bool, bool))
    ensures r.0 <==> mode == Auto
    ensures r.1 <==> mode == Manual
    ensures !(r.0 && r.1)
  {
    var (auto, manual) := (false, false);
    if mode == Auto then (true, manual)
    else if mode == Manual then (auto, true)
    else (auto, manual)
  }

  /** The mode SynchronizationModeChanged writes, given whether the auto radio is checked. */
  function CommittedMode(autoChecked: bool): (m: SyncMode)
    ensures m != Other
    ensures m == Auto <==> autoChecked
  {
    if autoChecked then Auto else Manual
  }

  /**
   * Initialising the radios and committing them back leaves Auto and Manual
   * as they were; an unrecognised mode comes back as Manual.
   */
  lemma SyncModeRoundTrip(mode: SyncMode)
    ensures CommittedMode(RadioStates(mode).0) == if mode == Other then Manual else mode
  {
  }

  /**
   * The interface array LocalNTPServerOptionsChanged writes: the LAN slot,
   * then the WAN slot, each holding the interface name when its box is
   * checked and "" otherwise, except that the empty WAN slot is written only
   * when the WAN box is enabled.
   */
  function EncodeInterfaces(lanChecked: bool, wanChecked: bool, wanEnabled: bool): (r: seq<string>)
    ensures |r| == if !wanChecked && !wanEnabled then 1 else 2
    ensures r[0] == if lanChecked then LanInterfaceName else ""
    ensures |r| == 2 ==> r[1] == if wanChecked then WanInterfaceName else ""
  {
    var lanSlot := [if lanChecked then LanInterfaceName else ""];
    if wanChecked then lanSlot + [WanInterfaceName]
    else if wanEnabled then lanSlot + [""]
    else lanSlot
  }

  /** The checkbox states (lan, wan) after the decode loop has seen `names`, starting from both cleared. */
  function DecodeInterfaces(names: seq<string>): (r: (bool, bool))
    ensures r.0 <==> LanInterfaceName in names
    ensures r.1 <==> WanInterfaceName in names
  {
    if names == [] then (false, false)
    else
      var (lan, wan) := DecodeInterfaces(names[..|names| - 1]);
      var name := names[|names| - 1];
      assert names == names[..|names| - 1] + [name];
      if name == LanInterfaceName then (true, wan)
      else if name == WanInterfaceName then (lan, true)
      else (lan, wan)
  }

  /** Decoding what the encoder wrote gives back both checked states, in the one-slot case too. */
  lemma {:induction false} InterfacesRoundTrip(lanChecked: bool, wanChecked: bool, wanEnabled: bool)
    ensures DecodeInterfaces(EncodeInterfaces(lanChecked, wanChecked, wanEnabled)) == (lanChecked, wanChecked)
  {
  }
}
