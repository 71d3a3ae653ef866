/** The lighting tool `control_lights(location, action)`: choose the lamp from
    the location, the on/off flag from the action, switch the lamp, and echo
    the request. The bridge call `set_light` is recorded as a command instead
    of being sent to the hardware. */
module Lights {
  import opened Results
  import opened Text

  const LivingRoom: string := "LIVING_ROOM"
  const On: string := "ON"

  /** The two lamps the tool can address. */
  datatype Lamp = LivingRoomLamp | OtherLamp

  /** The bridge's name for each lamp. */
  function LampName(lamp: Lamp): string
  {
    match lamp
    case LivingRoomLamp => "Hue color lamp 1"
    case OtherLamp => "Hue color lamp 2"
  }

  /** `bridge.set_light(light_id, parameter, value)`. */
  datatype LightCommand = SetLight(lamp: Lamp, parameter: string, value: bool)

  /** What one call does: the command sent to the bridge, and the text
      returned to the dispatcher. */
  datatype LightsRun = LightsRun(command: LightCommand, message: string)

  lemma LabelsNoLower()
    ensures NoLower(LivingRoom) && NoLower(On)
  {
  }

  /** The living-room lamp, "Hue color lamp 1", is chosen exactly when the
      location is "LIVING_ROOM" up to case; every other location, "BEDROOM"
      or not, addresses "Hue color lamp 2". */
  function LampFor(location: string): (lamp: Lamp)
    ensures lamp == LivingRoomLamp <==> MatchesIgnoringCase(location, LivingRoom)
    ensures lamp == OtherLamp <==> !MatchesIgnoringCase(location, LivingRoom)
    ensures LampName(lamp) == "Hue color lamp 1" <==> MatchesIgnoringCase(location, LivingRoom)
    ensures LampName(lamp) == "Hue color lamp 2" <==> !MatchesIgnoringCase(location, LivingRoom)
  {
    LabelsNoLower();
    UpperEqualsIff(location, LivingRoom);
    if Upper(location) == LivingRoom then LivingRoomLamp else OtherLamp
  }

  /** The lamp is switched on exactly when the action is "ON" up to case;
      any other action, "OFF" or not, switches it off. */
  function OnFlag(action: string): (on: bool)
    ensures on <==> MatchesIgnoringCase(action, On)
  {
    LabelsNoLower();
    UpperEqualsIff(action, On);
    Upper(action) == On
  }

  /** `control_lights(location, action)` with the bridge in scope: one
      `set_light` command on the "on" parameter, and a message that repeats
      the arguments as given, not upper-cased. */
  function ControlLights(location: string, action: string): (r: LightsRun)
    ensures r.command.parameter == "on"
    ensures r.command.lamp == LivingRoomLamp <==> MatchesIgnoringCase(location, LivingRoom)
    ensures r.command.value <==> MatchesIgnoringCase(action, On)
    ensures r.message == location + " light set to " + action + "."
  {
    LightsRun(SetLight(LampFor(location), "on", OnFlag(action)), location + " light set to " + action + ".")
  }

  /** Changing only the case of the arguments sends the same command. */
  lemma CommandIgnoresCase(location: string, location': string, action: string, action': string)
    requires Upper(location) == Upper(location') && Upper(action) == Upper(action')
    ensures ControlLights(location, action).command == ControlLights(location', action').command
  {
  }

  const BridgeNameError: string := "NameError: name 'bridge' is not defined"

  /** The tool as the file has it: `bridge` is used but never bound in the
      module (only `Bridge_hue` is imported), so the call raises before any
      lamp is switched, whatever the arguments. */
  function ControlLightsAsWritten(location: string, action: string): (r: Result<LightsRun, string>)
    ensures r.Failure? && r.error == BridgeNameError
  {
    Failure(BridgeNameError)
  }

  /** The documented request "switch the living room on" raises as written,
      while the corrected tool switches lamp 1 on. */
  lemma LivingRoomOnDiffers()
    ensures ControlLightsAsWritten("LIVING_ROOM", "ON").Failure?
    ensures ControlLights("LIVING_ROOM", "ON").command == SetLight(LivingRoomLamp, "on", true)
  {
    assert MatchesIgnoringCase("LIVING_ROOM", LivingRoom);
    assert MatchesIgnoringCase("ON", On);
  }
}
