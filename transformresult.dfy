/**
 * The non-numeric transforms applied to a value read from a device: the
 * string mapping of a resource operation and the assertion of a device
 * object's property value, which disables the device when it fails.
 */
module Transformer {
  import opened Wrappers
  import opened Models
  import opened CommandValues

  /**
   * `MapCommandValue`: when the value's rendering is a key of the mappings,
   * a new String value holding the mapped text, stamped with the input's
   * origin; no value (Go's nil with false) otherwise.
   */
  function MapCommandValue(value: CommandValue, mappings: map<string, string>): (r: Option<CommandValue>)
    ensures r.Some? <==> ToString(value) in mappings
    ensures r.Some? ==>
      && r.value.valueType == String
      && r.value.origin == value.origin
      && StringValue(r.value) == Decoded(mappings[ToString(value)], None)
  {
    if ToString(value) in mappings then Some(NewStringValue(value.origin, mappings[ToString(value)]))
    else None
  }

  /** A mapped value renders as the mapped text, so a second mapping looks that text up. */
  lemma MapThenRender(value: CommandValue, mappings: map<string, string>, again: map<string, string>)
    requires ToString(value) in mappings
    ensures ToString(MapCommandValue(value, mappings).value) == mappings[ToString(value)]
    ensures MapCommandValue(MapCommandValue(value, mappings).value, again).Some? <==> mappings[ToString(value)] in again
  {
  }

  /** Mapping through a table that sends each text to itself keeps the rendering and the origin. */
  lemma MapIdentity(value: CommandValue, mappings: map<string, string>)
    requires value.valueType == String
    requires forall k :: k in mappings ==> mappings[k] == k
    requires ToString(value) in mappings
    ensures MapCommandValue(value, mappings) == Some(value.(numericValue := []))
  {
  }

  /**
   * The error `CheckAssertion` reports: set exactly when the assertion is
   * given and differs from the rendering. The message is the `Sprintf`
   * text; `fmt.Errorf` then reads it as a format string, which leaves it
   * unchanged only when neither the assertion nor the rendering holds a `%`.
   */
  function AssertionError(cv: CommandValue, assertion: string): (err: Option<string>)
    ensures err.Some? <==> assertion != "" && ToString(cv) != assertion
    ensures err.Some? && '%' !in assertion && '%' !in ToString(cv) ==>
      err.value == "assertion (" + assertion + ") failed with value: " + ToString(cv)
  {
    if assertion != "" && ToString(cv) != assertion then
      Some("assertion (" + assertion + ") failed with value: " + ToString(cv))
    else None
  }

  /**
   * `CheckAssertion`: on a failed assertion the device's operating state
   * becomes disabled and the error is returned; otherwise nothing changes.
   */
  method CheckAssertion(cv: CommandValue, assertion: string, device: DeviceRef) returns (err: Option<string>)
    modifies device
    ensures err == AssertionError(cv, assertion)
    ensures err.Some? ==> device.device == old(device.device).(operatingState := Disabled)
    ensures err.None? ==> device.device == old(device.device)
  {
    if assertion != "" && ToString(cv) != assertion {
      device.device := device.device.(operatingState := Disabled);
      return Some("assertion (" + assertion + ") failed with value: " + ToString(cv));
    }
    return None;
  }

  /** A value whose rendering is the assertion, or an empty assertion, never fails. */
  lemma AssertionHolds(cv: CommandValue)
    ensures AssertionError(cv, "") == None
    ensures AssertionError(cv, ToString(cv)) == None
  {
  }

  /**
   * As written, a short read renders as the zero value of its type, so it
   * passes exactly the assertion naming that value (or none) and fails
   * every other one.
   */
  lemma ShortReadAsZero(cv: CommandValue, assertion: string)
    requires cv.valueType != String && !WellFormed(cv)
    ensures AssertionError(cv, assertion).None? <==> assertion == "" || assertion == (if cv.valueType == Bool then "false" else "0")
  {
  }

  /** A one-byte Uint16 payload passes the assertion "0" and maps through the key "0". */
  lemma ShortReadExample()
    ensures AssertionError(CommandValue(0, Uint16, [1], ""), "0") == None
    ensures MapCommandValue(CommandValue(0, Uint16, [1], ""), map["0" := "OFF"]) == Some(NewStringValue(0, "OFF"))
  {
  }
}
