/**
  The constraint evaluator the validators call: one field of a profile
  record, a human caption and its constraints give one message, or "" when
  the field is acceptable. The atomic field validators (IP literal, domain
  name, file existence, name still unused) touch the network stack, the
  filesystem or the profile store and are supplied by the caller.
*/
module Utility {
  import opened Wrappers
  import opened QtString
  import opened QtJson

  datatype FieldValidators = FieldValidators(
    isIpAddrValid: string -> bool,
    isDomainNameValid: string -> bool,
    isFileExists: string -> bool,
    isServerNameNotUsed: string -> bool)

  /** A maximum below zero (written -127 by every caller) means "no upper bound". */
  const NO_UPPER_BOUND: int := -127

  function RequiredMessage(caption: string): string { caption + " is required" }
  function InvalidMessage(caption: string): string { caption + " is invalid" }
  function OutOfRangeMessage(caption: string): string { caption + " is out of range" }

  /** Validators are OR-ed: one that accepts the value is enough. */
  predicate AnyAccepts(validators: seq<string -> bool>, value: string)
  {
    exists i :: 0 <= i < |validators| && validators[i](value)
  }

  /**
    Utility::getStringConfigError: a required string field, optionally
    checked by validators, reported with `customMessage` when one is given.
  */
  function StringConfigError(record: JObject, key: string, caption: string,
                             validators: seq<string -> bool>, customMessage: string): (r: string)
    ensures var value := ToString(Get(record, key));
      r == "" <==> value != "" && (validators == [] || AnyAccepts(validators, value))
    ensures ToString(Get(record, key)) == "" ==> r == RequiredMessage(caption)
    ensures r != "" && ToString(Get(record, key)) != "" ==>
      r == (if customMessage != "" then customMessage else InvalidMessage(caption))
  {
    var value := ToString(Get(record, key));
    if value == "" then RequiredMessage(caption)
    else if validators != [] && !AnyAccepts(validators, value) then
      (if customMessage != "" then customMessage else InvalidMessage(caption))
    else ""
  }

  /** How the evaluator reads a numeric field: a number, or text holding one. */
  function ReadInt(v: Json): Option<int>
  {
    match v
    case Num(n) => Some(n)
    case Str(s) => ParseInteger(s)
    case _ => None
  }

  predicate InRange(n: int, min: int, max: int)
  {
    min <= n && (max < 0 || n <= max)
  }

  /**
    Utility::getNumericConfigError: the field must be present, numeric and
    inside [min, max]; a negative max leaves the range open above.
  */
  function NumericConfigError(record: JObject, key: string, caption: string, min: int, max: int): (r: string)
    ensures r == "" <==> key in record && ReadInt(record[key]).Some? && InRange(ReadInt(record[key]).value, min, max)
    ensures key !in record ==> r == RequiredMessage(caption)
    ensures r != "" && key in record ==>
      r == (if ReadInt(record[key]).Some? then OutOfRangeMessage(caption) else InvalidMessage(caption))
  {
    if key !in record then RequiredMessage(caption)
    else match ReadInt(record[key])
      case None => InvalidMessage(caption)
      case Some(n) => if InRange(n, min, max) then "" else OutOfRangeMessage(caption)
  }

  /** The sentinel maximum: any value at or above the minimum is accepted. */
  lemma SentinelHasNoUpperBound(record: JObject, key: string, caption: string, n: int)
    requires key in record && record[key] == Num(n)
    ensures NumericConfigError(record, key, caption, 0, NO_UPPER_BOUND) == "" <==> n >= 0
  {
  }

  /**
    Proof helper: the message texts chosen for the evaluator (see
    RequiredMessage and its siblings) end in 'd' or 'e', which tells them
    apart from the validators' two fixed messages.
  */
  predicate IsLabelMessage(m: string)
  {
    m != "" && (m[|m| - 1] == 'd' || m[|m| - 1] == 'e')
  }

  lemma LabelMessages(caption: string)
    ensures IsLabelMessage(RequiredMessage(caption))
    ensures IsLabelMessage(InvalidMessage(caption))
    ensures IsLabelMessage(OutOfRangeMessage(caption))
  {
    var r := " is required";
    var i := " is invalid";
    var o := " is out of range";
    assert RequiredMessage(caption)[|RequiredMessage(caption)| - 1] == r[|r| - 1];
    assert InvalidMessage(caption)[|InvalidMessage(caption)| - 1] == i[|i| - 1];
    assert OutOfRangeMessage(caption)[|OutOfRangeMessage(caption)| - 1] == o[|o| - 1];
  }

  lemma StringErrorShape(record: JObject, key: string, caption: string, validators: seq<string -> bool>)
    ensures var r := StringConfigError(record, key, caption, validators, "");
      r == "" || IsLabelMessage(r)
  {
    LabelMessages(caption);
  }

  lemma NumericErrorShape(record: JObject, key: string, caption: string, min: int, max: int)
    ensures var r := NumericConfigError(record, key, caption, min, max);
      r == "" || IsLabelMessage(r)
  {
    LabelMessages(caption);
  }
}
