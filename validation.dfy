/**
 * The step-parameter validator of the back end
 * (turbine-shutdown-backend/src/utils/validation.ts): every range rule of a
 * step is checked, independently and in order, against one sample of sensor
 * data, and each check yields one result.
 */
module Validation {
  import opened Wrappers

  /** The inclusive bounds `[lo, hi]` of a rule. Nothing forces `lo <= hi`; an inverted range admits no value. */
  datatype Range = Range(lo: real, hi: real)

  /** `maxRateOfChange` is carried but, as in the back end, never consulted. */
  datatype ValidationRule = ValidationRule(
    parameter: string,
    expectedRange: Range,
    units: string,
    maxRateOfChange: Option<real>)

  /**
   * The result message, kept abstract: the back end renders `OutsideRange`
   * as a sentence quoting the value, the units and both bounds.
   */
  datatype Message = NoSensorData | OutsideRange(value: real, units: string, range: Range)

  datatype ValidationResult = ValidationResult(
    parameter: string,
    valid: bool,
    actualValue: Option<real>,
    expectedRange: Option<Range>,
    message: Option<Message>)

  /**
   * A sample of sensor data by parameter name. A name that is not a key
   * stands for `undefined`, a key mapped to `None` for `null`.
   */
  type SensorData = map<string, Option<real>>

  /** The reading of `parameter`, `None` when it is undefined or null. */
  function Reading(data: SensorData, parameter: string): Option<real>
  {
    if parameter in data then data[parameter] else None
  }

  /** The reference meaning of a range: the value lies between both bounds, bounds included. */
  predicate InRange(v: real, range: Range)
  {
    range.lo <= v && range.hi >= v
  }

  /** A rule passes when its parameter has a reading and that reading is in the rule's range. */
  predicate RulePasses(rule: ValidationRule, data: SensorData)
  {
    Reading(data, rule.parameter).Some? && InRange(Reading(data, rule.parameter).value, rule.expectedRange)
  }

  /** The per-rule check of `validateStepParameters`. */
  function ValidateRule(rule: ValidationRule, data: SensorData): (r: ValidationResult)
    ensures r.parameter == rule.parameter
    ensures r.valid <==> RulePasses(rule, data)
    // the reading is reported whenever there is one
    ensures r.actualValue == Reading(data, rule.parameter)
    // a failure carries a message; the missing-data message exactly when there is no reading
    ensures r.message.Some? <==> !r.valid
    ensures r.message == Some(NoSensorData) <==> Reading(data, rule.parameter).None?
    // the rule's range is echoed back exactly on an out-of-range reading
    ensures r.expectedRange.Some? <==> !r.valid && r.actualValue.Some?
    ensures r.expectedRange.Some? ==> r.expectedRange.value == rule.expectedRange
    ensures r.expectedRange.Some? ==>
      r.message == Some(OutsideRange(r.actualValue.value, rule.units, rule.expectedRange))
  {
    var value := Reading(data, rule.parameter);
    if value.None? then
      ValidationResult(rule.parameter, false, None, None, Some(NoSensorData))
    else if value.value < rule.expectedRange.lo || value.value > rule.expectedRange.hi then
      ValidationResult(rule.parameter, false, value, Some(rule.expectedRange),
                       Some(OutsideRange(value.value, rule.units, rule.expectedRange)))
    else
      ValidationResult(rule.parameter, true, value, None, None)
  }

  /** `validateStepParameters`: one result per rule, in the rules' order. */
  function ValidateStepParameters(rules: seq<ValidationRule>, data: SensorData): (r: seq<ValidationResult>)
    ensures |r| == |rules|
    ensures forall i :: 0 <= i < |rules| ==> r[i].parameter == rules[i].parameter
    ensures forall i :: 0 <= i < |rules| ==> r[i] == ValidateRule(rules[i], data)
  {
    if rules == [] then []
    else [ValidateRule(rules[0], data)] + ValidateStepParameters(rules[1..], data)
  }

  /** The gate on "Confirm and Proceed": every result is valid (vacuously so for no results). */
  predicate AllValid(results: seq<ValidationResult>)
  {
    forall i :: 0 <= i < |results| ==> results[i].valid
  }

  /** A step's results all pass exactly when every rule has a reading inside its range. */
  lemma AllValidIffEveryRulePasses(rules: seq<ValidationRule>, data: SensorData)
    ensures AllValid(ValidateStepParameters(rules, data)) <==>
            forall i :: 0 <= i < |rules| ==> RulePasses(rules[i], data)
  {
  }

  /** A failing rule shows up as an invalid result at the same position, naming that rule's parameter. */
  lemma FailingRuleIsReported(rules: seq<ValidationRule>, data: SensorData, i: nat)
    requires i < |rules| && !RulePasses(rules[i], data)
    ensures !AllValid(ValidateStepParameters(rules, data))
    ensures !ValidateStepParameters(rules, data)[i].valid
    ensures ValidateStepParameters(rules, data)[i].parameter == rules[i].parameter
  {
  }

  /** Rules are checked independently: validating two lists one after the other equals validating their concatenation. */
  lemma ValidateConcatenation(rules1: seq<ValidationRule>, rules2: seq<ValidationRule>, data: SensorData)
    ensures ValidateStepParameters(rules1 + rules2, data)
         == ValidateStepParameters(rules1, data) + ValidateStepParameters(rules2, data)
  {
  }

  /** The results depend on the sensor data only through the readings of the rules' own parameters. */
  lemma ValidationIsLocal(rules: seq<ValidationRule>, data1: SensorData, data2: SensorData)
    requires forall i :: 0 <= i < |rules| ==> Reading(data1, rules[i].parameter) == Reading(data2, rules[i].parameter)
    ensures ValidateStepParameters(rules, data1) == ValidateStepParameters(rules, data2)
  {
  }

  /** The rate-of-change bound of a rule has no effect on its result. */
  lemma RateOfChangeIgnored(rule: ValidationRule, rate: Option<real>, data: SensorData)
    ensures ValidateRule(rule.(maxRateOfChange := rate), data).valid == ValidateRule(rule, data).valid
    ensures ValidateRule(rule.(maxRateOfChange := rate), data) == ValidateRule(rule, data)
  {
  }

  /** A rule whose range is inverted never passes. */
  lemma InvertedRangeNeverValid(rule: ValidationRule, data: SensorData)
    requires rule.expectedRange.lo > rule.expectedRange.hi
    ensures !ValidateRule(rule, data).valid
  {
  }

  /** Both bounds belong to the range. */
  lemma BoundsAreInclusive(rule: ValidationRule, data: SensorData)
    requires rule.expectedRange.lo <= rule.expectedRange.hi
    requires Reading(data, rule.parameter) == Some(rule.expectedRange.lo)
          || Reading(data, rule.parameter) == Some(rule.expectedRange.hi)
    ensures ValidateRule(rule, data).valid
  {
  }

  /**
   * The back end's unit-test scenario: main-steam and hot-reheat temperatures of
   * 540 and 538 against [535, 545] both validate; 560 would not.
   */
  lemma SteamTemperatureExample()
    ensures var rules := [ValidationRule("MS_TEMP", Range(535.0, 545.0), "C", None),
                          ValidationRule("HRH_TEMP", Range(535.0, 545.0), "C", None)];
            AllValid(ValidateStepParameters(rules, map["MS_TEMP" := Some(540.0), "HRH_TEMP" := Some(538.0)]))
            && !AllValid(ValidateStepParameters(rules, map["MS_TEMP" := Some(560.0), "HRH_TEMP" := Some(538.0)]))
  {
  }
}
