/**
 * The display formatters of the web client: the value state and icon of a
 * classification, the confidence band, and the display name of a focus area.
 */
module Formatter {
  import Grok

  const Accept := "sap-icon://accept"
  const Decline := "sap-icon://decline"
  const QuestionMark := "sap-icon://question-mark"

  /** `classificationState`: "Success" for a signal, "None" for anything else. */
  function ClassificationState(classification: string): (r: string)
    ensures r == "Success" <==> classification == "signal"
    ensures r == "None" <==> classification != "signal"
  {
    if classification == "signal" then "Success"
    else if classification == "noise" then "None"
    else "None"
  }

  /** `classificationIcon`: accept for a signal, decline for noise, a question mark otherwise. */
  function ClassificationIcon(classification: string): (r: string)
    ensures r == Accept <==> classification == "signal"
    ensures r == Decline <==> classification == "noise"
    ensures r == QuestionMark <==> classification != "signal" && classification != "noise"
  {
    if classification == "signal" then Accept
    else if classification == "noise" then Decline
    else QuestionMark
  }

  /** `confidenceText`: High from 90, Medium from 70, Low below. */
  function ConfidenceText(score: int): (r: string)
    ensures r == "High" <==> score >= 90
    ensures r == "Medium" <==> 70 <= score < 90
    ensures r == "Low" <==> score < 70
  {
    if score >= 90 then "High"
    else if score >= 70 then "Medium"
    else "Low"
  }

  /** The rank of a band: Low 0, Medium 1, High 2. */
  function BandRank(band: string): nat
  {
    if band == "High" then 2 else if band == "Medium" then 1 else 0
  }

  /** A higher score never gets a lower band. */
  lemma ConfidenceTextMonotone(a: int, b: int)
    requires a <= b
    ensures BandRank(ConfidenceText(a)) <= BandRank(ConfidenceText(b))
  {
  }

  const FocusAreaNames: map<string, string> := map[
    "voice_ai_ux" := "Voice AI UX",
    "agent_orchestration" := "Agent Orchestration",
    "durable_runtime" := "Durable Runtime"
  ]

  /** `focusAreaText` as intended: the display name of a known key, any other value unchanged. */
  function FocusAreaText(focusArea: string): (r: string)
    ensures focusArea in FocusAreaNames ==> r == FocusAreaNames[focusArea]
    ensures focusArea !in FocusAreaNames ==> r == focusArea
  {
    if focusArea in FocusAreaNames then FocusAreaNames[focusArea] else focusArea
  }

  /** Every focus area the analysis service accepts has a display name. */
  lemma EveryFocusAreaNamed(focusArea: string)
    requires focusArea in Grok.FocusAreas
    ensures FocusAreaText(focusArea) != focusArea
  {
  }

  // ------------------------------------------------------------ as written

  /** The JavaScript values an object-literal lookup can produce. */
  datatype JsValue = Undefined | JsString(s: string) | JsFunction(name: string) | PrototypeObject

  /** The members every object literal inherits from `Object.prototype`. */
  const PrototypeMethods: set<string> := {
    "constructor", "hasOwnProperty", "isPrototypeOf", "propertyIsEnumerable",
    "toLocaleString", "toString", "valueOf",
    "__defineGetter__", "__defineSetter__", "__lookupGetter__", "__lookupSetter__"
  }

  /** `oMap[key]` on the literal: own properties first, then the inherited ones. */
  function LiteralLookup(key: string): (v: JsValue)
    ensures key in FocusAreaNames ==> v == JsString(FocusAreaNames[key])
    ensures v.Undefined? <==> key !in FocusAreaNames && key !in PrototypeMethods && key != "__proto__"
  {
    if key in FocusAreaNames then JsString(FocusAreaNames[key])
    else if key == "__proto__" then PrototypeObject
    else if key in PrototypeMethods then JsFunction(key)
    else Undefined
  }

  predicate JsTruthy(v: JsValue)
  {
    match v
    case Undefined => false
    case JsString(s) => s != ""
    case _ => true
  }

  /** `oMap[sFocusArea] || sFocusArea` exactly as written. */
  function FocusAreaTextAsWritten(focusArea: string): (r: JsValue)
    ensures focusArea in FocusAreaNames ==> r == JsString(FocusAreaNames[focusArea])
    ensures r.JsString? ==> r.s == FocusAreaText(focusArea)
  {
    var v := LiteralLookup(focusArea);
    if JsTruthy(v) then v else JsString(focusArea)
  }

  /** Off the inherited member names, the code as written agrees with the intended mapping. */
  lemma AsWrittenAgreesOffPrototype(focusArea: string)
    requires focusArea !in PrototypeMethods && focusArea != "__proto__"
    ensures FocusAreaTextAsWritten(focusArea) == JsString(FocusAreaText(focusArea))
  {
  }

  /** A focus area named `toString` is displayed as a function, not as its own text. */
  lemma InheritedMemberLeaks()
    ensures FocusAreaTextAsWritten("toString") == JsFunction("toString")
    ensures FocusAreaTextAsWritten("toString") != JsString(FocusAreaText("toString"))
    ensures FocusAreaTextAsWritten("__proto__") == PrototypeObject
  {
    assert "toString" in PrototypeMethods;
    assert "toString" !in FocusAreaNames;
  }
}
