/**
 * The request schemas of the trends API: which field values a create or an
 * update request accepts. A request that fails one of them is answered with
 * a validation error naming the failing fields.
 */
module Schemas {
  import opened Wrappers
  import Grok
  import PyJson

  /** The constrained fields; every other field accepts any string. */
  datatype Field = Classification | ConfidenceScore | ArchitecturalVerdict

  datatype TrendCreate = TrendCreate(
    radarDate: string,
    focusArea: string,
    toolName: string,
    classification: string,
    confidenceScore: int,
    technicalInsight: string,
    signalEvidence: Option<string>,
    noiseIndicators: Option<string>,
    architecturalVerdict: int,
    timestamp: string)

  /** An update names only the fields it changes. */
  datatype TrendUpdate = TrendUpdate(
    radarDate: Option<string>,
    focusArea: Option<string>,
    toolName: Option<string>,
    classification: Option<string>,
    confidenceScore: Option<int>,
    technicalInsight: Option<string>,
    signalEvidence: Option<string>,
    noiseIndicators: Option<string>,
    architecturalVerdict: Option<int>,
    timestamp: Option<string>)

  /** The pattern `^(signal|noise)$`, where `$` is the end of the text. */
  predicate ClassificationOk(c: string)
  {
    c == "signal" || c == "noise"
  }

  predicate ConfidenceOk(n: int)
  {
    0 <= n <= 100
  }

  predicate VerdictOk(n: int)
  {
    1 <= n <= 5
  }

  /** The failing fields of a create request, in declaration order. */
  function CreateErrors(t: TrendCreate): (r: seq<Field>)
    ensures Classification in r <==> !ClassificationOk(t.classification)
    ensures ConfidenceScore in r <==> !ConfidenceOk(t.confidenceScore)
    ensures ArchitecturalVerdict in r <==> !VerdictOk(t.architecturalVerdict)
    ensures |r| <= 3
  {
    (if ClassificationOk(t.classification) then [] else [Classification])
    + (if ConfidenceOk(t.confidenceScore) then [] else [ConfidenceScore])
    + (if VerdictOk(t.architecturalVerdict) then [] else [ArchitecturalVerdict])
  }

  /** The failing fields of an update: an absent field always passes, a present one meets the create constraint. */
  function UpdateErrors(u: TrendUpdate): (r: seq<Field>)
    ensures Classification in r <==> u.classification.Some? && !ClassificationOk(u.classification.value)
    ensures ConfidenceScore in r <==> u.confidenceScore.Some? && !ConfidenceOk(u.confidenceScore.value)
    ensures ArchitecturalVerdict in r <==> u.architecturalVerdict.Some? && !VerdictOk(u.architecturalVerdict.value)
  {
    (if u.classification.None? || ClassificationOk(u.classification.value) then [] else [Classification])
    + (if u.confidenceScore.None? || ConfidenceOk(u.confidenceScore.value) then [] else [ConfidenceScore])
    + (if u.architecturalVerdict.None? || VerdictOk(u.architecturalVerdict.value) then [] else [ArchitecturalVerdict])
  }

  /** The update that sets every field of a create request. */
  function AsUpdate(t: TrendCreate): (u: TrendUpdate)
    ensures u.classification == Some(t.classification)
    ensures u.confidenceScore == Some(t.confidenceScore)
    ensures u.architecturalVerdict == Some(t.architecturalVerdict)
  {
    TrendUpdate(Some(t.radarDate), Some(t.focusArea), Some(t.toolName), Some(t.classification),
      Some(t.confidenceScore), Some(t.technicalInsight), t.signalEvidence, t.noiseIndicators,
      Some(t.architecturalVerdict), Some(t.timestamp))
  }

  const EmptyUpdate := TrendUpdate(None, None, None, None, None, None, None, None, None, None)

  /** A present update field is held to the same constraint as on create. */
  lemma UpdateAgreesWithCreate(t: TrendCreate)
    ensures UpdateErrors(AsUpdate(t)) == CreateErrors(t)
  {
  }

  /** An update that changes nothing is always accepted. */
  lemma EmptyUpdateAccepted()
    ensures UpdateErrors(EmptyUpdate) == []
  {
  }

  /** The storage table's own constraint on the confidence score, 1..100. */
  predicate StoredConfidenceOk(n: int)
  {
    1 <= n <= 100
  }

  /** The request schema admits every stored confidence, and also 0, which storage refuses. */
  lemma SchemaLooserThanStorage(n: int)
    ensures StoredConfidenceOk(n) ==> ConfidenceOk(n)
    ensures ConfidenceOk(0) && !StoredConfidenceOk(0)
  {
  }

  /** A record the analysis pipeline accepts has a classification and a confidence both the schema and storage accept. */
  lemma PipelineRecordsMeetSchema(trend: PyJson.Json, focusArea: string)
    requires Grok.ValidateTrend(trend, focusArea).Accepted?
    ensures ClassificationOk(Grok.ValidateTrend(trend, focusArea).record.classification)
    ensures ConfidenceOk(Grok.ValidateTrend(trend, focusArea).record.confidenceScore)
    ensures StoredConfidenceOk(Grok.ValidateTrend(trend, focusArea).record.confidenceScore)
  {
  }
}
