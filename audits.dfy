/**
 * The part of a PageSpeed (Lighthouse) report the chat flow reads: the SEO
 * category score and the audit entries, and the filter that keeps the
 * audits that failed.
 */
module Audits {
  import opened Optional

  /** `lighthouseResult.categories.seo.score`: the key may be missing (read
      as 0), hold JSON null, or hold a number in 0..1. */
  datatype ScoreField = Absent | Null | Number(value: real)

  /** One entry of `lighthouseResult.audits`; every key may be missing or
      null, which `.get` reads alike. */
  datatype AuditDetails = AuditDetails(
    title: Option<string>,
    description: Option<string>,
    scoreDisplayMode: Option<string>,
    score: Option<real>)

  /** A successful report: the SEO score field and the audits, in the
      order of the JSON object. */
  datatype Report = Report(seoScore: ScoreField, audits: seq<AuditDetails>)

  /** Why a PageSpeed call failed: an HTTP error status, with the message
      the API gave (or the client's fallback), or any other exception. */
  datatype AuditError = HttpFailure(details: string) | Unreachable

  /** The outcome of one PageSpeed call. */
  datatype AuditOutcome = AuditOk(report: Report) | AuditErr(error: AuditError)

  const ErrorPrefix := "Erro: "
  const HttpFailureLead := "A API do Google falhou ("

  /** The message `fetch_full_pagespeed_json` returns for a failure; it is
      never empty, so the caller's `if error:` always sees it. */
  function ErrorMessage(e: AuditError): (text: string)
    ensures |text| > |ErrorPrefix| && text[..|ErrorPrefix|] == ErrorPrefix
    ensures e.HttpFailure? ==> |ErrorPrefix| + |HttpFailureLead| <= |text| && e.details <= text[|ErrorPrefix| + |HttpFailureLead|..]
  {
    match e
    case HttpFailure(details) => ErrorPrefix + HttpFailureLead + details + ")."
    case Unreachable => ErrorPrefix + "Não foi possível analisar essa URL."
  }

  /** The projection of a failing audit that is handed to the report prompt. */
  datatype FailedAudit = FailedAudit(title: Option<string>, description: Option<string>, score: real)

  /** Audits scoring below this are failing. */
  const FailThreshold: real := 0.9

  /** Audits shown for information only, or not applicable, never fail. */
  predicate Scored(a: AuditDetails) {
    a.scoreDisplayMode != Some("informative") && a.scoreDisplayMode != Some("notApplicable")
  }

  /** The test `extract_failing_audits` applies to each audit. */
  predicate IsFailing(a: AuditDetails) {
    Scored(a) && a.score.Some? && a.score.value < FailThreshold
  }

  function Project(a: AuditDetails): (f: FailedAudit)
    requires a.score.Some?
  {
    FailedAudit(a.title, a.description, a.score.value)
  }

  /** The failing audits, projected, in report order. */
  function FailingAudits(audits: seq<AuditDetails>): (failing: seq<FailedAudit>)
    decreases |audits|
  {
    if audits == [] then []
    else
      var last := audits[|audits| - 1];
      FailingAudits(audits[..|audits| - 1]) + (if IsFailing(last) then [Project(last)] else [])
  }

  /** `extract_failing_audits`: one pass over the audits that appends each
      failing one to the result list. */
  method ExtractFailingAudits(audits: seq<AuditDetails>) returns (failed: seq<FailedAudit>)
    ensures failed == FailingAudits(audits)
  {
    failed := [];
    var i := 0;
    while i < |audits|
      invariant 0 <= i <= |audits|
      invariant failed == FailingAudits(audits[..i])
    {
      var details := audits[i];
      if IsFailing(details) {
        failed := failed + [Project(details)];
      }
      assert audits[..i + 1][..i] == audits[..i];
      i := i + 1;
    }
    assert audits[..i] == audits;
  }

  /**
   * The failing audits are exactly the audits that fail, in their original
   * order: each result comes from a failing audit, at strictly increasing
   * positions, and every failing audit is among them; so the result is never
   * longer than the input.
   */
  lemma {:induction false} FailingAuditsSelect(audits: seq<AuditDetails>) returns (from: seq<nat>)
    ensures |from| == |FailingAudits(audits)| <= |audits|
    ensures forall k :: 0 <= k < |from| ==>
      from[k] < |audits| && IsFailing(audits[from[k]]) && FailingAudits(audits)[k] == Project(audits[from[k]])
    ensures forall k, l :: 0 <= k < l < |from| ==> from[k] < from[l]
    ensures forall j :: 0 <= j < |audits| && IsFailing(audits[j]) ==> j in from
    decreases |audits|
  {
    if audits == [] {
      return [];
    }
    var n := |audits| - 1;
    var init := audits[..n];
    var before := FailingAuditsSelect(init);
    var r := FailingAudits(init);
    if IsFailing(audits[n]) {
      from := before + [n];
      assert FailingAudits(audits) == r + [Project(audits[n])];
    } else {
      from := before;
      assert FailingAudits(audits) == r;
    }
    forall k | 0 <= k < |from|
      ensures from[k] < |audits| && IsFailing(audits[from[k]]) && FailingAudits(audits)[k] == Project(audits[from[k]])
    {
      if k < |before| {
        assert from[k] == before[k] && audits[before[k]] == init[before[k]];
      }
    }
    forall j | 0 <= j < |audits| && IsFailing(audits[j])
      ensures j in from
    {
      if j < n {
        assert audits[j] == init[j];
      }
    }
  }

  /** Every audit handed on scored below the threshold. */
  lemma FailingAuditsBelowThreshold(audits: seq<AuditDetails>)
    ensures forall k :: 0 <= k < |FailingAudits(audits)| ==> FailingAudits(audits)[k].score < FailThreshold
  {
    var from := FailingAuditsSelect(audits);
  }
}
