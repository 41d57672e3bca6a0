/** The analysis record both analyzers display (`AnalysisResult` in
    UrlChecker.tsx and EmailAnalyzer.tsx, which declare it identically). */
module Analysis {
  import opened Base

  /** The three verdict tiers. The interface also admits `null`; no code path
      produces it, so a missing result is `None` at the component level. */
  datatype Status = Safe | Suspicious | Dangerous

  /** `details`: `threatType` may be undefined; the other three fields are
      always filled in by both analyzers. */
  datatype Details = Details(
    threatType: Option<string>,
    confidence: int,
    detectedBy: seq<string>,
    timestamp: string)

  datatype AnalysisResult = AnalysisResult(
    status: Status,
    title: string,
    description: string,
    details: Details,
    mitigationSteps: Option<seq<string>>)
}
