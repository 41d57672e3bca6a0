/** The email spam panel (src/components/EmailAnalyzer.tsx): the content
    check, the mapping of the spam classifier's verdict string to an analysis record,
    and the state the submit handler updates. */
module EmailAnalyzer {
  import opened Base
  import opened Text
  import opened Analysis

  /** What awaiting the classifier request yields. `Thrown` is an error raised
      by `fetch` or `response.json()`; `HttpFailure` is a response whose `ok`
      flag is false; `Body` is the parsed JSON object, whose `result` is `None`
      when missing or not a string. */
  datatype SpamReply =
    | Thrown(message: string)
    | HttpFailure(status: nat)
    | Body(result: Option<string>)

  /** Why `analyzeEmail` threw. */
  datatype EmailFailure =
    | RequestFailed     // the request or the JSON parse threw
    | StatusNotOk       // `!response.ok`: "Failed to analyze email"
    | NoResultLabel     // `data.result.toLowerCase` on a missing or non-string field

  const MinTrimmedLength := 10
  const InvalidContentError := "Please enter valid email content (at least 10 characters)"
  const AnalysisFailedError := "Failed to analyze email content. Please try again later."
  const SpamSteps := [
    "Do not respond to this email",
    "Mark as spam in your email client",
    "Delete the email to avoid accidental interaction",
    "Be cautious of similar messages in the future"]

  /** `validateEmailContent`: more than ten UTF-16 code units once trimmed.
      Accepted content keeps something once trimmed, so content made only of
      whitespace is always rejected. */
  predicate ValidContent(content: string)
    ensures ValidContent(content) ==> Trim(content) != []
  {
    Utf16Length(Trim(content)) > MinTrimmedLength
  }

  /** Accepted content is at least eleven code units long, hence at least six
      characters, and its trimmed form starts with a character trim keeps. */
  lemma ValidContentLength(content: string)
    requires ValidContent(content)
    ensures Utf16Length(content) >= 11
    ensures |content| >= 6
    ensures !IsTrimmable(Trim(content)[0])
  {
    var i, j :| TrimmedSlice(content, Trim(content), i, j);
    Utf16LengthSlice(content, i, j);
  }

  /** A string framed by characters trim keeps loses no code unit to trim;
      in particular its trimmed length is one unit per character when all lie
      inside the Basic Multilingual Plane, two when all lie beyond it. */
  lemma TrimmedLength(s: string)
    requires s != [] && !IsTrimmable(s[0]) && !IsTrimmable(s[|s| - 1])
    ensures Utf16Length(Trim(s)) == Utf16Length(s)
    ensures (forall i :: 0 <= i < |s| ==> s[i] as int < 0x10000) ==> Utf16Length(Trim(s)) == |s|
    ensures (forall i :: 0 <= i < |s| ==> s[i] as int >= 0x10000) ==> Utf16Length(Trim(s)) == 2 * |s|
  {
    TrimFramed(s);
    if forall i :: 0 <= i < |s| ==> s[i] as int < 0x10000 {
      Utf16LengthBmp(s);
    }
    if forall i :: 0 <= i < |s| ==> s[i] as int >= 0x10000 {
      Utf16LengthAstral(s);
    }
  }

  /** Exactly ten characters, which the error message calls enough, are
      rejected; eleven are accepted. */
  lemma TenCharactersRejected()
    ensures !ValidContent("0123456789")
    ensures ValidContent("0123456789A")
  {
    TrimmedLength("0123456789");
    TrimmedLength("0123456789A");
  }

  /** A character beyond the Basic Multilingual Plane counts twice: six emoji
      are twelve code units and are accepted, five are rejected. */
  lemma EmojiCountTwice()
    ensures ValidContent("\U{1F600}\U{1F600}\U{1F600}\U{1F600}\U{1F600}\U{1F600}")
    ensures !ValidContent("\U{1F600}\U{1F600}\U{1F600}\U{1F600}\U{1F600}")
  {
    TrimmedLength("\U{1F600}\U{1F600}\U{1F600}\U{1F600}\U{1F600}\U{1F600}");
    TrimmedLength("\U{1F600}\U{1F600}\U{1F600}\U{1F600}\U{1F600}");
  }

  /** `result.toLowerCase() === "spam"`, with the lower-casing of the
      capital ASCII letters. */
  predicate IsSpam(verdict: string)
    ensures IsSpam(verdict) ==> |verdict| == 4
  {
    ToLowerAscii(verdict) == "spam"
  }

  /** The spam check is an ASCII case-insensitive comparison with "spam". */
  lemma SpamIgnoresCase(verdict: string)
    ensures IsSpam(verdict) <==>
      && |verdict| == 4
      && (verdict[0] == 's' || verdict[0] == 'S')
      && (verdict[1] == 'p' || verdict[1] == 'P')
      && (verdict[2] == 'a' || verdict[2] == 'A')
      && (verdict[3] == 'm' || verdict[3] == 'M')
  {
    if |verdict| == 4 {
      var low := ToLowerAscii(verdict);
      if IsSpam(verdict) {
        assert low[0] == 's' && low[1] == 'p' && low[2] == 'a' && low[3] == 'm';
      }
    }
  }

  /** The classifier's documented labels: "Spam" in any ASCII case is spam;
      "Not Spam" is not. */
  lemma KnownVerdicts()
    ensures IsSpam("Spam") && IsSpam("SPAM") && IsSpam("spam")
    ensures !IsSpam("Not Spam") && !IsSpam("spam ")
  {
    SpamIgnoresCase("Spam");
    SpamIgnoresCase("SPAM");
    SpamIgnoresCase("spam");
  }

  /** The analysis record for a classifier verdict. Spam is dangerous, anything
      else is safe, "suspicious" is never produced; confidence and source are
      fixed whatever the verdict. */
  function SpamVerdict(verdict: string, now: string): (r: AnalysisResult)
    ensures r.status != Suspicious
    ensures r.status == Dangerous <==> IsSpam(verdict)
    ensures r.status == Dangerous ==>
      && r.title == "Spam Email Detected"
      && r.details.threatType == Some("Spam")
      && r.mitigationSteps == Some(SpamSteps)
    ensures r.status == Safe ==>
      && r.title == "Legitimate Email"
      && r.details.threatType.None?
      && r.mitigationSteps == Some([])
    ensures r.description == (if r.status == Dangerous
      then "This email has been identified as spam with high confidence."
      else "This email appears to be safe and not spam.")
    ensures r.details.confidence == 95 && r.details.detectedBy == ["Spam ML API"]
    ensures r.details.timestamp == now
  {
    var spam := IsSpam(verdict);
    AnalysisResult(
      if spam then Dangerous else Safe,
      if spam then "Spam Email Detected" else "Legitimate Email",
      if spam then "This email has been identified as spam with high confidence."
      else "This email appears to be safe and not spam.",
      Details(if spam then Some("Spam") else None, 95, ["Spam ML API"], now),
      Some(if spam then SpamSteps else []))
  }

  /** `analyzeEmail`: a record exactly when the request succeeded and the
      reply carries a string verdict. */
  function AnalyzeEmail(reply: SpamReply, now: string): (r: Result<AnalysisResult, EmailFailure>)
    ensures r.Ok? <==> reply.Body? && reply.result.Some?
    ensures r.Ok? ==> r.value == SpamVerdict(reply.result.value, now)
    ensures reply.Body? && reply.result.None? ==> r == Err(NoResultLabel)
  {
    match reply
    case Thrown(_) => Err(RequestFailed)
    case HttpFailure(_) => Err(StatusNotOk)
    case Body(result) =>
      if result.None? then Err(NoResultLabel) else Ok(SpamVerdict(result.value, now))
  }

  /** The panel's state: the fields `useState` holds. */
  class Analyzer {
    var input: string
    var isAnalyzing: bool
    var result: Option<AnalysisResult>
    var error: Option<string>

    /** A displayed verdict is never "suspicious". */
    ghost predicate Valid()
      reads this
    {
      result.Some? ==> result.value.status != Suspicious
    }

    constructor ()
      ensures Valid()
      ensures input == "" && !isAnalyzing && result == None && error == None
    {
      input := "";
      isAnalyzing := false;
      result := None;
      error := None;
    }

    /** `handleInputChange`: stores the text and clears the error. */
    method SetInput(value: string)
      requires Valid()
      modifies this
      ensures Valid()
      ensures input == value && error == None
      ensures isAnalyzing == old(isAnalyzing) && result == old(result)
    {
      input := value;
      error := None;
    }

    /** `clearInput`: empties the text, the result and the error. */
    method ClearInput()
      requires Valid()
      modifies this
      ensures Valid()
      ensures input == "" && result == None && error == None
      ensures isAnalyzing == old(isAnalyzing)
    {
      input := "";
      result := None;
      error := None;
    }

    /** The part of `handleSubmit` after validation: the request runs, and
        its outcome sets the result or the one fixed error; the analyzing flag
        is off afterwards. */
    method RunAnalysis(reply: SpamReply, now: string)
      requires Valid()
      modifies this
      ensures Valid()
      ensures input == old(input) && !isAnalyzing
      ensures AnalyzeEmail(reply, now).Ok? ==>
        result == Some(AnalyzeEmail(reply, now).value) && error == None
      ensures AnalyzeEmail(reply, now).Err? ==>
        result == None && error == Some(AnalysisFailedError)
    {
      isAnalyzing := true;
      result := None;
      error := None;
      var outcome := AnalyzeEmail(reply, now);
      match outcome {
        case Ok(analysis) => result := Some(analysis);
        case Err(_) => error := Some(AnalysisFailedError);
      }
      isAnalyzing := false;
    }

    /** `handleSubmit`, run to completion: invalid content sets the validation
        error and starts nothing; otherwise every failure ends in the one fixed
        error with no result, and the analyzing flag is off afterwards. */
    method Submit(reply: SpamReply, now: string)
      requires Valid()
      modifies this
      ensures Valid()
      ensures input == old(input)
      ensures !ValidContent(input) ==>
        error == Some(InvalidContentError) && result == old(result) && isAnalyzing == old(isAnalyzing)
      ensures ValidContent(input) ==> !isAnalyzing
      ensures ValidContent(input) && AnalyzeEmail(reply, now).Ok? ==>
        result == Some(AnalyzeEmail(reply, now).value) && error == None
      ensures ValidContent(input) && AnalyzeEmail(reply, now).Err? ==>
        result == None && error == Some(AnalysisFailedError)
    {
      if !ValidContent(input) {
        error := Some(InvalidContentError);
        return;
      }
      RunAnalysis(reply, now);
    }
  }
}
