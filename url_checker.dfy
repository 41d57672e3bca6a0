/** The URL checker panel (src/components/UrlChecker.tsx): the mapping of the
    link-check verdict to an analysis record, the mapping of history rows, the
    statistics reducer and its percentages, and the state the submit, history
    and statistics handlers update. */
module UrlChecker {
  import opened Base
  import opened Text
  import opened Analysis

  // ---------------------------------------------------------------------------
  // Backend replies, given as inputs

  /** What awaiting the link-check request yields. `Thrown` is an Error raised
      by `fetch` or by `response.json()`, carrying its message; `HttpFailure` is
      a response whose `ok` flag is false; `Body` is the parsed JSON object,
      whose `result` is `None` when missing or not a string and whose
      `checkedAt` is `None` when missing. */
  datatype CheckReply =
    | Thrown(message: string)
    | HttpFailure(status: nat)
    | Body(result: Option<string>, checkedAt: Option<string>)

  /** One row of the link-history reply. */
  datatype LinkRecord = LinkRecord(
    storedId: Option<string>,
    url: string,
    result: Option<string>,
    checkedAt: Option<string>)

  /** What awaiting the link-history request yields: any thrown error (network,
      status, JSON, a reply that is not an array) is `HistoryFailed`. */
  datatype HistoryReply = HistoryFailed | HistoryRows(rows: seq<LinkRecord>)

  // ---------------------------------------------------------------------------
  // Fixed texts

  const AuthRequired := "Authentication required. Please login."
  const EmptyInputError := "Please enter a URL to analyze"
  const InvalidUrlError := "Please enter a valid URL (e.g., https://example.com)"
  const HttpErrorPrefix := "API request failed with status "
  const MaliciousContent := "Malicious content"
  const UnsafeSteps := [
    "Do not visit this website",
    "Do not enter any personal information",
    "Report this URL to your IT department"]

  // ---------------------------------------------------------------------------
  // Verdict mapping

  /** `data.result === "unsafe"`: a strict comparison, so a missing or
      non-string field is not unsafe. */
  predicate IsUnsafe(result: Option<string>)
    ensures IsUnsafe(result) <==> OrElse(result, "") == "unsafe"
  {
    result == Some("unsafe")
  }

  /** JavaScript's `s || fallback` on an optional string: an undefined or
      empty string falls back. */
  function OrElse(s: Option<string>, fallback: string): (r: string)
    ensures s.Some? && s.value != "" ==> r == s.value
    ensures s.None? || s.value == "" ==> r == fallback
  {
    if s.Some? && s.value != "" then s.value else fallback
  }

  /** The analysis record built from a link-check body. Only "unsafe" is
      dangerous; every other value, a missing one included, is safe, and
      "suspicious" is never produced. */
  function CheckVerdict(result: Option<string>, checkedAt: Option<string>, now: string): (r: AnalysisResult)
    ensures r.status != Suspicious
    ensures r.status == Dangerous <==> IsUnsafe(result)
    ensures r.status == Dangerous ==>
      && r.title == "Malicious URL Detected"
      && r.details.confidence == 90
      && r.details.threatType == Some(MaliciousContent)
      && r.mitigationSteps == Some(UnsafeSteps)
    ensures r.status == Safe ==>
      && r.title == "Safe URL"
      && r.details.confidence == 100
      && r.details.threatType.None?
      && r.mitigationSteps.None?
    ensures r.description == (if r.status == Dangerous
      then "This URL has been identified as potentially dangerous"
      else "This URL appears to be safe")
    ensures r.details.detectedBy == ["Our security systems"]
    ensures r.details.timestamp == OrElse(checkedAt, now)
  {
    var unsafe := IsUnsafe(result);
    AnalysisResult(
      if unsafe then Dangerous else Safe,
      if unsafe then "Malicious URL Detected" else "Safe URL",
      if unsafe then "This URL has been identified as potentially dangerous"
      else "This URL appears to be safe",
      Details(
        if unsafe then Some(MaliciousContent) else None,
        if unsafe then 90 else 100,
        ["Our security systems"],
        OrElse(checkedAt, now)),
      if unsafe then Some(UnsafeSteps) else None)
  }

  /** `!token`: a missing or empty token counts as absent. */
  predicate HasToken(token: Option<string>)
    ensures HasToken(token) <==> OrElse(token, "") != ""
  {
    token.Some? && token.value != ""
  }

  /** `analyzeUrl`: the token guard comes before the request; a failed request
      surfaces the thrown error's message; only a parsed body yields a record. */
  function AnalyzeUrl(token: Option<string>, reply: CheckReply, now: string): (r: Result<AnalysisResult, string>)
    ensures !HasToken(token) ==> r == Err(AuthRequired)
    ensures r.Ok? <==> HasToken(token) && reply.Body?
    ensures r.Ok? ==> r.value == CheckVerdict(reply.result, reply.checkedAt, now)
    ensures HasToken(token) && reply.HttpFailure? ==>
      r == Err(HttpErrorPrefix + NatToDecimal(reply.status))
    ensures HasToken(token) && reply.Thrown? ==> r == Err(reply.message)
  {
    if !HasToken(token) then Err(AuthRequired)
    else match reply
      case Thrown(message) => Err(message)
      case HttpFailure(status) => Err(HttpErrorPrefix + NatToDecimal(status))
      case Body(result, checkedAt) => Ok(CheckVerdict(result, checkedAt, now))
  }

  // ---------------------------------------------------------------------------
  // History

  /** `item._id || <random id>`: the random base-36 fallback is `GeneratedId`. */
  datatype ItemId = StoredId(value: string) | GeneratedId

  datatype LinkHistoryItem = LinkHistoryItem(
    id: ItemId,
    url: string,
    status: Status,
    timestamp: Option<string>,
    threatType: Option<string>)

  /** The per-row mapping of `fetchLinkHistory`. */
  function ToHistoryItem(rec: LinkRecord): (item: LinkHistoryItem)
    ensures item.status != Suspicious
    ensures item.status == Dangerous <==> IsUnsafe(rec.result)
    ensures item.threatType.Some? <==> item.status == Dangerous
    ensures item.threatType.Some? ==> item.threatType.value == MaliciousContent
    ensures item.url == rec.url && item.timestamp == rec.checkedAt
    ensures item.id.StoredId? <==> rec.storedId.Some? && rec.storedId.value != ""
    ensures item.id.StoredId? ==> item.id == StoredId(rec.storedId.value)
  {
    var unsafe := IsUnsafe(rec.result);
    LinkHistoryItem(
      if rec.storedId.Some? && rec.storedId.value != "" then StoredId(rec.storedId.value) else GeneratedId,
      rec.url,
      if unsafe then Dangerous else Safe,
      rec.checkedAt,
      if unsafe then Some(MaliciousContent) else None)
  }

  predicate NoSuspicious(items: seq<LinkHistoryItem>) {
    forall i :: 0 <= i < |items| ==> items[i].status != Suspicious
  }

  /** `data.map(...)`: one item per row, in the same order. */
  function FormatHistory(rows: seq<LinkRecord>): (items: seq<LinkHistoryItem>)
    ensures |items| == |rows|
    ensures forall i :: 0 <= i < |rows| ==> items[i] == ToHistoryItem(rows[i])
    ensures NoSuspicious(items)
  {
    seq(|rows|, i requires 0 <= i < |rows| => ToHistoryItem(rows[i]))
  }

  /** Each formatted item is dangerous exactly when its row says "unsafe". */
  lemma FormatHistoryStatus(rows: seq<LinkRecord>, i: nat)
    requires i < |rows|
    ensures i < |FormatHistory(rows)|
    ensures FormatHistory(rows)[i].status == Dangerous <==> rows[i].result == Some("unsafe")
    ensures FormatHistory(rows)[i].threatType.Some? <==> rows[i].result == Some("unsafe")
  {
  }

  // ---------------------------------------------------------------------------
  // Statistics

  datatype UrlStats = UrlStats(
    totalScans: nat,
    safeCount: nat,
    suspiciousCount: nat,
    dangerousCount: nat,
    lastScanned: string)

  /** `items.filter(item => item.status === s).length`. */
  function CountStatus(items: seq<LinkHistoryItem>, s: Status): (n: nat)
    ensures n <= |items|
    ensures n == 0 <==> forall i :: 0 <= i < |items| ==> items[i].status != s
  {
    if items == [] then 0
    else (if items[0].status == s then 1 else 0) + CountStatus(items[1..], s)
  }

  /** The items at the positions whose status is `s`. */
  ghost function StatusPositions(items: seq<LinkHistoryItem>, s: Status): set<nat> {
    set i: nat | i < |items| && items[i].status == s
  }

  /** Counting a concatenation counts each part. */
  lemma {:induction false} CountStatusConcat(xs: seq<LinkHistoryItem>, ys: seq<LinkHistoryItem>, s: Status)
    ensures CountStatus(xs + ys, s) == CountStatus(xs, s) + CountStatus(ys, s)
  {
    if xs == [] {
      assert xs + ys == ys;
    } else {
      assert (xs + ys)[1..] == xs[1..] + ys;
      CountStatusConcat(xs[1..], ys, s);
    }
  }

  /** The filter count is the number of positions holding an item with that
      status. */
  lemma {:induction false} CountStatusIsSize(items: seq<LinkHistoryItem>, s: Status)
    ensures CountStatus(items, s) == |StatusPositions(items, s)|
    decreases |items|
  {
    if items != [] {
      var init, last := items[..|items| - 1], items[|items| - 1];
      assert items == init + [last];
      CountStatusConcat(init, [last], s);
      CountStatusIsSize(init, s);
      var p := StatusPositions(init, s);
      if last.status == s {
        assert StatusPositions(items, s) == p + {|items| - 1};
        assert |items| - 1 !in p;
      } else {
        assert StatusPositions(items, s) == p;
      }
    }
  }

  /** Every item has exactly one status, so the three counts partition the list. */
  lemma {:induction false} CountsPartition(items: seq<LinkHistoryItem>)
    ensures CountStatus(items, Safe) + CountStatus(items, Suspicious) + CountStatus(items, Dangerous) == |items|
  {
    if items != [] {
      CountsPartition(items[1..]);
    }
  }

  /** `fetchStats`: the statistics are derived from the loaded history; the
      suspicious count is fixed at 0 and `lastScanned` falls back to `now`. */
  function ComputeStats(history: seq<LinkHistoryItem>, now: string): (st: UrlStats)
    ensures st.totalScans == |history|
    ensures st.safeCount == CountStatus(history, Safe) && st.dangerousCount == CountStatus(history, Dangerous)
    ensures st.suspiciousCount == 0
    ensures st.safeCount <= st.totalScans && st.dangerousCount <= st.totalScans
    ensures NoSuspicious(history) ==> st.safeCount + st.dangerousCount == st.totalScans
    ensures history != [] ==> st.lastScanned == OrElse(history[0].timestamp, now)
    ensures history == [] ==> st.lastScanned == now
  {
    CountsPartition(history);
    UrlStats(
      |history|,
      CountStatus(history, Safe),
      0,
      CountStatus(history, Dangerous),
      if history == [] then now else OrElse(history[0].timestamp, now))
  }

  /** Statistics as `fetchStats` leaves them: the counts add up to the total. */
  predicate StatsConsistent(st: UrlStats) {
    st.suspiciousCount == 0 && st.safeCount + st.dangerousCount == st.totalScans
  }

  /** `Math.round((count / total) * 100)` on exact rationals: the integer
      nearest to 100·count/total, halves rounded up. The source divides by the
      total unguarded, so a total of 0 is excluded here. */
  function RoundedPercent(count: nat, total: nat): (p: nat)
    requires total > 0
    ensures 2 * total * p <= 200 * count + total < 2 * total * (p + 1)
    ensures count <= total ==> p <= 100
    ensures count == 0 ==> p == 0
    ensures count == total ==> p == 100
  {
    RoundingBounds(count, total);
    (200 * count + total) / (2 * total)
  }

  lemma RoundingBounds(count: nat, total: nat)
    requires total > 0
    ensures var p := (200 * count + total) / (2 * total);
      && 2 * total * p <= 200 * count + total < 2 * total * (p + 1)
      && (count <= total ==> p <= 100)
      && (count == total ==> p == 100)
  {
    var p := (200 * count + total) / (2 * total);
    DivisionBounds(200 * count + total, 2 * total);
    if count <= total {
      assert p <= 100 by {
        if p >= 101 {
          MultiplyMonotone(2 * total, 101, p);
        }
      }
    }
    if count == total {
      assert p >= 100 by {
        if p < 100 {
          MultiplyMonotone(2 * total, p + 1, 100);
        }
      }
    }
  }

  lemma DivisionBounds(a: nat, d: nat)
    requires d > 0
    ensures d * (a / d) <= a < d * (a / d + 1)
  {
  }

  lemma MultiplyMonotone(k: nat, x: nat, y: nat)
    requires x <= y
    ensures k * x <= k * y
  {
  }

  /** The three percentages the statistics tab displays. */
  datatype Percentages = Percentages(safe: nat, suspicious: nat, dangerous: nat)

  function DisplayedPercentages(st: UrlStats): (pc: Percentages)
    requires st.totalScans > 0
    ensures pc.safe == RoundedPercent(st.safeCount, st.totalScans)
    ensures pc.suspicious == RoundedPercent(st.suspiciousCount, st.totalScans)
    ensures pc.dangerous == RoundedPercent(st.dangerousCount, st.totalScans)
    ensures st.suspiciousCount == 0 ==> pc.suspicious == 0
    ensures StatsConsistent(st) ==> pc.safe <= 100 && pc.dangerous <= 100
  {
    Percentages(
      RoundedPercent(st.safeCount, st.totalScans),
      RoundedPercent(st.suspiciousCount, st.totalScans),
      RoundedPercent(st.dangerousCount, st.totalScans))
  }

  /** When two counts make up the total, their rounded percentages add up to
      100 or 101: rounding each up by at most one half overshoots by at most one. */
  lemma ComplementaryPercents(a: nat, b: nat)
    requires a + b > 0
    ensures 100 <= RoundedPercent(a, a + b) + RoundedPercent(b, a + b) <= 101
  {
    var t := a + b;
    var p, q := RoundedPercent(a, t), RoundedPercent(b, t);
    assert 2 * t * (p + q) <= 202 * t < 2 * t * (p + q + 2);
    assert p + q <= 101 by {
      if p + q > 101 {
        MultiplyMonotone(2 * t, 102, p + q);
      }
    }
    assert p + q >= 100 by {
      if p + q < 100 {
        MultiplyMonotone(2 * t, p + q + 2, 101);
      }
    }
  }

  /** For statistics computed from a non-empty history, the displayed
      percentages lie in [0,100] and sum to 100 up to one point of rounding. */
  lemma PercentagesSum(history: seq<LinkHistoryItem>, now: string)
    requires history != [] && NoSuspicious(history)
    ensures ComputeStats(history, now).totalScans > 0
    ensures var pc := DisplayedPercentages(ComputeStats(history, now));
      && pc.safe <= 100 && pc.suspicious == 0 && pc.dangerous <= 100
      && 100 <= pc.safe + pc.suspicious + pc.dangerous <= 101
  {
    var st := ComputeStats(history, now);
    ComplementaryPercents(st.safeCount, st.dangerousCount);
  }

  // ---------------------------------------------------------------------------
  // Component state

  /** The panel's state: the fields `useState` holds. The active tab and the
      effects it triggers are not part of this model. */
  class Checker {
    var input: string
    var isAnalyzing: bool
    var result: Option<AnalysisResult>
    var error: Option<string>
    var linkHistory: seq<LinkHistoryItem>
    var isLoadingHistory: bool
    var stats: Option<UrlStats>

    /** Everything shown came from the binary backend verdicts. */
    ghost predicate Valid()
      reads this
    {
      && NoSuspicious(linkHistory)
      && (result.Some? ==> result.value.status != Suspicious)
      && (stats.Some? ==> StatsConsistent(stats.value))
    }

    constructor ()
      ensures Valid()
      ensures input == "" && !isAnalyzing && result == None && error == None
      ensures linkHistory == [] && !isLoadingHistory && stats == None
    {
      input := "";
      isAnalyzing := false;
      result := None;
      error := None;
      linkHistory := [];
      isLoadingHistory := false;
      stats := None;
    }

    /** `handleInputChange`: stores the text and clears the error. */
    method SetInput(value: string)
      requires Valid()
      modifies this
      ensures Valid()
      ensures input == value && error == None
      ensures isAnalyzing == old(isAnalyzing) && result == old(result)
      ensures linkHistory == old(linkHistory) && isLoadingHistory == old(isLoadingHistory) && stats == old(stats)
    {
      input := value;
      error := None;
    }

    /** `clearInput`: empties the text, the result and the error. */
    method ClearInput()
      requires Valid()
      modifies this
      ensures Valid()
      ensures input == "" && result == None && error == None
      ensures isAnalyzing == old(isAnalyzing)
      ensures linkHistory == old(linkHistory) && isLoadingHistory == old(isLoadingHistory) && stats == old(stats)
    {
      input := "";
      result := None;
      error := None;
    }

    /** `handleSubmit`, run to completion. `urlParses` stands for whether the
        WHATWG URL parser accepts its argument; `token` is the stored access
        token; `reply` is what the link-check request yields. A blank input,
        then an unparsable one, sets its error and leaves the rest alone;
        otherwise the analysis replaces the result or the error. */
    method Submit(urlParses: string -> bool, token: Option<string>, reply: CheckReply, now: string)
      requires Valid()
      modifies this
      ensures Valid()
      ensures input == old(input)
      ensures linkHistory == old(linkHistory) && isLoadingHistory == old(isLoadingHistory) && stats == old(stats)
      ensures Trim(input) == [] ==>
        error == Some(EmptyInputError) && result == old(result) && isAnalyzing == old(isAnalyzing)
      ensures Trim(input) != [] && !urlParses(input) ==>
        error == Some(InvalidUrlError) && result == old(result) && isAnalyzing == old(isAnalyzing)
      ensures Trim(input) != [] && urlParses(input) ==>
        && !isAnalyzing
        && var outcome := AnalyzeUrl(token, reply, now);
        && result == (if outcome.Ok? then Some(outcome.value) else None)
        && error == (if outcome.Err? then Some(outcome.error) else None)
    {
      if Trim(input) == [] {
        error := Some(EmptyInputError);
        return;
      }
      if !urlParses(input) {
        error := Some(InvalidUrlError);
        return;
      }
      isAnalyzing := true;
      result := None;
      error := None;
      var outcome := AnalyzeUrl(token, reply, now);
      match outcome {
        case Ok(analysis) => result := Some(analysis);
        case Err(message) => error := Some(message);
      }
      isAnalyzing := false;
    }

    /** `fetchLinkHistory`: without a token nothing happens; a failed request
        keeps the old history; a successful one replaces it with the formatted
        rows. The loading flag is off afterwards. */
    method LoadHistory(token: Option<string>, reply: HistoryReply)
      requires Valid()
      modifies this
      ensures Valid()
      ensures input == old(input) && isAnalyzing == old(isAnalyzing) && result == old(result)
      ensures error == old(error) && stats == old(stats)
      ensures !HasToken(token) ==> linkHistory == old(linkHistory) && isLoadingHistory == old(isLoadingHistory)
      ensures HasToken(token) ==> !isLoadingHistory
      ensures HasToken(token) && reply.HistoryRows? ==> linkHistory == FormatHistory(reply.rows)
      ensures reply.HistoryFailed? ==> linkHistory == old(linkHistory)
    {
      if !HasToken(token) {
        return;
      }
      isLoadingHistory := true;
      if reply.HistoryRows? {
        linkHistory := FormatHistory(reply.rows);
      }
      isLoadingHistory := false;
    }

    /** `fetchStats`: without a token nothing happens; otherwise the
        statistics are recomputed from the history currently held. */
    method RefreshStats(token: Option<string>, now: string)
      requires Valid()
      modifies this
      ensures Valid()
      ensures input == old(input) && isAnalyzing == old(isAnalyzing) && result == old(result) && error == old(error)
      ensures linkHistory == old(linkHistory) && isLoadingHistory == old(isLoadingHistory)
      ensures !HasToken(token) ==> stats == old(stats)
      ensures HasToken(token) ==> stats == Some(ComputeStats(linkHistory, now))
    {
      if !HasToken(token) {
        return;
      }
      stats := Some(ComputeStats(linkHistory, now));
    }
  }
}
