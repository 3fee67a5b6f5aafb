/**
 * The audit engine `checkSEO`. The fetch and the HTML parser are outside the
 * model: a run is given the fetch's outcome, either the page facts and the URL
 * the response reports, or the fault the `catch` receives. On a fetched page
 * the twenty rules run in order and each records its finding; a fault thrown
 * while a rule is evaluated keeps the findings recorded before it and adds one
 * error; a fault of the fetch itself records exactly one error and nothing else.
 */
module SeoChecker {
  import opened Wrappers
  import opened JsString
  import opened Messages
  import opened PageModel
  import opened Report
  import opened Rules

  /** `error.response`: the status line of a non-2xx reply. */
  datatype HttpResponse = HttpResponse(status: nat, statusText: Option<string>)

  /** The thrown value as the `catch` inspects it: `response`, `code` and `message`. */
  datatype Fault = Fault(response: Option<HttpResponse>, code: Option<string>, message: string)

  /** A fault thrown while rule number `rule` is evaluated, after the rules before it have recorded. */
  datatype Interruption = Interruption(rule: RuleIndex, fault: Fault)

  /**
   * How the body of the `try` ends: the fetch and document load succeed, giving
   * the page facts and `response.request.res.responseUrl`, and the rules run to
   * the end or are interrupted; or the fetch itself throws.
   */
  datatype FetchOutcome =
    | Fetched(responseUrl: Option<string>, page: Page, interruption: Option<Interruption>)
    | Threw(fault: Fault)

  predicate StrikesAt(interruption: Option<Interruption>, k: nat) {
    interruption.Some? && interruption.value.rule == k
  }

  /** The error message for a caught fault, chosen in priority order. */
  function Classify(e: Fault): (m: Message)
    ensures SeverityOf(m) == Error
    ensures e.response.Some? ==>
      m == HttpStatus(e.response.value.status,
                      if Missing(e.response.value.statusText) then "<none>" else e.response.value.statusText.value)
    ensures m == RequestTimeout <==> e.response.None? && e.code == Some("ECONNABORTED")
    ensures m == DomainNotFound <==> e.response.None? && e.code == Some("ENOTFOUND")
    ensures m.FetchFailed? <==>
      e.response.None? && e.code != Some("ECONNABORTED") && e.code != Some("ENOTFOUND")
    ensures m.FetchFailed? ==> m.reason == e.message
  {
    if e.response.Some? then
      var r := e.response.value;
      HttpStatus(r.status, if Missing(r.statusText) then "<none>" else r.statusText.value)
    else if e.code == Some("ECONNABORTED") then RequestTimeout
    else if e.code == Some("ENOTFOUND") then DomainNotFound
    else FetchFailed(e.message)
  }

  /** `response.request.res.responseUrl || url`. */
  function FinalUrl(url: string, responseUrl: Option<string>): string {
    if Missing(responseUrl) then url else responseUrl.value
  }

  /** What a run records, in order: the rule outcomes up to any interruption, then the classified fault. */
  function AuditOutcomes(url: string, outcome: FetchOutcome): seq<Option<Message>> {
    match outcome
    case Threw(e) => [Some(Classify(e))]
    case Fetched(responseUrl, page, None) => RuleOutcomes(Evaluate(Measure(page, FinalUrl(url, responseUrl))))
    case Fetched(responseUrl, page, Some(i)) =>
      RulesBefore(Evaluate(Measure(page, FinalUrl(url, responseUrl))), i.rule) + [Some(Classify(i.fault))]
  }

  /** The report a run produces, bucket by bucket. */
  function Audit(url: string, outcome: FetchOutcome): Buckets<Message> {
    Collect(AuditOutcomes(url, outcome))
  }

  /** The rule that a fault interrupts, or the end of the battery when none does. */
  function StopsAt(interruption: Option<Interruption>): nat {
    if interruption.Some? then interruption.value.rule else RuleCount
  }

  /** The rendered report once the first `k` checks have pushed their findings. */
  function ReportAfter(f: Findings, k: nat): Buckets<string>
    requires k <= RuleCount
  {
    if k == 0 then Buckets([], [], [], []) else Recorded(ReportAfter(f, k - 1), Rule(k - 1, f))
  }

  /** Pushing finding after finding builds exactly the rendered report of the first `k` outcomes. */
  lemma {:induction false} ReportAfterRenders(f: Findings, k: nat)
    requires k <= RuleCount
    ensures ReportAfter(f, k) == Render(Collect(RulesBefore(f, k)))
  {
    if k > 0 {
      ReportAfterRenders(f, k - 1);
      CollectSnoc(RulesBefore(f, k - 1), Rule(k - 1, f));
    }
  }

  /** A fetch that fails renders a report holding only the classified error. */
  lemma FailedReport(url: string, e: Fault)
    ensures Render(Audit(url, Threw(e))) == Recorded(Buckets([], [], [], []), Some(Classify(e)))
  {
    CollectSnoc([], Some(Classify(e)));
    assert [] + [Some(Classify(e))] == AuditOutcomes(url, Threw(e));
  }

  /** A run interrupted at check `k` renders the pushes of the checks before it, then the error. */
  lemma InterruptedRenders(f: Findings, k: RuleIndex, e: Message)
    ensures Render(Collect(RulesBefore(f, k) + [Some(e)])) == Recorded(ReportAfter(f, k), Some(e))
  {
    ReportAfterRenders(f, k);
    CollectSnoc(RulesBefore(f, k), Some(e));
  }

  /** A run no fault interrupts renders the pushes of all the checks, in order. */
  lemma CompletedReport(url: string, responseUrl: Option<string>, page: Page)
    ensures Render(Audit(url, Fetched(responseUrl, page, None))) ==
      ReportAfter(Evaluate(Measure(page, FinalUrl(url, responseUrl))), RuleCount)
  {
    ReportAfterRenders(Evaluate(Measure(page, FinalUrl(url, responseUrl))), RuleCount);
  }

  /** An interrupted run renders the pushes of the checks before the fault, then the fault's error. */
  lemma InterruptedReport(url: string, responseUrl: Option<string>, page: Page, i: Interruption)
    ensures Render(Audit(url, Fetched(responseUrl, page, Some(i)))) ==
      Recorded(ReportAfter(Evaluate(Measure(page, FinalUrl(url, responseUrl))), i.rule), Some(Classify(i.fault)))
  {
    InterruptedRenders(Evaluate(Measure(page, FinalUrl(url, responseUrl))), i.rule, Classify(i.fault));
  }

  /**
   * The rule part of the `try` body: the checks in order, each pushing its
   * finding, until a fault strikes. Returns what was pushed and the fault thrown.
   */
  method RunChecks(m: Measures, interruption: Option<Interruption>) returns (result: Buckets<string>, thrown: Option<Fault>)
    ensures result == ReportAfter(Evaluate(m), StopsAt(interruption))
    ensures thrown.Some? <==> interruption.Some?
    ensures thrown.Some? ==> thrown.value == interruption.value.fault
  {
    result := Buckets([], [], [], []);
    thrown := None;
    if StrikesAt(interruption, 0) { thrown := Some(interruption.value.fault); return; }
    result := Recorded(result, TitleRule(m));
    assert result == ReportAfter(Evaluate(m), 1);
    if StrikesAt(interruption, 1) { thrown := Some(interruption.value.fault); return; }
    result := Recorded(result, MetaDescriptionRule(m));
    assert result == ReportAfter(Evaluate(m), 2);
    if StrikesAt(interruption, 2) { thrown := Some(interruption.value.fault); return; }
    result := Recorded(result, H1CountRule(m));
    assert result == ReportAfter(Evaluate(m), 3);
    if StrikesAt(interruption, 3) { thrown := Some(interruption.value.fault); return; }
    result := Recorded(result, ImageAltRule(m));
    assert result == ReportAfter(Evaluate(m), 4);
    if StrikesAt(interruption, 4) { thrown := Some(interruption.value.fault); return; }
    result := Recorded(result, WordCountRule(m));
    assert result == ReportAfter(Evaluate(m), 5);
    if StrikesAt(interruption, 5) { thrown := Some(interruption.value.fault); return; }
    result := Recorded(result, OpenGraphRule(m));
    assert result == ReportAfter(Evaluate(m), 6);
    if StrikesAt(interruption, 6) { thrown := Some(interruption.value.fault); return; }
    result := Recorded(result, CanonicalRule(m));
    assert result == ReportAfter(Evaluate(m), 7);
    if StrikesAt(interruption, 7) { thrown := Some(interruption.value.fault); return; }
    result := Recorded(result, HttpsRule(m));
    assert result == ReportAfter(Evaluate(m), 8);
    if StrikesAt(interruption, 8) { thrown := Some(interruption.value.fault); return; }
    result := Recorded(result, ViewportRule(m));
    assert result == ReportAfter(Evaluate(m), 9);
    if StrikesAt(interruption, 9) { thrown := Some(interruption.value.fault); return; }
    result := Recorded(result, RobotsRule(m));
    assert result == ReportAfter(Evaluate(m), 10);
    if StrikesAt(interruption, 10) { thrown := Some(interruption.value.fault); return; }
    result := Recorded(result, H2Rule(m));
    assert result == ReportAfter(Evaluate(m), 11);
    if StrikesAt(interruption, 11) { thrown := Some(interruption.value.fault); return; }
    result := Recorded(result, PlaceholderLinkRule(m));
    assert result == ReportAfter(Evaluate(m), 12);
    if StrikesAt(interruption, 12) { thrown := Some(interruption.value.fault); return; }
    result := Recorded(result, LangRule(m));
    assert result == ReportAfter(Evaluate(m), 13);
    if StrikesAt(interruption, 13) { thrown := Some(interruption.value.fault); return; }
    result := Recorded(result, CharsetRule(m));
    assert result == ReportAfter(Evaluate(m), 14);
    if StrikesAt(interruption, 14) { thrown := Some(interruption.value.fault); return; }
    result := Recorded(result, TitleH1Rule(m));
    assert result == ReportAfter(Evaluate(m), 15);
    if StrikesAt(interruption, 15) { thrown := Some(interruption.value.fault); return; }
    result := Recorded(result, ExternalLinkRule(m));
    assert result == ReportAfter(Evaluate(m), 16);
    if StrikesAt(interruption, 16) { thrown := Some(interruption.value.fault); return; }
    result := Recorded(result, InlineStyleRule(m));
    assert result == ReportAfter(Evaluate(m), 17);
    if StrikesAt(interruption, 17) { thrown := Some(interruption.value.fault); return; }
    result := Recorded(result, StructuredDataRule(m));
    assert result == ReportAfter(Evaluate(m), 18);
    if StrikesAt(interruption, 18) { thrown := Some(interruption.value.fault); return; }
    result := Recorded(result, TwitterCardRule(m));
    assert result == ReportAfter(Evaluate(m), 19);
    if StrikesAt(interruption, 19) { thrown := Some(interruption.value.fault); return; }
    result := Recorded(result, FaviconRule(m));
    assert result == ReportAfter(Evaluate(m), 20);
  }

  /** One audit: the rules in order on a fetched page, then the classified fault if one was thrown. */
  method CheckSeo(url: string, outcome: FetchOutcome) returns (result: Buckets<string>)
    ensures result == Render(Audit(url, outcome))
  {
    var thrown: Option<Fault>;
    if outcome.Threw? {
      result, thrown := Buckets([], [], [], []), Some(outcome.fault);
      FailedReport(url, outcome.fault);
    } else {
      result, thrown := RunChecks(Measure(outcome.page, FinalUrl(url, outcome.responseUrl)), outcome.interruption);
      if outcome.interruption.Some? {
        InterruptedReport(url, outcome.responseUrl, outcome.page, outcome.interruption.value);
      } else {
        CompletedReport(url, outcome.responseUrl, outcome.page);
      }
    }
    if thrown.Some? {
      result := Recorded(result, Some(Classify(thrown.value)));
    }
  }
}
