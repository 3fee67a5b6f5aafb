# fast-seo-checker: a verified model of the audit engine and its API-key gate

fast-seo-checker audits one web page for on-page SEO signals. Its engine,
`checkSEO(url)`, fetches the page and loads it into a queryable document. It
then runs a fixed battery of twenty threshold checks in order, and each check
pushes at most one message into one of four buckets: `errors`, `warnings`,
`critical_issues` and `recommendations`. A `catch` block turns a failure into
exactly one `errors` message. That failure may be an HTTP error reply, a
timeout, an unknown domain or anything else thrown inside the `try`. Thrown
faults include ones raised while the checks run, and the findings already
pushed before such a fault are kept. In front of the HTTP route sits an
API-key middleware. It passes a request, or answers it with 401 or 403.

The model is Dafny, one module per concern:

| module | file | what it holds |
|---|---|---|
| `Wrappers` | `wrappers.dfy` | `Option` |
| `JsString` | `js_string.dfy` | the JavaScript string operations the checks use: falsiness (`Missing`), `\s`, `trim`, `.length` in UTF-16 code units, `startsWith`, `includes`, ASCII `toLowerCase`, `${n}` |
| `Messages` | `messages.dfy` | one constructor per message the engine can push, its bucket (`SeverityOf`) and its exact wording (`Text`) |
| `Report` | `report.dfy` | the four-bucket result, `push`, and the report a sequence of check outcomes produces |
| `Url` | `url.dfy` | the host that the external-link check derives from the final URL |
| `PageModel` | `page_model.dfy` | the page as the facts the selector queries return; the `.filter(...).length` counts |
| `WordCount` | `word_count.dfy` | the body-text word-count pipeline and a tokenizer it is proved equal to |
| `Rules` | `rules.dfy` | what each check computes (`Measure`), one function per check, the battery in order |
| `SeoChecker` | `seo_checker.dfy` | `checkSEO`: the checks pushed one by one (`RunChecks`), interruption by a fault, the `catch` classification (`Classify`) |
| `AuditProperties` | `audit_properties.dfy` | what a report says about the page, check by check, and the error bucket on each way a run ends |
| `Auth` | `auth.dfy` | the API-key middleware's decision |

The engine's `result` is a local object literal that nothing else aliases.
The model therefore keeps it as a `Buckets<string>` value that `RunChecks`
and `CheckSeo` reassign, push by push, in the order of the source.
`RunChecks` is proved to return `ReportAfter(Evaluate(m), k)`: the pushes of
the first `k` checks, where `k` is the check a fault interrupts, or twenty.
`ReportAfterRenders` equates those pushes with the rendered report of the
first `k` outcomes. `CheckSeo` is proved to return `Render(Audit(url, outcome))`:

- `Audit` is the report as structured messages: each bucket holds the
  findings of its severity, in the order the checks ran.
- `Render` replaces every message by its text.

The per-check lemmas in `AuditProperties` are stated on `Completed(m)`: the
report of a run that no fault interrupts, over any measured values `m`. They
say which message lands in which bucket, exactly when, and with which count.
`CompletedAudit` ties `Completed` to `Audit` for a fetched page. For an
interrupted run, `InterruptedKeepsPrefix` and `InterruptedReportKeepsPrefix`
give one error plus a prefix of the uninterrupted report in every other bucket.

`checkSEO` runs twenty checks. Its `catch` (src/services/seoChecker.js:172-182)
also receives faults raised while they run and turns them into an `errors`
message. The route's 500 handler (src/routes/seoChecker.js:78-83) is
therefore never reached from the engine.

## Model

| member | source | states |
|---|---|---|
| `Report.Buckets.Push` | src/services/seoChecker.js:5-10 | pushing to one bucket appends the item to that bucket and leaves the other three as they were |
| `Report.InSelect` | src/services/seoChecker.js:5-10 | a message is in a bucket exactly when it has that bucket's severity and some check recorded it |
| `Report.SelectEmpty` | src/services/seoChecker.js:5-10 | a bucket of a severity that no recorded finding has stays empty (all four buckets always exist) |
| `Report.CollectSnoc` | src/services/seoChecker.js:31-169 | rendering the report of one more outcome equals recording that outcome, one push into its bucket, on the rendered report |
| `Report.SelectPrefix` | src/services/seoChecker.js:28-170 | the findings of the first checks are a prefix of the findings of all the checks, bucket by bucket (no reordering) |
| `Report.SelectOccurrences` | src/services/seoChecker.js:31-169 | a bucket holds a message no more often than the outcomes record it (no push is duplicated) |
| `Report.AtMostOnce` | src/services/seoChecker.js:28-170 | a value found at one position only occurs at most once |
| `Report.CollectSize` | src/services/seoChecker.js:28-170 | the four buckets together hold at most one finding per outcome |
| `Report.TextsAt` | src/services/seoChecker.js:31-169 | entry `i` of a rendered bucket is the text of finding `i` |
| `Report.Recorded` | src/services/seoChecker.js:31-169 | one check's `push`: the text of its finding into that finding's bucket, nothing when it has none; specified by `Report.CollectSnoc` |
| `JsString.CodeUnits` | src/services/seoChecker.js:32-34 | `.length` is at least the number of code points and at most twice it; on Basic Multilingual Plane text it is the code point count |
| `JsString.IsWhitespace` | src/services/seoChecker.js:64-65 | the ECMAScript WhiteSpace and LineTerminator code points: what `\s` matches and `trim` removes (tab, line feed, vertical tab, form feed, carriage return, space, no-break space, U+1680, U+2000-U+200A, U+2028, U+2029, U+202F, U+205F, U+3000, U+FEFF); used by `JsString.Trim` and the `WordCount` lemmas |
| `JsString.Missing` | src/services/seoChecker.js:40 | JavaScript falsiness of an attribute read: absent or empty; every "absent or empty" clause of the per-check lemmas is this test |
| `JsString.StartsWith` | src/services/seoChecker.js:89 | `startsWith(p)`: `p` is a prefix; used by `AuditProperties.HttpsFinding` and `Url.SchemeLength` |
| `JsString.Includes` | src/services/seoChecker.js:101 | `includes(t)`, specified by `JsString.IncludesIffOccurs` |
| `JsString.Trim` | src/services/seoChecker.js:64 | the result is a slice of the input with only whitespace outside it, and it neither starts nor ends with whitespace; `WordCount.TrimPreservesWords` shows it drops no word |
| `JsString.TrimStart` | src/services/seoChecker.js:64 | the result is a suffix, only whitespace was removed, and it does not start with whitespace |
| `JsString.TrimEnd` | src/services/seoChecker.js:64 | the result is a prefix, only whitespace was removed, and it does not end with whitespace |
| `JsString.IncludesIffOccurs` | src/services/seoChecker.js:101 | `includes(t)` holds exactly when `t` occurs at some index |
| `JsString.IncludesPieceOfPrefix` | src/services/seoChecker.js:142 | a string that starts with `p` includes every substring of `p` |
| `JsString.ToLowerCase` | src/services/seoChecker.js:133 | lowering keeps the length and maps every character by the letter-case map |
| `JsString.ToLowerCaseIdempotent` | src/services/seoChecker.js:133 | lowering twice is lowering once |
| `JsString.NatToString` | src/services/seoChecker.js:53 | `${n}` is a non-empty string of decimal digits with no leading zero, one digit exactly below 10 |
| `JsString.ParseNatToString` | src/services/seoChecker.js:53 | reading the digits of `${n}` back gives `n` |
| `JsString.NatToStringInjective` | src/services/seoChecker.js:53 | different counts render differently |
| `Messages.AltTextNoun` | src/services/seoChecker.js:58-61 | the alt-text message names the count, with "image" for one and "images" for more |
| `Messages.PlaceholderLinkNoun` | src/services/seoChecker.js:113-116 | the placeholder-link message names the count, with "link" for one and "links" for more |
| `Messages.ExternalLinkNoun` | src/services/seoChecker.js:144-146 | the external-link message names the count, with "external link" for one and "external links" for more |
| `Messages.Text` | src/services/seoChecker.js:31-180 | the exact string of each of the thirty pushes; the counted ones are specified by `Messages.AltTextNoun`, `Messages.PlaceholderLinkNoun` and `Messages.ExternalLinkNoun`, and `JsString.NatToStringInjective` makes every count recoverable |
| `Messages.SeverityOf` | src/services/seoChecker.js:31-180 | the bucket each message is pushed to; `Rules.OriginOfError` ties the `errors` bucket to the four fetch messages of the `catch` |
| `Messages.Plural` | src/services/seoChecker.js:60 | the suffix after a counted noun: "s" above one, nothing otherwise; specified through `Messages.AltTextNoun`, `Messages.PlaceholderLinkNoun` and `Messages.ExternalLinkNoun` |
| `Messages.FetchTextsCollide` | src/services/seoChecker.js:178-180 | two different fetch failures push the same string: the unknown-domain error and a fault whose own message is "Domain not found" |
| `Url.SchemeLength` | src/services/seoChecker.js:142 | `/^https?:\/\//` removes 8 characters after `https://`, 7 after `http://`, none otherwise |
| `Url.UpToSlash` | src/services/seoChecker.js:142 | `split('/')[0]` is the longest prefix without '/' |
| `Url.Host` | src/services/seoChecker.js:142 | the final URL with a leading `http://` or `https://` removed, cut at its first '/'; specified by `Url.HostFollowsScheme` |
| `Url.HostFollowsScheme` | src/services/seoChecker.js:142 | the host occurs in the final URL right after the scheme prefix and holds no '/' |
| `Url.LinkUnderFinalUrlIncludesHost` | src/services/seoChecker.js:142 | an href that starts with the final URL always includes its host |
| `PageModel.CountWhere` | src/services/seoChecker.js:58 | a filtered count is at most the number of elements, 0 exactly when none matches, and the number of elements exactly when all match |
| `PageModel.ImagesWithoutAlt` | src/services/seoChecker.js:58 | the number of images whose alt is absent or empty; `AuditProperties.MeasuredPage` states it is 0 exactly when every image has a truthy alt |
| `PageModel.IsPlaceholderLink` | src/services/seoChecker.js:113 | the selector `a[href="#"], a[href=""]`: the href is present with exactly one of those values |
| `PageModel.PlaceholderLinkCount` | src/services/seoChecker.js:113 | the number of placeholder anchors; `AuditProperties.MeasuredPage` states it is 0 exactly when no anchor is one |
| `PageModel.ExternalLinkCount` | src/services/seoChecker.js:139-143 | the external-link count against the host of the final URL; `AuditProperties.MeasuredPage` states it is 0 exactly when no anchor is external without rel |
| `PageModel.IsExternalWithoutRel` | src/services/seoChecker.js:139-142 | an anchor counts when its href starts with "http", is non-empty, does not include the host and its rel is falsy; `AuditProperties.InternalLinksAreNotExternal` shows an href under the final URL never counts |
| `PageModel.CountExternal` | src/services/seoChecker.js:139-143 | the external-link count is at most the number of links and is 0 exactly when no link is external and without rel |
| `WordCount.LeadingWhitespace` | src/services/seoChecker.js:64 | the length of the maximal leading whitespace run |
| `WordCount.LeadingWord` | src/services/seoChecker.js:65 | the length of the maximal leading non-whitespace run |
| `WordCount.Words` | src/services/seoChecker.js:65 | every token is non-empty and free of whitespace |
| `WordCount.SplitOnWhitespace` | src/services/seoChecker.js:65 | `split(/\s+/)` yields at least one piece |
| `WordCount.CollapseWhitespace` | src/services/seoChecker.js:64 | `replace(/\s+/g, ' ')`, specified by `WordCount.CollapsePreservesWords` |
| `WordCount.NonEmpty` | src/services/seoChecker.js:65 | `.filter(word => word.length > 0)`, specified with the split by `WordCount.SplitYieldsWords` |
| `WordCount.WordCount` | src/services/seoChecker.js:64-65 | the count as the source computes it, specified by `WordCount.WordCountIsTokenCount` |
| `WordCount.CollapsePreservesWords` | src/services/seoChecker.js:64 | replacing every whitespace run by one space changes no word |
| `WordCount.TrimPreservesWords` | src/services/seoChecker.js:64 | trimming changes no word |
| `WordCount.SplitYieldsWords` | src/services/seoChecker.js:65 | the split pieces, without the empty ones, are exactly the tokenizer's words |
| `WordCount.WordCountIsTokenCount` | src/services/seoChecker.js:64-65 | the engine's collapse, trim, split and filter pipeline yields exactly the maximal non-whitespace runs of the body text, so the count is their number |
| `WordCount.BlankTextHasNoWords` | src/services/seoChecker.js:64-65 | an empty or all-whitespace body counts zero words |
| `Rules.Measure` | src/services/seoChecker.js:29-165 | the values the checks compute from the page and the final URL, specified by `AuditProperties.MeasuredPage` |
| `Rules.FirstH1Text` | src/services/seoChecker.js:132 | the trimmed text of the first H1; `AuditProperties.MeasuredPage` states it is `Trim` of the first H1 whenever there is one |
| `Rules.Evaluate` | src/services/seoChecker.js:28-170 | every check run on the measured values; `Rules.EvaluateAttributed` shows each outcome is its own check's message |
| `Rules.Rule` | src/services/seoChecker.js:28-170 | the outcome of the check at position `k`, in source order; `Rules.RulesBeforeAt` places it at index `k` of the outcome list |
| `Rules.TitleRule` | src/services/seoChecker.js:29-36 | the check's decision on the measured values, at most one finding; specified on the report by `AuditProperties.TitleFindings` |
| `Rules.MetaDescriptionRule` | src/services/seoChecker.js:39-46 | the check's decision on the measured values, at most one finding; specified on the report by `AuditProperties.MetaDescriptionFindings` |
| `Rules.H1CountRule` | src/services/seoChecker.js:49-54 | the check's decision on the measured values, at most one finding; specified on the report by `AuditProperties.H1Findings` |
| `Rules.ImageAltRule` | src/services/seoChecker.js:57-61 | the check's decision on the measured values, at most one finding; specified on the report by `AuditProperties.ImageAltFinding` |
| `Rules.WordCountRule` | src/services/seoChecker.js:67-71 | the check's decision on the measured values, at most one finding; specified on the report by `AuditProperties.ContentFindings` |
| `Rules.OpenGraphRule` | src/services/seoChecker.js:78-80 | the check's decision on the measured values, at most one finding; specified on the report by `AuditProperties.OpenGraphFinding` |
| `Rules.CanonicalRule` | src/services/seoChecker.js:84-86 | the check's decision on the measured values, at most one finding; specified on the report by `AuditProperties.CanonicalFinding` |
| `Rules.HttpsRule` | src/services/seoChecker.js:89-91 | the check's decision on the measured values, at most one finding; specified on the report by `AuditProperties.HttpsFinding` |
| `Rules.ViewportRule` | src/services/seoChecker.js:95-97 | the check's decision on the measured values, at most one finding; specified on the report by `AuditProperties.ViewportFinding` |
| `Rules.RobotsRule` | src/services/seoChecker.js:101-103 | the check's decision on the measured values, at most one finding; specified on the report by `AuditProperties.RobotsFinding` |
| `Rules.H2Rule` | src/services/seoChecker.js:108-110 | the check's decision on the measured values, at most one finding; specified on the report by `AuditProperties.H2Finding` |
| `Rules.PlaceholderLinkRule` | src/services/seoChecker.js:114-116 | the check's decision on the measured values, at most one finding; specified on the report by `AuditProperties.PlaceholderLinkFinding` |
| `Rules.LangRule` | src/services/seoChecker.js:120-122 | the check's decision on the measured values, at most one finding; specified on the report by `AuditProperties.LangFinding` |
| `Rules.CharsetRule` | src/services/seoChecker.js:126-128 | the check's decision on the measured values, at most one finding; specified on the report by `AuditProperties.CharsetFinding` |
| `Rules.TitleH1Rule` | src/services/seoChecker.js:131-136 | the check's decision on the measured values, at most one finding; specified on the report by `AuditProperties.TitleH1Finding` |
| `Rules.ExternalLinkRule` | src/services/seoChecker.js:144-146 | the check's decision on the measured values, at most one finding; specified on the report by `AuditProperties.ExternalLinkFinding` |
| `Rules.InlineStyleRule` | src/services/seoChecker.js:150-152 | the check's decision on the measured values, at most one finding; specified on the report by `AuditProperties.InlineStyleFinding` |
| `Rules.StructuredDataRule` | src/services/seoChecker.js:156-158 | the check's decision on the measured values, at most one finding; specified on the report by `AuditProperties.StructuredDataFinding` |
| `Rules.TwitterCardRule` | src/services/seoChecker.js:162-164 | the check's decision on the measured values, at most one finding; specified on the report by `AuditProperties.TwitterCardFinding` |
| `Rules.FaviconRule` | src/services/seoChecker.js:167-170 | the check's decision on the measured values, at most one finding; specified on the report by `AuditProperties.FaviconFinding` |
| `Rules.RulesBefore` | src/services/seoChecker.js:28-170 | the outcomes of the first `n` checks form a list of length `n` |
| `Rules.RulesBeforeAt` | src/services/seoChecker.js:28-170 | position `k` of the outcome list is check `k`'s outcome (the fixed order) |
| `Rules.RulesBeforePrefix` | src/services/seoChecker.js:28-170 | the outcomes of the first `j` checks begin the outcomes of the first `n` |
| `Rules.OriginOfError` | src/services/seoChecker.js:172-182 | exactly the fetch-error messages come from no check |
| `Rules.EvaluateAttributed` | src/services/seoChecker.js:28-170 | every check pushes only messages of its own kind |
| `Rules.AttributedOrigin` | src/services/seoChecker.js:28-170 | in an attributed battery the outcome of check `k` is a message of check `k` |
| `Rules.InOutcomes` | src/services/seoChecker.js:28-170 | a message is among the outcomes exactly when the one check that can produce it produced it |
| `SeoChecker.FinalUrl` | src/services/seoChecker.js:26 | the response URL, or the requested URL when that is absent or empty; specified by `AuditProperties.CompletedAudit` |
| `SeoChecker.Classify` | src/services/seoChecker.js:172-182 | the caught fault yields one error message, in priority order: an HTTP reply gives its status and status text (`<none>` when empty), otherwise ECONNABORTED gives the timeout message, ENOTFOUND the domain message, and anything else the fault's own message |
| `SeoChecker.ReportAfterRenders` | src/services/seoChecker.js:28-170 | pushing the findings of the first `k` checks one by one builds the rendered report of those outcomes |
| `SeoChecker.ReportAfter` | src/services/seoChecker.js:28-170 | the report after the first `k` checks have pushed; the right-hand side of `SeoChecker.RunChecks`, related to the rendered outcomes by `SeoChecker.ReportAfterRenders` |
| `SeoChecker.AuditOutcomes` | src/services/seoChecker.js:12-182 | what a run records, in order: the classified fault for a failed fetch, otherwise the check outcomes up to any interruption followed by its classified fault; specified by `AuditProperties.FailedFetchReport` and `AuditProperties.InterruptedReportKeepsPrefix` |
| `SeoChecker.Audit` | src/services/seoChecker.js:4-187 | the report of a run, bucket by bucket; the right-hand side of `SeoChecker.CheckSeo`, described per check by the `AuditProperties` lemmas |
| `SeoChecker.FailedReport` | src/services/seoChecker.js:172-182 | a failed fetch renders as one push of the classified error onto the empty result |
| `SeoChecker.InterruptedRenders` | src/services/seoChecker.js:28-182 | a fault in check `k` renders as the pushes of the checks before `k`, then the error push |
| `SeoChecker.CompletedReport` | src/services/seoChecker.js:25-170 | an uninterrupted run renders as the pushes of all twenty checks on the page measured against the final URL |
| `SeoChecker.InterruptedReport` | src/services/seoChecker.js:25-182 | an interrupted run renders as the pushes before the faulting check, then its classified error |
| `SeoChecker.RunChecks` | src/services/seoChecker.js:28-170 | the `try` body's checks push in order until a fault strikes; the result is the pushes of the checks before the fault, and the fault is returned exactly when one struck |
| `SeoChecker.CheckSeo` | src/services/seoChecker.js:4-187 | the returned result is the rendered report of the run: the check findings in order, then one classified error when a fault was thrown |
| `AuditProperties.CompletedAudit` | src/services/seoChecker.js:25-26 | an uninterrupted run reports the checks on the page measured against the requested URL when the response URL is absent or empty, and against the response URL otherwise |
| `AuditProperties.Reported` | src/services/seoChecker.js:28-170 | a message is in a bucket exactly when it has that severity and the one check that can produce it yields it |
| `AuditProperties.TitleFindings` | src/services/seoChecker.js:29-36 | "Missing title tag" is critical exactly when the title is empty; the shortening warning exactly when it is non-empty and over 60 code units; the lengthening advice exactly when non-empty and under 30 |
| `AuditProperties.MetaDescriptionFindings` | src/services/seoChecker.js:39-46 | critical exactly when the description is absent or empty; a warning exactly above 160 code units; advice exactly below 120 |
| `AuditProperties.H1Findings` | src/services/seoChecker.js:49-54 | critical exactly when there is no H1; a warning naming `n` exactly when there are `n > 1` H1s |
| `AuditProperties.ImageAltFinding` | src/services/seoChecker.js:57-61 | the alt-text advice for `n` images is given exactly when `n` images lack alt text and `n > 0` |
| `AuditProperties.ContentFindings` | src/services/seoChecker.js:64-71 | thin content with count `n` is critical exactly when the word count is `n < 100`; the length advice exactly when it is `100 <= n < 300` |
| `AuditProperties.OpenGraphFinding` | src/services/seoChecker.js:74-80 | advice exactly when any of the three Open Graph tags is absent or empty |
| `AuditProperties.CanonicalFinding` | src/services/seoChecker.js:83-86 | advice exactly when the canonical href is absent or empty |
| `AuditProperties.HttpsFinding` | src/services/seoChecker.js:89-91 | a warning exactly when the final URL does not start with `https://` |
| `AuditProperties.ViewportFinding` | src/services/seoChecker.js:94-97 | a warning exactly when the viewport content is absent or empty |
| `AuditProperties.RobotsFinding` | src/services/seoChecker.js:100-103 | a warning quoting `d` exactly when the robots content is the non-empty `d` and includes `noindex` or `nofollow` |
| `AuditProperties.H2Finding` | src/services/seoChecker.js:106-110 | advice exactly when the page has an H1 and no H2 |
| `AuditProperties.PlaceholderLinkFinding` | src/services/seoChecker.js:113-116 | a warning naming `n` exactly when there are `n > 0` links with href `#` or empty |
| `AuditProperties.LangFinding` | src/services/seoChecker.js:119-122 | advice exactly when `lang` is absent or empty |
| `AuditProperties.CharsetFinding` | src/services/seoChecker.js:125-128 | a warning exactly when neither kind of charset declaration is present |
| `AuditProperties.TitleH1Finding` | src/services/seoChecker.js:131-136 | advice exactly when the title is non-empty, an H1 exists, and the lowered title equals the lowered trimmed first H1 text |
| `AuditProperties.ExternalLinkFinding` | src/services/seoChecker.js:139-146 | advice naming `n` exactly when `n > 0` links are external and lack rel |
| `AuditProperties.InlineStyleFinding` | src/services/seoChecker.js:149-152 | advice naming `n` exactly when `n > 20` elements carry inline styles |
| `AuditProperties.StructuredDataFinding` | src/services/seoChecker.js:155-158 | advice exactly when the page has neither an ld+json script nor an `itemscope` element |
| `AuditProperties.TwitterCardFinding` | src/services/seoChecker.js:161-164 | advice exactly when the Twitter Card content is absent or empty |
| `AuditProperties.FaviconFinding` | src/services/seoChecker.js:166-170 | advice exactly when there is no icon link |
| `AuditProperties.CompletedHasNoErrors` | src/services/seoChecker.js:5-10 | a run with no fault leaves `errors` empty |
| `AuditProperties.FailedFetchReport` | src/services/seoChecker.js:172-184 | a failed fetch reports exactly one error, its classification, and nothing in the other three buckets |
| `AuditProperties.InterruptedReportKeepsPrefix` | src/services/seoChecker.js:12-182 | a fault struck in check `k` leaves exactly one error; every other bucket holds what the checks before `k` pushed, a prefix of what the whole battery reports |
| `AuditProperties.InterruptedKeepsPrefix` | src/services/seoChecker.js:28-182 | the same facts stated over the measured values of a page |
| `AuditProperties.ReportedOnce` | src/services/seoChecker.js:28-170 | no message appears twice in a bucket: only one check can produce it and each check pushes at most once |
| `AuditProperties.AtMostOneFindingPerCheck` | src/services/seoChecker.js:28-170 | an uninterrupted run reports at most twenty findings in all, one per check at most |
| `AuditProperties.MeasuredPage` | src/services/seoChecker.js:49-65 | the word count is the number of tokens, the H1 count is the number of H1s, `h1Text` is the trimmed first H1, and each filtered count is 0 exactly when no element matches its test |
| `AuditProperties.BlankBodyIsThin` | src/services/seoChecker.js:64-71 | an empty or all-whitespace body is critical thin content with count 0 |
| `AuditProperties.InternalLinksAreNotExternal` | src/services/seoChecker.js:139-146 | when every href starts with the final URL, the external-link advice is never given |
| `Auth.Authenticate` | src/middleware/auth.js:5-23 | passes exactly when no key is configured or the header equals it; 401 exactly when a key is configured and the header is absent or empty; 403 exactly when both are present and differ; nothing else |
| `Auth.NoKeyIgnoresHeader` | src/middleware/auth.js:5-7 | without a configured key, every header passes |
| `Auth.OnlyTheKeyPasses` | src/middleware/auth.js:17-23 | with a configured key, the only header that passes is the key itself |
| `Auth.CaseMatters` | src/middleware/auth.js:17-21 | the comparison is exact: any present header that differs from the key yet lowers to the same string gets 403 |

## Left out

- The HTTP fetch (src/services/seoChecker.js:14-20) is network I/O, so the model does not include it. Its timeout, redirect limit and User-Agent are left out with it. Its outcome is an input, `FetchOutcome`: either the page facts with `response.request.res.responseUrl`, or the thrown `Fault`.
- The HTML parser and its CSS selectors are a foreign library. The page is the record `PageModel.Page` of what each selector query returns.
- Which check a fault interrupts is an input (`Interruption`), because what could make a check throw lies inside the parser library.
- `JsString.ToLowerCase` maps the ASCII letters only. JavaScript's full Unicode case mapping is not modelled.
- The unused `h3Count` (src/services/seoChecker.js:107) has no observable effect.
- The configured key comes from `process.env.API_KEY` through dotenv. The model passes it as a parameter, and the 401/403 reply is a `Decision` value, not an Express response.
- src/routes/seoChecker.js, src/routes/health.js, src/index.js and src/config/swagger.js are routing, URL validation via the platform URL parser, a wall-clock timestamp and bootstrap. They contain no engine logic, and they are not part of this model.
- The asynchronous `await` on the fetch and any concurrency between audits are not modelled. Each audit is one sequential run.
- `Messages.Text` is not injective, and neither is the source: `Messages.FetchTextsCollide` shows that a fault whose message is "Domain not found" pushes the same string as the unknown-domain error (src/services/seoChecker.js:178 and 180). The per-check properties are therefore stated on structured messages. `CheckSeo` relates them to the returned strings through `Render`, which `Report.TextsAt` describes element by element. The string-level "only if" direction, that a given string in a bucket came from a particular check, is not stated.
