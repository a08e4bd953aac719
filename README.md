# Malware scanner: a verified model of its decision logic

The repository is a small malware-scanning web application. A Next.js
front end lets a user sign in, pick a file or type a URL, scan it, and
download a text report. Two Flask services answer `/api/classify`:

- `Backend/app.py` hashes the upload and asks VirusTotal for detection
  counts. It builds a feature row for a random-forest classifier, matches
  YARA rules for behaviours, and returns it all.
- `Flask/app.py` answers with fixed placeholder counts.

Two client helpers (`utils/api.js`, one in each front end) turn a service
answer into a summary with a risk level. Both are kept in the repository as
commented-out code.

This project models, in Dafny:

- the scanner page's pure helpers, its report text and its event handlers;
- both client helpers;
- the upload checks, the analyzer and the routes of both services;
- the login page.

Each handler that updates React state becomes a method of a class whose
fields are the state slots. The code that only computes becomes functions,
with lemmas stating what they promise.

Modules and files:

| file | module | what it holds |
|---|---|---|
| `text.dfy` | `Text` | ASCII lower-casing, decimal rendering and parsing, and a substring predicate |
| `scan_data.dfy` | `ScanData` | the scan result a service returns, as the client receives it: every field may be missing |
| `scanner_rules.dfy` | `ScannerRules` | threat badge, confidence and severity colours, `validateFile` |
| `report.dfy` | `Report` | the downloadable report text |
| `scanner_page.dfy` | `ScannerPage` | the scanner page's state and handlers |
| `risk.dfy` | `Risk` | the ratio-based risk tiers and JavaScript's NaN |
| `next_api.dfy` | `NextApi` | `frontend_next/utils/api.js` |
| `legacy_api.dfy` | `LegacyApi` | `Frontend/utils/api.js` |
| `uploads.dfy` | `Uploads` | the extension check both Python services share |
| `backend.dfy` | `Backend` | `Backend/app.py` |
| `flask_app.dfy` | `FlaskApp` | `Flask/app.py` |
| `login_page.dfy` | `LoginPage` | the login page |

JavaScript `undefined` (a JSON field that is missing) is `None`. A sum
that involves a missing count is NaN, and every comparison with NaN is
false. Ratios are exact rationals. The risk tiers are proved equal to the
same thresholds on whole numbers, cross-multiplied.

## Model

| member | source | states |
|---|---|---|
| ScannerRules.GetThreatLevel | frontend_next/pages/scanner.js:621-626 | Unknown exactly when there is no result, Critical exactly when the malicious count is present and positive, Warning exactly when only the suspicious count is, Safe otherwise |
| ScannerRules.ThreatLevelMonotone | frontend_next/pages/scanner.js:621-626 | raising the malicious or suspicious count never lowers the badge |
| ScannerRules.GetConfidenceColor | frontend_next/pages/scanner.js:628-633 | red exactly from 0.8, orange exactly in [0.6, 0.8), yellow exactly in [0.4, 0.6), green exactly below 0.4 |
| ScannerRules.ConfidenceColorMonotone | frontend_next/pages/scanner.js:628-633 | a higher confidence never gets a lower colour band |
| ScannerRules.RenderBehaviorSeverity | frontend_next/pages/scanner.js:635-643 | colour is red, orange or yellow exactly when the lower-cased severity is high, medium or low; anything else gets the colour of unknown |
| ScannerRules.SeverityIgnoresCase | frontend_next/pages/scanner.js:642 | severities that lower-case alike get the same colour; lower-casing first changes nothing |
| ScannerRules.SeverityExamples | frontend_next/pages/scanner.js:636-642 | 'HIGH' and 'high' are red; '' and 'Critical' fall back to the unknown colour |
| ScannerRules.ValidateFile | frontend_next/pages/scanner.js:695-705 | 'Please select a file' exactly when no file, 'File size must be less than 32MB' exactly when over 33554432 bytes, accepted exactly otherwise |
| ScannerRules.ValidateFileBoundary | frontend_next/pages/scanner.js:700-704 | exactly 32 MiB passes, one byte more fails, the MIME type is never consulted |
| Text.LowerIdempotent | frontend_next/pages/scanner.js:642 | lower-casing twice is lower-casing once |
| Text.DecimalRoundTrip | frontend_next/pages/scanner.js:662-665 | the decimal rendering of a count parses back to the count |
| Text.Decimal | frontend_next/pages/scanner.js:662-665 | how a template literal renders a whole number: a non-empty string of digits with no leading zero (except '0' itself); Text.DecimalRoundTrip shows it parses back to the number |
| Text.Lower | frontend_next/pages/scanner.js:642 | `toLowerCase()` (and Python's `lower()`): same length, each ASCII capital mapped to its small letter and every other character kept; Text.LowerIdempotent and ScannerRules.SeverityIgnoresCase build on it |
| Report.GenerateReport | frontend_next/pages/scanner.js:645-685 | the report begins with the title block and ends with the 'Report End' footer; Report.ReportSourceInformation, Report.ReportStatistics, Report.ReportContainsClassification and Report.ReportBehaviors show each section's content in it for every input |
| Report.RoundKb | frontend_next/pages/scanner.js:656 | `Math.round(size / 1024)`: the nearest KiB, within half a KiB, halves rounding up |
| Report.ShowCount | frontend_next/pages/scanner.js:662-665 | a missing count reads 'undefined'; a present one is digits without a leading zero that parse back to it |
| Report.TypeText | frontend_next/pages/scanner.js:669 | 'N/A' exactly when the classification is missing or its type is empty (or is itself 'N/A'); the type otherwise |
| Report.ConfidenceText | frontend_next/pages/scanner.js:670 | 'N/A' exactly when the classification is missing; else the percentage followed by '%' |
| Report.JoinBlocks | frontend_next/pages/scanner.js:674-678 | the joined text is empty exactly for no behaviours and contains every behaviour's block |
| Report.BehaviorSection | frontend_next/pages/scanner.js:674-678 | the placeholder exactly when the list is missing or empty; else every block appears |
| Report.ReportIgnoresSource | frontend_next/pages/scanner.js:645-656 | the `source` argument does not affect the report; the page's own file and URL do |
| Report.ReportSourceInformation | frontend_next/pages/scanner.js:656 | the report names the file and its rounded size in KB when there is a file, the URL otherwise |
| Report.ReportStatistics | frontend_next/pages/scanner.js:657-665 | the 'SHA-256' line with the computed threat level, and the four count lines, appear in the report |
| Report.ReportBehaviors | frontend_next/pages/scanner.js:674-678 | missing or empty behaviours give the placeholder in the report; otherwise the section is not the placeholder and every behaviour block is in the report |
| Report.ClassificationBodyNA | frontend_next/pages/scanner.js:669-670 | no classification gives 'Type: N/A' and 'Confidence: N/A'; an empty type gives 'Type: N/A' with the real confidence |
| Report.ReportContainsClassification | frontend_next/pages/scanner.js:667-670 | the type and confidence lines appear in the report |
| Report.ReportClassification | frontend_next/pages/scanner.js:667-670 | the same N/A lines appear in the whole report |
| Report.SampleReport | frontend_next/pages/scanner.js:645-685 | for a 2048-byte sample.exe with two malicious detections and a 0.92 Trojan: 'Size: 2KB', 'Threat Level: Critical', 'Confidence: 92.0%' and the behaviour placeholder |
| ScannerPage.ScanErrorText | frontend_next/pages/scanner.js:762-790 | a failed scan always shows a non-empty message: the thrown one, or 'Failed to scan. Please try again.' when that is empty |
| ScannerPage.ReportFileName | frontend_next/pages/scanner.js:691 | 'malware-scan-report-' + the file name or 'url' + '-' + the ISO time + '.txt' |
| ScannerPage.ThrownMessage | frontend_next/pages/scanner.js:762-781 | the network message, the body's `error`, 'Scan failed (status). Please try again.', or the parser's own message for a malformed body |
| ScannerPage.Page.constructor | frontend_next/pages/scanner.js:613-618 | empty page; the cache slot keeps what an earlier visit stored |
| ScannerPage.Page.HandleFileUpload | frontend_next/pages/scanner.js:716-730 | clears error, results and URL; keeps a valid file, drops the file and shows the message for an invalid one, keeps the old file when none was picked; never a file and a URL at once |
| ScannerPage.Page.HandleUrlChange | frontend_next/pages/scanner.js:732-737 | takes the URL and drops file, error and results |
| ScannerPage.Page.HandleScan | frontend_next/pages/scanner.js:739-795 | with nothing to scan only the error changes; otherwise sends the file if any, else the URL; a result is shown and cached, a failure shows its message; always ends not loading with no progress text |
| ScannerPage.Page.HandleReset | frontend_next/pages/scanner.js:797-803 | clears file, URL, results, error and progress; loading and the cache are untouched |
| ScannerPage.Page.HandleDownloadReport | frontend_next/pages/scanner.js:687-693 | a download exactly when there is a file or URL and a result; its name and its text are the generated ones |
| Risk.Total | frontend_next/utils/api.js:53 | the sum exists exactly when all four counts do; it is then their sum and bounds each of them |
| Risk.Share | frontend_next/utils/api.js:56-57 | a share is a finite number exactly when the count and the total exist and the total is positive |
| Risk.TierFromShares | frontend_next/utils/api.js:59-62 | the threshold chain on the two shares: never Unknown, Critical exactly from a 0.3 malicious share, Low when both shares are NaN; Risk.ShareTierMatchesCounts gives the full characterisation |
| Risk.ShareTier | Frontend/utils/api.js:48-55 | the chain applied to a result's shares: never Unknown and Low for a missing count; equal to Risk.CountTier for a positive total (Risk.ShareTierMatchesCounts) |
| Risk.CountTier | frontend_next/utils/api.js:59-62 | whole-number reference tiers: never Unknown, never Low with a malicious detection |
| Risk.ShareAtLeast | frontend_next/utils/api.js:59-61 | `count / total >= k / 10` exactly when `10 * count >= k * total` |
| Risk.ShareTierMatchesCounts | frontend_next/utils/api.js:56-62 | for a positive total the float-ratio tiers equal the whole-number tiers |
| Risk.NaNSharesAreLow | Frontend/utils/api.js:48-55 | with no total or a zero total every comparison fails and the tier is Low |
| Risk.CountTierMonotone | frontend_next/utils/api.js:59-62 | more malicious detections never lower the tier |
| NextApi.CalculateRiskLevel | frontend_next/utils/api.js:52-63 | Unknown exactly for a zero total, Low for a missing count, else the whole-number tiers |
| NextApi.RiskLevelThresholds | frontend_next/utils/api.js:59-62 | each of the four tiers, both directions, as a condition on whole numbers |
| NextApi.ShareAtMostOne | frontend_next/utils/api.js:66-68 | the detected share of a positive total lies in [0, 1] and is 1 exactly when everything was detected |
| NextApi.CalculateDetectionRatio | frontend_next/utils/api.js:65-69 | always in [0, 100]; 0 for a zero or missing total; otherwise its value times the total is 100 × (malicious + suspicious), and it is 100 exactly when nothing is harmless or undetected |
| NextApi.ScanFile | frontend_next/utils/api.js:3-50 | size checked before type; a thrown message is passed on and a rejected response reports its `error` or 'Scan failed'; on success the name, formatted size, type and timestamp, every missing field defaulted, and the risk level and detection ratio computed from the raw result |
| NextApi.EmptyAnswerDefaults | frontend_next/utils/api.js:31-45 | an empty answer gets all defaults but is rated Low, where zero counts would be Unknown |
| NextApi.SchemesCompared | frontend_next/utils/api.js:52-63 | a Critical tier implies a Critical badge; a Safe badge implies at most Low; 1 malicious in 1000 is a Critical badge but a Medium tier |
| LegacyApi.CalculateRiskLevel | Frontend/utils/api.js:47-56 | never Unknown; Low for a zero total; otherwise equal to the guarded copy |
| LegacyApi.ScanFile | Frontend/utils/api.js:20-44 | no local checks; an error for a rejected response; counts default to 0, the risk level comes from the raw result |
| LegacyApi.MissingCountRatesLow | Frontend/utils/api.js:37-41 | a missing count is reported as 0, yet the result is rated Low even when the present counts make it Critical |
| Uploads.LastDot | Backend/app.py:95 | the position of the last '.', if there is one |
| Uploads.Extension | Backend/app.py:95 | `rsplit('.', 1)[1]`: absent exactly when there is no dot; dot-free; name = stem + '.' + extension |
| Uploads.ExtensionOfJoin | Backend/app.py:95 | splitting at the last dot undoes joining a stem and a dot-free extension |
| Uploads.AllowedExtensionOfJoin | Backend/app.py:95 | the check depends on the lower-cased extension alone |
| Uploads.HasAllowedExtension | Flask/app.py:34 | acceptance needs a dot and an allowed lower-cased last extension; Uploads.AllowedExtensionOfJoin gives the converse |
| Backend.AllowedFile | Backend/app.py:94-95 | accepts exactly when the name has a dot and its lower-cased last extension is exe, dll or pdf |
| Backend.AllowedFileAccepts | Backend/app.py:94-95 | 'a.EXE' is accepted |
| Backend.AllowedFileRefuses | Backend/app.py:94-95 | 'exe' and 'a.' are refused |
| Backend.AllowedFileLastExtension | Backend/app.py:94-95 | any name ending in '.exe.txt' is refused: only the last extension counts |
| Backend.BehaviorOf | Backend/app.py:72-76 | type is the rule name; severity and description come from the rule's meta, 'unknown' and '' when absent |
| Backend.FeatureRow | Backend/app.py:53-61 | five features: the four counts in the order malicious, suspicious, harmless, undetected (0 when absent), then the content length; Backend.MalwareAnalyzer.ExtractFeatures builds exactly this row |
| Backend.BehaviorsOf | Backend/app.py:71-76 | one behaviour per match, in order |
| Backend.MaxOf | Backend/app.py:83 | `max`: an element that bounds all others |
| Backend.Decide | Backend/app.py:79-92 | Unknown at 0.0 when the model raises, is unfitted or gives no probabilities, or the family is unknown; the family with its top probability from the threshold up; Unknown with that probability below it |
| Backend.MalwareAnalyzer.constructor | Backend/app.py:27-47 | the seven families; a fitted model or an unfitted one; rules or none |
| Backend.MalwareAnalyzer.ExtractFeatures | Backend/app.py:49-65 | five features: malicious, suspicious, harmless, undetected (0 when absent), content length |
| Backend.MalwareAnalyzer.AnalyzeBehaviors | Backend/app.py:67-77 | nothing without rules; else one entry per match with type, description (default '') and severity (default 'unknown') |
| Backend.MalwareAnalyzer.Classify | Backend/app.py:79-92 | a family only with confidence at least the threshold; Unknown at 0.0 with an unfitted model |
| Backend.CheckUpload | Backend/app.py:100-113 | in order: no file part, empty name, refused type, over 32 MiB, each 400 with its message; passes exactly when all hold |
| Backend.ClassifyRoute | Backend/app.py:97-163 | a failed check answers before any service; a raising VirusTotal client is 500 with its message; a pending analysis is 500 because `time` is never imported; a completed one is 200 with the counts, classification, behaviours and digest |
| FlaskApp.AllowedFile | Flask/app.py:33-34 | accepts exactly when the name has a dot and its lower-cased last extension is one of the seven |
| FlaskApp.AcceptsMoreThanBackend | Flask/app.py:17 | every name the backend accepts is accepted here; 'a.ZIP' only here |
| FlaskApp.AnalyzeFile | Flask/app.py:68-91 | exactly the placeholder counts 2/60/3/5 (70 in all) whatever the file; FlaskApp.AnswerIgnoresContent lifts this to the route |
| FlaskApp.ClassifyFile | Flask/app.py:36-65 | 500 'Model not loaded' first; then 400 no file, no name, bad type; 500 'File analysis failed' when saving fails; 200 exactly otherwise, with the placeholder counts |
| FlaskApp.AnswerIgnoresContent | Flask/app.py:51-60 | any two accepted uploads get the same answer |
| FlaskApp.TooLarge | Flask/app.py:93-95 | 413 with 'File is too large. Maximum size is 32MB' |
| FlaskApp.NotFound | Flask/app.py:97-99 | 404 'Not Found' |
| FlaskApp.ServerError | Flask/app.py:101-103 | 500 'Internal Server Error' |
| LoginPage.OnlyAdminAccepted | frontend_next/pages/login.js:22 | exactly one pair of credentials is accepted: admin/admin |
| LoginPage.Page.constructor | frontend_next/pages/login.js:9-14 | empty credentials, not loading, no error |
| LoginPage.Page.SetUsername | frontend_next/pages/login.js:63-66 | replaces the username and nothing else |
| LoginPage.Page.SetPassword | frontend_next/pages/login.js:75-78 | replaces the password and nothing else |
| LoginPage.Page.HandleLogin | frontend_next/pages/login.js:16-29 | admin/admin navigates to /scanner and stays loading; anything else shows 'Invalid credentials. Please try again.' and stops loading |

## Left out

- The network, the clock, `localStorage` and `saveAs` are not modelled directly. The reply to a request, the current time and the cache are parameters or fields.
- Hashing, VirusTotal, the trained model and the YARA engine are not modelled. Their results are fields of `Backend.Services`.
- Number formatting (`toFixed(1)`, `toLocaleString`, `formatFileSize`) is passed in as functions or strings.
- Floating point is left out: ratios and confidences are exact reals. Rounding a ratio to a double could only move it across a threshold for totals far beyond any detection count.
- Lower-casing covers ASCII only, in both JavaScript and Python.
- `ScannerRules.RenderBehaviorSeverity`: does not model severities that lower-case to 'constructor' or '__proto__'. These are the only all-lower-case names every JavaScript object inherits, and for them the lookup returns that inherited property instead of a colour.
- `Backend.ClassifyRoute`: does not model the polling loop beyond its first step. While an analysis is not complete, the loop's `time.sleep` raises, because `time` is never imported. So the loop never runs a second time.
- `Backend.ClassifyRoute`: does not model YARA matching raising an error, or reading the upload failing.
- The size limit of `Flask/app.py` is not modelled, because it has no effect: `MAX_CONTENT_LENGTH` is defined but never put into `app.config`. The 413 handler therefore only runs if some other layer rejects the request.
- `FlaskApp.ClassifyFile`: saving and removing the temporary file become one flag that says whether storage succeeded. `secure_filename` is not modelled.
- `validateUrl` and the `/api/classify-url` service are not modelled. The page never calls `validateUrl`, and no service in the repository serves that path.
- The rendering code of the pages (JSX, CSS classes other than the returned colours) is not modelled. Neither are the commented-out earlier copies of the scanner page, the unused `login` helper, or `Random_Forest`.
- Counts are natural numbers. The model does not tell a JSON `null` apart from a missing field, and does not cover non-numeric values.
- `LoginPage.Page.HandleLogin`: requires non-empty fields and not loading. The inputs are `required` and the button is disabled while loading, so the browser never submits otherwise.
- `LoginPage.Page.SetUsername` and `LoginPage.Page.SetPassword`: require not loading, because the inputs are disabled while loading.
