# Aizu Online Judge plugin

A model of `onlinejudge/aoj.py`. This is the online-judge-tools plugin for the
Aizu Online Judge (AOJ). The plugin does four things:

- it recognises the judge's URLs (`AOJService.from_url`, `AOJProblem.from_url`);
- it builds the canonical description-page URL of a problem (`AOJProblem.get_url`);
- it downloads a problem's test cases from the judge's data server `judgedat.u-aizu.ac.jp`:
  - the sample cases come from one JSON request (`download_samples`);
  - the system cases come from probing `in`/`out` files 1, 2, 3, … until the
    server answers with a sentinel text (`download_system`);
- it chooses between the two downloads (`download`).

Files:

- `wrappers.dfy` holds `Option` and `Result`.
- `text.dfy` (module `Text`) holds the pieces of Python's string library the
  plugin relies on:
  - `str.strip()` with Python's `str.isspace` set of white-space characters;
  - the decimal text of an integer, as `str(n)`, `'%d' % n` and
    `'{}'.format(n)` produce it, with its inverse.
- `aoj.dfy` (module `Aoj`) holds the plugin itself.

The plugin's outside world appears as parameters:

- **The network** is `fetch: string -> string`, from a request URL to the text
  of the response. Each download method also returns the ordered list of
  `Request`s it made, so the contracts say what is fetched and in which order.
- **The URL library calls** (`urllib.parse.urlparse`, `urllib.parse.parse_qs`
  and the framework's `utils.normpath`) are the fields of a `UrlLib` value.
  The recognisers' contracts are stated in terms of what those calls return.
- **`json.loads`** on the samples body, with the reading of each record's
  `serial`, `in` and `out`, is a `decode` parameter. It turns the response
  text into a sequence of `SampleRecord`s.

One round of `download_system`'s loop (lines 69-78) is the method
`ProbeCase`, and `DownloadSystem` calls it once per case.
`download_system` has an unbounded loop. `DownloadSystem` therefore takes a
ghost `bound`, and requires that some case up to `bound` ends the probing:
either its input is a sentinel or its output is the single-file text. The
result is a `Result`. The source's `assert` on the output text is the
`Failure(AssertionFailed(i))` case, which carries the index of the offending
case.

## Model

| member | source | states |
|---|---|---|
| `Aoj.ServiceFromUrl` | onlinejudge/aoj.py:29-36 | a URL is the service's exactly when its scheme is empty, `http` or `https` and its network location is `judge.u-aizu.ac.jp` |
| `Aoj.ServiceIgnoresPathAndQuery` | onlinejudge/aoj.py:32-35 | two URLs with the same scheme and network location get the same answer, whatever their path and query |
| `Aoj.ProblemFromUrl` | onlinejudge/aoj.py:88-101 | a URL names a problem exactly when (1) the service test holds, (2) the normalised path is `/onlinejudge/description.jsp` and (3) the query gives `id` exactly one value; that value is the problem identifier |
| `Aoj.ProblemUrlIsServiceUrl` | onlinejudge/aoj.py:94-96 | every URL that names a problem is also recognised as the service's |
| `Aoj.ForeignHostMatchesNothing` | onlinejudge/aoj.py:94-95 | a URL on any other host is neither the service's nor a problem's |
| `Aoj.ProblemIgnoresOtherKeys` | onlinejudge/aoj.py:93-99 | query keys other than `id` play no part in resolving a problem |
| `Aoj.ProblemNeedsOneId` | onlinejudge/aoj.py:97-98 | a missing `id`, or an `id` given two or more times, resolves no problem |
| `Aoj.DocumentedExamples` | onlinejudge/aoj.py:90-91 | the two example URLs in the comments resolve to problems `1169` and `DSL_1_A`, given what the URL library returns for them |
| `Aoj.GetUrl` | onlinejudge/aoj.py:85-86 | the problem identifier can be read back from the canonical URL, after the fixed description-page prefix |
| `Aoj.GetUrlInjective` | onlinejudge/aoj.py:85-86 | distinct problems have distinct canonical URLs, and every canonical URL lies under the service URL `http://judge.u-aizu.ac.jp/onlinejudge/` |
| `Aoj.CaseTailInjective` | onlinejudge/aoj.py:65 | the `<case>/<type>` tail of a case-file URL determines the case number and the file type |
| `Aoj.CaseUrlInjective` | onlinejudge/aoj.py:65 | different case files of one problem are fetched from different URLs |
| `Aoj.DownloadSamples` | onlinejudge/aoj.py:49-61 | makes exactly one request (for the problem's samples); returns one case per decoded record, in record order, both labels being `str(serial)` and the texts being the record's `in` and `out` |
| `Aoj.SampleLabelsGiveSerial` | onlinejudge/aoj.py:57-60 | both labels of a sample case are equal, and each reads back as the record's serial |
| `Aoj.SystemCases` | onlinejudge/aoj.py:79-82 | the first n system cases are cases 1..n in increasing order, labelled `in<i>.txt`/`out<i>.txt`, with the fetched texts kept verbatim |
| `Aoj.ProbeLog` | onlinejudge/aoj.py:67-77 | probing cases 1..n asks for `2n` files: for each case, its input and then its output |
| `Aoj.ProbeLogContents` | onlinejudge/aoj.py:67-77 | the requests for cases 1..n are exactly the input and output files of those cases |
| `Aoj.ProbeCase` | onlinejudge/aoj.py:69-78 | one round of probing at case i: it stops after the input exactly when the stripped input is one of the two sentinels; it reports the assertion failure exactly when the input is no sentinel and the stripped output is the single-file text; otherwise it returns the two fetched texts verbatim. It asks for the input of case i, then its output only when the input was no sentinel |
| `Aoj.DownloadSystem` | onlinejudge/aoj.py:63-83 | on success with n cases: cases 1..n were real; the input of case n+1 strips to one of the two sentinels; the result is cases 1..n; the requests were both files of 1..n and then input n+1. On the assertion failure at case k: cases before k were real; input k is no sentinel; output k strips to the single-file sentinel; the requests were both files of 1..k |
| `Aoj.SystemOutcomeUnique` | onlinejudge/aoj.py:67-83 | the server's responses fix the outcome: any two runs give the same cases, or the same failure, after the same requests |
| `Aoj.OutcomeAtFirstSentinel` | onlinejudge/aoj.py:67-74 | when cases 1..n are real and input n+1 is a sentinel, the run returns exactly cases 1..n, after both files of 1..n and input n+1 |
| `Aoj.SentinelAtFirstCase` | onlinejudge/aoj.py:67-74 | a sentinel as the first input gives no cases and a single request |
| `Aoj.ProbingStopsAtSentinel` | onlinejudge/aoj.py:69-76 | every request is for a case file whose index is at most the stopping index; after a sentinel input, the output file of that case is never requested |
| `Aoj.TwoCasesExample` | onlinejudge/aoj.py:67-83 | two real cases followed by a sentinel give exactly two cases, labelled `in1.txt`/`out1.txt` and `in2.txt`/`out2.txt` |
| `Aoj.PaddedSentinelEndsProbing` | onlinejudge/aoj.py:71-74 | either sentinel ends probing even when the server surrounds it with white space |
| `Aoj.SentinelsDiffer` | onlinejudge/aoj.py:71-73 | the "not available" text of any case is never the single-file text |
| `Aoj.NotAvailableSentinelNamesCase` | onlinejudge/aoj.py:73 | the "not available" text names exactly one case number: the texts of different cases differ |
| `Aoj.SystemLabelsDistinct` | onlinejudge/aoj.py:79-82 | two system cases with the same input label, or the same output label, are the same case |
| `Aoj.Download` | onlinejudge/aoj.py:43-47 | with `is_system` it has the outcome of the system download; otherwise it has the outcome of the sample download |
| `Aoj.RequestUrl` | onlinejudge/aoj.py:53-65 | the URL of each request to the data server: `samples/<id>` for the sample set and `<id>/<case>/<in or out>` for a case file, both under `https://judgedat.u-aizu.ac.jp/testcases/`; characterised by `CaseUrlInjective` |
| `Aoj.SystemCase` | onlinejudge/aoj.py:79-82 | system case i with labels `in<i>.txt` and `out<i>.txt` and the fetched texts; characterised by `SystemLabelsDistinct` and `TwoCasesExample` |
| `Aoj.NotAvailableSentinel` | onlinejudge/aoj.py:73 | the "not available" text for case i of a problem; characterised by `NotAvailableSentinelNamesCase` and `SentinelsDiffer` |
| `Text.Strip` | onlinejudge/aoj.py:71-78 | Python's `str.strip()` with no argument; characterised by `StripSlice` and `StripPadded` |
| `Text.StripSlice` | onlinejudge/aoj.py:71 | `strip()` keeps a slice of the text; everything before and after the slice is white space; a non-empty result neither starts nor ends with white space |
| `Text.StripPadded` | onlinejudge/aoj.py:71-73 | stripping a text with white space around it gives the text back, provided its own ends are not white space |
| `Text.NatToString` | onlinejudge/aoj.py:80-81 | `'%d' % case` is a non-empty run of decimal digits; it starts with `0` only for zero |
| `Text.ParseNatToString` | onlinejudge/aoj.py:80-81 | the decimal text of a natural number reads back as that number |
| `Text.NatToStringInjective` | onlinejudge/aoj.py:73 | distinct case numbers have distinct decimal texts |
| `Text.DigitsBeforeNonDigit` | onlinejudge/aoj.py:73 | a run of digits followed by a text that starts with a non-digit can be separated from it in only one way |
| `Text.IntToString` | onlinejudge/aoj.py:58-59 | `str(serial)` is digits, preceded by a minus sign exactly when the serial is negative |
| `Text.IntToStringRoundTrip` | onlinejudge/aoj.py:58-59 | the text of an integer reads back as that integer |

## Left out

- HTTP:
  - `utils.request`, `utils.new_default_session` and the session argument are not modelled.
  - A response is its text, as the `fetch` parameter returns it.
  - Failed requests, HTTP error statuses and the exceptions they raise are not modelled.
- `json.loads` and the record lookups `sample['serial']`, `sample['in']`, `sample['out']` are the `decode` parameter.
  - Malformed JSON and missing keys are not modelled.
  - `serial` is taken to be an integer, so `str` of a JSON string or float is not modelled.
- Aoj.ServiceFromUrl, Aoj.ProblemFromUrl: `urlparse` is a total function here.
  - `urllib.parse.urlparse` raises `ValueError` on some malformed URLs, such as a bracketed host that is never closed (`http://[::1/x`).
  - When it does, both `from_url` methods (lines 32 and 92) raise instead of answering `None`.
  - This error path is not modelled: the model's recognisers always answer `Some` or `None`.
- The internals of `urllib.parse.urlparse`, `urllib.parse.parse_qs` and `utils.normpath` are not modelled; they are the `UrlLib` parameter.
  - As a result, that `AOJProblem.from_url(get_url())` gives the problem back is not proved.
  - What is proved is that the identifier can be read back from the canonical URL (`GetUrl`).
- `AOJService.get_url` and `get_name` return fixed strings. They are the constants `ServiceUrl` and `ServiceName`, and there is nothing to state about them beyond their values.
- `AOJProblem.get_service` and the `utils.singleton` decorator are not modelled, because the service holds no state. The module-level registration with `onlinejudge.dispatch` is not modelled either.
- Aoj.DownloadSystem: requires a ghost `bound` by which probing ends.
  - The source loop has no bound. Against a server that never sends a sentinel, it runs forever.
  - The model covers only runs that end.
- Aoj.Download: carries the same `bound` requirement for its system branch.
- The `assert` at line 78 is modelled as active, which is Python's default. Under `python -O` it is skipped, and the single-file output would be kept as a case. That mode is not modelled.
- `onlinejudge/problem.py` is not part of this model. Only the fields of `LabeledString` and `TestCase` are used.
- The unused imports (`io`, `posixpath`, `zipfile`, `collections`, and the logging module imported as `log`) are not modelled.
