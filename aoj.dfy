/** The Aizu Online Judge plugin: recognising the judge's URLs, building a
    problem's canonical URL, and retrieving its sample and system test cases.

    The network is a function `fetch` from a request URL to the text of the
    response; the URL-parsing library calls are the fields of a `UrlLib`. */
module Aoj {
  import opened Wrappers
  import opened Text

  // ---------------------------------------------------------------------
  // Values of the framework (onlinejudge/problem.py is not part of this
  // model; only the shape of its two records is used here).

  /** A text with a human-readable name: "1", "in3.txt", ... */
  datatype LabeledString = LabeledString(name: string, data: string)

  /** One test: the input and the expected output. */
  datatype TestCase = TestCase(input: LabeledString, output: LabeledString)

  // ---------------------------------------------------------------------
  // Recognising URLs

  /** The fields of `urllib.parse.urlparse(s)` that the plugin reads. */
  datatype ParsedUrl = ParsedUrl(scheme: string, netloc: string, path: string, query: string)

  /** The library calls the recognisers make: `urllib.parse.urlparse`,
      `urllib.parse.parse_qs` (a key to its values, in order) and the
      framework's path normaliser. Their internals are not modelled. */
  datatype UrlLib = UrlLib(
    urlparse: string -> ParsedUrl,
    parseQs: string -> map<string, seq<string>>,
    normpath: string -> string)

  const Host := "judge.u-aizu.ac.jp"
  const AcceptedSchemes: set<string> := {"", "http", "https"}
  const DescriptionPath := "/onlinejudge/description.jsp"

  /** The service's own URL and name (`AOJService.get_url`, `get_name`). */
  const ServiceUrl := "http://judge.u-aizu.ac.jp/onlinejudge/"
  const ServiceName := "aoj"

  /** The service carries no state: one value stands for the singleton. */
  datatype Service = AojService

  /** A problem of the judge, known by the judge's own identifier. */
  datatype Problem = Problem(problemId: string)

  /** `AOJService.from_url`: the URL is the judge's exactly when its scheme
      is empty, http or https and its network location is the judge's host
      (compared case-sensitively); path and query play no part. */
  function ServiceFromUrl(lib: UrlLib, s: string): (r: Option<Service>)
    ensures r.Some? <==>
      var u := lib.urlparse(s);
      (u.scheme == "" || u.scheme == "http" || u.scheme == "https") && u.netloc == Host
  {
    var u := lib.urlparse(s);
    if u.scheme in AcceptedSchemes && u.netloc == Host then Some(AojService) else None
  }

  /** `AOJProblem.from_url`: the URL names a problem exactly when it is on
      the judge's site, its normalised path is the description page and its
      query gives the key `id` exactly one value; that value is the
      problem's identifier. */
  function ProblemFromUrl(lib: UrlLib, s: string): (r: Option<Problem>)
    ensures r.Some? <==>
      var u := lib.urlparse(s);
      var qs := lib.parseQs(u.query);
      && (u.scheme == "" || u.scheme == "http" || u.scheme == "https")
      && u.netloc == Host
      && lib.normpath(u.path) == DescriptionPath
      && "id" in qs && |qs["id"]| == 1
    ensures r.Some? ==> [r.value.problemId] == lib.parseQs(lib.urlparse(s).query)["id"]
  {
    var u := lib.urlparse(s);
    var qs := lib.parseQs(u.query);
    // `querystring.get('id')` is falsy for a missing key and for an empty
    // list of values; the length test then asks for exactly one value
    if u.scheme in AcceptedSchemes && u.netloc == Host && lib.normpath(u.path) == DescriptionPath
       && "id" in qs && |qs["id"]| != 0 && |qs["id"]| == 1
    then Some(Problem(qs["id"][0]))
    else None
  }

  /** Every problem URL is also a URL of the service. */
  lemma ProblemUrlIsServiceUrl(lib: UrlLib, s: string)
    requires ProblemFromUrl(lib, s).Some?
    ensures ServiceFromUrl(lib, s) == Some(AojService)
  {
  }

  /** A URL on another host is neither the service's nor a problem's. */
  lemma ForeignHostMatchesNothing(lib: UrlLib, s: string)
    requires lib.urlparse(s).netloc != Host
    ensures ServiceFromUrl(lib, s) == None && ProblemFromUrl(lib, s) == None
  {
  }

  /** Only scheme and network location decide the service match. */
  lemma ServiceIgnoresPathAndQuery(lib: UrlLib, s: string, t: string)
    requires lib.urlparse(s).scheme == lib.urlparse(t).scheme
    requires lib.urlparse(s).netloc == lib.urlparse(t).netloc
    ensures ServiceFromUrl(lib, s) == ServiceFromUrl(lib, t)
  {
  }

  /** Query keys other than `id` play no part in resolving a problem. */
  lemma ProblemIgnoresOtherKeys(lib: UrlLib, s: string, t: string)
    requires lib.urlparse(s).scheme == lib.urlparse(t).scheme
    requires lib.urlparse(s).netloc == lib.urlparse(t).netloc
    requires lib.normpath(lib.urlparse(s).path) == lib.normpath(lib.urlparse(t).path)
    requires ("id" in lib.parseQs(lib.urlparse(s).query)) == ("id" in lib.parseQs(lib.urlparse(t).query))
    requires "id" in lib.parseQs(lib.urlparse(s).query) ==>
      lib.parseQs(lib.urlparse(s).query)["id"] == lib.parseQs(lib.urlparse(t).query)["id"]
    ensures ProblemFromUrl(lib, s) == ProblemFromUrl(lib, t)
  {
  }

  /** A missing `id`, or an `id` given twice or more, resolves no problem. */
  lemma ProblemNeedsOneId(lib: UrlLib, s: string)
    requires var qs := lib.parseQs(lib.urlparse(s).query); "id" !in qs || |qs["id"]| >= 2
    ensures ProblemFromUrl(lib, s) == None
  {
  }

  /** The examples in `from_url`'s comments: `...description.jsp?id=1169`
      names problem "1169" and `...description.jsp?id=DSL_1_A&lang=jp`
      names problem "DSL_1_A", given what the library makes of them. */
  lemma DocumentedExamples(lib: UrlLib, s1: string, s2: string)
    requires lib.urlparse(s1) == ParsedUrl("http", Host, DescriptionPath, "id=1169")
    requires lib.urlparse(s2) == ParsedUrl("http", Host, DescriptionPath, "id=DSL_1_A&lang=jp")
    requires lib.normpath(DescriptionPath) == DescriptionPath
    requires lib.parseQs("id=1169") == map["id" := ["1169"]]
    requires lib.parseQs("id=DSL_1_A&lang=jp") == map["id" := ["DSL_1_A"], "lang" := ["jp"]]
    ensures ProblemFromUrl(lib, s1) == Some(Problem("1169"))
    ensures ProblemFromUrl(lib, s2) == Some(Problem("DSL_1_A"))
  {
  }

  const ProblemUrlPrefix := "http://judge.u-aizu.ac.jp/onlinejudge/description.jsp?id="

  /** Reads the identifier back from a canonical problem URL. */
  function CanonicalId(url: string): Option<string> {
    if ProblemUrlPrefix <= url then Some(url[|ProblemUrlPrefix|..]) else None
  }

  /** `AOJProblem.get_url`: the fixed description-page prefix followed by
      the identifier, so the identifier can be read back from it. */
  function GetUrl(p: Problem): (url: string)
    ensures CanonicalId(url) == Some(p.problemId)
  {
    ProblemUrlPrefix + p.problemId
  }

  /** Distinct problems have distinct canonical URLs, and each lies under
      the service's URL. */
  lemma GetUrlInjective(p: Problem, q: Problem)
    ensures GetUrl(p) == GetUrl(q) ==> p == q
    ensures ServiceUrl <= GetUrl(p)
  {
    assert CanonicalId(GetUrl(p)) == Some(p.problemId);
    assert CanonicalId(GetUrl(q)) == Some(q.problemId);
    assert GetUrl(p)[..|ServiceUrl|] == ServiceUrl;
  }

  // ---------------------------------------------------------------------
  // Requests to the judge's data server

  datatype Kind = In | Out

  function KindName(k: Kind): string {
    match k
    case In => "in"
    case Out => "out"
  }

  /** What the plugin asks the data server for: the sample set of the
      problem, or the input or output file of one system case. */
  datatype Request = Samples | CaseFile(index: nat, kind: Kind)

  const DataServer := "https://judgedat.u-aizu.ac.jp/testcases/"

  function RequestUrl(id: string, req: Request): string {
    match req
    case Samples => DataServer + "samples/" + id
    case CaseFile(i, k) => DataServer + id + "/" + NatToString(i) + "/" + KindName(k)
  }

  /** The tail "<digits>/<kind>" of a case URL determines case and kind. */
  lemma CaseTailInjective(i: nat, k: Kind, j: nat, l: Kind)
    requires NatToString(i) + "/" + KindName(k) == NatToString(j) + "/" + KindName(l)
    ensures i == j && k == l
  {
    var x := NatToString(i) + "/" + KindName(k);
    assert x[|x| - 1] == if k == In then 'n' else 't';
    assert x[|x| - 1] == if l == In then 'n' else 't';
    var tail := "/" + KindName(k);
    assert x == NatToString(i) + tail;
    assert x == NatToString(j) + tail;
    ConcatSuffixCancel(NatToString(i), NatToString(j), tail);
    NatToStringInjective(i, j);
  }

  /** Different case files of one problem have different URLs. */
  lemma CaseUrlInjective(id: string, i: nat, k: Kind, j: nat, l: Kind)
    requires RequestUrl(id, CaseFile(i, k)) == RequestUrl(id, CaseFile(j, l))
    ensures i == j && k == l
  {
    var pre := DataServer + id + "/";
    var x := NatToString(i) + "/" + KindName(k);
    var y := NatToString(j) + "/" + KindName(l);
    assert pre + NatToString(i) + "/" + KindName(k) == pre + x;
    assert pre + NatToString(j) + "/" + KindName(l) == pre + y;
    ConcatPrefixCancel(pre, x, y);
    CaseTailInjective(i, k, j, l);
  }

  // ---------------------------------------------------------------------
  // Sample cases

  /** One decoded record of the samples endpoint's JSON array. */
  datatype SampleRecord = SampleRecord(serial: int, input: string, output: string)

  /** One case per record, in the records' order; both labels are the
      record's serial as text, the contents its `in` and `out`. */
  ghost predicate SampleOutcome(records: seq<SampleRecord>, cases: seq<TestCase>) {
    && |cases| == |records|
    && forall k :: 0 <= k < |records| ==>
         && cases[k].input.name == IntToString(records[k].serial)
         && cases[k].output.name == IntToString(records[k].serial)
         && cases[k].input.data == records[k].input
         && cases[k].output.data == records[k].output
  }

  /** `AOJProblem.download_samples`: one request for the sample set, whose
      body `decode` turns into records (standing for `json.loads`), and
      one test case per record. */
  method DownloadSamples(p: Problem, fetch: string -> string, decode: string -> seq<SampleRecord>)
    returns (cases: seq<TestCase>, requested: seq<Request>)
    ensures requested == [Samples]
    ensures SampleOutcome(decode(fetch(RequestUrl(p.problemId, Samples))), cases)
  {
    var body := fetch(RequestUrl(p.problemId, Samples));
    requested := [Samples];
    var records := decode(body);
    cases := [];
    for k := 0 to |records|
      invariant SampleOutcome(records[..k], cases)
    {
      var serial := IntToString(records[k].serial);
      cases := cases + [TestCase(
        LabeledString(serial, records[k].input),
        LabeledString(serial, records[k].output))];
    }
    assert records[..|records|] == records;
  }

  /** The two labels of a sample case agree and give back its serial. */
  lemma SampleLabelsGiveSerial(records: seq<SampleRecord>, cases: seq<TestCase>, k: nat)
    requires SampleOutcome(records, cases)
    requires k < |cases|
    ensures cases[k].input.name == cases[k].output.name
    ensures IsIntString(cases[k].input.name) && ParseInt(cases[k].input.name) == records[k].serial
  {
    IntToStringRoundTrip(records[k].serial);
  }

  // ---------------------------------------------------------------------
  // System cases

  /** The text the data server sends in place of the case files when all
      cases of a problem live in one file. It is written in three pieces
      because Dafny's verifier does not see the characters of a string
      literal this long, and its first, fifth and last characters matter to
      PaddedSentinelEndsProbing and SentinelsDiffer. */
  const SingleFileSentinel := "/* This" + " is a single file for multiple testcases. serial should be 1." + " */"

  /** The text the data server sends for case `i` of problem `id` when
      there is no such case. */
  function NotAvailableSentinel(i: nat, id: string): string {
    "/* Test case #" + NatToString(i) + " for problem " + id + " is not available. */"
  }

  function InputText(p: Problem, fetch: string -> string, i: nat): string {
    fetch(RequestUrl(p.problemId, CaseFile(i, In)))
  }

  function OutputText(p: Problem, fetch: string -> string, i: nat): string {
    fetch(RequestUrl(p.problemId, CaseFile(i, Out)))
  }

  /** The input of case `i`, stripped, is one of the two sentinels. */
  predicate InputEndsProbing(p: Problem, fetch: string -> string, i: nat) {
    var t := Strip(InputText(p, fetch, i));
    t == SingleFileSentinel || t == NotAvailableSentinel(i, p.problemId)
  }

  /** The output of case `i`, stripped, is the single-file sentinel. */
  predicate OutputIsSingleFile(p: Problem, fetch: string -> string, i: nat) {
    Strip(OutputText(p, fetch, i)) == SingleFileSentinel
  }

  /** Case `i` is a real case: probing goes past it. */
  predicate CaseAccepted(p: Problem, fetch: string -> string, i: nat) {
    !InputEndsProbing(p, fetch, i) && !OutputIsSingleFile(p, fetch, i)
  }

  /** Probing reaches, at some index up to `bound`, an input sentinel or a
      single-file output. The source loop has no bound; this is what makes
      a run of it finite. */
  predicate ProbingEndsBy(p: Problem, fetch: string -> string, bound: nat) {
    exists k :: 1 <= k <= bound && !CaseAccepted(p, fetch, k)
  }

  /** Case `i`, labelled after its index. */
  function SystemCase(i: nat, inText: string, outText: string): TestCase {
    TestCase(
      LabeledString("in" + NatToString(i) + ".txt", inText),
      LabeledString("out" + NatToString(i) + ".txt", outText))
  }

  /** Cases 1..n in increasing order, with the fetched texts verbatim. */
  function SystemCases(p: Problem, fetch: string -> string, n: nat): (cases: seq<TestCase>)
    ensures |cases| == n
    ensures forall k :: 0 <= k < n ==>
      cases[k] == SystemCase(k + 1, InputText(p, fetch, k + 1), OutputText(p, fetch, k + 1))
  {
    if n == 0 then [] else
      SystemCases(p, fetch, n - 1) + [SystemCase(n, InputText(p, fetch, n), OutputText(p, fetch, n))]
  }

  /** The requests for cases 1..n, each input just before its output. */
  function ProbeLog(n: nat): (log: seq<Request>)
    ensures |log| == 2 * n
    ensures forall k :: 0 <= k < n ==> log[2 * k] == CaseFile(k + 1, In) && log[2 * k + 1] == CaseFile(k + 1, Out)
  {
    if n == 0 then [] else ProbeLog(n - 1) + [CaseFile(n, In), CaseFile(n, Out)]
  }

  /** The log of cases 1..n holds both files of each of those cases and
      nothing else. */
  lemma {:induction false} ProbeLogContents(n: nat, req: Request)
    ensures req in ProbeLog(n) <==> req.CaseFile? && 1 <= req.index <= n
  {
    if n > 0 {
      ProbeLogContents(n - 1, req);
      assert ProbeLog(n) == ProbeLog(n - 1) + [CaseFile(n, In), CaseFile(n, Out)];
      if req.CaseFile? && req.index == n {
        assert req == CaseFile(n, req.kind);
        assert req.kind == In || req.kind == Out;
      }
    }
  }

  /** `download_system` fails, through its assertion, at the case whose
      output is the single-file sentinel. */
  datatype DownloadError = AssertionFailed(index: nat)

  /** What a run of `download_system` produces and asks for. On success
      with n cases: cases 1..n are real, the input of case n+1 is a
      sentinel, the cases are cases 1..n, and the requests are both files
      of cases 1..n and then the input of case n+1. On failure at case k:
      cases 1..k-1 are real, the input of k is no sentinel, its output is
      the single-file sentinel, and the requests are both files of 1..k. */
  ghost predicate SystemOutcome(p: Problem, fetch: string -> string,
                                r: Result<seq<TestCase>, DownloadError>, log: seq<Request>) {
    match r
    case Success(cases) =>
      var n := |cases|;
      && (forall i :: 1 <= i <= n ==> CaseAccepted(p, fetch, i))
      && InputEndsProbing(p, fetch, n + 1)
      && cases == SystemCases(p, fetch, n)
      && log == ProbeLog(n) + [CaseFile(n + 1, In)]
    case Failure(e) =>
      var k := e.index;
      && 1 <= k
      && (forall i :: 1 <= i < k ==> CaseAccepted(p, fetch, i))
      && !InputEndsProbing(p, fetch, k) && OutputIsSingleFile(p, fetch, k)
      && log == ProbeLog(k)
  }

  /** What one round of the probing loop finds at a case. */
  datatype Probe = Sentinel | SingleFileOutput | Found(inText: string, outText: string)

  /** One round of `download_system`'s loop at case `i`: fetch the input;
      unless it is a sentinel, fetch the output and check it against the
      single-file text. */
  method ProbeCase(p: Problem, fetch: string -> string, i: nat) returns (probe: Probe, asked: seq<Request>)
    ensures probe.Sentinel? <==> InputEndsProbing(p, fetch, i)
    ensures probe.SingleFileOutput? <==> !InputEndsProbing(p, fetch, i) && OutputIsSingleFile(p, fetch, i)
    ensures probe.Found? ==> probe == Found(InputText(p, fetch, i), OutputText(p, fetch, i))
    ensures asked == if probe.Sentinel? then [CaseFile(i, In)] else [CaseFile(i, In), CaseFile(i, Out)]
  {
    var inText := fetch(RequestUrl(p.problemId, CaseFile(i, In)));
    asked := [CaseFile(i, In)];
    if Strip(inText) == SingleFileSentinel {
      return Sentinel, asked;
    }
    if Strip(inText) == NotAvailableSentinel(i, p.problemId) {
      return Sentinel, asked;
    }
    var outText := fetch(RequestUrl(p.problemId, CaseFile(i, Out)));
    asked := asked + [CaseFile(i, Out)];
    if Strip(outText) == SingleFileSentinel {
      return SingleFileOutput, asked;
    }
    return Found(inText, outText), asked;
  }

  /** `AOJProblem.download_system`: probe cases 1, 2, ... until an input
      is a sentinel, collecting each real case; fail at an output that is
      the single-file sentinel. `bound` only serves to show termination. */
  method DownloadSystem(p: Problem, fetch: string -> string, ghost bound: nat)
    returns (r: Result<seq<TestCase>, DownloadError>, requested: seq<Request>)
    requires ProbingEndsBy(p, fetch, bound)
    ensures SystemOutcome(p, fetch, r, requested)
  {
    ghost var last :| 1 <= last <= bound && !CaseAccepted(p, fetch, last);
    var testcases: seq<TestCase> := [];
    requested := [];
    var i: nat := 1;
    while true
      invariant 1 <= i <= last
      invariant forall j :: 1 <= j < i ==> CaseAccepted(p, fetch, j)
      invariant testcases == SystemCases(p, fetch, i - 1)
      invariant requested == ProbeLog(i - 1)
      decreases last - i
    {
      var probe, asked := ProbeCase(p, fetch, i);
      requested := requested + asked;
      if probe.Sentinel? {
        break;
      }
      if probe.SingleFileOutput? {
        return Failure(AssertionFailed(i)), requested;
      }
      assert CaseAccepted(p, fetch, i) && i < last;
      assert requested == ProbeLog(i - 1) + [CaseFile(i, In), CaseFile(i, Out)];
      forall j | 1 <= j < i + 1
        ensures CaseAccepted(p, fetch, j)
      {
      }
      testcases := testcases + [SystemCase(i, probe.inText, probe.outText)];
      i := i + 1;
    }
    r := Success(testcases);
  }

  /** The outcome of a run is fixed by the responses: two runs against the
      same server produce the same cases, or the same failure, after the
      same requests. */
  lemma SystemOutcomeUnique(p: Problem, fetch: string -> string,
                            r1: Result<seq<TestCase>, DownloadError>, log1: seq<Request>,
                            r2: Result<seq<TestCase>, DownloadError>, log2: seq<Request>)
    requires SystemOutcome(p, fetch, r1, log1)
    requires SystemOutcome(p, fetch, r2, log2)
    ensures r1 == r2 && log1 == log2
  {
    var e1 := EndIndex(r1);
    var e2 := EndIndex(r2);
    // each run went past every index below its own end index
    assert e1 < e2 ==> CaseAccepted(p, fetch, e1);
    assert e2 < e1 ==> CaseAccepted(p, fetch, e2);
  }

  /** The index at which a run stopped probing. */
  function EndIndex(r: Result<seq<TestCase>, DownloadError>): nat {
    match r
    case Success(cases) => |cases| + 1
    case Failure(e) => e.index
  }

  /** When cases 1..n are real and the input of n+1 is a sentinel, the run
      yields exactly cases 1..n, in order. */
  lemma OutcomeAtFirstSentinel(p: Problem, fetch: string -> string, n: nat,
                               r: Result<seq<TestCase>, DownloadError>, log: seq<Request>)
    requires forall i :: 1 <= i <= n ==> CaseAccepted(p, fetch, i)
    requires InputEndsProbing(p, fetch, n + 1)
    requires SystemOutcome(p, fetch, r, log)
    ensures r == Success(SystemCases(p, fetch, n))
    ensures log == ProbeLog(n) + [CaseFile(n + 1, In)]
  {
    var e := EndIndex(r);
    assert 1 <= e <= n ==> CaseAccepted(p, fetch, e);
    assert e > n + 1 ==> CaseAccepted(p, fetch, n + 1);
  }

  /** A sentinel at case 1 yields no cases and only one request. */
  lemma SentinelAtFirstCase(p: Problem, fetch: string -> string,
                            r: Result<seq<TestCase>, DownloadError>, log: seq<Request>)
    requires InputEndsProbing(p, fetch, 1)
    requires SystemOutcome(p, fetch, r, log)
    ensures r == Success([]) && log == [CaseFile(1, In)]
  {
    OutcomeAtFirstSentinel(p, fetch, 0, r, log);
  }

  /** Probing never goes past the case whose input is a sentinel, and that
      case's output is never asked for. */
  lemma ProbingStopsAtSentinel(p: Problem, fetch: string -> string,
                               r: Result<seq<TestCase>, DownloadError>, log: seq<Request>)
    requires SystemOutcome(p, fetch, r, log)
    ensures forall req :: req in log ==> req.CaseFile? && 1 <= req.index <= EndIndex(r)
    ensures r.Success? ==> CaseFile(EndIndex(r), Out) !in log
  {
    var n := if r.Success? then |r.value| else r.error.index;
    forall req | req in log
      ensures req.CaseFile? && 1 <= req.index <= EndIndex(r)
    {
      ProbeLogContents(n, req);
    }
    if r.Success? {
      ProbeLogContents(n, CaseFile(n + 1, Out));
    }
  }

  /** Two real cases followed by a sentinel input give exactly the
      cases labelled in1.txt/out1.txt and in2.txt/out2.txt, in that order. */
  lemma TwoCasesExample(p: Problem, fetch: string -> string,
                        r: Result<seq<TestCase>, DownloadError>, log: seq<Request>)
    requires forall i :: 1 <= i <= 2 ==> CaseAccepted(p, fetch, i)
    requires InputEndsProbing(p, fetch, 3)
    requires SystemOutcome(p, fetch, r, log)
    ensures r.Success? && |r.value| == 2
    ensures r.value[0].input.name == "in1.txt" && r.value[0].output.name == "out1.txt"
    ensures r.value[1].input.name == "in2.txt" && r.value[1].output.name == "out2.txt"
  {
    OutcomeAtFirstSentinel(p, fetch, 2, r, log);
    assert r.value[0] == SystemCase(1, InputText(p, fetch, 1), OutputText(p, fetch, 1));
    assert r.value[1] == SystemCase(2, InputText(p, fetch, 2), OutputText(p, fetch, 2));
    FirstTwoLabels(InputText(p, fetch, 1), OutputText(p, fetch, 1), InputText(p, fetch, 2), OutputText(p, fetch, 2));
  }

  lemma FirstTwoLabels(a: string, b: string, c: string, d: string)
    ensures SystemCase(1, a, b).input.name == "in1.txt" && SystemCase(1, a, b).output.name == "out1.txt"
    ensures SystemCase(2, c, d).input.name == "in2.txt" && SystemCase(2, c, d).output.name == "out2.txt"
  {
    assert NatToString(1) == "1";
    assert NatToString(2) == "2";
  }

  /** The sentinels are recognised when the server surrounds them with
      white space. */
  lemma PaddedSentinelEndsProbing(p: Problem, fetch: string -> string, i: nat, a: string, b: string)
    requires AllSpace(a) && AllSpace(b)
    requires InputText(p, fetch, i) == a + SingleFileSentinel + b
          || InputText(p, fetch, i) == a + NotAvailableSentinel(i, p.problemId) + b
    ensures InputEndsProbing(p, fetch, i)
  {
    assert !IsSpace('/');
    if InputText(p, fetch, i) == a + SingleFileSentinel + b {
      assert SingleFileSentinel[0] == '/' && SingleFileSentinel[|SingleFileSentinel| - 1] == '/';
      StripPadded(a, SingleFileSentinel, b);
    } else {
      var t := NotAvailableSentinel(i, p.problemId);
      assert t[0] == '/' && t[|t| - 1] == '/';
      StripPadded(a, t, b);
    }
  }

  /** The two sentinels never coincide. */
  lemma SentinelsDiffer(i: nat, id: string)
    ensures NotAvailableSentinel(i, id) != SingleFileSentinel
  {
    assert NotAvailableSentinel(i, id)[4] == 'e';
    assert SingleFileSentinel[4] == 'h';
  }

  /** The "not available" sentinel names its case: the text for case j
      does not end probing at case i != j. */
  lemma NotAvailableSentinelNamesCase(i: nat, j: nat, id: string)
    ensures NotAvailableSentinel(i, id) == NotAvailableSentinel(j, id) ==> i == j
  {
    if NotAvailableSentinel(i, id) == NotAvailableSentinel(j, id) {
      var head := "/* Test case #";
      var rest := " for problem " + id + " is not available. */";
      assert NotAvailableSentinel(i, id) == head + (NatToString(i) + rest);
      assert NotAvailableSentinel(j, id) == head + (NatToString(j) + rest);
      ConcatPrefixCancel(head, NatToString(i) + rest, NatToString(j) + rest);
      DigitsBeforeNonDigit(NatToString(i), rest, NatToString(j), rest);
      NatToStringInjective(i, j);
    }
  }

  /** The labels of a system case name its index: cases with the same
      input label, or the same output label, are the same case. */
  lemma SystemLabelsDistinct(i: nat, j: nat, a: string, b: string, c: string, d: string)
    ensures SystemCase(i, a, b).input.name == SystemCase(j, c, d).input.name ==> i == j
    ensures SystemCase(i, a, b).output.name == SystemCase(j, c, d).output.name ==> i == j
  {
    var di, dj := NatToString(i), NatToString(j);
    if SystemCase(i, a, b).input.name == SystemCase(j, c, d).input.name {
      assert SystemCase(i, a, b).input.name == "in" + (di + ".txt");
      assert SystemCase(j, c, d).input.name == "in" + (dj + ".txt");
      ConcatPrefixCancel("in", di + ".txt", dj + ".txt");
      DigitsBeforeNonDigit(di, ".txt", dj, ".txt");
      NatToStringInjective(i, j);
    }
    if SystemCase(i, a, b).output.name == SystemCase(j, c, d).output.name {
      assert SystemCase(i, a, b).output.name == "out" + (di + ".txt");
      assert SystemCase(j, c, d).output.name == "out" + (dj + ".txt");
      ConcatPrefixCancel("out", di + ".txt", dj + ".txt");
      DigitsBeforeNonDigit(di, ".txt", dj, ".txt");
      NatToStringInjective(i, j);
    }
  }

  // ---------------------------------------------------------------------
  // Dispatch

  /** `AOJProblem.download`: the system cases when `isSystem` holds, the
      sample cases otherwise. */
  method Download(p: Problem, fetch: string -> string, decode: string -> seq<SampleRecord>,
                  isSystem: bool, ghost bound: nat)
    returns (r: Result<seq<TestCase>, DownloadError>, requested: seq<Request>)
    requires isSystem ==> ProbingEndsBy(p, fetch, bound)
    ensures isSystem ==> SystemOutcome(p, fetch, r, requested)
    ensures !isSystem ==>
      && r.Success?
      && SampleOutcome(decode(fetch(RequestUrl(p.problemId, Samples))), r.value)
      && requested == [Samples]
  {
    if isSystem {
      r, requested := DownloadSystem(p, fetch, bound);
    } else {
      var cases;
      cases, requested := DownloadSamples(p, fetch, decode);
      r := Success(cases);
    }
  }
}
