/** The deduplicating, fallback-chained search path (internal/controller/qdrant.go):
    a soft throttle drops a query repeated within 5 s, a remote search service is
    tried next, and any failure of it falls back to a keyword scan of a local
    corpus. */
module Qdrant {

  import opened Wrappers
  import opened Proto
  import opened Text

  /** Times are nanoseconds; the throttle window is 5 s. */
  const ThrottleWindow: int := 5_000_000_000

  const ThrottledContext: string := "THROTTLED: Redundant semantic search detected."
  const GroundedContext: string := "Grounded in local Qdrant service."
  const FallbackContext: string := "Grounded via Local Grep Fallback (Qdrant Offline)."
  const ServiceUrl: string := "http://127.0.0.1:5000/search"
  const DefaultKeyword: string := "mesh"
  const CorpusSource: string := "Research Corpus"
  const MatchScore: real := 0.5
  const MaxFallbackResults: nat := 3
  /** The single result reported when no line of the scan qualifies. */
  const NoMatchResult: SearchResult :=
    SearchResult("Operational Fallback", "No direct keyword matches in local cache. Escalating to base reasoning.", 0.3)

  /** `query` was last seen at a time less than `window` before `now`. */
  predicate SeenRecently(recent: map<string, int>, window: int, query: string, now: int)
  {
    query in recent && now - recent[query] < window
  }

  /** The throttle's decision and new state for one query at time `now`: a query
      seen recently is not novel and nothing is recorded (the old time stays);
      any other query is novel and only its own time becomes `now`. */
  function Observe(recent: map<string, int>, window: int, query: string, now: int): (r: (bool, map<string, int>))
    ensures r.0 <==> !SeenRecently(recent, window, query, now)
    ensures !r.0 ==> r.1 == recent
    ensures r.0 ==> query in r.1 && r.1[query] == now && r.1.Keys == recent.Keys + {query}
    ensures forall q :: q != query && q in recent ==> q in r.1 && r.1[q] == recent[q]
  {
    if SeenRecently(recent, window, query, now) then (false, recent)
    else (true, recent[query := now])
  }

  /** A first query is novel, its repeat inside the window is not, and once the
      window has passed since the first (recorded) time it is novel again, even
      though it was asked in between: a hit does not refresh the time. */
  lemma ThrottleLifecycle(recent: map<string, int>, query: string, t0: int, t1: int, t2: int)
    requires query !in recent
    requires t0 <= t1 < t0 + ThrottleWindow <= t2
    ensures var (n0, m0) := Observe(recent, ThrottleWindow, query, t0);
            var (n1, m1) := Observe(m0, ThrottleWindow, query, t1);
            var (n2, m2) := Observe(m1, ThrottleWindow, query, t2);
            n0 && !n1 && n2 && m1 == m0 && m2 == recent[query := t2]
  {
  }

  class SoftThrottle {
    /** The last time each distinct query was let through; never evicted. */
    var recentSearches: map<string, int>
    const window: int

    constructor ()
      ensures recentSearches == map[] && window == ThrottleWindow
    {
      recentSearches := map[];
      window := ThrottleWindow;
    }

    /** SoftThrottle.IsNovel at time `now`. */
    method IsNovel(query: string, now: int) returns (novel: bool)
      modifies this`recentSearches
      ensures (novel, recentSearches) == Observe(old(recentSearches), window, query, now)
    {
      if query in recentSearches && now - recentSearches[query] < window {
        return false;
      }
      recentSearches := recentSearches[query := now];
      return true;
    }
  }

  /** What came back from the remote search service. */
  datatype RemoteBody = ReadFailed | Malformed | Decoded(results: seq<SearchResult>)
  datatype RemoteOutcome = TransportFailed | Responded(statusCode: int, body: RemoteBody)

  /** Only a 200 whose body was read and decoded counts as success. */
  predicate RemoteSucceeded(o: RemoteOutcome)
  {
    o.Responded? && o.statusCode == 200 && o.body.Decoded?
  }

  /** The keyword of the local scan: the first whitespace-separated word of the
      query, or "mesh" when the query has none. */
  function FallbackKeyword(query: string): string
  {
    match FirstField(query)
    case None => DefaultKeyword
    case Some(w) => w
  }

  /** The keyword is "mesh" for an all-space query, and otherwise the query's
      first word: non-empty, free of white space, preceded only by white space. */
  lemma FallbackKeywordChoice(query: string)
    ensures AllSpace(query) ==> FallbackKeyword(query) == DefaultKeyword
    ensures !AllSpace(query) ==>
              var k := FallbackKeyword(query);
              k != [] && (forall j :: 0 <= j < |k| ==> !IsSpace(k[j])) && exists i :: FieldAt(query, k, i)
  {
    FirstFieldFinds(query);
  }

  /** One matching line: before the first ':' is the source (grep prints the
      file name there) and the rest is the content; a line without ':' is all
      content from the research corpus. Content is trimmed; the score is 0.5. */
  function ParseLine(line: string): (r: SearchResult)
    ensures r.score == MatchScore
  {
    match SplitFirst(line, ':')
    case Unsplit => SearchResult(CorpusSource, TrimSpace(line), MatchScore)
    case Halves(source, content) => SearchResult(source, TrimSpace(content), MatchScore)
  }

  /** How ParseLine splits a line: at its first ':' when it has one. */
  lemma ParseLineSplits(line: string)
    ensures ':' !in line ==> ParseLine(line) == SearchResult(CorpusSource, TrimSpace(line), MatchScore)
    ensures ':' in line ==>
              var r := ParseLine(line);
              ':' !in r.source && exists rest :: line == r.source + [':'] + rest && r.content == TrimSpace(rest)
  {
    SplitFirstCuts(line, ':');
  }

  /** A line of white space only is not skipped: it is kept as a result from
      the research corpus with empty content. */
  lemma BlankLineKept(line: string)
    requires AllSpace(line)
    ensures ParseLine(line) == SearchResult(CorpusSource, "", MatchScore)
  {
    assert ':' !in line by {
      assert !IsSpace(':');
    }
    SplitFirstCuts(line, ':');
    TrimSpaceOfAllSpace(line);
  }

  /** What `f` makes of the non-empty lines, in order. The scan is stated for
      any `f` so that its lemmas never unfold ParseLine. */
  function Collect<T>(lines: seq<string>, f: string -> T): (m: seq<T>)
    ensures |m| <= |lines|
  {
    if lines == [] then []
    else
      var last := lines[|lines| - 1];
      var m := Collect(lines[..|lines| - 1], f);
      if last == "" then m else m + [f(last)]
  }

  /** There are no results exactly when every line is empty. */
  lemma {:induction false} CollectEmpty<T>(lines: seq<string>, f: string -> T)
    ensures Collect(lines, f) == [] <==> forall k :: 0 <= k < |lines| ==> lines[k] == ""
  {
    if lines != [] {
      var init := lines[..|lines| - 1];
      CollectEmpty(init, f);
      assert forall j :: 0 <= j < |init| ==> lines[j] == init[j];
    }
  }

  /** Every result comes from a non-empty line. */
  lemma {:induction false} CollectFromLines<T>(lines: seq<string>, f: string -> T, k: nat)
    requires k < |Collect(lines, f)|
    ensures exists line :: line in lines && line != "" && Collect(lines, f)[k] == f(line)
  {
    var init := lines[..|lines| - 1];
    var last := lines[|lines| - 1];
    if k < |Collect(init, f)| {
      CollectFromLines(init, f, k);
      var line :| line in init && line != "" && Collect(init, f)[k] == f(line);
      assert line in lines;
    } else {
      assert last in lines;
    }
  }

  /** One more line adds its result when it is not empty. */
  lemma {:induction false} CollectStep<T>(lines: seq<string>, f: string -> T, i: nat)
    requires i < |lines|
    ensures Collect(lines[..i + 1], f) == Collect(lines[..i], f) + (if lines[i] == "" then [] else [f(lines[i])])
  {
    assert lines[..i + 1][..i] == lines[..i];
  }

  /** The results of a prefix of the lines open the results of all of them. */
  lemma {:induction false} CollectPrefix<T>(a: seq<string>, b: seq<string>, f: string -> T)
    ensures Collect(a, f) <= Collect(a + b, f)
    decreases |b|
  {
    if b == [] {
      assert a + b == a;
    } else {
      var b' := b[..|b| - 1];
      assert (a + b)[..|a + b| - 1] == a + b';
      CollectPrefix(a, b', f);
    }
  }

  /** The first `n` elements of `m`, or all of them when there are fewer. */
  function FirstAtMost<T>(m: seq<T>, n: nat): (r: seq<T>)
    ensures |r| == if |m| <= n then |m| else n
    ensures r <= m
  {
    if |m| <= n then m else m[..n]
  }

  /** Once a scan that stops at `n` results has stopped, at the end of the
      lines or with `n` results, it holds the first `n` results of all lines. */
  lemma {:induction false} ScanStop<T>(lines: seq<string>, f: string -> T, n: nat, i: nat)
    requires i <= |lines| && |Collect(lines[..i], f)| <= n
    requires i == |lines| || |Collect(lines[..i], f)| == n
    ensures Collect(lines[..i], f) == FirstAtMost(Collect(lines, f), n)
  {
    CollectPrefix(lines[..i], lines[i..], f);
    assert lines[..i] + lines[i..] == lines;
    if i == |lines| {
      assert lines[..i] == lines;
    } else {
      var p, m := Collect(lines[..i], f), Collect(lines, f);
      assert m[..n] == p;
    }
  }

  /** Each kept result is what `f` makes of some non-empty line. */
  lemma KeptFromLines<T>(lines: seq<string>, f: string -> T, n: nat)
    ensures forall k :: 0 <= k < |FirstAtMost(Collect(lines, f), n)| ==>
              exists line :: line in lines && line != "" && FirstAtMost(Collect(lines, f), n)[k] == f(line)
  {
    var m := Collect(lines, f);
    var r := FirstAtMost(m, n);
    forall k | 0 <= k < |r|
      ensures exists line :: line in lines && line != "" && r[k] == f(line)
    {
      assert r[k] == m[k];
      CollectFromLines(lines, f, k);
      var line :| line in lines && line != "" && m[k] == f(line);
      assert r[k] == f(line);
    }
  }

  /** What the fallback keeps of the output's lines: the first three line
      results, or the single no-match result when every line is empty. */
  function KeptResults(lines: seq<string>): (rs: seq<SearchResult>)
    ensures 1 <= |rs| <= MaxFallbackResults
  {
    var m := Collect(lines, ParseLine);
    if m == [] then [NoMatchResult] else FirstAtMost(m, MaxFallbackResults)
  }

  /** The results of the fallback for a given scan output. */
  function FallbackResults(out: string): (rs: seq<SearchResult>)
    ensures 1 <= |rs| <= MaxFallbackResults
  {
    KeptResults(Split(out, '\n'))
  }

  /** Every kept result comes from a non-empty line. */
  lemma KeptResultsFromLines(lines: seq<string>)
    ensures KeptResults(lines) != [NoMatchResult] ==>
              forall k :: 0 <= k < |KeptResults(lines)| ==>
                exists line :: line in lines && line != "" && KeptResults(lines)[k] == ParseLine(line)
  {
    KeptFromLines(lines, ParseLine, MaxFallbackResults);
  }

  /** Line results score 0.5, so they never look like the no-match result. */
  lemma KeptResultsScores(lines: seq<string>)
    ensures KeptResults(lines) != [NoMatchResult] ==>
              forall k :: 0 <= k < |KeptResults(lines)| ==> KeptResults(lines)[k].score == MatchScore
  {
    var rs := KeptResults(lines);
    if rs != [NoMatchResult] {
      KeptResultsFromLines(lines);
      forall k | 0 <= k < |rs|
        ensures rs[k].score == MatchScore
      {
        var line :| line in lines && line != "" && rs[k] == ParseLine(line);
      }
    }
  }

  /** The fallback reports no match exactly when every line is empty. */
  lemma KeptResultsNoMatch(lines: seq<string>)
    ensures KeptResults(lines) == [NoMatchResult] <==> forall k :: 0 <= k < |lines| ==> lines[k] == ""
  {
    var m := Collect(lines, ParseLine);
    CollectEmpty(lines, ParseLine);
    if m != [] {
      CollectFromLines(lines, ParseLine, 0);
      assert KeptResults(lines)[0].score == MatchScore;
    }
  }

  /** Empty scan output gives the single no-match result. */
  lemma FallbackOnEmptyOutput()
    ensures FallbackResults("") == [NoMatchResult]
  {
    assert Split("", '\n') == [""];
  }

  /** The loop of performGrepFallback: what `parse` makes of each non-empty
      line, in order, stopping once `limit` results are found. */
  method ScanLines<T>(lines: seq<string>, parse: string -> T, limit: nat) returns (results: seq<T>)
    ensures results == FirstAtMost(Collect(lines, parse), limit)
  {
    results := [];
    var i := 0;
    while i < |lines| && |results| < limit
      invariant 0 <= i <= |lines|
      invariant results == Collect(lines[..i], parse)
      invariant |results| <= limit
    {
      var line := lines[i];
      CollectStep(lines, parse, i);
      if line != "" {
        results := results + [parse(line)];
      }
      i := i + 1;
    }
    ScanStop(lines, parse, limit, i);
  }

  class QdrantController {
    const throttle: SoftThrottle
    const serviceUrl: string

    constructor ()
      ensures fresh(throttle) && throttle.recentSearches == map[] && throttle.window == ThrottleWindow
      ensures serviceUrl == ServiceUrl
    {
      throttle := new SoftThrottle();
      serviceUrl := ServiceUrl;
    }

    /** QdrantController.performGrepFallback, with the scan `grep -ri -m 5
        <keyword> <corpus>` as a function from keyword to output. */
    method PerformGrepFallback(query: string, grep: string -> string) returns (resp: SearchResponse)
      ensures resp == SearchResponse(FallbackResults(grep(FallbackKeyword(query))), FallbackContext)
    {
      var out := grep(FallbackKeyword(query));
      var lines := Split(out, '\n');
      var results := ScanLines(lines, ParseLine, MaxFallbackResults);
      if |results| == 0 {
        results := results + [NoMatchResult];
      }
      return SearchResponse(results, FallbackContext);
    }

    /** QdrantController.Search at time `now`. The remote call's outcome and the
        local scan are parameters. A query the throttle rejects returns the
        throttled sentinel with no results and consults nothing else; a remote
        success is passed through unchanged; any remote failure (transport,
        status, body read, decoding) gives the local fallback. */
    method Search(req: SearchRequest, now: int, remote: RemoteOutcome, grep: string -> string)
      returns (resp: SearchResponse)
      modifies throttle
      ensures throttle.recentSearches == Observe(old(throttle.recentSearches), throttle.window, req.query, now).1
      ensures SeenRecently(old(throttle.recentSearches), throttle.window, req.query, now) ==>
                resp == SearchResponse([], ThrottledContext)
      ensures !SeenRecently(old(throttle.recentSearches), throttle.window, req.query, now) && RemoteSucceeded(remote) ==>
                resp == SearchResponse(remote.body.results, GroundedContext)
      ensures !SeenRecently(old(throttle.recentSearches), throttle.window, req.query, now) && !RemoteSucceeded(remote) ==>
                resp == SearchResponse(FallbackResults(grep(FallbackKeyword(req.query))), FallbackContext)
    {
      var novel := throttle.IsNovel(req.query, now);
      if !novel {
        return SearchResponse([], ThrottledContext);
      }
      match remote {
        case TransportFailed =>
          resp := PerformGrepFallback(req.query, grep);
        case Responded(status, body) =>
          if status != 200 {
            resp := PerformGrepFallback(req.query, grep);
          } else {
            match body {
              case ReadFailed =>
                resp := PerformGrepFallback(req.query, grep);
              case Malformed =>
                resp := PerformGrepFallback(req.query, grep);
              case Decoded(results) =>
                var passed: seq<SearchResult> := [];
                for i := 0 to |results|
                  invariant passed == results[..i]
                {
                  passed := passed + [SearchResult(results[i].source, results[i].content, results[i].score)];
                }
                assert results[..|results|] == results;
                resp := SearchResponse(passed, GroundedContext);
            }
          }
      }
    }
  }
}
