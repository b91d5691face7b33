/**
 * The main block of daily-report-bt.py: walk the loaded posts in order, classify
 * each one that carries a text, a reporter and a link, collect the summaries,
 * and print them (or say that there are none).
 */
module DailyReport {
  import opened Wrappers
  import opened PotholeClassifier

  /** One loaded post: the JSON object as a map from keys to string values. */
  type Post = map<string, string>

  /** The remote model, as a function from the post's text to what the call delivers. */
  type Remote = string -> Outcome

  /**
   * What `analyze_post_for_pothole(text, reporter, link)` hands back: the summary
   * or `None`, with the diagnostic lines it printed on the way.
   */
  type Classifier = (string, string, string) -> (Option<string>, seq<string>)

  /**
   * The classifier of the script, `analyze_post_for_pothole`: call the remote
   * model on the text, then decide. A failed call yields no summary and prints
   * one diagnostic; a successful call prints nothing, and any summary starts
   * with `Reporter: `.
   */
  function PotholeAnalyzer(remote: Remote): (analyze: Classifier)
    ensures forall text, reporter, link :: remote(text).Failure? ==>
              analyze(text, reporter, link).0 == None && |analyze(text, reporter, link).1| == 1
    ensures forall text, reporter, link :: remote(text).Success? ==> analyze(text, reporter, link).1 == []
    ensures forall text, reporter, link :: analyze(text, reporter, link).0.Some? ==>
              var v := analyze(text, reporter, link).0.value; |v| >= 10 && v[..10] == "Reporter: "
  {
    (text: string, reporter: string, link: string) =>
      (Classify(remote(text), reporter, link), ErrorLog(remote(text)))
  }

  /** One printed line. */
  datatype Line =
    | Say(text: string)         // a line of fixed or computed text
    | SkippedPost(post: Post)   // "Warning: Skipping a post due to missing data: " followed by the post

  const NoPostsMessage: string := "No posts loaded. Exiting."
  const HeaderMessage: string := "--- Pothole Report Summary ---"
  const NoReportsMessage: string := "No pothole reports " + "found in the provided posts."

  // Written as two literals: the verifier cannot look up the first characters of
  // a single literal this long, and `NoReportsMessageIff` needs the first one.

  /** The post carries all three keys the classifier needs. */
  predicate HasRequiredKeys(post: Post) {
    "text" in post && "reporter" in post && "link" in post
  }

  /** The arguments the loop hands to the classifier for a post with the three keys. */
  function Arguments(post: Post): (string, string, string)
    requires HasRequiredKeys(post)
  {
    (post["text"], post["reporter"], post["link"])
  }

  /** Python's truth value of the classifier's answer: `None` and `""` are both false. */
  predicate Truthy(summary: Option<string>) {
    summary.Some? && summary.value != ""
  }

  /** The report a post contributes: its summary, when it has the keys and the summary is truthy. */
  function Contribution(post: Post, classify: Classifier): seq<string> {
    if HasRequiredKeys(post) then
      var a := Arguments(post);
      var summary := classify(a.0, a.1, a.2).0;
      if Truthy(summary) then [summary.value] else []
    else
      []
  }

  /** The classifier calls the loop makes, in order: one per post with the three keys. */
  function ExpectedCalls(posts: seq<Post>): seq<(string, string, string)> {
    if posts == [] then []
    else
      var last := posts[|posts| - 1];
      ExpectedCalls(posts[..|posts| - 1]) + (if HasRequiredKeys(last) then [Arguments(last)] else [])
  }

  /** The summaries the loop collects, in the order of the posts they came from. */
  function ExpectedReports(posts: seq<Post>, classify: Classifier): seq<string> {
    if posts == [] then []
    else ExpectedReports(posts[..|posts| - 1], classify) + Contribution(posts[|posts| - 1], classify)
  }

  /** Lines of text as printed lines. */
  function SayAll(texts: seq<string>): (lines: seq<Line>)
    ensures |lines| == |texts| && forall k :: 0 <= k < |texts| ==> lines[k] == Say(texts[k])
  {
    if texts == [] then [] else SayAll(texts[..|texts| - 1]) + [Say(texts[|texts| - 1])]
  }

  /** The diagnostics printed while one post is handled. */
  function PostLog(post: Post, classify: Classifier): seq<Line> {
    if HasRequiredKeys(post) then
      var a := Arguments(post);
      SayAll(classify(a.0, a.1, a.2).1)
    else
      [SkippedPost(post)]
  }

  /** The diagnostics printed while the loop runs, post after post. */
  function LoopLog(posts: seq<Post>, classify: Classifier): seq<Line> {
    if posts == [] then [] else LoopLog(posts[..|posts| - 1], classify) + PostLog(posts[|posts| - 1], classify)
  }

  /** The report lines printed after the loop, one per collected summary. */
  function ReportLines(reports: seq<string>): (lines: seq<Line>)
    ensures |lines| == |reports| && forall k :: 0 <= k < |reports| ==> lines[k] == Say("- " + reports[k])
  {
    if reports == [] then [] else ReportLines(reports[..|reports| - 1]) + [Say("- " + reports[|reports| - 1])]
  }

  /** The closing part of the output: one line per report, or the "none found" message. */
  function Closing(reports: seq<string>): (lines: seq<Line>)
    ensures reports == [] ==> lines == [Say(NoReportsMessage)]
    ensures reports != [] ==> |lines| == |reports| && forall k :: 0 <= k < |reports| ==> lines[k] == Say("- " + reports[k])
  {
    if reports == [] then [Say(NoReportsMessage)] else ReportLines(reports)
  }

  /**
   * The body of the loop for one post: a post with the three keys is classified
   * and its summary kept when truthy; any other post is reported as skipped.
   */
  method HandlePost(post: Post, classify: Classifier)
    returns (report: seq<string>, call: seq<(string, string, string)>, log: seq<Line>)
    ensures report == Contribution(post, classify)
    ensures call == (if HasRequiredKeys(post) then [Arguments(post)] else [])
    ensures log == PostLog(post, classify)
  {
    if "text" in post && "reporter" in post && "link" in post {
      call := [(post["text"], post["reporter"], post["link"])];
      var (summary, printed) := classify(post["text"], post["reporter"], post["link"]);
      log := SayAll(printed);
      if summary.Some? && summary.value != "" {
        report := [summary.value];
      } else {
        report := [];
      }
    } else {
      report, call, log := [], [], [SkippedPost(post)];
    }
  }

  /**
   * The loop over the loaded posts: each post is handled in turn and what it
   * contributes is appended, so the reports come out in the order of the posts.
   */
  method CollectReports(posts: seq<Post>, classify: Classifier)
    returns (reports: seq<string>, calls: seq<(string, string, string)>, log: seq<Line>)
    ensures reports == ExpectedReports(posts, classify)
    ensures calls == ExpectedCalls(posts)
    ensures log == LoopLog(posts, classify)
  {
    reports, calls, log := [], [], [];
    var i := 0;
    while i < |posts|
      invariant 0 <= i <= |posts|
      invariant reports == ExpectedReports(posts[..i], classify)
      invariant calls == ExpectedCalls(posts[..i])
      invariant log == LoopLog(posts[..i], classify)
    {
      var report, call, printed := HandlePost(posts[i], classify);
      Step(posts, i, classify);
      reports, calls, log := reports + report, calls + call, log + printed;
      i := i + 1;
    }
    assert posts[..i] == posts;
  }

  /** The closing loop: one "- " line per collected summary, or the "none found" message. */
  method PrintReports(reports: seq<string>) returns (lines: seq<Line>)
    ensures lines == Closing(reports)
  {
    if reports == [] {
      return [Say(NoReportsMessage)];
    }
    lines := [];
    var j := 0;
    while j < |reports|
      invariant 0 <= j <= |reports|
      invariant lines == ReportLines(reports[..j])
    {
      assert reports[..j + 1][..j] == reports[..j];
      lines := lines + [Say("- " + reports[j])];
      j := j + 1;
    }
    assert reports[..j] == reports;
  }

  /**
   * The main block. An empty load prints one message and calls the classifier
   * on nothing. Otherwise the header is printed, the posts are walked, and the
   * collected summaries are printed, or the "none found" message when there are
   * none.
   */
  method Run(posts: seq<Post>, classify: Classifier)
    returns (reports: seq<string>, calls: seq<(string, string, string)>, out: seq<Line>)
    ensures posts == [] ==> reports == [] && calls == [] && out == [Say(NoPostsMessage)]
    ensures posts != [] ==> reports == ExpectedReports(posts, classify) && calls == ExpectedCalls(posts)
    ensures posts != [] ==> out == [Say(HeaderMessage)] + LoopLog(posts, classify) + Closing(reports)
  {
    if posts == [] {
      return [], [], [Say(NoPostsMessage)];
    }
    var log, closing;
    reports, calls, log := CollectReports(posts, classify);
    closing := PrintReports(reports);
    out := [Say(HeaderMessage)] + log + closing;
  }

  /** One more post extends each specification by that post's share. */
  lemma Step(posts: seq<Post>, i: nat, classify: Classifier)
    requires i < |posts|
    ensures ExpectedReports(posts[..i + 1], classify) == ExpectedReports(posts[..i], classify) + Contribution(posts[i], classify)
    ensures ExpectedCalls(posts[..i + 1]) == ExpectedCalls(posts[..i]) + (if HasRequiredKeys(posts[i]) then [Arguments(posts[i])] else [])
    ensures LoopLog(posts[..i + 1], classify) == LoopLog(posts[..i], classify) + PostLog(posts[i], classify)
  {
    assert posts[..i + 1][..i] == posts[..i];
  }

  /** A single post's share of the specifications. */
  lemma OfOne(p: Post, classify: Classifier)
    ensures ExpectedReports([p], classify) == Contribution(p, classify)
    ensures ExpectedCalls([p]) == if HasRequiredKeys(p) then [Arguments(p)] else []
  {
    assert [p][..0] == [];
  }

  /** Collecting over two runs of posts is collecting over each in turn: order is kept. */
  lemma {:induction false} ReportsAppend(a: seq<Post>, b: seq<Post>, classify: Classifier)
    ensures ExpectedReports(a + b, classify) == ExpectedReports(a, classify) + ExpectedReports(b, classify)
    decreases |b|
  {
    if b == [] {
      assert a + b == a;
    } else {
      var n := |b| - 1;
      assert (a + b)[..|a + b| - 1] == a + b[..n];
      assert (a + b)[|a + b| - 1] == b[n];
      ReportsAppend(a, b[..n], classify);
    }
  }

  /** The calls made over two runs of posts are those over the first, then those over the second. */
  lemma {:induction false} CallsAppend(a: seq<Post>, b: seq<Post>)
    ensures ExpectedCalls(a + b) == ExpectedCalls(a) + ExpectedCalls(b)
    decreases |b|
  {
    if b == [] {
      assert a + b == a;
    } else {
      var n := |b| - 1;
      assert (a + b)[..|a + b| - 1] == a + b[..n];
      assert (a + b)[|a + b| - 1] == b[n];
      CallsAppend(a, b[..n]);
    }
  }

  /** A post placed between two runs of posts adds exactly its own share. */
  lemma InsertOne(a: seq<Post>, p: Post, b: seq<Post>, classify: Classifier)
    ensures ExpectedReports(a + [p] + b, classify)
         == ExpectedReports(a, classify) + Contribution(p, classify) + ExpectedReports(b, classify)
    ensures ExpectedCalls(a + [p] + b)
         == ExpectedCalls(a) + (if HasRequiredKeys(p) then [Arguments(p)] else []) + ExpectedCalls(b)
  {
    ReportsAppend(a, [p], classify);
    ReportsAppend(a + [p], b, classify);
    CallsAppend(a, [p]);
    CallsAppend(a + [p], b);
    OfOne(p, classify);
  }

  /**
   * A post without the three keys changes nothing: neither the calls made nor
   * the reports collected, wherever it stands in the sequence.
   */
  lemma SkippedPostIgnored(a: seq<Post>, p: Post, b: seq<Post>, classify: Classifier)
    requires !HasRequiredKeys(p)
    ensures ExpectedReports(a + [p] + b, classify) == ExpectedReports(a + b, classify)
    ensures ExpectedCalls(a + [p] + b) == ExpectedCalls(a + b)
  {
    InsertOne(a, p, b, classify);
    ReportsAppend(a, b, classify);
    CallsAppend(a, b);
    assert ExpectedReports(a, classify) + [] + ExpectedReports(b, classify)
        == ExpectedReports(a, classify) + ExpectedReports(b, classify);
    assert ExpectedCalls(a) + [] + ExpectedCalls(b) == ExpectedCalls(a) + ExpectedCalls(b);
  }

  /** A post whose classification is `None` adds no report, though the classifier was called on it. */
  lemma NoneVerdictIgnored(a: seq<Post>, p: Post, b: seq<Post>, classify: Classifier)
    requires HasRequiredKeys(p) && classify(p["text"], p["reporter"], p["link"]).0 == None
    ensures ExpectedReports(a + [p] + b, classify) == ExpectedReports(a + b, classify)
    ensures ExpectedCalls(a + [p] + b) == ExpectedCalls(a) + [Arguments(p)] + ExpectedCalls(b)
  {
    InsertOne(a, p, b, classify);
    ReportsAppend(a, b, classify);
    assert ExpectedReports(a, classify) + [] + ExpectedReports(b, classify)
        == ExpectedReports(a, classify) + ExpectedReports(b, classify);
  }

  /** The classifier is only ever called on the arguments of a post that has all three keys. */
  lemma {:induction false} CallsComeFromPosts(posts: seq<Post>)
    ensures forall c :: c in ExpectedCalls(posts) ==>
              exists k :: 0 <= k < |posts| && HasRequiredKeys(posts[k]) && Arguments(posts[k]) == c
  {
    if posts != [] {
      var n := |posts| - 1;
      CallsComeFromPosts(posts[..n]);
      forall c | c in ExpectedCalls(posts)
        ensures exists k :: 0 <= k < |posts| && HasRequiredKeys(posts[k]) && Arguments(posts[k]) == c
      {
        if c in ExpectedCalls(posts[..n]) {
          var k :| 0 <= k < n && HasRequiredKeys(posts[..n][k]) && Arguments(posts[..n][k]) == c;
          assert posts[..n][k] == posts[k];
        } else {
          assert HasRequiredKeys(posts[n]) && Arguments(posts[n]) == c;
        }
      }
    }
  }

  /** Every collected report is the truthy summary the classifier gave for some post with the three keys. */
  lemma {:induction false} ReportsComeFromPosts(posts: seq<Post>, classify: Classifier)
    ensures forall r :: r in ExpectedReports(posts, classify) ==>
              r != "" && exists k :: 0 <= k < |posts| && HasRequiredKeys(posts[k])
                                     && classify(posts[k]["text"], posts[k]["reporter"], posts[k]["link"]).0 == Some(r)
  {
    if posts != [] {
      var n := |posts| - 1;
      ReportsComeFromPosts(posts[..n], classify);
      forall r | r in ExpectedReports(posts, classify)
        ensures r != "" && exists k :: 0 <= k < |posts| && HasRequiredKeys(posts[k])
                                       && classify(posts[k]["text"], posts[k]["reporter"], posts[k]["link"]).0 == Some(r)
      {
        if r in ExpectedReports(posts[..n], classify) {
          var k :| 0 <= k < n && HasRequiredKeys(posts[..n][k])
                   && classify(posts[..n][k]["text"], posts[..n][k]["reporter"], posts[..n][k]["link"]).0 == Some(r);
          assert posts[..n][k] == posts[k];
        } else {
          assert r in Contribution(posts[n], classify);
        }
      }
    }
  }

  /** There are never more reports than calls, nor more calls than posts. */
  lemma {:induction false} ReportsBounded(posts: seq<Post>, classify: Classifier)
    ensures |ExpectedReports(posts, classify)| <= |ExpectedCalls(posts)| <= |posts|
  {
    if posts != [] {
      ReportsBounded(posts[..|posts| - 1], classify);
    }
  }

  /**
   * With the script's classifier, a summary is never empty, so the truth test
   * keeps every summary that is not `None`, and each report reads "Reporter: ...".
   */
  lemma AnalyzerSummariesTruthy(remote: Remote, text: string, reporter: string, link: string)
    ensures var summary := PotholeAnalyzer(remote)(text, reporter, link).0;
            Truthy(summary) <==> summary.Some?
    ensures var summary := PotholeAnalyzer(remote)(text, reporter, link).0;
            summary.Some? ==> |summary.value| >= 10 && summary.value[..10] == "Reporter: "
  {
    var r := Classify(remote(text), reporter, link);
    assert r.Some? ==> |r.value| >= 10;
  }

  /** With the script's classifier, a post whose remote call fails adds no report. */
  lemma FailedCallIgnored(a: seq<Post>, p: Post, b: seq<Post>, remote: Remote)
    requires HasRequiredKeys(p) && remote(p["text"]).Failure?
    ensures ExpectedReports(a + [p] + b, PotholeAnalyzer(remote)) == ExpectedReports(a + b, PotholeAnalyzer(remote))
  {
    assert Classify(remote(p["text"]), p["reporter"], p["link"]) == None;
    NoneVerdictIgnored(a, p, b, PotholeAnalyzer(remote));
  }

  /** With the script's classifier, when every remote call fails nothing is reported. */
  lemma {:induction false} AllFailuresNoReports(posts: seq<Post>, remote: Remote)
    requires forall k :: 0 <= k < |posts| && HasRequiredKeys(posts[k]) ==> remote(posts[k]["text"]).Failure?
    ensures ExpectedReports(posts, PotholeAnalyzer(remote)) == []
  {
    if posts != [] {
      var n := |posts| - 1;
      assert forall k :: 0 <= k < n ==> posts[..n][k] == posts[k];
      AllFailuresNoReports(posts[..n], remote);
      if HasRequiredKeys(posts[n]) {
        assert Classify(remote(posts[n]["text"]), posts[n]["reporter"], posts[n]["link"]) == None;
      }
    }
  }

  /**
   * On a non-empty load the output ends with the "none found" message exactly
   * when no report was collected.
   */
  lemma NoReportsMessageIff(posts: seq<Post>, classify: Classifier)
    requires posts != []
    ensures var out := [Say(HeaderMessage)] + LoopLog(posts, classify) + Closing(ExpectedReports(posts, classify));
            out[|out| - 1] == Say(NoReportsMessage) <==> ExpectedReports(posts, classify) == []
  {
    var reports := ExpectedReports(posts, classify);
    if reports != [] {
      var c := Closing(reports);
      var last := "- " + reports[|reports| - 1];
      assert c[|c| - 1] == Say(last);
      assert last[0] == '-';
      assert NoReportsMessage[0] == 'N';
    }
  }
}
