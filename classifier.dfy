/**
 * The decision half of `analyze_post_for_pothole` in daily-report-bt.py: what is
 * done with the remote model's answer once the call has returned or failed.
 * The remote call itself is an `Outcome` value handed in by the caller.
 */
module PotholeClassifier {
  import opened Wrappers
  import opened PyText

  /** The location reported when the answer is YES but carries no second line. */
  const LocationUnclear: string := "Location Unclear"

  /** What the remote call delivers: the response text, or the message of the exception it raised. */
  datatype Outcome = Success(text: string) | Failure(error: string)

  /** The spellings of "yes" whose ASCII upper-case is exactly `YES`. */
  predicate IsYesWord(w: string) {
    |w| == 3 && w[0] in "yY" && w[1] in "eE" && w[2] in "sS"
  }

  /** Upper-casing a word gives `YES` exactly when the word is "yes" in some mix of cases. */
  lemma {:induction false} UpperIsYes(w: string)
    ensures ToUpper(w) == "YES" <==> IsYesWord(w)
  {
    var u := ToUpper(w);
    if |w| == 3 {
      assert u == [UpperChar(w[0]), UpperChar(w[1]), UpperChar(w[2])];
    } else {
      assert |u| != |"YES"|;
    }
  }

  /** The one-line summary of a confirmed report. */
  function SummaryText(reporter: string, location: string, link: string): (s: string)
    ensures |s| == |reporter| + |location| + |link| + 30
    ensures s[..10] == "Reporter: "
  {
    "Reporter: " + reporter + ", Location: " + location + ", Link: " + link
  }

  /**
   * The model's raw answer read as a classification: strip it, split it into
   * lines, and report the post when the first line, stripped and upper-cased, is
   * `YES`; the location is the stripped second line, or `LocationUnclear` when
   * there is none. A produced summary is never empty.
   */
  function ParseResponse(text: string, reporter: string, link: string): (r: Option<string>)
    ensures r.Some? ==> |r.value| >= 10 && r.value[..10] == "Reporter: "
  {
    var lines := Split(Strip(text), '\n');
    if |lines| >= 1 && ToUpper(Strip(lines[0])) == "YES" then
      var location := if |lines| > 1 then Strip(lines[1]) else LocationUnclear;
      Some(SummaryText(reporter, location, link))
    else
      None
  }

  /**
   * The classifier as its caller sees it: a failed remote call yields no
   * summary, exactly as a negative answer does.
   */
  function Classify(outcome: Outcome, reporter: string, link: string): (r: Option<string>)
    ensures outcome.Failure? ==> r == None
    ensures r.Some? ==> |r.value| >= 10 && r.value[..10] == "Reporter: "
  {
    match outcome
    case Success(text) => ParseResponse(text, reporter, link)
    case Failure(_) => None
  }

  /**
   * The diagnostic printed by the classifier itself: nothing after a successful
   * call, one line ending in the exception's message after a failed one.
   */
  function ErrorLog(outcome: Outcome): (log: seq<string>)
    ensures |log| == (if outcome.Failure? then 1 else 0)
    ensures outcome.Failure? ==> |log[0]| >= |outcome.error| && log[0][|log[0]| - |outcome.error|..] == outcome.error
  {
    match outcome
    case Success(_) => []
    case Failure(e) => ["An error occurred during Gemini API call: " + e]
  }

  /**
   * The decision in terms of the lines of the stripped answer: any separator-free
   * pieces that join back to it are its lines, the first says YES in any case or
   * not, and only the second one, stripped, can become the location.
   */
  lemma ParseResponseByLines(text: string, lines: seq<string>, reporter: string, link: string)
    requires |lines| >= 1 && NoSep(lines, '\n') && Join(lines, '\n') == Strip(text)
    ensures ParseResponse(text, reporter, link) ==
      if IsYesWord(Strip(lines[0])) then
        Some(SummaryText(reporter, if |lines| > 1 then Strip(lines[1]) else LocationUnclear, link))
      else
        None
  {
    SplitJoin(lines, '\n');
    UpperIsYes(Strip(lines[0]));
  }

  /** The lines of `first + rest`, when `first` has no line break and `rest` is empty or starts a new line. */
  lemma LinesAfter(first: string, rest: string) returns (lines: seq<string>)
    requires '\n' !in first && (rest == [] || rest[0] == '\n')
    ensures |lines| >= 1 && lines[0] == first && NoSep(lines, '\n')
    ensures Join(lines, '\n') == first + rest
    ensures |lines| > 1 <==> rest != []
    ensures rest != [] ==> Join(lines[1..], '\n') == rest[1..]
  {
    if rest == [] {
      lines := [first];
    } else {
      var tail := Split(rest[1..], '\n');
      lines := [first] + tail;
      assert lines[1..] == tail;
      assert rest == "\n" + rest[1..];
    }
  }

  /**
   * Only the first line decides: the answer yields a summary exactly when that
   * line, stripped, is "yes" in some mix of cases; any other first line (`NO`,
   * `MAYBE`, an empty line, ...) yields none.
   */
  lemma FirstLineDecides(text: string, first: string, rest: string, reporter: string, link: string)
    requires '\n' !in first && Strip(text) == first + rest && (rest == [] || rest[0] == '\n')
    ensures ParseResponse(text, reporter, link).Some? <==> IsYesWord(Strip(first))
  {
    var lines := LinesAfter(first, rest);
    ParseResponseByLines(text, lines, reporter, link);
  }

  /** The lines of `first + "\n" + second + rest`, when neither line has a break and `rest` is empty or starts a new line. */
  lemma LinesOfTwo(first: string, second: string, rest: string) returns (lines: seq<string>)
    requires '\n' !in first && '\n' !in second && (rest == [] || rest[0] == '\n')
    ensures |lines| >= 2 && lines[0] == first && lines[1] == second && NoSep(lines, '\n')
    ensures Join(lines, '\n') == first + "\n" + second + rest
  {
    lines := LinesAfter(first, "\n" + second + rest);
    var tail := LinesAfter(second, rest);
    assert ("\n" + second + rest)[1..] == second + rest;
    JoinInjective(lines[1..], tail, '\n');
    assert first + "\n" + second + rest == first + ("\n" + second + rest);
  }

  /**
   * With a YES line followed by a second line, the location is that second line
   * with its surrounding whitespace removed; whatever follows it is ignored.
   */
  lemma SecondLineIsLocation(text: string, first: string, second: string, rest: string, reporter: string, link: string)
    requires '\n' !in first && '\n' !in second
    requires Strip(text) == first + "\n" + second + rest && (rest == [] || rest[0] == '\n')
    requires IsYesWord(Strip(first))
    ensures ParseResponse(text, reporter, link) ==
      Some("Reporter: " + reporter + ", Location: " + Strip(second) + ", Link: " + link)
  {
    var lines := LinesOfTwo(first, second, rest);
    ParseResponseByLines(text, lines, reporter, link);
  }

  /** A lone YES line (in any case, any padding) reports the location as `Location Unclear`. */
  lemma SingleYesLineIsUnclear(text: string, reporter: string, link: string)
    requires '\n' !in Strip(text) && IsYesWord(Strip(text))
    ensures ParseResponse(text, reporter, link) ==
      Some("Reporter: " + reporter + ", Location: " + LocationUnclear + ", Link: " + link)
  {
    var lines := LinesAfter(Strip(text), "");
    assert Strip(text) + "" == Strip(text);
    StripIdempotent(text);
    ParseResponseByLines(text, lines, reporter, link);
  }

  /**
   * Callers cannot tell a failed call from a negative answer: whenever the first
   * line of the answer, stripped, is not "yes" in any case (`NO`, `no`, ` NO `
   * followed by `Location Unclear`, ...), the verdict equals that of a failure.
   */
  lemma FailureLooksNegative(text: string, first: string, rest: string, error: string, reporter: string, link: string)
    requires '\n' !in first && Strip(text) == first + rest && (rest == [] || rest[0] == '\n')
    requires !IsYesWord(Strip(first))
    ensures Classify(Success(text), reporter, link) == Classify(Failure(error), reporter, link) == None
  {
    FirstLineDecides(text, first, rest, reporter, link);
  }
}
