/** AI diagnostics of a machine: the error classifier's most probable error
    type is looked up among the known error patterns, a language model
    describes the problem and its solution, and the diagnosis is stored.
    The classifier, the language model and the database are inputs. */
module AiDiagnostics {
  import opened Common

  /** The separator between the description and the solution in the
      model's answer. */
  const SolutionSeparator: string := "\nSolution:"
  const NoSolution: string := "No solution provided"

  datatype ErrorPattern = ErrorPattern(errorType: string, symptoms: seq<string>, solutions: seq<string>)

  /** The metrics handed to the classifier; the network usage may be
      missing. */
  datatype Metrics = Metrics(cpuUsage: real, memoryUsage: real, diskUsage: real, networkUsage: Option<real>)

  /** The classifier's input row: the three usages and the network usage,
      0 when missing. */
  function Features(m: Metrics): (row: seq<real>)
    ensures |row| == 4 && row[0] == m.cpuUsage && row[1] == m.memoryUsage && row[2] == m.diskUsage
    ensures m.networkUsage.None? ==> row[3] == 0.0
    ensures m.networkUsage.Some? ==> row[3] == m.networkUsage.value
  {
    [m.cpuUsage, m.memoryUsage, m.diskUsage, if m.networkUsage.Some? then m.networkUsage.value else 0.0]
  }

  // ---------------------------------------------------------------------
  // The most probable error

  /** `p.indexOf(Math.max(...p))` on a non-empty list: the first position
      of the largest value. */
  function ArgMax(p: seq<real>): (i: nat)
    requires |p| > 0
    ensures i < |p|
    ensures forall j :: 0 <= j < |p| ==> p[j] <= p[i]
    ensures forall j :: 0 <= j < i ==> p[j] < p[i]
  {
    if |p| == 1 then 0
    else
      var k := ArgMax(p[..|p| - 1]);
      if p[|p| - 1] > p[k] then |p| - 1 else k
  }

  /** The first position of the maximum is the only position with both
      properties: any index holding the maximum with nothing as large
      before it is that position. */
  lemma ArgMaxUnique(p: seq<real>, i: nat)
    requires i < |p|
    requires forall j :: 0 <= j < |p| ==> p[j] <= p[i]
    requires forall j :: 0 <= j < i ==> p[j] < p[i]
    ensures ArgMax(p) == i
  {
    var k := ArgMax(p);
    assert !(k < i) && !(i < k);
  }

  /** The error type chosen for a prediction: the type of the pattern at
      the first position of the highest probability, none when the
      prediction is empty, there is no pattern there, or its type is
      empty. */
  function ChosenType(probabilities: seq<real>, patterns: seq<ErrorPattern>): (t: Option<string>)
    ensures t.Some? ==>
      |probabilities| > 0 && ArgMax(probabilities) < |patterns| &&
      t.value == patterns[ArgMax(probabilities)].errorType && t.value != ""
    ensures t.None? ==>
      |probabilities| == 0 || ArgMax(probabilities) >= |patterns| || patterns[ArgMax(probabilities)].errorType == ""
  {
    if |probabilities| == 0 then None
    else
      var i := ArgMax(probabilities);
      if i < |patterns| && patterns[i].errorType != "" then Some(patterns[i].errorType) else None
  }

  // ---------------------------------------------------------------------
  // Parsing the model's answer

  /** `s.indexOf(sep, from)` for a non-empty separator: the first position
      at or after `from` where it occurs. */
  function IndexOf(s: string, sep: string, from: nat): (r: Option<nat>)
    requires |sep| > 0
    ensures r.Some? ==> from <= r.value && OccursAt(s, sep, r.value)
    ensures r.Some? ==> forall i :: from <= i < r.value ==> !OccursAt(s, sep, i)
    ensures r.None? ==> forall i :: from <= i ==> !OccursAt(s, sep, i)
    decreases |s| - from
  {
    if from + |sep| > |s| then None
    else if OccursAt(s, sep, from) then Some(from)
    else IndexOf(s, sep, from + 1)
  }

  datatype Analysis = Analysis(description: string, solution: string)

  /** `getDetailedAnalysis`'s parsing: the text is split at the separator;
      the description is the trimmed first piece, the solution the
      trimmed second piece, or `No solution provided` when there is none
      or it is blank. */
  function ParseAnalysis(text: string): (a: Analysis)
  {
    match IndexOf(text, SolutionSeparator, 0)
    case None => Analysis(Trim(text), NoSolution)
    case Some(k) =>
      var start := k + |SolutionSeparator|;
      var end := match IndexOf(text, SolutionSeparator, start) case None => |text| case Some(k2) => k2;
      var solution := Trim(text[start..end]);
      Analysis(Trim(text[..k]), if solution == "" then NoSolution else solution)
  }

  /** The separator begins with the only line break it contains. */
  lemma SeparatorShape()
    ensures SolutionSeparator[0] == '\n'
    ensures forall j :: 0 < j < |SolutionSeparator| ==> SolutionSeparator[j] != '\n'
  {
  }

  /** In `d + separator + rest`, with no separator inside `d`, the first
      separator is the one after `d`. */
  lemma FirstSeparator(d: string, rest: string)
    requires !Contains(d, SolutionSeparator)
    ensures IndexOf(d + SolutionSeparator + rest, SolutionSeparator, 0) == Some(|d|)
  {
    var text := d + SolutionSeparator + rest;
    var n := |SolutionSeparator|;
    assert text[|d|..|d| + n] == SolutionSeparator;
    forall i | 0 <= i < |d|
      ensures !OccursAt(text, SolutionSeparator, i)
    {
      if i + n <= |d| {
        assert !OccursAt(d, SolutionSeparator, i);
        assert d[i..i + n] == text[i..i + n];
      } else {
        NoStraddle(text, |d|, i);
      }
    }
    assert OccursAt(text, SolutionSeparator, |d|);
    var r := IndexOf(text, SolutionSeparator, 0);
    assert r.Some?;
    assert !(r.value < |d|) && !(r.value > |d|);
  }

  /** The separator cannot start before a line break and reach past it. */
  lemma NoStraddle(text: string, m: nat, i: nat)
    requires i < m < i + |SolutionSeparator| && m < |text| && text[m] == '\n'
    ensures !OccursAt(text, SolutionSeparator, i)
  {
    var n := |SolutionSeparator|;
    if i + n <= |text| {
      SeparatorShape();
      assert text[i..i + n][m - i] == '\n' != SolutionSeparator[m - i];
    }
  }

  /** No separator occurs inside `d + separator + rest` after the first
      one when `rest` has none. */
  lemma NoLaterSeparator(d: string, rest: string)
    requires !Contains(rest, SolutionSeparator)
    ensures IndexOf(d + SolutionSeparator + rest, SolutionSeparator, |d| + |SolutionSeparator|) == None
  {
    var text := d + SolutionSeparator + rest;
    var start := |d| + |SolutionSeparator|;
    assert text[start..] == rest;
    forall i | start <= i
      ensures !OccursAt(text, SolutionSeparator, i)
    {
      if OccursAt(text, SolutionSeparator, i) {
        ShiftedOccurrence(text, start, i);
      }
    }
  }

  /** An occurrence in a suffix is an occurrence at the shifted position. */
  lemma ShiftedOccurrence(text: string, start: nat, i: nat)
    requires start <= i && OccursAt(text, SolutionSeparator, i)
    ensures OccursAt(text[start..], SolutionSeparator, i - start)
  {
    var n := |SolutionSeparator|;
    assert text[start..][i - start..i - start + n] == text[i..i + n];
  }

  /** Parsing a description and a solution joined by the separator gives
      both back, trimmed, provided neither contains the separator; a blank
      solution reads as `No solution provided`. */
  lemma ParseAnalysisRoundTrip(d: string, s: string)
    requires !Contains(d, SolutionSeparator) && !Contains(s, SolutionSeparator)
    ensures ParseAnalysis(d + SolutionSeparator + s) ==
      Analysis(Trim(d), if IsBlank(s) then NoSolution else Trim(s))
  {
    var text := d + SolutionSeparator + s;
    FirstSeparator(d, s);
    NoLaterSeparator(d, s);
    assert text[..|d|] == d;
    assert text[|d| + |SolutionSeparator|..|text|] == s;
  }

  /** A text without the separator is all description and no solution. */
  lemma ParseWithoutSeparator(text: string)
    requires !Contains(text, SolutionSeparator)
    ensures ParseAnalysis(text) == Analysis(Trim(text), NoSolution)
  {
  }

  // ---------------------------------------------------------------------
  // Recommendations

  function NonEmpty(): string -> bool
  {
    (line: string) => line != ""
  }

  /** `getRecommendations`: the non-empty lines of the model's text; none
      when there are no recent metrics, no text, or anything failed. */
  function Recommendations(metricsCount: nat, text: Option<string>, failed: bool): (r: seq<string>)
    ensures failed || metricsCount == 0 || text.None? ==> r == []
    ensures forall i :: 0 <= i < |r| ==> r[i] != "" && '\n' !in r[i]
  {
    if failed || metricsCount == 0 || text.None? then []
    else Filter(Split(text.value, '\n'), NonEmpty())
  }

  /** Non-empty lines joined by line breaks come back as the same list. */
  lemma RecommendationsRoundTrip(metricsCount: nat, lines: seq<string>)
    requires metricsCount > 0 && |lines| > 0
    requires forall i :: 0 <= i < |lines| ==> lines[i] != "" && '\n' !in lines[i]
    ensures Recommendations(metricsCount, Some(Join(lines, "\n")), false) == lines
  {
    SplitJoin(lines, '\n');
    FilterKeepsAll(lines, NonEmpty());
  }

  /** Blank lines are dropped: two recommendations separated by an empty
      line are still two. */
  lemma BlankLinesDropped()
    ensures Recommendations(1, Some("a\n\nb"), false) == ["a", "b"]
  {
    var lines := ["a", "", "b"];
    assert Join(lines, "\n") == "a\n\nb";
    SplitJoin(lines, '\n');
    assert Filter(lines, NonEmpty()) == ["a"] + Filter(["", "b"], NonEmpty());
  }

  // ---------------------------------------------------------------------
  // The service

  /** A stored diagnosis. */
  datatype Diagnostic = Diagnostic(machineId: string, errorType: string, description: string, solution: string,
                                   confidence: real)

  class Diagnostics {
    /** Whether the classifier model is loaded. */
    var modelLoaded: bool
    var errorPatterns: seq<ErrorPattern>
    /** The `ai_diagnostics` rows written, in order. */
    var stored: seq<Diagnostic>

    constructor ()
      ensures !modelLoaded && errorPatterns == [] && stored == []
    {
      modelLoaded := false;
      errorPatterns := [];
      stored := [];
    }

    /** `initializeModel`: a model that fails to load stops the set-up
        (the failure is only logged); otherwise the patterns read, when
        any came back, replace the list. */
    method InitializeModel(modelLoads: bool, patterns: Option<seq<ErrorPattern>>)
      modifies this
      ensures !modelLoads ==> modelLoaded == old(modelLoaded) && errorPatterns == old(errorPatterns)
      ensures modelLoads ==> modelLoaded
      ensures modelLoads && patterns.Some? ==> errorPatterns == patterns.value
      ensures modelLoads && patterns.None? ==> errorPatterns == old(errorPatterns)
      ensures stored == old(stored)
    {
      if !modelLoads {
        return;
      }
      modelLoaded := true;
      if patterns.Some? {
        errorPatterns := patterns.value;
      }
    }

    /** `analyzeMachineMetrics`: `predict` is the classifier, `completion`
        the model's answer text (or its failure) and `insertOk` whether
        the insert returned the stored row. Without a loaded model the
        call fails; without an error type the answer is null and nothing is
        stored; otherwise the diagnosis carries the highest probability as
        its confidence. */
    method AnalyzeMachineMetrics(machineId: string, metrics: Metrics, predict: seq<real> -> seq<real>,
                                 completion: Result<string>, insertOk: bool)
      returns (r: Result<Option<Diagnostic>>)
      modifies this
      ensures !modelLoaded ==> r.Err? && stored == old(stored)
      ensures modelLoaded && ChosenType(predict(Features(metrics)), errorPatterns).None? ==>
        r == Ok(None) && stored == old(stored)
      ensures modelLoaded && ChosenType(predict(Features(metrics)), errorPatterns).Some? ==>
        completion.Err? ==> r.Err? && stored == old(stored)
      ensures modelLoaded && ChosenType(predict(Features(metrics)), errorPatterns).Some? && completion.Ok? ==>
        var p := predict(Features(metrics));
        var a := ParseAnalysis(completion.value);
        var d := Diagnostic(machineId, ChosenType(p, errorPatterns).value, a.description, a.solution, p[ArgMax(p)]);
        && (insertOk ==> r == Ok(Some(d)) && stored == old(stored) + [d])
        && (!insertOk ==> r == Ok(None) && stored == old(stored))
      ensures modelLoaded == old(modelLoaded) && errorPatterns == old(errorPatterns)
    {
      if !modelLoaded {
        return Err("prediction of an unloaded model");
      }
      var p := predict(Features(metrics));
      var errorType := ChosenType(p, errorPatterns);
      if errorType.None? {
        return Ok(None);
      }
      if completion.Err? {
        return Err(completion.error);
      }
      var a := ParseAnalysis(completion.value);
      var d := Diagnostic(machineId, errorType.value, a.description, a.solution, p[ArgMax(p)]);
      if insertOk {
        stored := stored + [d];
        r := Ok(Some(d));
      } else {
        r := Ok(None);
      }
    }
  }
}
