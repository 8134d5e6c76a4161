/** The problem page: the start-code lookup, the judge-result helpers and
    status tables, language names, the split-pane clamp, and the handlers that
    drive the editor, the right-hand tabs and the loading flag. */
module ProblemPage {
  import opened Js

  const FallbackCode: string := "// Write your code here"

  // ------------------------------------------------------------ start code

  datatype StartCode = StartCode(language: string, initialCode: Option<string>)

  /** The problem as the page keeps it; only its start code drives the editor. */
  datatype ProblemData = ProblemData(startCode: Option<seq<StartCode>>)

  /** The `find` callback: 'C++' (any case) serves the 'cpp' selection, 'java' and 'javascript' themselves. */
  predicate EntryMatches(entryLanguage: string, selected: string) {
    var lang := ToLower(entryLanguage);
    (lang == "c++" && selected == "cpp") || (lang == "java" && selected == "java")
    || (lang == "javascript" && selected == "javascript")
  }

  predicate SupportedSelection(selected: string) {
    selected == "cpp" || selected == "java" || selected == "javascript"
  }

  /** The index `find` stops at: the first matching entry, if any. */
  function FindStartCode(entries: seq<StartCode>, selected: string): (r: Option<nat>)
    ensures r.Some? ==> r.value < |entries| && EntryMatches(entries[r.value].language, selected)
    ensures r.Some? ==> forall j :: 0 <= j < r.value ==> !EntryMatches(entries[j].language, selected)
    ensures r.None? <==> forall j :: 0 <= j < |entries| ==> !EntryMatches(entries[j].language, selected)
    decreases |entries|
  {
    if |entries| == 0 then None
    else if EntryMatches(entries[0].language, selected) then Some(0)
    else
      match FindStartCode(entries[1..], selected)
      case None => None
      case Some(k) => Some(k + 1)
  }

  /** `startCode?.find(...)?.initialCode || '// Write your code here'`. */
  function InitialCode(startCode: Option<seq<StartCode>>, selected: string): (code: string)
    ensures code != ""
    ensures !SupportedSelection(selected) ==> code == FallbackCode
    ensures startCode.Some? && FindStartCode(startCode.value, selected).Some?
            && Truthy(startCode.value[FindStartCode(startCode.value, selected).value].initialCode)
            ==> code == startCode.value[FindStartCode(startCode.value, selected).value].initialCode.value
    ensures startCode.None? || FindStartCode(startCode.value, selected).None? ==> code == FallbackCode
    ensures startCode.Some? && FindStartCode(startCode.value, selected).Some?
            && !Truthy(startCode.value[FindStartCode(startCode.value, selected).value].initialCode)
            ==> code == FallbackCode
  {
    if startCode.None? then FallbackCode
    else
      match FindStartCode(startCode.value, selected)
      case None => FallbackCode
      case Some(i) => FirstTruthy([startCode.value[i].initialCode], FallbackCode)
  }

  // ------------------------------------------------------------ judge results

  /** A result field that may be missing, an array, or some other value. */
  datatype ArrayField<T> = Missing | ArrayValue(items: seq<T>) | NotArray

  datatype TestResult = TestResult(statusId: int)

  datatype JudgeResult = JudgeResult(testResults: ArrayField<TestResult>, testCases: ArrayField<TestResult>)

  /** `getTestResults`: `testResults` if it is an array (an empty one included), else `testCases`, else []. */
  function GetTestResults(r: JudgeResult): (tests: seq<TestResult>)
    ensures r.testResults.ArrayValue? ==> tests == r.testResults.items
    ensures !r.testResults.ArrayValue? && r.testCases.ArrayValue? ==> tests == r.testCases.items
    ensures !r.testResults.ArrayValue? && !r.testCases.ArrayValue? ==> tests == []
  {
    if r.testResults.ArrayValue? then r.testResults.items
    else if r.testCases.ArrayValue? then r.testCases.items
    else []
  }

  const AcceptedStatusId: int := 3

  /** `every(test => test.status_id === 3)`. */
  function AllAccepted(tests: seq<TestResult>): (all: bool)
    ensures all <==> forall i :: 0 <= i < |tests| ==> tests[i].statusId == AcceptedStatusId
    decreases |tests|
  {
    if |tests| == 0 then true
    else tests[0].statusId == AcceptedStatusId && AllAccepted(tests[1..])
  }

  /** `areAllTestsPassed`: true of a result that carries no tests at all. */
  function AreAllTestsPassed(r: JudgeResult): (passed: bool)
    ensures passed <==> forall i :: 0 <= i < |GetTestResults(r)| ==> GetTestResults(r)[i].statusId == AcceptedStatusId
    ensures GetTestResults(r) == [] ==> passed
  {
    AllAccepted(GetTestResults(r))
  }

  /** `getStatusDescription`: the judge's status ids 1 to 8, else 'Unknown'. */
  function StatusDescription(statusId: int): (text: string)
    ensures text == "Unknown" <==> !(1 <= statusId <= 8)
  {
    match statusId
    case 1 => "In Queue"
    case 2 => "Processing"
    case 3 => "Accepted"
    case 4 => "Wrong Answer"
    case 5 => "Time Limit Exceeded"
    case 6 => "Compilation Error"
    case 7 => "Runtime Error"
    case 8 => "Memory Limit Exceeded"
    case _ => "Unknown"
  }

  /** Reading a label back to its id. */
  function StatusIdOf(text: string): Option<int> {
    match text
    case "In Queue" => Some(1)
    case "Processing" => Some(2)
    case "Accepted" => Some(3)
    case "Wrong Answer" => Some(4)
    case "Time Limit Exceeded" => Some(5)
    case "Compilation Error" => Some(6)
    case "Runtime Error" => Some(7)
    case "Memory Limit Exceeded" => Some(8)
    case _ => None
  }

  /** Each known status has its own label: the table can be read backwards. */
  lemma StatusDescriptionInjective(statusId: int)
    ensures 1 <= statusId <= 8 ==> StatusIdOf(StatusDescription(statusId)) == Some(statusId)
    ensures !(1 <= statusId <= 8) ==> StatusIdOf(StatusDescription(statusId)) == None
  {
  }

  // ------------------------------------------------------------ submission status

  /** The emoji each status row shows. */
  datatype Icon = CheckMark | CrossMark | Stopwatch | Gear | NoEntry | FloppyDisk | Hourglass | BarChart | QuestionMark

  datatype StatusInfo = StatusInfo(text: string, color: string, bg: string, border: string, icon: Icon)

  /** The eight keys of the status table. */
  function KnownStatus(key: string): Option<StatusInfo> {
    match key
    case "accepted" => Some(StatusInfo("Accepted", "text-green-600", "bg-green-50", "border-green-200", CheckMark))
    case "wrong_answer" => Some(StatusInfo("Wrong Answer", "text-red-600", "bg-red-50", "border-red-200", CrossMark))
    case "time_limit_exceeded" =>
      Some(StatusInfo("Time Limit Exceeded", "text-orange-600", "bg-orange-50", "border-orange-200", Stopwatch))
    case "compilation_error" => Some(StatusInfo("Compilation Error", "text-red-600", "bg-red-50", "border-red-200", Gear))
    case "runtime_error" => Some(StatusInfo("Runtime Error", "text-red-600", "bg-red-50", "border-red-200", NoEntry))
    case "memory_limit_exceeded" =>
      Some(StatusInfo("Memory Limit Exceeded", "text-orange-600", "bg-orange-50", "border-orange-200", FloppyDisk))
    case "processing" => Some(StatusInfo("Processing", "text-blue-600", "bg-blue-50", "border-blue-200", Hourglass))
    case "in_queue" => Some(StatusInfo("In Queue", "text-gray-600", "bg-gray-50", "border-gray-200", BarChart))
    case _ => None
  }

  function UnderscoreToSpace(c: char): char {
    if c == '_' then ' ' else c
  }

  /** `replace(/_/g, ' ')`. */
  function UnderscoresToSpaces(s: string): (r: string)
    ensures |r| == |s| && '_' !in r
    ensures forall i :: 0 <= i < |s| ==> r[i] == (if s[i] == '_' then ' ' else s[i])
  {
    seq(|s|, i requires 0 <= i < |s| => UnderscoreToSpace(s[i]))
  }

  /** Whether position i of s starts a word, the match of `\b\w`. */
  predicate StartsWord(s: string, i: int)
    requires 0 <= i < |s|
  {
    IsWordChar(s[i]) && (i == 0 || !IsWordChar(s[i - 1]))
  }

  /** `replace(/\b\w/g, l => l.toUpperCase())`: the first character of every word in upper case. */
  function CapitalizeWords(s: string): (r: string)
    ensures |r| == |s|
    ensures forall i :: 0 <= i < |s| ==> r[i] == (if StartsWord(s, i) then UpperChar(s[i]) else s[i])
  {
    seq(|s|, i requires 0 <= i < |s| => if StartsWord(s, i) then UpperChar(s[i]) else s[i])
  }

  /** Capitalizing never moves a word boundary, so capitalizing twice is capitalizing once. */
  lemma CapitalizeWordsIdempotent(s: string)
    ensures CapitalizeWords(CapitalizeWords(s)) == CapitalizeWords(s)
  {
    var r := CapitalizeWords(s);
    assert forall i :: 0 <= i < |s| ==> (IsWordChar(r[i]) <==> IsWordChar(s[i]));
    forall i | 0 <= i < |s| ensures StartsWord(r, i) == StartsWord(s, i) {
    }
  }

  /** Every word of the result begins with a character that is not a lower-case letter. */
  lemma CapitalizedWordsStartUpper(s: string, i: int)
    requires 0 <= i < |s| && StartsWord(CapitalizeWords(s), i)
    ensures !IsLower(CapitalizeWords(s)[i])
  {
    var r := CapitalizeWords(s);
    assert IsWordChar(r[i]) <==> IsWordChar(s[i]);
    assert i > 0 ==> (IsWordChar(r[i - 1]) <==> IsWordChar(s[i - 1]));
  }

  /** `getSubmissionStatus`: the table row for a known key; otherwise the key title-cased with a
      question mark, and 'Unknown' for a missing or empty key. */
  function SubmissionStatus(status: Option<string>): (info: StatusInfo)
    ensures status.Some? && KnownStatus(status.value).Some? ==> info == KnownStatus(status.value).value
    ensures !Truthy(status) ==> info.text == "Unknown" && info.icon == QuestionMark
    ensures Truthy(status) && KnownStatus(status.value).None? ==>
              info.text == CapitalizeWords(UnderscoresToSpaces(status.value)) && info.icon == QuestionMark
    ensures info.text != ""
  {
    if status.Some? && KnownStatus(status.value).Some? then KnownStatus(status.value).value
    else
      var text := if status.Some? then CapitalizeWords(UnderscoresToSpaces(status.value)) else "";
      StatusInfo(if text != "" then text else "Unknown", "text-gray-600", "bg-gray-50", "border-gray-200", QuestionMark)
  }

  /** The table's wording for a multi-word key is what the generic rule would produce from the key anyway. */
  lemma WrongAnswerFollowsTitleCase()
    ensures KnownStatus("wrong_answer").value.text == CapitalizeWords(UnderscoresToSpaces("wrong_answer"))
  {
    var a := UnderscoresToSpaces("wrong_answer");
    assert a == "wrong answer";
    var c := CapitalizeWords(a);
    assert StartsWord(a, 0) && StartsWord(a, 6);
    assert forall i :: 0 <= i < |a| && i != 0 && i != 6 ==> !StartsWord(a, i);
    assert c == "Wrong Answer";
  }

  lemma InQueueFollowsTitleCase()
    ensures KnownStatus("in_queue").value.text == CapitalizeWords(UnderscoresToSpaces("in_queue"))
  {
    var a := UnderscoresToSpaces("in_queue");
    assert a == "in queue";
    var c := CapitalizeWords(a);
    assert StartsWord(a, 0) && StartsWord(a, 3);
    assert forall i :: 0 <= i < |a| && i != 0 && i != 3 ==> !StartsWord(a, i);
    assert c == "In Queue";
  }

  // ------------------------------------------------------------ languages

  function LanguageTable(key: string): Option<string> {
    match key
    case "cpp" => Some("C++")
    case "c++" => Some("C++")
    case "java" => Some("Java")
    case "javascript" => Some("JavaScript")
    case "python" => Some("Python")
    case "python3" => Some("Python 3")
    case _ => None
  }

  /** `getLanguageDisplayName`: the table entry of the lower-cased key, else the input itself, else 'Unknown'. */
  function LanguageDisplayName(lang: Option<string>): (name: string)
    ensures name != ""
    ensures lang.Some? && LanguageTable(ToLower(lang.value)).Some? ==> name == LanguageTable(ToLower(lang.value)).value
    ensures lang.Some? && LanguageTable(ToLower(lang.value)).None? && lang.value != "" ==> name == lang.value
    ensures !Truthy(lang) ==> name == "Unknown"
  {
    if lang.Some? && LanguageTable(ToLower(lang.value)).Some? then LanguageTable(ToLower(lang.value)).value
    else if Truthy(lang) then lang.value
    else "Unknown"
  }

  /** Display names ignore case. */
  lemma LanguageDisplayNameIgnoresCase(lang: string)
    ensures LanguageDisplayName(Some(ToLower(lang))) == LanguageDisplayName(Some(lang))
            || LanguageTable(ToLower(lang)).None?
  {
    ToLowerIdempotent(lang);
  }

  /** `getLanguageForMonaco`: the editor modes it knows, and 'cpp' for anything else. */
  function MonacoLanguage(lang: string): (mode: string)
    ensures SupportedSelection(mode)
    ensures SupportedSelection(lang) ==> mode == lang
    ensures !SupportedSelection(lang) ==> mode == "cpp"
  {
    match lang
    case "javascript" => "javascript"
    case "java" => "java"
    case "cpp" => "cpp"
    case _ => "cpp"
  }

  /** The selection `viewSubmissionCode` makes: 'c++' in any case becomes 'cpp', other names are
      lower-cased, and a missing or empty name gives 'cpp'. */
  function SelectionKey(language: Option<string>): (key: string)
    ensures key != "" && key != "c++"
    ensures forall i :: 0 <= i < |key| ==> !IsUpper(key[i])
    ensures language.Some? && ToLower(language.value) != "c++" && language.value != "" ==> key == ToLower(language.value)
    ensures language.Some? && ToLower(language.value) == "c++" ==> key == "cpp"
    ensures language.None? || language.value == "" ==> key == "cpp"
  {
    if language.None? then "cpp"
    else
      var lower := ToLower(language.value);
      if lower == "c++" then "cpp" else if lower != "" then lower else "cpp"
  }

  // ------------------------------------------------------------ difficulty

  /** `getDifficultyColor` on this page compares the lower-cased difficulty, so any case matches. */
  function DifficultyColor(difficulty: Option<string>): (cls: string)
    ensures difficulty.Some? && ToLower(difficulty.value) == "easy" ==> cls == "text-green-500"
    ensures difficulty.Some? && ToLower(difficulty.value) == "medium" ==> cls == "text-yellow-500"
    ensures difficulty.Some? && ToLower(difficulty.value) == "hard" ==> cls == "text-red-500"
    ensures cls == "text-gray-500" <==>
              difficulty.None? || !(ToLower(difficulty.value) in {"easy", "medium", "hard"})
  {
    if difficulty.None? then "text-gray-500"
    else
      match ToLower(difficulty.value)
      case "easy" => "text-green-500"
      case "medium" => "text-yellow-500"
      case "hard" => "text-red-500"
      case _ => "text-gray-500"
  }

  /** The colour depends on the difficulty only up to case. */
  lemma DifficultyColorIgnoresCase(difficulty: string)
    ensures DifficultyColor(Some(ToLower(difficulty))) == DifficultyColor(Some(difficulty))
  {
    ToLowerIdempotent(difficulty);
  }

  // ------------------------------------------------------------ split pane

  /** `Math.max(20, Math.min(80, width))`. */
  function ClampWidth(width: real): (w: real)
    ensures 20.0 <= w <= 80.0
    ensures 20.0 <= width <= 80.0 ==> w == width
    ensures width < 20.0 ==> w == 20.0
    ensures width > 80.0 ==> w == 80.0
  {
    if width > 80.0 then 80.0 else if width < 20.0 then 20.0 else width
  }

  // ------------------------------------------------------------ viewing a submission

  /** The three editor fields `viewSubmissionCode` and the language effect touch. */
  datatype Editor = Editor(selectedLanguage: string, code: string, rightTab: RightTab)

  datatype RightTab = CodeTab | TestcaseTab | ResultTab
  datatype LeftTab = DescriptionTab | EditorialTab | SolutionsTab | SubmissionsTab | AiTab

  /** The handler alone: a truthy code replaces the editor's code and language and shows the code tab. */
  function ViewSubmission(e: Editor, submissionCode: Option<string>, language: Option<string>): (r: Editor)
    ensures Truthy(submissionCode) ==> r == Editor(SelectionKey(language), submissionCode.value, CodeTab)
    ensures !Truthy(submissionCode) ==> r == e
  {
    if Truthy(submissionCode) then Editor(SelectionKey(language), submissionCode.value, CodeTab) else e
  }

  /** The start-code effect, keyed on the language and the problem: with a loaded problem that
      has start code, the editor is reset to the selected language's start code. */
  function StartCodeEffect(e: Editor, problem: Option<ProblemData>): Editor {
    if problem.Some? && problem.value.startCode.Some? then
      e.(code := InitialCode(problem.value.startCode, e.selectedLanguage))
    else e
  }

  /** What a change of the selected language sets off: the start-code effect at once, then the
      refetch of the problem, which on success stores the fetched problem and its initial code for
      that language (the fallback text when it has no start code). Returns the editor and the problem. */
  function AfterLanguageChange(e: Editor, problem: Option<ProblemData>, refetch: NetResult<ProblemData>)
    : (r: (Editor, Option<ProblemData>))
    ensures r.0.selectedLanguage == e.selectedLanguage && r.0.rightTab == e.rightTab
    ensures refetch.Ok? ==> r.1 == Some(refetch.data)
    ensures refetch.Err? ==> r.1 == problem
  {
    var shown := StartCodeEffect(e, problem);
    match refetch
    case Ok(data) => (shown.(code := InitialCode(data.startCode, e.selectedLanguage)), Some(data))
    case Err(_) => (shown, problem)
  }

  /** After a language change the editor holds start code or the fallback text, never what was
      typed before: two editors that differ only in their code end the same. */
  lemma LanguageChangeDiscardsEdits(e: Editor, typed: string, problem: Option<ProblemData>,
                                    refetch: NetResult<ProblemData>)
    requires refetch.Ok? || (problem.Some? && problem.value.startCode.Some?)
    ensures AfterLanguageChange(e, problem, refetch).0 == AfterLanguageChange(e.(code := typed), problem, refetch).0
    ensures refetch.Ok? ==> AfterLanguageChange(e, problem, refetch).0.code
                            == InitialCode(refetch.data.startCode, e.selectedLanguage)
    ensures refetch.Err? ==> AfterLanguageChange(e, problem, refetch).0.code
                             == InitialCode(problem.value.startCode, e.selectedLanguage)
  {
  }

  /** What the page shows once React has run the effects after `viewSubmissionCode`: the effects
      run only when the selected language actually changed. */
  function ViewSubmissionAsWritten(e: Editor, submissionCode: Option<string>, language: Option<string>,
                                   problem: Option<ProblemData>, refetch: NetResult<ProblemData>): Editor
  {
    var handled := ViewSubmission(e, submissionCode, language);
    if handled.selectedLanguage != e.selectedLanguage then AfterLanguageChange(handled, problem, refetch).0
    else handled
  }

  /** Viewing a Java submission while C++ is selected shows the Java start code, not the submission. */
  lemma ViewSubmissionLosesCode()
    ensures var problem := Some(ProblemData(Some([StartCode("Java", Some("class Solution {}"))])));
            var shown := ViewSubmissionAsWritten(Editor("cpp", "", CodeTab), Some("int x;"), Some("Java"), problem,
                                                 Ok(problem.value));
            shown.selectedLanguage == "java" && shown.code == "class Solution {}" && shown.code != "int x;"
    ensures var bare := ProblemData(None);
            var shown := ViewSubmissionAsWritten(Editor("cpp", "", CodeTab), Some("int x;"), Some("Java"), Some(bare),
                                                 Ok(bare));
            shown.selectedLanguage == "java" && shown.code == FallbackCode
  {
    var entries := [StartCode("Java", Some("class Solution {}"))];
    assert ToLower("Java") == "java";
    assert SelectionKey(Some("Java")) == "java";
    assert EntryMatches(entries[0].language, "java");
    assert FindStartCode(entries, "java") == Some(0);
  }

  /** The intended behaviour: after viewing a submission the editor holds exactly its code,
      in its language, whatever was selected before. */
  function ViewSubmissionIntended(e: Editor, submissionCode: Option<string>, language: Option<string>,
                                  problem: Option<ProblemData>): (r: Editor)
    ensures Truthy(submissionCode) ==>
              r.code == submissionCode.value && r.selectedLanguage == SelectionKey(language) && r.rightTab == CodeTab
    ensures !Truthy(submissionCode) ==> r == e
  {
    ViewSubmission(e, submissionCode, language)
  }

  /** The two agree whenever the submission is in the language already selected. */
  lemma ViewSubmissionSameLanguageAgrees(e: Editor, submissionCode: Option<string>, language: Option<string>,
                                         problem: Option<ProblemData>, refetch: NetResult<ProblemData>)
    requires !Truthy(submissionCode) || SelectionKey(language) == e.selectedLanguage
    ensures ViewSubmissionAsWritten(e, submissionCode, language, problem, refetch)
            == ViewSubmissionIntended(e, submissionCode, language, problem)
  {
  }

  // ------------------------------------------------------------ the page

  /** The outcome of a run or a submission: the judge's answer, or the client's error record. */
  datatype RunOutcome = Judged(result: JudgeResult) | RequestFailed(message: string, error: string)

  datatype CodeRequest = CodeRequest(code: string, language: string)

  datatype Submission = Submission(code: Option<string>, language: Option<string>, status: Option<string>)

  /** The body of the submissions request: `{ data: [...] }`, a bare array, or anything else. */
  datatype SubmissionsBody = Wrapped(data: ArrayField<Submission>) | BareArray(items: seq<Submission>) | OtherBody

  function SubmissionsOf(body: SubmissionsBody): (list: seq<Submission>)
    ensures body.Wrapped? && body.data.ArrayValue? ==> list == body.data.items
    ensures body.BareArray? ==> list == body.items
    ensures body.OtherBody? || (body.Wrapped? && !body.data.ArrayValue?) ==> list == []
  {
    match body
    case Wrapped(ArrayValue(items)) => items
    case Wrapped(_) => []
    case BareArray(items) => items
    case OtherBody => []
  }

  /** `{ message, error: error.message || 'Internal server error' }`. */
  function FailureRecord(message: string, e: HttpError): RunOutcome {
    RequestFailed(message, FirstTruthy([e.message], "Internal server error"))
  }

  class ProblemView {
    var problem: Option<ProblemData>
    var selectedLanguage: string
    var code: string
    var loading: bool
    var runResult: Option<RunOutcome>
    var submitResult: Option<RunOutcome>
    var activeLeftTab: LeftTab
    var activeRightTab: RightTab
    var submissions: seq<Submission>
    var submissionsLoading: bool
    var leftPanelWidth: real
    var isResizing: bool

    ghost predicate Valid()
      reads this
    {
      20.0 <= leftPanelWidth <= 80.0
    }

    constructor ()
      ensures Valid() && problem.None? && selectedLanguage == "cpp" && code == "" && !loading
      ensures runResult.None? && submitResult.None? && submissions == [] && !submissionsLoading
      ensures activeLeftTab == DescriptionTab && activeRightTab == CodeTab && leftPanelWidth == 50.0 && !isResizing
    {
      problem := None;
      selectedLanguage := "cpp";
      code := "";
      loading := false;
      runResult := None;
      submitResult := None;
      activeLeftTab := DescriptionTab;
      activeRightTab := CodeTab;
      submissions := [];
      submissionsLoading := false;
      leftPanelWidth := 50.0;
      isResizing := false;
    }

    /** `fetchProblem`: keeps the problem and loads the start code of the selected language. */
    method FetchProblem(resp: NetResult<ProblemData>)
      requires Valid()
      modifies this`problem, this`code, this`loading
      ensures Valid() && !loading
      ensures resp.Ok? ==> problem == Some(resp.data) && code == InitialCode(resp.data.startCode, selectedLanguage)
      ensures resp.Err? ==> problem == old(problem) && code == old(code)
    {
      loading := true;
      match resp {
        case Ok(data) =>
          problem := Some(data);
          code := InitialCode(data.startCode, selectedLanguage);
          loading := false;
        case Err(_) =>
          loading := false;
      }
    }

    /** `handleLanguageChange` followed by the effects keyed on the language: when the selection
        changed, the start-code effect and the refetch of the problem. */
    method ChangeLanguage(language: string, refetch: NetResult<ProblemData>)
      requires Valid()
      modifies this`selectedLanguage, this`code, this`problem, this`loading
      ensures Valid() && selectedLanguage == language
      ensures language != old(selectedLanguage) ==>
                (Editor(selectedLanguage, code, activeRightTab), problem)
                == AfterLanguageChange(Editor(language, old(code), activeRightTab), old(problem), refetch) && !loading
      ensures language == old(selectedLanguage) ==>
                code == old(code) && problem == old(problem) && loading == old(loading)
    {
      var before := selectedLanguage;
      selectedLanguage := language;
      if language != before {
        if problem.Some? && problem.value.startCode.Some? {
          code := InitialCode(problem.value.startCode, language);
        }
        FetchProblem(refetch);
      }
    }

    /** `handleEditorChange`: `value || ''`. */
    method EditorChange(value: Option<string>)
      requires Valid()
      modifies this`code
      ensures Valid() && code == value.GetOr("")
    {
      code := value.GetOr("");
    }

    /** `handleRun`: sends the code, keeps the answer or the error record, and shows the test-case tab. */
    method HandleRun(resp: NetResult<JudgeResult>) returns (sent: CodeRequest)
      requires Valid()
      modifies this`loading, this`runResult, this`activeRightTab
      ensures Valid() && sent == CodeRequest(code, selectedLanguage)
      ensures !loading && activeRightTab == TestcaseTab
      ensures resp.Ok? ==> runResult == Some(Judged(resp.data))
      ensures resp.Err? ==> runResult == Some(FailureRecord("Error running code", resp.error))
    {
      loading := true;
      runResult := None;
      sent := CodeRequest(code, selectedLanguage);
      match resp {
        case Ok(data) =>
          runResult := Some(Judged(data));
          loading := false;
          activeRightTab := TestcaseTab;
        case Err(e) =>
          runResult := Some(FailureRecord("Error running code", e));
          loading := false;
          activeRightTab := TestcaseTab;
      }
    }

    /** `fetchSubmissions`: the list from the answer, [] on any failure, and the flag cleared. */
    method FetchSubmissions(resp: NetResult<SubmissionsBody>)
      requires Valid()
      modifies this`submissions, this`submissionsLoading
      ensures Valid() && !submissionsLoading
      ensures submissions == (if resp.Ok? then SubmissionsOf(resp.data) else [])
    {
      submissionsLoading := true;
      match resp {
        case Ok(body) => submissions := SubmissionsOf(body);
        case Err(_) => submissions := [];
      }
      submissionsLoading := false;
    }

    /** `handleSubmitCode`: like a run, on the result tab; a success refreshes the submissions list
        when that tab is open. */
    method HandleSubmitCode(resp: NetResult<JudgeResult>, refresh: NetResult<SubmissionsBody>)
      returns (sent: CodeRequest)
      requires Valid()
      modifies this`loading, this`submitResult, this`activeRightTab, this`submissions, this`submissionsLoading
      ensures Valid() && sent == CodeRequest(code, selectedLanguage)
      ensures !loading && activeRightTab == ResultTab
      ensures resp.Ok? ==> submitResult == Some(Judged(resp.data))
      ensures resp.Err? ==> submitResult == Some(FailureRecord("Error submitting code", resp.error))
      ensures resp.Ok? && activeLeftTab == SubmissionsTab ==>
                submissions == (if refresh.Ok? then SubmissionsOf(refresh.data) else []) && !submissionsLoading
      ensures !(resp.Ok? && activeLeftTab == SubmissionsTab) ==>
                submissions == old(submissions) && submissionsLoading == old(submissionsLoading)
    {
      loading := true;
      submitResult := None;
      sent := CodeRequest(code, selectedLanguage);
      match resp {
        case Ok(data) =>
          submitResult := Some(Judged(data));
          loading := false;
          activeRightTab := ResultTab;
          if activeLeftTab == SubmissionsTab {
            FetchSubmissions(refresh);
          }
        case Err(e) =>
          submitResult := Some(FailureRecord("Error submitting code", e));
          loading := false;
          activeRightTab := ResultTab;
      }
    }

    /** `handleSubmissionsTabClick`. */
    method OpenSubmissionsTab(resp: NetResult<SubmissionsBody>)
      requires Valid()
      modifies this`activeLeftTab, this`submissions, this`submissionsLoading
      ensures Valid() && activeLeftTab == SubmissionsTab && !submissionsLoading
      ensures submissions == (if resp.Ok? then SubmissionsOf(resp.data) else [])
    {
      activeLeftTab := SubmissionsTab;
      FetchSubmissions(resp);
    }

    /** `viewSubmissionCode` as written: the handler sets the code, the language and the tab, and a
        change of language then runs the effects that reload the start code. */
    method ViewSubmissionCode(submissionCode: Option<string>, language: Option<string>, refetch: NetResult<ProblemData>)
      requires Valid()
      modifies this`code, this`selectedLanguage, this`activeRightTab, this`problem, this`loading
      ensures Valid()
      ensures Editor(selectedLanguage, code, activeRightTab)
              == ViewSubmissionAsWritten(old(Editor(selectedLanguage, code, activeRightTab)), submissionCode, language,
                                         old(problem), refetch)
      ensures problem == (if Truthy(submissionCode) && SelectionKey(language) != old(selectedLanguage) && refetch.Ok?
                          then Some(refetch.data) else old(problem))
      ensures Truthy(submissionCode) && SelectionKey(language) != old(selectedLanguage) ==> !loading
      ensures !(Truthy(submissionCode) && SelectionKey(language) != old(selectedLanguage)) ==> loading == old(loading)
    {
      if Truthy(submissionCode) {
        code := submissionCode.value;
        activeRightTab := CodeTab;
        ChangeLanguage(SelectionKey(language), refetch);
      }
    }

    method StartResize()
      requires Valid()
      modifies this`isResizing
      ensures Valid() && isResizing
    {
      isResizing := true;
    }

    /** `handleMouseMove`: while resizing, the pointer's percentage, clamped into [20, 80]. */
    method MouseMove(percent: real)
      requires Valid()
      modifies this`leftPanelWidth
      ensures Valid()
      ensures isResizing ==> leftPanelWidth == ClampWidth(percent)
      ensures !isResizing ==> leftPanelWidth == old(leftPanelWidth)
    {
      if isResizing {
        leftPanelWidth := ClampWidth(percent);
      }
    }

    /** `handleMouseUp`. */
    method MouseUp()
      requires Valid()
      modifies this`isResizing
      ensures Valid() && !isResizing
    {
      isResizing := false;
    }
  }
}
