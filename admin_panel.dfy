/** The problem-creation form: its schema, its initial values, the two test-case
    lists that grow and shrink, and the submit flag. */
module AdminPanel {
  import opened Js

  datatype VisibleCase = VisibleCase(input: string, output: string, explanation: string)
  datatype HiddenCase = HiddenCase(input: string, output: string)
  /** An entry of `startCode` (its code is `initialCode`) or of `referenceSolution` (`completeCode`). */
  datatype CodeEntry = CodeEntry(language: string, code: string)

  /** The values the form submits. */
  datatype ProblemForm = ProblemForm(title: string, description: string, difficulty: string, tags: string,
                                     visibleTestCases: seq<VisibleCase>, hiddenTestCases: seq<HiddenCase>,
                                     startCode: seq<CodeEntry>, referenceSolution: seq<CodeEntry>)

  /** A schema violation: the field, the position in its list when it is inside one, and the message. */
  datatype Issue = Issue(field: string, index: Option<nat>, message: string)

  const Difficulties: set<string> := {"easy", "medium", "hard"}
  const Tags: set<string> := {"array", "linkedList", "graph", "dp"}
  const Languages: set<string> := {"C++", "Java", "JavaScript"}

  // ------------------------------------------------------------ the schema

  predicate VisibleCaseOk(c: VisibleCase) { c.input != "" && c.output != "" && c.explanation != "" }
  predicate HiddenCaseOk(c: HiddenCase) { c.input != "" && c.output != "" }
  predicate CodeEntryOk(e: CodeEntry) { e.language in Languages && e.code != "" }

  /** Exactly three entries, each in one of the three languages with some code; the languages need not differ. */
  predicate CodeListOk(entries: seq<CodeEntry>) {
    |entries| == 3 && forall i :: 0 <= i < |entries| ==> CodeEntryOk(entries[i])
  }

  /** `problemSchema`. */
  predicate ProblemValid(f: ProblemForm) {
    f.title != "" && f.description != "" && f.difficulty in Difficulties && f.tags in Tags
    && |f.visibleTestCases| >= 1 && (forall i :: 0 <= i < |f.visibleTestCases| ==> VisibleCaseOk(f.visibleTestCases[i]))
    && |f.hiddenTestCases| >= 1 && (forall i :: 0 <= i < |f.hiddenTestCases| ==> HiddenCaseOk(f.hiddenTestCases[i]))
    && CodeListOk(f.startCode) && CodeListOk(f.referenceSolution)
  }

  function VisibleIssues(cases: seq<VisibleCase>, from: nat): (issues: seq<Issue>)
    ensures issues == [] <==> forall i :: 0 <= i < |cases| ==> VisibleCaseOk(cases[i])
    decreases |cases|
  {
    if |cases| == 0 then []
    else
      var c := cases[0];
      (if c.input == "" then [Issue("visibleTestCases", Some(from), "Input is required")] else [])
      + (if c.output == "" then [Issue("visibleTestCases", Some(from), "Output is required")] else [])
      + (if c.explanation == "" then [Issue("visibleTestCases", Some(from), "Explanation is required")] else [])
      + VisibleIssues(cases[1..], from + 1)
  }

  function HiddenIssues(cases: seq<HiddenCase>, from: nat): (issues: seq<Issue>)
    ensures issues == [] <==> forall i :: 0 <= i < |cases| ==> HiddenCaseOk(cases[i])
    decreases |cases|
  {
    if |cases| == 0 then []
    else
      var c := cases[0];
      (if c.input == "" then [Issue("hiddenTestCases", Some(from), "Input is required")] else [])
      + (if c.output == "" then [Issue("hiddenTestCases", Some(from), "Output is required")] else [])
      + HiddenIssues(cases[1..], from + 1)
  }

  function CodeIssues(field: string, missing: string, entries: seq<CodeEntry>, from: nat): (issues: seq<Issue>)
    ensures issues == [] <==> forall i :: 0 <= i < |entries| ==> CodeEntryOk(entries[i])
    decreases |entries|
  {
    if |entries| == 0 then []
    else
      var e := entries[0];
      (if e.language in Languages then [] else [Issue(field, Some(from), "Invalid language")])
      + (if e.code != "" then [] else [Issue(field, Some(from), missing)])
      + CodeIssues(field, missing, entries[1..], from + 1)
  }

  /** Every violation of the schema; the form is accepted exactly when there is none. */
  function ProblemIssues(f: ProblemForm): (issues: seq<Issue>)
    ensures issues == [] <==> ProblemValid(f)
    ensures f.title == "" ==> Issue("title", None, "Title is required") in issues
    ensures |f.hiddenTestCases| == 0 ==> Issue("hiddenTestCases", None, "At least one hidden test case required") in issues
  {
    (if f.title == "" then [Issue("title", None, "Title is required")] else [])
    + (if f.description == "" then [Issue("description", None, "Description is required")] else [])
    + (if f.difficulty in Difficulties then [] else [Issue("difficulty", None, "Invalid difficulty")])
    + (if f.tags in Tags then [] else [Issue("tags", None, "Invalid tag")])
    + (if |f.visibleTestCases| >= 1 then [] else [Issue("visibleTestCases", None, "At least one visible test case required")])
    + VisibleIssues(f.visibleTestCases, 0)
    + (if |f.hiddenTestCases| >= 1 then [] else [Issue("hiddenTestCases", None, "At least one hidden test case required")])
    + HiddenIssues(f.hiddenTestCases, 0)
    + (if |f.startCode| == 3 then [] else [Issue("startCode", None, "All three languages required")])
    + CodeIssues("startCode", "Initial code is required", f.startCode, 0)
    + (if |f.referenceSolution| == 3 then [] else [Issue("referenceSolution", None, "All three languages required")])
    + CodeIssues("referenceSolution", "Complete code is required", f.referenceSolution, 0)
  }

  // ------------------------------------------------------------ initial values

  const DefaultStartCode: seq<CodeEntry> := [
    CodeEntry("C++", "#include <bits/stdc++.h>\nusing namespace std;\n\nclass Solution {\npublic:\n    // Your solution here\n};"),
    CodeEntry("Java", "import java.util.*;\n\nclass Solution {\n    // Your solution here\n}"),
    CodeEntry("JavaScript", "// Your solution here\nfunction solve() {\n    // Implementation\n}")
  ]

  const DefaultReferenceSolution: seq<CodeEntry> := [
    CodeEntry("C++", "#include <bits/stdc++.h>\nusing namespace std;\n\nclass Solution {\npublic:\n    // Complete solution with comments\n};"),
    CodeEntry("Java", "import java.util.*;\n\nclass Solution {\n    // Complete solution with comments\n}"),
    CodeEntry("JavaScript", "// Complete solution with comments\nfunction solve() {\n    // Implementation with explanation\n}")
  ]

  const EmptyVisible: VisibleCase := VisibleCase("", "", "")
  const EmptyHidden: HiddenCase := HiddenCase("", "")

  /** `defaultValues`, with the untouched inputs read as the empty string and the two selects as
      their first option. */
  const DefaultForm: ProblemForm :=
    ProblemForm("", "", "easy", "array", [EmptyVisible], [EmptyHidden], DefaultStartCode, DefaultReferenceSolution)

  /** The preset code lists already satisfy their constraints. */
  lemma DefaultCodeListsValid()
    ensures CodeListOk(DefaultForm.startCode) && CodeListOk(DefaultForm.referenceSolution)
  {
  }

  /** An untouched form is not accepted: the title and the preset test cases are empty. */
  lemma DefaultFormInvalid()
    ensures !ProblemValid(DefaultForm)
    ensures Issue("title", None, "Title is required") in ProblemIssues(DefaultForm)
    ensures Issue("visibleTestCases", Some(0), "Input is required") in ProblemIssues(DefaultForm)
  {
    assert VisibleIssues(DefaultForm.visibleTestCases, 0)[0] == Issue("visibleTestCases", Some(0), "Input is required");
  }

  /** The same language three times is accepted. */
  lemma RepeatedLanguagesAccepted()
    ensures CodeListOk([CodeEntry("C++", "a"), CodeEntry("C++", "b"), CodeEntry("C++", "c")])
  {
  }

  // ------------------------------------------------------------ field arrays

  /** The field-array `remove(index)`: drops that position, and leaves the list alone for a position
      it does not have. */
  function RemoveAt<T>(s: seq<T>, index: int): (r: seq<T>)
    ensures 0 <= index < |s| ==> |r| == |s| - 1 && r[..index] == s[..index] && r[index..] == s[index + 1..]
    ensures !(0 <= index < |s|) ==> r == s
  {
    if 0 <= index < |s| then s[..index] + s[index + 1..] else s
  }

  /** Removing what was just appended restores the list. */
  lemma RemoveAppended<T>(s: seq<T>, x: T)
    ensures RemoveAt(s + [x], |s|) == s
  {
    assert (s + [x])[..|s|] == s;
  }

  /** Removing the only hidden case leaves the form unacceptable whatever else it holds. */
  lemma RemovingLastHiddenInvalidates(f: ProblemForm)
    requires |f.hiddenTestCases| == 1
    ensures !ProblemValid(f.(hiddenTestCases := RemoveAt(f.hiddenTestCases, 0)))
  {
  }

  /** A freshly appended case is empty, so the form cannot be submitted until it is filled in. */
  lemma AppendingVisibleInvalidates(f: ProblemForm)
    ensures !ProblemValid(f.(visibleTestCases := f.visibleTestCases + [EmptyVisible]))
  {
    var cases := f.visibleTestCases + [EmptyVisible];
    assert !VisibleCaseOk(cases[|cases| - 1]);
  }

  /** The text of the failure alert: `error.response?.data?.message || error.message`, which
      renders as "undefined" when there is no message at all. */
  function ErrorText(e: HttpError): (text: string)
    ensures Truthy(e.responseMessage) ==> text == e.responseMessage.value
    ensures !Truthy(e.responseMessage) && e.message.Some? ==> text == e.message.value
    ensures !Truthy(e.responseMessage) && e.message.None? ==> text == "undefined"
  {
    if Truthy(e.responseMessage) then e.responseMessage.value
    else if e.message.Some? then e.message.value
    else "undefined"
  }

  /** `getDifficultyColor` of the form (declared but not used by its markup). */
  function DifficultyColor(difficulty: string): (cls: string)
    ensures difficulty == "easy" ==> cls == "bg-green-100 text-green-800 border-green-200"
    ensures difficulty == "medium" ==> cls == "bg-yellow-100 text-yellow-800 border-yellow-200"
    ensures difficulty == "hard" ==> cls == "bg-red-100 text-red-800 border-red-200"
    ensures difficulty in Difficulties <==> cls != "bg-gray-100 text-gray-800 border-gray-200"
  {
    match difficulty
    case "easy" => "bg-green-100 text-green-800 border-green-200"
    case "medium" => "bg-yellow-100 text-yellow-800 border-yellow-200"
    case "hard" => "bg-red-100 text-red-800 border-red-200"
    case _ => "bg-gray-100 text-gray-800 border-gray-200"
  }

  // ------------------------------------------------------------ the form

  class ProblemEditor {
    var form: ProblemForm
    var isSubmitting: bool

    constructor ()
      ensures form == DefaultForm && !isSubmitting
    {
      form := DefaultForm;
      isSubmitting := false;
    }

    /** Typing into the registered inputs: every value may change except the shape of the lists
        and the languages of the code entries, which have no input. */
    method Edit(values: ProblemForm)
      requires |values.visibleTestCases| == |form.visibleTestCases| && |values.hiddenTestCases| == |form.hiddenTestCases|
      requires |values.startCode| == |form.startCode| && |values.referenceSolution| == |form.referenceSolution|
      requires forall i :: 0 <= i < |values.startCode| ==> values.startCode[i].language == form.startCode[i].language
      requires forall i :: 0 <= i < |values.referenceSolution| ==>
                 values.referenceSolution[i].language == form.referenceSolution[i].language
      modifies this`form
      ensures form == values
    {
      form := values;
    }

    /** `appendVisible({ input: '', output: '', explanation: '' })`. */
    method AppendVisible()
      modifies this`form
      ensures form == old(form).(visibleTestCases := old(form).visibleTestCases + [EmptyVisible])
      ensures !ProblemValid(form)
    {
      AppendingVisibleInvalidates(form);
      form := form.(visibleTestCases := form.visibleTestCases + [EmptyVisible]);
    }

    method RemoveVisible(index: int)
      modifies this`form
      ensures form == old(form).(visibleTestCases := RemoveAt(old(form).visibleTestCases, index))
    {
      form := form.(visibleTestCases := RemoveAt(form.visibleTestCases, index));
    }

    /** `appendHidden({ input: '', output: '' })`. */
    method AppendHidden()
      modifies this`form
      ensures form == old(form).(hiddenTestCases := old(form).hiddenTestCases + [EmptyHidden])
    {
      form := form.(hiddenTestCases := form.hiddenTestCases + [EmptyHidden]);
    }

    method RemoveHidden(index: int)
      modifies this`form
      ensures form == old(form).(hiddenTestCases := RemoveAt(old(form).hiddenTestCases, index))
      ensures |old(form).hiddenTestCases| == 1 && index == 0 ==> !ProblemValid(form)
    {
      if |form.hiddenTestCases| == 1 && index == 0 {
        RemovingLastHiddenInvalidates(form);
      }
      form := form.(hiddenTestCases := RemoveAt(form.hiddenTestCases, index));
    }

    /** The submit button: the resolver stops an invalid form before `onSubmit`; a valid one is posted,
        the outcome is announced, success leads home, and the flag is cleared on both paths. */
    method Submit(resp: NetResult<()>) returns (sent: Option<ProblemForm>, alertText: Option<string>, navigateTo: Option<string>)
      modifies this`isSubmitting
      ensures !ProblemValid(form) ==> sent.None? && alertText.None? && navigateTo.None? && isSubmitting == old(isSubmitting)
      ensures ProblemValid(form) ==> sent == Some(form) && !isSubmitting
      ensures ProblemValid(form) && resp.Ok? ==> alertText == Some("Problem created successfully!") && navigateTo == Some("/")
      ensures ProblemValid(form) && resp.Err? ==> alertText == Some("Error: " + ErrorText(resp.error)) && navigateTo.None?
    {
      if !ProblemValid(form) {
        return None, None, None;
      }
      isSubmitting := true;
      sent := Some(form);
      match resp {
        case Ok(_) =>
          alertText := Some("Problem created successfully!");
          navigateTo := Some("/");
        case Err(e) =>
          alertText := Some("Error: " + ErrorText(e));
          navigateTo := None;
      }
      isSubmitting := false;
    }
  }
}
