/** The shared helpers of src/utils.ts: the error-to-response mapping and validateNewTask. */
module Utils {
  import opened Wrappers
  import opened Js
  import opened Services

  /** `{message, code}` */
  datatype ErrorReport = ErrorReport(message: string, code: int)

  const MissingTask := "Oops, the task you are looking for is missing"
  const TryAgainLater := "Oh no! We are currently having issues try again later"
  const UnknownError := "Unknown Error has occured"

  /** The message the db layer throws when a task is absent. */
  const NoTasksFound := "NO TASKS FOUND"
  /** The message the db layer throws for any other backend failure. */
  const DBError := "DB Error"

  /**
   * The `switch` of DBErrorMessage on the error's text: "TASKS NOT FOUND" is 404,
   * "DB Error" is 500 "try again later", anything else 500 "Unknown Error".
   */
  function ReportFor(text: string): (r: ErrorReport)
    ensures r.code == 404 || r.code == 500
    ensures r.code == 404 <==> text == "TASKS NOT FOUND"
    ensures r.code == 404 ==> r.message == MissingTask
    ensures text == DBError ==> r == ErrorReport(TryAgainLater, 500)
    ensures text != "TASKS NOT FOUND" && text != DBError ==> r == ErrorReport(UnknownError, 500)
  {
    if text == "TASKS NOT FOUND" then ErrorReport(MissingTask, 404)
    else if text == DBError then ErrorReport(TryAgainLater, 500)
    else ErrorReport(UnknownError, 500)
  }

  /** The message the db layer throws for a missing task is not the label the switch tests. */
  lemma NoTasksFoundIsUnknown()
    ensures ReportFor(NoTasksFound) == ErrorReport(UnknownError, 500)
  {
  }

  /**
   * DBErrorMessage as written: the switch runs on `e.toString()`.  An error with both a
   * name and a message prints as "name: message", which contains a colon that neither
   * case label has, so it always falls to the default.
   */
  function DBErrorMessage(e: Error): (r: ErrorReport)
    ensures e.name != "" && e.message != "" ==> r == ErrorReport(UnknownError, 500)
    ensures e.name == "" ==> r == ReportFor(e.message)
    ensures e.message == "" ==> r == ReportFor(e.name)
  {
    var text := ErrorToString(e);
    assert e.name != "" && e.message != "" ==> text != "TASKS NOT FOUND" && text != DBError by {
      if e.name != "" && e.message != "" {
        assert text[|e.name|] == ':';
        assert forall i :: 0 <= i < |DBError| ==> DBError[i] != ':';
        assert forall i :: 0 <= i < |"TASKS NOT FOUND"| ==> "TASKS NOT FOUND"[i] != ':';
      }
    }
    ReportFor(text)
  }

  /** Every error made by `new Error(message)`, which is what the db layer throws, maps to 500 "Unknown Error". */
  lemma NewErrorsAreUnknown(message: string)
    ensures DBErrorMessage(NewError(message)) == ErrorReport(UnknownError, 500)
  {
  }

  /**
   * DBErrorMessage as the db layer's comments intend it: keyed on the error's message
   * and on the message the db layer actually throws for a missing task.
   */
  function DBErrorMessageByMessage(e: Error): (r: ErrorReport)
    ensures r.code == 404 || r.code == 500
    ensures r.code == 404 <==> e.message == NoTasksFound
    ensures r.code == 404 ==> r.message == MissingTask
    ensures e.message == DBError ==> r == ErrorReport(TryAgainLater, 500)
    ensures e.message != NoTasksFound && e.message != DBError ==> r == ErrorReport(UnknownError, 500)
  {
    if e.message == NoTasksFound then ErrorReport(MissingTask, 404)
    else if e.message == DBError then ErrorReport(TryAgainLater, 500)
    else ErrorReport(UnknownError, 500)
  }

  /** The two errors the db layer throws get their intended reports from the corrected mapping. */
  lemma DbErrorsReported()
    ensures DBErrorMessageByMessage(NewError(NoTasksFound)) == ErrorReport(MissingTask, 404)
    ensures DBErrorMessageByMessage(NewError(DBError)) == ErrorReport(TryAgainLater, 500)
  {
  }

  /**
   * validateNewTask: the body must be an object, then have a string `title`, then a
   * string `color`; an accepted body is returned as it is.
   */
  function ValidateNewTask(data: Json): (r: Result<Json>)
    ensures r.Ok? <==> IsNewTask(data)
    ensures r.Ok? ==> r.value == data
    ensures !IsObject(data) ==> r == Err("No Data was given for the new task")
    ensures IsObject(data) && !HasString(data, "title") ==> r == Err("Tasks require a title")
    ensures IsObject(data) && HasString(data, "title") && !HasString(data, "color") ==> r == Err("Tasks require a color")
  {
    if !IsObject(data) then Err("No Data was given for the new task")
    else if !HasString(data, "title") then Err("Tasks require a title")
    else if !HasString(data, "color") then Err("Tasks require a color")
    else Ok(data)
  }
}
