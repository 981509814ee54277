/**
 * What `StartUpdater::updateAction` answers and what it asks of its
 * collaborators, as functions of the decoded payload and of the error text
 * the updater reports. `Controller.StartUpdater.UpdateAction` is proved to
 * behave as these functions say.
 */
module Dispatch {
  import opened PhpValues
  import opened Validation
  import opened TypeFlags

  const INVALID_REQUEST := "Invalid request"

  /** The two cron task types of the updater (`TASK_TYPE_UPDATE`, `TASK_TYPE_UNINSTALL`). */
  datatype TaskType = TaskTypeUpdate | TaskTypeUninstall

  /** The arguments of one `createUpdaterTask` call. */
  datatype Task = Task(packages: Value, taskType: TaskType, options: map<string, Value>)

  /** The JSON answer `{success, message}`. */
  datatype Response = Response(success: bool, message: string)

  /** The shape the action checks before anything else. */
  predicate WellFormedRequest(payload: Value) {
    Isset(payload, "packages") && IsArray(Get(payload, "packages")) && Isset(payload, "type")
  }

  /** A request the action acts on: well formed and validated without complaint. */
  predicate Accepted(payload: Value) {
    WellFormedRequest(payload) && ValidationMessage(payload) == ""
  }

  /** The task an accepted request hands to the updater. */
  function TaskFor(payload: Value): Task {
    if JobType(payload) == UNINSTALL then
      Task(Get(payload, "packages"), TaskTypeUninstall, map["dataOption" := Get(payload, "dataOption")])
    else
      Task(Get(payload, "packages"), TaskTypeUpdate, map[])
  }

  /** The flag an accepted request writes, given the navigation menu. */
  function FlagOf(payload: Value, menu: seq<MenuItem>): TypeFlag {
    FlagFor(JobType(payload), Get(payload, "headerTitle"), menu)
  }

  /**
   * The accumulated message: the shape error, or the validator's text, or,
   * once validation is silent, whatever the updater reports.
   */
  function MessageFor(payload: Value, updaterError: string): string {
    if !WellFormedRequest(payload) then INVALID_REQUEST
    else if ValidationMessage(payload) != "" then ValidationMessage(payload)
    else updaterError
  }

  function ResponseFor(payload: Value, updaterError: string): Response {
    var message := MessageFor(payload, updaterError);
    Response(message == "", message)
  }

  /**
   * A payload without a package array or without a job type is refused with
   * exactly "Invalid request", is not validated and triggers nothing.
   */
  lemma MalformedRequestRejected(payload: Value, updaterError: string)
    requires !Isset(payload, "packages") || !IsArray(Get(payload, "packages")) || !Isset(payload, "type")
    ensures ResponseFor(payload, updaterError) == Response(false, "Invalid request")
    ensures !Accepted(payload)
  {
  }

  /**
   * The action succeeds exactly when the request is well formed, the
   * validator's conditions all hold and the updater reports nothing.
   */
  lemma SuccessIff(payload: Value, updaterError: string)
    ensures ResponseFor(payload, updaterError).success <==>
      && WellFormedRequest(payload)
      && (JobType(payload) != UNINSTALL || Isset(payload, "dataOption"))
      && (forall i :: 0 <= i < |Packages(payload)| ==> PackageComplete(Packages(payload)[i], JobType(payload)))
      && updaterError == ""
  {
  }

  /**
   * A well-formed request the validator objects to is answered with the
   * validator's text alone; the updater is not consulted.
   */
  lemma ValidationFailureReported(payload: Value, updaterError: string)
    requires WellFormedRequest(payload) && !Accepted(payload)
    ensures !ResponseFor(payload, updaterError).success
    ensures var m := ResponseFor(payload, updaterError).message;
      m == MISSING_DATA_OPTION || m == MISSING_PACKAGE_INFO || m == MISSING_DATA_OPTION + MISSING_PACKAGE_INFO
  {
  }

  /** Once accepted, the answer is the updater's: success exactly when it reports nothing. */
  lemma AcceptedReportsUpdater(payload: Value, updaterError: string)
    requires Accepted(payload)
    ensures ResponseFor(payload, updaterError) == Response(updaterError == "", updaterError)
  {
  }

  /**
   * An accepted uninstall job becomes an uninstall task whose only option is
   * the payload's data option, which is then known to be set.
   */
  lemma UninstallTask(payload: Value)
    requires Accepted(payload) && JobType(payload) == UNINSTALL
    ensures TaskFor(payload).taskType == TaskTypeUninstall
    ensures TaskFor(payload).options == map["dataOption" := Get(payload, "dataOption")]
    ensures Get(payload, "dataOption") != Null
    ensures TaskFor(payload).packages == Get(payload, "packages")
  {
  }

  /** Any other accepted job becomes an update task without options. */
  lemma UpdateTask(payload: Value)
    requires Accepted(payload) && JobType(payload) != UNINSTALL
    ensures TaskFor(payload) == Task(Get(payload, "packages"), TaskTypeUpdate, map[])
  {
  }
}
