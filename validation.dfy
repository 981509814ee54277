/**
 * What `StartUpdater::validatePayload` reports about a request payload,
 * stated as a function of the payload. The controller's own loop, which
 * stops at the first incomplete package, is `Controller.StartUpdater.ValidatePayload`;
 * it is proved to return `ValidationMessage`.
 */
module Validation {
  import opened PhpValues

  /** PHP_EOL on the platforms the updater runs on. */
  const EOL := "\n"
  const MISSING_DATA_OPTION := "Missing dataOption" + EOL
  const MISSING_PACKAGE_INFO := "Missing package information" + EOL

  /** The job type that removes packages; every other job type updates them. */
  const UNINSTALL: Value := Str("uninstall")

  function JobType(payload: Value): Value {
    Get(payload, "type")
  }

  function Packages(payload: Value): seq<Value> {
    Elements(Get(payload, "packages"))
  }

  /** An uninstall job must say what to do with the package data. */
  predicate DataOptionMissing(payload: Value) {
    JobType(payload) == UNINSTALL && !Isset(payload, "dataOption")
  }

  /**
   * A package names itself and, for an uninstall job, its type; for any
   * other job, the version to move to.
   */
  predicate PackageComplete(package: Value, jobType: Value) {
    && Isset(package, "name")
    && (if jobType == UNINSTALL then Isset(package, "type") else Isset(package, "version"))
  }

  predicate AllPackagesComplete(payload: Value) {
    var packages := Packages(payload);
    forall i :: 0 <= i < |packages| ==> PackageComplete(packages[i], JobType(payload))
  }

  /**
   * One line for a missing data option, then one line if any package is
   * incomplete, however many are.
   */
  function ValidationMessage(payload: Value): string {
    (if DataOptionMissing(payload) then MISSING_DATA_OPTION else "")
    + (if AllPackagesComplete(payload) then "" else MISSING_PACKAGE_INFO)
  }

  /**
   * The validator is silent exactly when the uninstall job carries its data
   * option and every package has a name plus a version (other jobs) or a
   * type (uninstall jobs).
   */
  lemma ValidationEmptyIff(payload: Value)
    ensures ValidationMessage(payload) == "" <==>
      && (JobType(payload) != UNINSTALL || Isset(payload, "dataOption"))
      && forall i :: 0 <= i < |Packages(payload)| ==>
           && Isset(Packages(payload)[i], "name")
           && (JobType(payload) != UNINSTALL ==> Isset(Packages(payload)[i], "version"))
           && (JobType(payload) == UNINSTALL ==> Isset(Packages(payload)[i], "type"))
  {
  }

  /**
   * The validator's answer is one of four strings, so the package line
   * appears at most once and always after the data-option line.
   */
  lemma ValidationOutcomes(payload: Value)
    ensures var m := ValidationMessage(payload);
      || m == ""
      || m == MISSING_DATA_OPTION
      || m == MISSING_PACKAGE_INFO
      || m == MISSING_DATA_OPTION + MISSING_PACKAGE_INFO
  {
  }

  /** The data-option line is reported exactly when it is missing for an uninstall job. */
  lemma DataOptionLineIff(payload: Value)
    ensures var m := ValidationMessage(payload);
      (|m| >= |MISSING_DATA_OPTION| && m[..|MISSING_DATA_OPTION|] == MISSING_DATA_OPTION)
      <==> DataOptionMissing(payload)
  {
    var m := ValidationMessage(payload);
    if !DataOptionMissing(payload) && |m| >= |MISSING_DATA_OPTION| {
      assert m == MISSING_PACKAGE_INFO;
      assert m[8] != MISSING_DATA_OPTION[8];
    }
  }
}
