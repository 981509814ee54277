/**
 * The `StartUpdater` controller of the setup application and the three
 * collaborators it is given: the writable `var` directory, the navigation
 * model and the updater model. The collaborators keep only what the
 * controller can observe of them.
 */
module Controller {
  import opened PhpValues
  import opened Validation
  import opened TypeFlags
  import opened Dispatch

  datatype Option<T> = None | Some(value: T)

  /** The application's `var` directory; only the `.type.json` flag file is kept. */
  class VarDirectory {
    var typeFile: Option<TypeFlag>

    constructor()
      ensures typeFile == None
    {
      typeFile := None;
    }

    /** Writing the flag file replaces whatever it held. */
    method WriteTypeFile(flag: TypeFlag)
      modifies this
      ensures typeFile == Some(flag)
    {
      typeFile := Some(flag);
    }
  }

  /** The navigation model, reduced to the menu items it hands out. */
  class Navigation {
    const menuItems: seq<MenuItem>

    constructor(menuItems: seq<MenuItem>)
      ensures this.menuItems == menuItems
    {
      this.menuItems := menuItems;
    }
  }

  /**
   * The updater model: it records every task it is asked to create and
   * answers each request with the same error text (`""` when it accepts).
   */
  class Updater {
    const errorText: string
    var tasks: seq<Task>

    constructor(errorText: string)
      ensures this.errorText == errorText && tasks == []
    {
      this.errorText := errorText;
      tasks := [];
    }

    method CreateUpdaterTask(packages: Value, taskType: TaskType, options: map<string, Value>)
      returns (error: string)
      modifies this
      ensures tasks == old(tasks) + [Task(packages, taskType, options)]
      ensures error == errorText
    {
      tasks := tasks + [Task(packages, taskType, options)];
      error := errorText;
    }
  }

  class StartUpdater {
    const varDirectory: VarDirectory
    const navigation: Navigation
    const updater: Updater

    constructor(varDirectory: VarDirectory, navigation: Navigation, updater: Updater)
      ensures this.varDirectory == varDirectory
      ensures this.navigation == navigation
      ensures this.updater == updater
    {
      this.varDirectory := varDirectory;
      this.navigation := navigation;
      this.updater := updater;
    }

    /**
     * Handles the update request: checks its shape, validates it, and only
     * then writes the flag and hands the task to the updater.
     */
    method UpdateAction(payload: Value) returns (response: Response)
      modifies varDirectory, updater
      ensures response == ResponseFor(payload, updater.errorText)
      ensures response.success <==> response.message == ""
      ensures varDirectory.typeFile ==
        if Accepted(payload) then Some(FlagOf(payload, navigation.menuItems)) else old(varDirectory.typeFile)
      ensures updater.tasks == old(updater.tasks) + if Accepted(payload) then [TaskFor(payload)] else []
    {
      var errorMessage := "";
      if Isset(payload, "packages") && IsArray(Get(payload, "packages")) && Isset(payload, "type") {
        var validation := ValidatePayload(payload);
        errorMessage := errorMessage + validation;
        if errorMessage == "" {
          var packages := Get(payload, "packages");
          var jobType := Get(payload, "type");
          CreateTypeFlag(jobType, Get(payload, "headerTitle"));
          var additionalOptions: map<string, Value> := map[];
          var cronTaskType;
          if jobType == UNINSTALL {
            additionalOptions := map["dataOption" := Get(payload, "dataOption")];
            cronTaskType := TaskTypeUninstall;
          } else {
            cronTaskType := TaskTypeUpdate;
          }
          var updaterError := updater.CreateUpdaterTask(packages, cronTaskType, additionalOptions);
          errorMessage := errorMessage + updaterError;
        }
      } else {
        errorMessage := errorMessage + INVALID_REQUEST;
      }
      response := Response(errorMessage == "", errorMessage);
    }

    /**
     * Checks the data option of an uninstall job, then the packages one by
     * one, stopping at the first incomplete one.
     */
    method ValidatePayload(payload: Value) returns (errorMessage: string)
      ensures errorMessage == ValidationMessage(payload)
    {
      errorMessage := "";
      var packages := Elements(Get(payload, "packages"));
      var jobType := Get(payload, "type");
      assert packages == Packages(payload) && jobType == JobType(payload);
      if jobType == UNINSTALL && !Isset(payload, "dataOption") {
        errorMessage := errorMessage + MISSING_DATA_OPTION;
      }
      var i := 0;
      while i < |packages|
        invariant 0 <= i <= |packages|
        invariant forall j :: 0 <= j < i ==> PackageComplete(packages[j], jobType)
        invariant errorMessage == if DataOptionMissing(payload) then MISSING_DATA_OPTION else ""
      {
        var package := packages[i];
        if || !Isset(package, "name")
           || (jobType != UNINSTALL && !Isset(package, "version"))
           || (jobType == UNINSTALL && !Isset(package, "type"))
        {
          errorMessage := errorMessage + MISSING_PACKAGE_INFO;
          break;
        }
        i := i + 1;
      }
    }

    /**
     * Writes the flag for `jobType`: the header title and, in menu order, the
     * titles of the menu items of that type with newlines turned into `<br />`.
     */
    method CreateTypeFlag(jobType: Value, headerTitle: Value)
      modifies varDirectory
      ensures varDirectory.typeFile == Some(FlagFor(jobType, headerTitle, navigation.menuItems))
    {
      var menuItems := navigation.menuItems;
      var titles: seq<string> := [];
      var i := 0;
      while i < |menuItems|
        invariant 0 <= i <= |menuItems|
        invariant titles == MatchingTitles(menuItems[..i], jobType)
      {
        var menuItem := menuItems[i];
        assert menuItems[..i + 1][..i] == menuItems[..i];
        if menuItem.kind != Null && menuItem.kind == jobType {
          titles := titles + [ReplaceNewlines(menuItem.title)];
        }
        i := i + 1;
      }
      assert menuItems[..i] == menuItems;
      varDirectory.WriteTypeFile(TypeFlag(jobType, headerTitle, titles));
    }
  }
}
