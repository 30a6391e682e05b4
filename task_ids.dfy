/**
 * The task-identifier helpers of the util package (`util.IsPackageTask`,
 * `util.GetPackageTaskFromId`, `util.RootTaskID`, `util.StripPackageName`).
 * That package is not part of this model, so the helpers are an arbitrary
 * record of functions that every operation using them takes as a parameter;
 * no property proved here depends on what they compute, except where a
 * statement names an assumption about them explicitly.
 */
module TaskIds {

  datatype Naming = Naming(
    /** `util.IsPackageTask`: is the identifier of the form `<package>#<task>`? */
    isPackageTask: string -> bool,
    /** The task half of `util.GetPackageTaskFromId`. */
    taskOfId: string -> string,
    /** `util.RootTaskID`: the identifier of a task of the root package. */
    rootTaskId: string -> string,
    /** `util.StripPackageName`: the identifier with any package part removed. */
    stripPackageName: string -> string)

  /**
   * The root identifier of `task` names `task` again, directly or as the
   * task half of a package task (true of `//#<task>` for a task name without `#`).
   */
  predicate RootIdNamesTask(ids: Naming, task: string) {
    var id := ids.rootTaskId(task);
    id == task || (ids.isPackageTask(id) && ids.taskOfId(id) == task)
  }
}
