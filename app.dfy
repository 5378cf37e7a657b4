/**
 * The task board of frontend/src/App.js: its state variables as fields and its
 * handlers as methods. Each handler takes the settled outcome of its request as a
 * parameter and returns the request it made.
 */
module App {
  import opened Base
  import opened Json
  import TM = TaskModel
  import Api
  import Store
  import TaskItem

  const CreateFailed := "Failed to create task. Please try again."
  const UpdateFailed := "Failed to update task. Please try again."
  const DeleteFailed := "Failed to delete task. Please try again."
  const AllFilter := "all"

  /** The banner after a failed load: the error's own message, framed by a fixed prefix and suffix. */
  function LoadFailed(message: string): (text: string)
    ensures |text| == |message| + 41
    ensures text[..22] == "Failed to load tasks: "
    ensures text[22..22 + |message|] == message
    ensures text[22 + |message|..] == ". Please try again."
  {
    "Failed to load tasks: " + message + ". Please try again."
  }

  // ---------------------------------------------------------------------------
  // The list transforms the handlers apply

  /** `prev.map(task => task.id === taskId ? updated : task)` */
  function ReplaceById(tasks: seq<TM.TaskDict>, taskId: int, updated: TM.TaskDict): (r: seq<TM.TaskDict>)
    ensures |r| == |tasks|
    ensures forall i :: 0 <= i < |tasks| && tasks[i].id != taskId ==> r[i] == tasks[i]
    ensures forall i :: 0 <= i < |tasks| && tasks[i].id == taskId ==> r[i] == updated
  {
    seq(|tasks|, i requires 0 <= i < |tasks| => if tasks[i].id == taskId then updated else tasks[i])
  }

  /** When the server returns the task under the same id, the list's ids do not move. */
  lemma ReplaceByIdKeepsIds(tasks: seq<TM.TaskDict>, updated: TM.TaskDict)
    ensures var r := ReplaceById(tasks, updated.id, updated);
      forall i :: 0 <= i < |tasks| ==> r[i].id == tasks[i].id
  {
  }

  /** Replacing twice with the same task is replacing once. */
  lemma ReplaceByIdIdempotent(tasks: seq<TM.TaskDict>, updated: TM.TaskDict)
    ensures ReplaceById(ReplaceById(tasks, updated.id, updated), updated.id, updated)
            == ReplaceById(tasks, updated.id, updated)
  {
  }

  /** `prev.filter(task => task.id !== taskId)` */
  function RemoveById(tasks: seq<TM.TaskDict>, taskId: int): (r: seq<TM.TaskDict>)
    ensures |r| <= |tasks|
    ensures forall t :: t in r <==> t in tasks && t.id != taskId
  {
    if tasks == [] then []
    else (if tasks[0].id != taskId then [tasks[0]] else []) + RemoveById(tasks[1..], taskId)
  }

  /** Filtering a concatenation filters each part in place: the kept entries keep their order. */
  lemma {:induction false} RemoveByIdAppend(a: seq<TM.TaskDict>, b: seq<TM.TaskDict>, taskId: int)
    ensures RemoveById(a + b, taskId) == RemoveById(a, taskId) + RemoveById(b, taskId)
  {
    if a != [] {
      assert (a + b)[1..] == a[1..] + b;
      RemoveByIdAppend(a[1..], b, taskId);
    } else {
      assert a + b == b;
    }
  }

  /** A list without that id is left exactly as it was. */
  lemma {:induction false} RemoveByIdAbsent(tasks: seq<TM.TaskDict>, taskId: int)
    requires forall i :: 0 <= i < |tasks| ==> tasks[i].id != taskId
    ensures RemoveById(tasks, taskId) == tasks
  {
    if tasks != [] {
      RemoveByIdAbsent(tasks[1..], taskId);
    }
  }

  /** Deleting a task that was just prepended restores the list it was prepended to. */
  lemma RemoveAfterPrepend(tasks: seq<TM.TaskDict>, created: TM.TaskDict)
    requires forall i :: 0 <= i < |tasks| ==> tasks[i].id != created.id
    ensures RemoveById([created] + tasks, created.id) == tasks
  {
    RemoveByIdAppend([created], tasks, created.id);
    RemoveByIdAbsent(tasks, created.id);
  }

  /** The body a status change sends. */
  /** `{ status: newStatus }`: a body the server takes as data, carrying the status alone. */
  function StatusPayload(status: string): (body: Object)
    ensures body.Keys == {"status"} && Get(body, "status") == Some(status)
    ensures !NoData(Some(body))
  {
    map["status" := Str(status)]
  }

  /**
   * A status picked from a card's menu, applied by the server's update to a valid
   * task, changes the status alone and leaves the task valid.
   */
  lemma StatusChangeStaysValid(t: TM.Task, i: nat, parseIso: string -> Option<Base.Time>)
    requires TM.IsValid(t) && i < |TaskItem.StatusOptions|
    ensures var data := StatusPayload(TaskItem.StatusOptions[i]);
      var merged := Store.MergeTask(t, data, Store.DueOf(data, parseIso));
      && !NoData(Some(data))
      && merged.status == Some(TaskItem.StatusOptions[i])
      && merged.(status := t.status) == t
      && TM.IsValid(merged)
  {
    var data := StatusPayload(TaskItem.StatusOptions[i]);
    assert data != map[] by {
      assert "status" in data;
    }
    TaskItem.StatusOptionsAreValid();
  }

  class Controller {
    var tasks: seq<TM.TaskDict>
    var loading: bool
    var error: Option<string>
    var showCreateModal: bool
    var showEditModal: bool
    var showDetailsModal: bool
    var showAboutModal: bool
    var selectedTask: Option<TM.TaskDict>
    var statusFilter: string
    var priorityFilter: string

    constructor ()
      ensures tasks == [] && loading && error == None
      ensures !showCreateModal && !showEditModal && !showDetailsModal && !showAboutModal
      ensures selectedTask == None
      ensures statusFilter == AllFilter && priorityFilter == AllFilter
    {
      tasks := [];
      loading := true;
      error := None;
      showCreateModal := false;
      showEditModal := false;
      showDetailsModal := false;
      showAboutModal := false;
      selectedTask := None;
      statusFilter := AllFilter;
      priorityFilter := AllFilter;
    }

    /** `loadTasks`: a refresh replaces the whole list; a failed one keeps it and reports why. */
    method LoadTasks(reply: Api.Reply<seq<TM.TaskDict>>) returns (call: Api.Call)
      modifies this
      ensures call == Api.GetTasks(Some(statusFilter), Some(priorityFilter))
      ensures !loading
      ensures reply.Resolved? ==> tasks == reply.value && error == None
      ensures reply.Rejected? ==> tasks == old(tasks) && error == Some(LoadFailed(reply.message))
      ensures unchanged(this`showCreateModal, this`showEditModal, this`showDetailsModal, this`showAboutModal)
      ensures unchanged(this`selectedTask, this`statusFilter, this`priorityFilter)
    {
      loading := true;
      call := Api.GetTasks(Some(statusFilter), Some(priorityFilter));
      match reply {
        case Resolved(fetched) =>
          tasks := fetched;
          error := None;
        case Rejected(message) =>
          error := Some(LoadFailed(message));
      }
      loading := false;
    }

    /** `handleCreateTask`: the new task goes first; a failure is reported and re-raised. */
    method CreateTask(taskData: Object, reply: Api.Reply<TM.TaskDict>) returns (call: Api.Call, raised: bool)
      modifies this
      ensures call == Api.CreateTask(taskData)
      ensures raised <==> reply.Rejected?
      ensures reply.Resolved? ==>
        tasks == [reply.value] + old(tasks) && !showCreateModal && error == None
      ensures reply.Rejected? ==>
        tasks == old(tasks) && showCreateModal == old(showCreateModal) && error == Some(CreateFailed)
      ensures unchanged(this`loading, this`showEditModal, this`showDetailsModal, this`showAboutModal)
      ensures unchanged(this`selectedTask, this`statusFilter, this`priorityFilter)
    {
      call := Api.CreateTask(taskData);
      match reply {
        case Resolved(created) =>
          tasks := [created] + tasks;
          showCreateModal := false;
          error := None;
          raised := false;
        case Rejected(_) =>
          error := Some(CreateFailed);
          raised := true;
      }
    }

    /** `handleUpdateTask`: entries with that id are replaced in place; a failure is reported and re-raised. */
    method UpdateTask(taskId: int, taskData: Object, reply: Api.Reply<TM.TaskDict>)
      returns (call: Api.Call, raised: bool)
      modifies this
      ensures call == Api.UpdateTask(taskId, taskData)
      ensures raised <==> reply.Rejected?
      ensures reply.Resolved? ==>
        && tasks == ReplaceById(old(tasks), taskId, reply.value)
        && !showEditModal && selectedTask == None && error == None
      ensures reply.Rejected? ==>
        && tasks == old(tasks) && error == Some(UpdateFailed)
        && showEditModal == old(showEditModal) && selectedTask == old(selectedTask)
      ensures unchanged(this`loading, this`showCreateModal, this`showDetailsModal, this`showAboutModal)
      ensures unchanged(this`statusFilter, this`priorityFilter)
    {
      call := Api.UpdateTask(taskId, taskData);
      match reply {
        case Resolved(updated) =>
          tasks := ReplaceById(tasks, taskId, updated);
          showEditModal := false;
          selectedTask := None;
          error := None;
          raised := false;
        case Rejected(_) =>
          error := Some(UpdateFailed);
          raised := true;
      }
    }

    /** `handleDeleteTask`: nothing at all without confirmation; a failure is reported, not re-raised. */
    method DeleteTask(taskId: int, confirmed: bool, reply: Api.Reply<()>) returns (call: Option<Api.Call>)
      modifies this
      ensures !confirmed ==> call == None && unchanged(this)
      ensures confirmed ==> call == Some(Api.DeleteTask(taskId))
      ensures confirmed && reply.Resolved? ==>
        && tasks == RemoveById(old(tasks), taskId)
        && !showDetailsModal && selectedTask == None && error == None
      ensures confirmed && reply.Rejected? ==>
        && tasks == old(tasks) && error == Some(DeleteFailed)
        && showDetailsModal == old(showDetailsModal) && selectedTask == old(selectedTask)
      ensures unchanged(this`loading, this`showCreateModal, this`showEditModal, this`showAboutModal)
      ensures unchanged(this`statusFilter, this`priorityFilter)
    {
      if !confirmed {
        return None;
      }
      call := Some(Api.DeleteTask(taskId));
      match reply {
        case Resolved(_) =>
          tasks := RemoveById(tasks, taskId);
          showDetailsModal := false;
          selectedTask := None;
          error := None;
        case Rejected(_) =>
          error := Some(DeleteFailed);
      }
    }

    /** `handleStatusChange`: an update whose body is the new status alone. */
    method ChangeStatus(change: TaskItem.StatusChange, reply: Api.Reply<TM.TaskDict>) returns (call: Api.Call)
      modifies this
      ensures call == Api.UpdateTask(change.taskId, StatusPayload(change.status))
      ensures reply.Resolved? ==>
        && tasks == ReplaceById(old(tasks), change.taskId, reply.value)
        && !showEditModal && selectedTask == None && error == None
      ensures reply.Rejected? ==>
        && tasks == old(tasks) && error == Some(UpdateFailed)
        && showEditModal == old(showEditModal) && selectedTask == old(selectedTask)
      ensures unchanged(this`loading, this`showCreateModal, this`showDetailsModal, this`showAboutModal)
      ensures unchanged(this`statusFilter, this`priorityFilter)
    {
      var unawaited;
      call, unawaited := UpdateTask(change.taskId, StatusPayload(change.status), reply);
    }

    /** `handleViewTask` */
    method ViewTask(task: TM.TaskDict)
      modifies this
      ensures selectedTask == Some(task) && showDetailsModal
      ensures unchanged(this`tasks, this`loading, this`error, this`showCreateModal, this`showEditModal)
      ensures unchanged(this`showAboutModal, this`statusFilter, this`priorityFilter)
    {
      selectedTask := Some(task);
      showDetailsModal := true;
    }

    /** `handleEditTask` */
    method EditTask(task: TM.TaskDict)
      modifies this
      ensures selectedTask == Some(task) && showEditModal
      ensures unchanged(this`tasks, this`loading, this`error, this`showCreateModal, this`showDetailsModal)
      ensures unchanged(this`showAboutModal, this`statusFilter, this`priorityFilter)
    {
      selectedTask := Some(task);
      showEditModal := true;
    }

    /** The details view's Edit button: the details close and the editor opens on the same task. */
    method EditFromDetails()
      modifies this
      ensures !showDetailsModal && showEditModal
      ensures unchanged(this`tasks, this`loading, this`error, this`showCreateModal, this`selectedTask)
      ensures unchanged(this`showAboutModal, this`statusFilter, this`priorityFilter)
    {
      showDetailsModal := false;
      showEditModal := true;
    }

    /** Closing the editor or the details view also drops the selection. */
    method CloseEditModal()
      modifies this
      ensures !showEditModal && selectedTask == None
      ensures unchanged(this`tasks, this`loading, this`error, this`showCreateModal, this`showDetailsModal)
      ensures unchanged(this`showAboutModal, this`statusFilter, this`priorityFilter)
    {
      showEditModal := false;
      selectedTask := None;
    }

    method CloseDetailsModal()
      modifies this
      ensures !showDetailsModal && selectedTask == None
      ensures unchanged(this`tasks, this`loading, this`error, this`showCreateModal, this`showEditModal)
      ensures unchanged(this`showAboutModal, this`statusFilter, this`priorityFilter)
    {
      showDetailsModal := false;
      selectedTask := None;
    }

    /** The create and about dialogs only toggle their own flag. */
    method SetCreateModal(open: bool)
      modifies this`showCreateModal
      ensures showCreateModal == open
    {
      showCreateModal := open;
    }

    method SetAboutModal(open: bool)
      modifies this`showAboutModal
      ensures showAboutModal == open
    {
      showAboutModal := open;
    }

    method DismissError()
      modifies this`error
      ensures error == None
    {
      error := None;
    }

    /**
     * A filter button. The list reloads (`loadTasks` runs again) only when the
     * filter actually changes, since the reload effect depends on its value.
     */
    method SetStatusFilter(value: string) returns (reload: bool)
      modifies this`statusFilter
      ensures statusFilter == value
      ensures reload <==> value != old(statusFilter)
    {
      reload := value != statusFilter;
      statusFilter := value;
    }

    method SetPriorityFilter(value: string) returns (reload: bool)
      modifies this`priorityFilter
      ensures priorityFilter == value
      ensures reload <==> value != old(priorityFilter)
    {
      reload := value != priorityFilter;
      priorityFilter := value;
    }
  }
}
