/** The Task record (backend/app/models/task.py): columns, validation and serialisation. */
module TaskModel {
  import opened Base
  import opened Text
  import CommentModel

  const TitleRequired := "Title is required and cannot be empty"
  const TitleTooLong := "Title cannot exceed 200 characters"
  const StatusInvalid := "Status must be one of: pending, in_progress, completed"
  const PriorityInvalid := "Priority must be one of: low, medium, high"

  const MaxTitleLength := 200

  const ValidStatuses: seq<string> := ["pending", "in_progress", "completed"]
  const ValidPriorities: seq<string> := ["low", "medium", "high"]

  /** Column defaults of `status` and `priority`. */
  const DefaultStatus := "pending"
  const DefaultPriority := "medium"

  /** A stored task row; text columns are None when the payload gave null or nothing. */
  datatype Task = Task(
    id: int,
    title: Option<string>,
    description: Option<string>,
    status: Option<string>,
    priority: Option<string>,
    dueDate: Option<Time>,
    createdAt: Time,
    updatedAt: Time)

  /** `not self.title or len(self.title.strip()) < 1`, stripped as Python strips. */
  predicate TitleBlank(title: Option<string>)
  {
    title.None? || IsBlank(Python, title.value)
  }

  /** `self.title and len(self.title) > 200`: the untrimmed length counts. */
  predicate TitleOverLimit(title: Option<string>)
  {
    title.Some? && |title.value| > MaxTitleLength
  }

  predicate StatusOk(status: Option<string>)
  {
    status.Some? && status.value in ValidStatuses
  }

  predicate PriorityOk(priority: Option<string>)
  {
    priority.Some? && priority.value in ValidPriorities
  }

  predicate IsValid(t: Task)
  {
    !TitleBlank(t.title) && !TitleOverLimit(t.title) && StatusOk(t.status) && PriorityOk(t.priority)
  }

  /** Position of a message in the order the checks run. */
  function Rank(e: string): nat
  {
    if e == TitleRequired then 0
    else if e == TitleTooLong then 1
    else if e == StatusInvalid then 2
    else 3
  }

  /** `errors` reports exactly the rules `t` breaks, once each, in the order they are checked. */
  predicate Explains(errors: seq<string>, t: Task)
  {
    && (TitleRequired in errors <==> TitleBlank(t.title))
    && (TitleTooLong in errors <==> TitleOverLimit(t.title))
    && (StatusInvalid in errors <==> !StatusOk(t.status))
    && (PriorityInvalid in errors <==> !PriorityOk(t.priority))
    && (forall e :: e in errors ==>
          e == TitleRequired || e == TitleTooLong || e == StatusInvalid || e == PriorityInvalid)
    && (forall i, j :: 0 <= i < j < |errors| ==> Rank(errors[i]) < Rank(errors[j]))
  }

  /** `Task.validate`: appends one message per broken rule. */
  method Validate(t: Task) returns (errors: seq<string>)
    ensures Explains(errors, t)
    ensures |errors| <= 4
    ensures errors == [] <==> IsValid(t)
  {
    MessageRanks();
    errors := [];
    if TitleBlank(t.title) {
      errors := errors + [TitleRequired];
    }
    if TitleOverLimit(t.title) {
      errors := errors + [TitleTooLong];
    }
    if !StatusOk(t.status) {
      errors := errors + [StatusInvalid];
    }
    if !PriorityOk(t.priority) {
      errors := errors + [PriorityInvalid];
    }
  }

  /** The four messages are distinct, so each has its own rank. */
  lemma MessageRanks()
    ensures Rank(TitleRequired) == 0 && Rank(TitleTooLong) == 1
    ensures Rank(StatusInvalid) == 2 && Rank(PriorityInvalid) == 3
  {
    assert |TitleRequired| != |TitleTooLong|;
    assert |StatusInvalid| != |TitleRequired| && |StatusInvalid| != |TitleTooLong|;
    assert |PriorityInvalid| != |TitleRequired| && |PriorityInvalid| != |TitleTooLong|;
    assert |PriorityInvalid| != |StatusInvalid|;
  }

  /**
   * Because the length rule reads the untrimmed title, a title of 201 spaces
   * breaks both title rules at once.
   */
  lemma WhitespaceTitleBreaksBothRules()
    ensures var title := Some(seq(201, _ => ' '));
      TitleBlank(title) && TitleOverLimit(title)
  {
  }

  /** The defaults are themselves accepted values. */
  lemma DefaultsAreValid()
    ensures StatusOk(Some(DefaultStatus)) && PriorityOk(Some(DefaultPriority))
  {
  }

  /** Ids of the comments attached to task `taskId` (the `comments` relationship). */
  function CommentsOf(comments: map<int, CommentModel.Comment>, taskId: int): (ids: set<int>)
    ensures forall id :: id in ids <==> id in comments && comments[id].taskId == taskId
  {
    set id | id in comments && comments[id].taskId == taskId
  }

  /** `Task.to_dict()`; timestamps stay instants (their ISO rendering is not modelled). */
  datatype TaskDict = TaskDict(
    id: int,
    title: Option<string>,
    description: Option<string>,
    status: Option<string>,
    priority: Option<string>,
    dueDate: Option<Time>,
    createdAt: Time,
    updatedAt: Time,
    commentsCount: nat)

  function ToDict(t: Task, comments: map<int, CommentModel.Comment>): (d: TaskDict)
    ensures d.commentsCount == |CommentsOf(comments, t.id)|
    ensures d.dueDate.None? <==> t.dueDate.None?
    ensures d.id == t.id && d.title == t.title && d.description == t.description
    ensures d.status == t.status && d.priority == t.priority && d.dueDate == t.dueDate
    ensures d.createdAt == t.createdAt && d.updatedAt == t.updatedAt
  {
    TaskDict(t.id, t.title, t.description, t.status, t.priority, t.dueDate,
             t.createdAt, t.updatedAt, |CommentsOf(comments, t.id)|)
  }

  /** A task with no attached comment reports a count of zero. */
  lemma NoCommentsCountZero(t: Task, comments: map<int, CommentModel.Comment>)
    requires forall id :: id in comments ==> comments[id].taskId != t.id
    ensures ToDict(t, comments).commentsCount == 0
  {
    var ids := CommentsOf(comments, t.id);
    assert forall id :: id !in ids;
    assert ids == {};
  }
}
