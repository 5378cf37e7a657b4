/**
 * The display helpers of a task card, frontend/src/components/TaskItem.js (the task
 * details view, frontend/src/components/TaskDetails.js, repeats the two colour mappings).
 */
module TaskItem {
  import opened Base
  import opened Text
  import TM = TaskModel

  const PreviewLength := 100
  const Ellipsis := "..."
  const CommentIcon := "\U{1F4AC}"

  /** The style class of a status badge; anything unknown, null included, looks pending. */
  function StatusColor(status: Option<string>): (cls: string)
    ensures status.Some? && status.value in TM.ValidStatuses ==> cls == "status-" + status.value
    ensures !(status.Some? && status.value in TM.ValidStatuses) ==> cls == "status-pending"
  {
    match status
    case Some("pending") => "status-pending"
    case Some("in_progress") => "status-in_progress"
    case Some("completed") => "status-completed"
    case _ => "status-pending"
  }

  /** The style class of a priority badge; anything unknown, null included, looks medium. */
  function PriorityColor(priority: Option<string>): (cls: string)
    ensures priority.Some? && priority.value in TM.ValidPriorities ==> cls == "priority-" + priority.value
    ensures !(priority.Some? && priority.value in TM.ValidPriorities) ==> cls == "priority-medium"
  {
    match priority
    case Some("high") => "priority-high"
    case Some("medium") => "priority-medium"
    case Some("low") => "priority-low"
    case _ => "priority-medium"
  }

  /** Distinct known statuses get distinct badges. */
  lemma StatusColorsDistinct(a: string, b: string)
    requires a in TM.ValidStatuses && b in TM.ValidStatuses
    requires StatusColor(Some(a)) == StatusColor(Some(b))
    ensures a == b
  {
    assert a == StatusColor(Some(a))[7..];
  }

  /** Distinct known priorities get distinct badges. */
  lemma PriorityColorsDistinct(a: string, b: string)
    requires a in TM.ValidPriorities && b in TM.ValidPriorities
    requires PriorityColor(Some(a)) == PriorityColor(Some(b))
    ensures a == b
  {
    assert a == PriorityColor(Some(a))[9..];
  }

  /**
   * The description line of a card: hidden when empty, the first 100 characters
   * followed by "..." when longer than that, the whole text otherwise.
   */
  function DescriptionPreview(description: Option<string>): (shown: Option<string>)
    ensures shown.None? <==> description.None? || description.value == ""
    ensures shown.Some? ==> |shown.value| <= PreviewLength + |Ellipsis|
    ensures shown.Some? && |description.value| <= PreviewLength ==> shown.value == description.value
    ensures shown.Some? && |description.value| > PreviewLength ==>
      && |shown.value| == PreviewLength + |Ellipsis|
      && shown.value[..PreviewLength] == description.value[..PreviewLength]
      && shown.value[PreviewLength..] == Ellipsis
  {
    if description.None? || description.value == "" then None
    else if |description.value| > PreviewLength then
      Some(description.value[..PreviewLength] + Ellipsis)
    else Some(description.value)
  }

  /** The status badge text: the first '_', and only that one, becomes a space. */
  function StatusLabel(status: string): (text: string)
    ensures |text| == |status|
    ensures forall i :: 0 <= i < |status| && text[i] != status[i] ==>
      status[i] == '_' && text[i] == ' ' && forall j :: 0 <= j < i ==> status[j] != '_'
    ensures forall i :: 0 <= i < |status| && status[i] == '_' && (forall j :: 0 <= j < i ==> status[j] != '_') ==>
      text[i] == ' '
  {
    var text := ReplaceFirst(status, '_', ' ');
    var k := FirstIndex(status, '_');
    assert forall i :: 0 <= i < |status| && status[i] == '_' ==> k <= i;
    text
  }

  /** Where the first '_' is at `k`, a label differs from its status at `k` alone. */
  lemma LabelChangesOnlyFirst(status: string, k: nat)
    requires k < |status| && status[k] == '_'
    requires forall j :: 0 <= j < k ==> status[j] != '_'
    ensures var text := StatusLabel(status);
      text[k] == ' ' && forall i :: 0 <= i < |status| && i != k ==> text[i] == status[i]
  {
    var text := StatusLabel(status);
    forall i | 0 <= i < |status| && i != k
      ensures text[i] == status[i]
    {
      if i > k {
        assert !(forall j :: 0 <= j < i ==> status[j] != '_') by {
          assert status[k] == '_';
        }
      } else {
        assert status[i] != '_';
      }
    }
  }

  /** `comment` or `comments`. */
  function PluralSuffix(count: int): (suffix: string)
    ensures count == 1 ==> suffix == ""
    ensures count != 1 ==> suffix == "s"
  {
    if count != 1 then "s" else ""
  }

  /** The comment counter of a card: shown only for a positive count, pluralised unless it is 1. */
  function CommentsCountLine(count: int): (line: Option<string>)
    ensures line.Some? <==> count > 0
    ensures line.Some? ==>
      var head := CommentIcon + " " + IntToString(count);
      |line.value| > |head| && line.value[..|head|] == head
    ensures line.Some? ==> (line.value[|line.value| - 1] == 's' <==> count != 1)
  {
    if count > 0 then
      var head := CommentIcon + " " + IntToString(count);
      var line := head + " comment" + PluralSuffix(count);
      assert line[..|head|] == head;
      Some(line)
    else None
  }

  /** What the status menu of a card reports: the task's id and the chosen value. */
  datatype StatusChange = StatusChange(taskId: int, status: string)

  /** The values the status menu offers. */
  const StatusOptions: seq<string> := ["pending", "in_progress", "completed"]

  function OnStatusSelect(task: TM.TaskDict, selected: string): (e: StatusChange)
    ensures e.taskId == task.id && e.status == selected
  {
    StatusChange(task.id, selected)
  }

  /** Every option of the status menu is a status the server accepts. */
  lemma StatusOptionsAreValid()
    ensures forall i :: 0 <= i < |StatusOptions| ==> TM.StatusOk(Some(StatusOptions[i]))
  {
  }
}
