/**
 * Inline editing of one task row (todo_frontend/src/components/TaskItem.jsx):
 * the `isEditing` and `draft` state and the guard that decides whether
 * `onRename` is called, and with which title.
 */
module TaskItemComponent {
  import opened Wrappers
  import opened Text
  import opened TaskTypes

  /**
   * The title `commitEdit` passes to `onRename`, if it calls it at all: the
   * trimmed draft, unless that is empty or already the task's title.
   */
  function RenameRequest(draft: string, current: string): (r: Option<string>)
    ensures r.None? <==> AllSpace(draft) || Trim(draft) == current
    ensures r.Some? ==> r.value == Trim(draft) && r.value != current
    ensures r.Some? ==> !IsSpace(r.value[0]) && !IsSpace(r.value[|r.value| - 1])
  {
    var next := Trim(draft);
    if next == "" || next == current then None else Some(next)
  }

  /** A requested title is never blank and is already trimmed. */
  lemma RenameRequestTrimmed(draft: string, current: string)
    requires RenameRequest(draft, current).Some?
    ensures var title := RenameRequest(draft, current).value;
              !AllSpace(title) && Trim(title) == title
  {
  }

  class TaskItem {
    var task: Task
    var disabled: bool
    var isEditing: bool
    var draft: string

    constructor (task: Task, disabled: bool)
      ensures this.task == task && this.disabled == disabled
      ensures !isEditing && draft == task.title
    {
      this.task := task;
      this.disabled := disabled;
      isEditing := false;
      draft := task.title;
    }

    /** New props, followed by the effect on `task.title`: a changed title resets the draft. */
    method Receive(task: Task, disabled: bool)
      modifies this
      ensures this.task == task && this.disabled == disabled && isEditing == old(isEditing)
      ensures task.title != old(this.task.title) ==> draft == task.title
      ensures task.title == old(this.task.title) ==> draft == old(draft)
    {
      var titleChanged := task.title != this.task.title;
      this.task := task;
      this.disabled := disabled;
      if titleChanged {
        draft := task.title;
      }
    }

    /** The edit field's `onChange`. */
    method Type(text: string)
      modifies this
      ensures draft == text
      ensures task == old(task) && disabled == old(disabled) && isEditing == old(isEditing)
    {
      draft := text;
    }

    /** `startEdit`: does nothing while disabled, otherwise enters edit mode. */
    method StartEdit()
      modifies this
      ensures isEditing == (old(isEditing) || !disabled)
      ensures task == old(task) && disabled == old(disabled) && draft == old(draft)
    {
      if disabled {
        return;
      }
      isEditing := true;
    }

    /** `cancelEdit`: the draft goes back to the title and edit mode ends. */
    method CancelEdit()
      modifies this
      ensures draft == task.title && !isEditing
      ensures task == old(task) && disabled == old(disabled)
    {
      draft := task.title;
      isEditing := false;
    }

    /**
     * `commitEdit`: returns the title `onRename` is called with, if it is called.
     * A blank draft is reverted; in every branch edit mode ends.
     */
    method CommitEdit() returns (renamed: Option<string>)
      modifies this
      ensures renamed == RenameRequest(old(draft), task.title)
      ensures !isEditing
      ensures AllSpace(old(draft)) ==> draft == task.title
      ensures !AllSpace(old(draft)) ==> draft == old(draft)
      ensures task == old(task) && disabled == old(disabled)
    {
      var next := Trim(draft);
      if next == "" {
        CancelEdit();
        renamed := None;
        return;
      }
      renamed := if next != task.title then Some(next) else None;
      isEditing := false;
    }

    /** `handleEditKeyDown`: Enter commits, Escape cancels, any other key does nothing. */
    method HandleEditKeyDown(key: string) returns (renamed: Option<string>)
      modifies this
      ensures key == "Enter" ==> renamed == RenameRequest(old(draft), task.title) && !isEditing
      ensures key == "Enter" ==> (AllSpace(old(draft)) ==> draft == task.title)
                                 && (!AllSpace(old(draft)) ==> draft == old(draft))
      ensures key == "Escape" ==> renamed == None && !isEditing && draft == task.title
      ensures key != "Enter" ==> renamed == None
      ensures key != "Enter" && key != "Escape" ==> isEditing == old(isEditing) && draft == old(draft)
      ensures task == old(task) && disabled == old(disabled)
    {
      renamed := None;
      if key == "Enter" {
        renamed := CommitEdit();
      } else if key == "Escape" {
        CancelEdit();
      }
    }
  }
}
