/** The new-task form (todo_frontend/src/components/TaskInput.jsx). */
module TaskInputComponent {
  import opened Wrappers
  import opened Text

  /** `canSubmit`: enabled, and the title holds a character that is not white space. */
  function CanSubmit(title: string, disabled: bool): (ok: bool)
    ensures ok <==> !disabled && exists i :: 0 <= i < |title| && !IsSpace(title[i])
  {
    |Trim(title)| > 0 && !disabled
  }

  class TaskInput {
    var title: string
    var disabled: bool

    constructor (disabled: bool)
      ensures title == "" && this.disabled == disabled
    {
      title := "";
      this.disabled := disabled;
    }

    /** The input's `onChange`. */
    method Type(text: string)
      modifies this
      ensures title == text && disabled == old(disabled)
    {
      title := text;
    }

    /** A new `disabled` prop. */
    method SetDisabled(disabled: bool)
      modifies this
      ensures this.disabled == disabled && title == old(title)
    {
      this.disabled := disabled;
    }

    /**
     * `handleSubmit`: returns the title `onAdd` is called with, if it is called.
     * The field is cleared before `onAdd` runs; a refused submit changes nothing.
     */
    method HandleSubmit() returns (added: Option<string>)
      modifies this
      ensures !CanSubmit(old(title), disabled) ==> added == None && title == old(title)
      ensures CanSubmit(old(title), disabled) ==> added == Some(Trim(old(title))) && title == ""
      ensures added.Some? ==> !AllSpace(added.value) && Trim(added.value) == added.value
      ensures disabled == old(disabled)
    {
      if !CanSubmit(title, disabled) {
        return None;
      }
      var next := Trim(title);
      TrimIdempotent(title);
      title := "";
      added := Some(next);
    }
  }
}
