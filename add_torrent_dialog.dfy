/** The add dialog (src/renderer/components/AddTorrentDialog.tsx): a text cell holding the
    magnet link, a guarded submit and the file button. */
module AddTorrentDialog {

  import opened Options
  import opened JsText

  /** The argument the file button passes to `onAdd`. */
  const FileSentinel: string := "file"

  class AddDialog {
    /** The `magnetLink` state cell. */
    var magnetLink: string

    constructor ()
      ensures magnetLink == ""
    {
      magnetLink := "";
    }

    /** The submit button's `disabled` attribute. */
    function SubmitDisabled(): (disabled: bool)
      reads this
      ensures disabled <==> AllWhitespace(magnetLink)
    {
      TrimEmptyIff(magnetLink);
      Trim(magnetLink) == ""
    }

    /** The input's `onChange`. */
    method OnChange(text: string)
      modifies this`magnetLink
      ensures magnetLink == text
    {
      magnetLink := text;
    }

    /** `handleSubmit`: with a non-blank input, pass the trimmed text to `onAdd` and clear
        the input; with a blank one, do nothing. */
    method HandleSubmit() returns (added: Option<string>)
      modifies this`magnetLink
      ensures added.Some? <==> !AllWhitespace(old(magnetLink))
      ensures added.Some? ==> added.value == Trim(old(magnetLink)) && magnetLink == ""
      ensures added.None? ==> magnetLink == old(magnetLink)
    {
      TrimEmptyIff(magnetLink);
      var trimmed := Trim(magnetLink);
      if trimmed != "" {
        added := Some(trimmed);
        magnetLink := "";
      } else {
        added := None;
      }
    }

    /** `handleFileSelect`. */
    method HandleFileSelect() returns (arg: string)
      ensures arg == FileSentinel
    {
      arg := FileSentinel;
    }
  }

  /** What a submit passes on is already trimmed and never blank. */
  lemma SubmittedTextIsTrimmed(text: string)
    requires !AllWhitespace(text)
    ensures Trim(Trim(text)) == Trim(text) && Trim(text) != ""
  {
    TrimIdempotent(text);
    TrimEmptyIff(text);
  }
}
