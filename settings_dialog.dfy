/** The settings form (src/renderer/components/SettingsDialog.tsx): single-field edits,
    the directory picker, submission, and the text shown for and read from the two
    bandwidth-limit inputs. */
module SettingsDialog {

  import opened Options
  import opened Types
  import JsText

  /** `handleChange(field, value)`: `{ ...formData, [field]: value }`. */
  function HandleChange(form: Settings, f: Field, v: Value): (r: Settings)
    requires Fits(f, v)
    ensures Get(r, f) == v
    ensures forall g :: g != f ==> Get(r, g) == Get(form, g)
  {
    Merge(form, map[f := v])
  }

  /** `handleSelectDirectory`: a null or empty answer leaves the form alone,
      any other answer replaces the download path only. `form` is the form the closure
      captured when Browse was clicked; the directory dialog has no parent window, so
      edits made to the form while it is open are overwritten by this result. */
  function HandleSelectDirectory(form: Settings, dir: Option<string>): (r: Settings)
    ensures dir.None? || dir.value == "" ==> r == form
    ensures dir.Some? && dir.value != "" ==> r == form.(downloadPath := dir.value)
    ensures forall g :: g != DownloadPath ==> Get(r, g) == Get(form, g)
  {
    if dir.Some? && dir.value != "" then HandleChange(form, DownloadPath, Str(dir.value)) else form
  }

  /** `handleSubmit`: `onSave(formData)` receives the whole form. */
  function SubmitPayload(form: Settings): (p: PartialSettings)
    ensures WellTyped(p)
    ensures forall s :: Merge(s, p) == form
  {
    MergeFull(form);
    Full(form)
  }

  /** The input's `value` for a limit: empty for -1 (unlimited), the number otherwise. */
  function DisplayLimit(limit: int): (text: string)
    ensures text == "" <==> limit == -1
  {
    if limit == -1 then "" else JsText.IntToString(limit)
  }

  /** The `onChange` reading of a limit input: empty text is -1, other text goes through
      `parseInt`, which gives None (NaN) when no digits start it. */
  function ParseLimit(text: string): (r: Option<int>)
    ensures text == "" ==> r == Some(-1)
    ensures text != "" ==> r == JsText.ParseInt(text)
    ensures text != "" && JsText.AllDigits(text) ==> r == Some(JsText.DigitsValue(text) as int)
  {
    if text == "" then Some(-1)
    else
      assert JsText.AllDigits(text) ==> JsText.ParseInt(text) == Some(JsText.DigitsValue(text) as int) by {
        if JsText.AllDigits(text) { JsText.ParseIntOfDigits(text); }
      }
      JsText.ParseInt(text)
  }

  /** Showing a limit and reading the shown text back gives the same limit. */
  lemma LimitRoundTrip(limit: int)
    ensures ParseLimit(DisplayLimit(limit)) == Some(limit)
  {
    if limit != -1 {
      JsText.ParseIntToString(limit);
    }
  }
}
