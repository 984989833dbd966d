/** The details pane of the selected torrent (src/renderer/components/TorrentDetails.tsx):
    which files it shows as selected, which show progress, and the priority a click sends. */
module TorrentDetails {

  import opened Types

  /** A `setFilePriority(infoHash, fileIndex, priority)` call. */
  datatype PriorityCall = PriorityCall(infoHash: string, fileIndex: nat, priority: int)

  /** `handleToggleFile`'s new priority: 0 becomes 1, anything else becomes 0. */
  function ToggledPriority(current: int): (p: int)
    ensures p == 0 || p == 1
    ensures p == 1 <==> current == 0
  {
    if current == 0 then 1 else 0
  }

  /** `isSelected`: a file counts as selected once it has progress, and every file of an
      unfinished torrent does. */
  function IsSelected(t: Torrent, f: TorrentFile): (selected: bool)
    ensures !t.done ==> selected
    ensures t.done ==> (selected <==> f.progress > 0.0)
  {
    f.progress > 0.0 || !t.done
  }

  /** The progress line and bar are shown for a selected file that is not complete. */
  function ShowsProgress(t: Torrent, f: TorrentFile): (shown: bool)
    ensures shown ==> f.progress < 1.0
    ensures !t.done ==> (shown <==> f.progress < 1.0)
    ensures t.done ==> (shown <==> 0.0 < f.progress < 1.0)
  {
    IsSelected(t, f) && f.progress < 1.0
  }

  /** The call made by clicking file `k`: the current priority is 1 for a file shown as
      selected and 0 otherwise, and the toggle of it is sent. */
  function ClickCall(t: Torrent, k: nat): (c: PriorityCall)
    requires k < |t.files|
    ensures c.infoHash == t.infoHash && c.fileIndex == k
    ensures c.priority == 0 <==> IsSelected(t, t.files[k])
    ensures c.priority == 1 <==> !IsSelected(t, t.files[k])
  {
    PriorityCall(t.infoHash, k, ToggledPriority(if IsSelected(t, t.files[k]) then 1 else 0))
  }

  /** One rendered file row. */
  datatype FileRow = FileRow(fileIndex: nat, selected: bool, showsProgress: bool, click: PriorityCall)

  /** `torrent.files.map((file, index) => ...)`: one row per file, in order. */
  function FileRows(t: Torrent): (rows: seq<FileRow>)
    ensures |rows| == |t.files|
    ensures forall k :: 0 <= k < |rows| ==>
              && rows[k].fileIndex == k
              && rows[k].selected == IsSelected(t, t.files[k])
              && rows[k].showsProgress == ShowsProgress(t, t.files[k])
              && rows[k].click == ClickCall(t, k)
  {
    seq(|t.files|, k requires 0 <= k < |t.files| =>
      FileRow(k, IsSelected(t, t.files[k]), ShowsProgress(t, t.files[k]), ClickCall(t, k)))
  }

  /** While a torrent is unfinished, every file is shown as selected, so every click on
      one of its files asks for priority 0: the pane cannot re-select a file. */
  lemma UnfinishedClicksOnlyDeselect(t: Torrent, k: nat)
    requires !t.done && k < |t.files|
    ensures FileRows(t)[k].selected
    ensures FileRows(t)[k].click.priority == 0
  {
  }

  /** For a finished torrent a click sends 0 exactly for files with progress. */
  lemma FinishedClicksFollowProgress(t: Torrent, k: nat)
    requires t.done && k < |t.files|
    ensures FileRows(t)[k].click.priority == 0 <==> t.files[k].progress > 0.0
    ensures FileRows(t)[k].showsProgress <==> 0.0 < t.files[k].progress < 1.0
  {
  }
}
