/** The torrent list (src/renderer/components/TorrentList.tsx): the per-row decisions and
    the remove handler. */
module TorrentList {

  import opened Options
  import opened Types

  datatype StatusIcon = DoneIcon | PausedIcon | DownloadingIcon
  datatype ActionButton = ResumeButton | PauseButton

  /** The status icon: done wins over paused, paused over downloading. */
  function Status(t: Torrent): (icon: StatusIcon)
    ensures icon == DoneIcon <==> t.done
    ensures icon == PausedIcon <==> !t.done && t.paused
    ensures icon == DownloadingIcon <==> !t.done && !t.paused
  {
    if t.done then DoneIcon else if t.paused then PausedIcon else DownloadingIcon
  }

  /** The ETA is shown only for a torrent that is neither done nor paused. */
  function ShowsEta(t: Torrent): (shown: bool)
    ensures shown <==> Status(t) == DownloadingIcon
    ensures shown ==> Action(t) == PauseButton
  {
    !t.done && !t.paused
  }

  /** The suffix after the file count: plural unless there is exactly one file. */
  function FileCountSuffix(n: nat): (suffix: string)
    ensures suffix == "" <==> n == 1
  {
    if n != 1 then "s" else ""
  }

  function Action(t: Torrent): (b: ActionButton)
    ensures b == ResumeButton <==> t.paused
  {
    if t.paused then ResumeButton else PauseButton
  }

  /** `selectedTorrent?.infoHash === torrent.infoHash`. */
  function IsHighlighted(sel: Option<Torrent>, t: Torrent): (lit: bool)
    ensures sel.None? ==> !lit
    ensures sel.Some? ==> (lit <==> sel.value.infoHash == t.infoHash)
    ensures sel == Some(t) ==> lit
  {
    sel.Some? && sel.value.infoHash == t.infoHash
  }

  /** A `removeTorrent(infoHash, deleteFiles)` call. */
  datatype RemoveCall = RemoveCall(infoHash: string, deleteFiles: bool)

  /** `handleRemove`: `confirm` answers a boolean, which is never null, so the call is
      always made, asking to delete files exactly when the user confirmed. */
  function HandleRemove(t: Torrent, confirmed: bool): (c: RemoveCall)
    ensures c.infoHash == t.infoHash && c.deleteFiles == confirmed
  {
    RemoveCall(t.infoHash, confirmed)
  }

  datatype Row = Row(infoHash: string, highlighted: bool, icon: StatusIcon, showsEta: bool,
                     fileCountSuffix: string, action: ActionButton)

  datatype ListView = EmptyState | Rows(rows: seq<Row>)

  /** One row: keyed by infoHash, the ETA only beside the downloading icon, Resume only
      for a paused torrent, a plural label unless there is exactly one file. */
  function RowFor(sel: Option<Torrent>, t: Torrent): (row: Row)
    ensures row.infoHash == t.infoHash
    ensures row.highlighted == IsHighlighted(sel, t)
    ensures row.showsEta <==> row.icon == DownloadingIcon
    ensures row.action == ResumeButton <==> t.paused
    ensures row.fileCountSuffix == "" <==> |t.files| == 1
  {
    Row(t.infoHash, IsHighlighted(sel, t), Status(t), ShowsEta(t), FileCountSuffix(|t.files|), Action(t))
  }

  /** The rendered list: the empty state for no torrents, otherwise one row per torrent in order. */
  function Render(ts: seq<Torrent>, sel: Option<Torrent>): (v: ListView)
    ensures v == EmptyState <==> ts == []
    ensures v.Rows? ==> |v.rows| == |ts|
    ensures v.Rows? ==> forall i :: 0 <= i < |ts| ==> v.rows[i] == RowFor(sel, ts[i])
  {
    if ts == [] then EmptyState else Rows(seq(|ts|, i requires 0 <= i < |ts| => RowFor(sel, ts[i])))
  }

  /** At most one infoHash is highlighted: every highlighted row carries the selection's infoHash. */
  lemma HighlightMatchesSelection(ts: seq<Torrent>, sel: Option<Torrent>, i: nat)
    requires i < |ts|
    ensures Render(ts, sel).Rows?
    ensures Render(ts, sel).rows[i].highlighted <==> sel.Some? && ts[i].infoHash == sel.value.infoHash
    ensures sel.None? ==> !Render(ts, sel).rows[i].highlighted
  {
  }
}
