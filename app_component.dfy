/** The renderer's top-level component (src/renderer/App.tsx): its state cells, the
    listener for pushed updates and the handlers it passes to the dialogs. An IPC call
    is represented by its settlement, which the caller supplies. */
module AppComponent {

  import opened Options
  import opened Types

  /** The first torrent of the list with the given infoHash (`Array.prototype.find`). */
  function FindByHash(ts: seq<Torrent>, h: string): (r: Option<Torrent>)
    ensures r.Some? ==> r.value.infoHash == h
    ensures r.Some? ==> exists i :: 0 <= i < |ts| && ts[i] == r.value
                                    && forall j :: 0 <= j < i ==> ts[j].infoHash != h
    ensures r.None? <==> forall i :: 0 <= i < |ts| ==> ts[i].infoHash != h
  {
    if ts == [] then None
    else if ts[0].infoHash == h then Some(ts[0])
    else
      var r := FindByHash(ts[1..], h);
      assert r.Some? ==> exists i :: 0 <= i < |ts| && ts[i] == r.value
                                    && forall j :: 0 <= j < i ==> ts[j].infoHash != h by {
        if r.Some? {
          var i :| 0 <= i < |ts[1..]| && ts[1..][i] == r.value
                   && forall j :: 0 <= j < i ==> ts[1..][j].infoHash != h;
          assert ts[i + 1] == r.value;
          assert forall j :: 0 <= j < i + 1 ==> ts[j].infoHash != h by {
            forall j | 0 <= j < i + 1 ensures ts[j].infoHash != h {
              if j > 0 { assert ts[j] == ts[1..][j - 1]; }
            }
          }
        }
      }
      r
  }

  /** The selection after an update: none stays none; a selected torrent is replaced by
      the updated record with the same infoHash, or cleared when it is gone. */
  function Reconcile(sel: Option<Torrent>, updated: seq<Torrent>): (r: Option<Torrent>)
    ensures sel.None? ==> r.None?
    ensures sel.Some? && r.Some? ==> r.value in updated && r.value.infoHash == sel.value.infoHash
    ensures sel.Some? && r.Some? ==>
              exists i :: 0 <= i < |updated| && updated[i] == r.value
                          && forall j :: 0 <= j < i ==> updated[j].infoHash != sel.value.infoHash
    ensures sel.Some? ==> (r.None? <==> forall i :: 0 <= i < |updated| ==> updated[i].infoHash != sel.value.infoHash)
  {
    match sel
    case None => None
    case Some(s) => FindByHash(updated, s.infoHash)
  }

  /** The torrents-update listeners as the component registers them: the effect that
      registers one has no cleanup and re-runs whenever the selection changes, so every
      selection the component has rendered with keeps a listener. Each listener, in the
      order of registration, reconciles the selection it captured; one that captured no
      selection leaves the state alone. The result is the selection after one push. */
  function ListenersAsWritten(captured: seq<Option<Torrent>>, current: Option<Torrent>,
                              updated: seq<Torrent>): Option<Torrent>
    decreases |captured|
  {
    if captured == [] then current
    else
      var next := if captured[0].Some? then Reconcile(captured[0], updated) else current;
      ListenersAsWritten(captured[1..], next, updated)
  }

  /** Listeners that captured no selection change nothing. */
  lemma {:induction false} IdleListenersKeep(captured: seq<Option<Torrent>>, current: Option<Torrent>,
                                             updated: seq<Torrent>)
    requires forall k :: 0 <= k < |captured| ==> captured[k].None?
    ensures ListenersAsWritten(captured, current, updated) == current
  {
    if captured != [] {
      IdleListenersKeep(captured[1..], current, updated);
    }
  }

  /** The last listener that captured a selection decides the outcome, whatever the
      current selection is: it re-selects that torrent whenever the push still lists it. */
  lemma {:induction false} StaleListenerWins(before: seq<Option<Torrent>>, t: Torrent,
                                             after: seq<Option<Torrent>>, current: Option<Torrent>,
                                             updated: seq<Torrent>)
    requires forall k :: 0 <= k < |after| ==> after[k].None?
    ensures ListenersAsWritten(before + [Some(t)] + after, current, updated)
            == FindByHash(updated, t.infoHash)
  {
    var all := before + [Some(t)] + after;
    if before == [] {
      assert all[0] == Some(t) && all[1..] == after;
      IdleListenersKeep(after, FindByHash(updated, t.infoHash), updated);
    } else {
      assert all[1..] == before[1..] + [Some(t)] + after;
      var next := if before[0].Some? then Reconcile(before[0], updated) else current;
      StaleListenerWins(before[1..], t, after, next, updated);
    }
  }

  /** Mounting with no selection, selecting `t` and closing the details pane leaves three
      listeners; the next push that still lists `t` reopens the pane, where reconciling
      only the current selection keeps it closed. */
  lemma ClosedPaneReopens(t: Torrent)
    ensures ListenersAsWritten([None, Some(t), None], None, [t]) == Some(t)
    ensures Reconcile(None, [t]) == None
  {
    assert [None, Some(t), None] == [None] + [Some(t)] + [None];
    StaleListenerWins([None], t, [None], None, [t]);
  }

  /** Where `handleAddTorrent` sends its argument. */
  datatype AddRoute = ViaFileDialog | ViaTorrentId(torrentId: string)

  function RouteAdd(magnetOrFile: string): (r: AddRoute)
    ensures r.ViaFileDialog? <==> magnetOrFile == "file"
    ensures r.ViaTorrentId? ==> r.torrentId == magnetOrFile
  {
    if magnetOrFile == "file" then ViaFileDialog else ViaTorrentId(magnetOrFile)
  }

  /** The settlement of an awaited IPC call. */
  datatype Settled<+T> = Fulfilled(value: T) | Threw

  class AppState {
    var torrents: seq<Torrent>
    var stats: Stats
    var settings: Option<Settings>
    var selected: Option<Torrent>
    var showAddDialog: bool
    var showSettings: bool
    /** Messages shown with `alert`. */
    var alerts: seq<string>

    constructor ()
      ensures torrents == [] && stats == Stats(0.0, 0.0, 0.0, 0.0) && settings == None
      ensures selected == None && !showAddDialog && !showSettings && alerts == []
    {
      torrents := [];
      stats := Stats(0.0, 0.0, 0.0, 0.0);
      settings := None;
      selected := None;
      showAddDialog := false;
      showSettings := false;
      alerts := [];
    }

    /** The initial `getTorrents().then(setTorrents)`: the list is replaced and the
        selection is left as it is. */
    method OnTorrentsLoaded(loaded: seq<Torrent>)
      modifies this`torrents
      ensures torrents == loaded
    {
      torrents := loaded;
    }

    /** The initial `getSettings().then(setSettings)`: from here on the settings dialog
        can be shown. */
    method OnSettingsLoaded(loaded: Settings)
      modifies this`settings
      ensures settings == Some(loaded)
      ensures SettingsDialogShown() <==> showSettings
    {
      settings := Some(loaded);
    }

    /** The settings dialog is rendered only while its flag is set and settings are loaded. */
    predicate SettingsDialogShown()
      reads this
    {
      showSettings && settings.Some?
    }

    /** The 'torrents-update' listener. */
    method OnTorrentsUpdate(updated: seq<Torrent>)
      modifies this`torrents, this`selected
      ensures torrents == updated
      ensures selected == Reconcile(old(selected), updated)
    {
      torrents := updated;
      if selected.Some? {
        var found := FindByHash(updated, selected.value.infoHash);
        if found.Some? {
          selected := found;
        } else {
          selected := None;
        }
      }
    }

    /** The 'stats-update' listener, and the initial `getStats().then(setStats)`. */
    method OnStatsUpdate(s: Stats)
      modifies this`stats
      ensures stats == s
    {
      stats := s;
    }

    /** A click on a row (`onSelectTorrent`) or on the details' close button. */
    method SetSelected(t: Option<Torrent>)
      modifies this`selected
      ensures selected == t
    {
      selected := t;
    }

    method SetShowAddDialog(b: bool)
      modifies this`showAddDialog
      ensures showAddDialog == b
    {
      showAddDialog := b;
    }

    method SetShowSettings(b: bool)
      modifies this`showSettings
      ensures showSettings == b
    {
      showSettings := b;
    }

    /** `handleAddTorrent`: the dialog closes when the awaited call settles normally,
        whatever it resolved with; a throw raises an alert and leaves the dialog. */
    method HandleAddTorrent(magnetOrFile: string, settled: Settled<Option<Torrent>>) returns (route: AddRoute)
      modifies this`showAddDialog, this`alerts
      ensures route == RouteAdd(magnetOrFile)
      ensures settled.Fulfilled? ==> !showAddDialog && alerts == old(alerts)
      ensures settled.Threw? ==> showAddDialog == old(showAddDialog)
                                 && alerts == old(alerts) + ["Failed to add torrent"]
    {
      route := RouteAdd(magnetOrFile);
      if settled.Fulfilled? {
        showAddDialog := false;
      } else {
        alerts := alerts + ["Failed to add torrent"];
      }
    }

    /** `handleUpdateSettings`: pass the partial to `updateSettings`; on success store the
        returned settings and close the dialog. */
    method HandleUpdateSettings(partial: PartialSettings, settled: Settled<Settings>) returns (sent: PartialSettings)
      modifies this`settings, this`showSettings, this`alerts
      ensures sent == partial
      ensures settled.Fulfilled? ==> settings == Some(settled.value) && !showSettings && alerts == old(alerts)
      ensures settled.Threw? ==> settings == old(settings) && showSettings == old(showSettings)
                                 && alerts == old(alerts) + ["Failed to update settings"]
    {
      sent := partial;
      match settled
      case Fulfilled(updated) =>
        settings := Some(updated);
        showSettings := false;
      case Threw =>
        alerts := alerts + ["Failed to update settings"];
    }
  }
}
