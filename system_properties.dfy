/** Properties that connect the main process's projection and broadcast with what the
    renderer's components derive from the pushed list. */
module SystemProperties {

  import opened Options
  import opened Types
  import opened Engine
  import MainProcess
  import StatsPanel
  import AppComponent
  import TorrentList
  import TorrentDetails
  import JsText

  /** `Snapshot` distributes over concatenation: adding a torrent appends its record. */
  lemma SnapshotAppend(a: seq<EngineTorrent>, b: seq<EngineTorrent>)
    ensures MainProcess.Snapshot(a + b) == MainProcess.Snapshot(a) + MainProcess.Snapshot(b)
  {
    var l := MainProcess.Snapshot(a + b);
    var r := MainProcess.Snapshot(a) + MainProcess.Snapshot(b);
    forall i | 0 <= i < |l| ensures l[i] == r[i] {
      if i < |a| { assert (a + b)[i] == a[i]; } else { assert (a + b)[i] == b[i - |a|]; }
    }
  }

  /** No pushed record is ever paused, so the list never shows the paused icon or a
      Resume button. */
  lemma PushedTorrentsNeverPaused(ts: seq<EngineTorrent>, i: nat)
    requires i < |ts|
    ensures !MainProcess.Snapshot(ts)[i].paused
    ensures TorrentList.Status(MainProcess.Snapshot(ts)[i]) != TorrentList.PausedIcon
    ensures TorrentList.Action(MainProcess.Snapshot(ts)[i]) == TorrentList.PauseButton
  {
  }

  /** Over a pushed list, active and completed torrents together are all of them. */
  lemma PushedCountsFillList(ts: seq<EngineTorrent>)
    ensures StatsPanel.ActiveTorrents(MainProcess.Snapshot(ts)) + StatsPanel.CompletedTorrents(MainProcess.Snapshot(ts)) == |ts|
  {
    StatsPanel.ActiveCompletedPartition(MainProcess.Snapshot(ts));
  }

  /** A successful add raises the panel's totals by exactly the new handle's counters. */
  lemma AddRaisesTotals(ts: seq<EngineTorrent>, t: EngineTorrent)
    ensures StatsPanel.TotalSize(MainProcess.Snapshot(ts + [t])) == StatsPanel.TotalSize(MainProcess.Snapshot(ts)) + t.length
    ensures StatsPanel.TotalDownloaded(MainProcess.Snapshot(ts + [t])) == StatsPanel.TotalDownloaded(MainProcess.Snapshot(ts)) + t.downloaded
    ensures StatsPanel.TotalUploaded(MainProcess.Snapshot(ts + [t])) == StatsPanel.TotalUploaded(MainProcess.Snapshot(ts)) + t.uploaded
  {
    SnapshotAppend(ts, [t]);
    StatsPanel.TotalsAppend(MainProcess.Snapshot(ts), MainProcess.Snapshot([t]));
    var one := MainProcess.Snapshot([t]);
    assert one == [MainProcess.TorrentInfo(t)];
    assert one[..0] == [];
  }

  /** When the selected infoHash is still in the engine, the renderer's new selection is
      the fresh record of the first handle with that infoHash. */
  lemma SelectionFollowsEngine(sel: Torrent, ts: seq<EngineTorrent>)
    requires IndexOf(ts, sel.infoHash).Some?
    ensures AppComponent.Reconcile(Some(sel), MainProcess.Snapshot(ts))
            == Some(MainProcess.TorrentInfo(ts[IndexOf(ts, sel.infoHash).value]))
  {
    var snap := MainProcess.Snapshot(ts);
    var k := IndexOf(ts, sel.infoHash).value;
    var r := AppComponent.FindByHash(snap, sel.infoHash);
    assert snap[k].infoHash == sel.infoHash;
    var j :| 0 <= j < |snap| && snap[j] == r.value
             && forall m :: 0 <= m < j ==> snap[m].infoHash != sel.infoHash;
    assert j == k;
  }

  /** When the selected infoHash has left the engine, the selection is cleared. */
  lemma SelectionClearedWhenRemoved(sel: Torrent, ts: seq<EngineTorrent>)
    requires IndexOf(ts, sel.infoHash).None?
    ensures AppComponent.Reconcile(Some(sel), MainProcess.Snapshot(ts)).None?
  {
    var snap := MainProcess.Snapshot(ts);
    forall i | 0 <= i < |snap| ensures snap[i].infoHash != sel.infoHash {
      assert snap[i].infoHash == ts[i].infoHash;
    }
  }

  /** Clicking a file of an unfinished torrent sends priority 0, which deselects it in the
      engine, and the record pushed afterwards is the same as before: the click changes
      nothing the pane can show. */
  lemma UnfinishedClickIsInvisible(t: EngineTorrent, k: nat)
    requires !t.done && k < |t.files|
    ensures TorrentDetails.ClickCall(MainProcess.TorrentInfo(t), k)
            == TorrentDetails.PriorityCall(t.infoHash, k, 0)
    ensures MainProcess.TorrentInfo(WithFileSelected(t, k, false)) == MainProcess.TorrentInfo(t)
  {
    MainProcess.InfoIgnoresSelection(t, k, false);
  }

  /** Any text that trims to "file" (" file ", "file\n", ...) passes the submit guard
      and opens the file dialog instead: the engine never sees that text. */
  lemma TypedFileOpensDialog(s: string)
    requires JsText.Trim(s) == "file"
    ensures !JsText.AllWhitespace(s)
    ensures AppComponent.RouteAdd(JsText.Trim(s)) == AppComponent.ViaFileDialog
  {
    JsText.TrimEmptyIff(s);
  }

  /** Two torrents are listed, and their requests recorded, in request order, even when
      the second becomes ready first. */
  method ListInRequestOrder(app: MainProcess.TorrentApp, a: EngineTorrent, b: EngineTorrent,
                            bReady: EngineTorrent)
      returns (listed: seq<Torrent>)
    requires app.Valid() && app.torrents == [] && a.infoHash != b.infoHash
    requires bReady.infoHash == b.infoHash
    modifies app
    ensures |app.addRequests| == |old(app.addRequests)| + 2
    ensures app.addRequests[|app.addRequests| - 2].torrentId == a.magnetURI
    ensures app.addRequests[|app.addRequests| - 1].torrentId == b.magnetURI
    ensures |listed| == 2 && listed[0] == MainProcess.TorrentInfo(a) && listed[1] == MainProcess.TorrentInfo(bReady)
  {
    var ra := app.AddTorrent(a.magnetURI, MainProcess.EngineAccepts(a));
    var rb := app.AddTorrent(b.magnetURI, MainProcess.EngineAccepts(b));
    assert app.torrents == [a, b];
    assert IndexOf([a, b], b.infoHash) == Some(1);
    var info := app.OnAddReady(bReady);
    listed := app.GetTorrents();
  }

  /** Removing the first of two listed torrents, ready or still pending, leaves the second,
      and the removed infoHash can no longer be found. */
  method RemoveFirstOfTwo(app: MainProcess.TorrentApp, a: EngineTorrent, b: EngineTorrent)
      returns (after: seq<Torrent>, removed: bool, foundAgain: bool)
    requires app.Valid() && app.torrents == [a, b]
    modifies app
    ensures |after| == 1 && after[0] == MainProcess.TorrentInfo(b)
    ensures removed && !foundAgain
  {
    assert IndexOf([a, b], a.infoHash) == Some(0);
    removed := app.RemoveTorrent(a.infoHash, false);
    assert app.torrents == [b];
    after := app.GetTorrents();
    assert IndexOf([b], a.infoHash) == None;
    foundAgain := app.RemoveTorrent(a.infoHash, false);
  }

  /** Setting the download limit to 500 changes that field and leaves every other one.
      The next start reads it back after a completed write, and falls back to the
      defaults after a write that truncated the file. */
  method UpdateDownloadLimit(file: MainProcess.SettingsFile, home: string, existing: set<string>,
                             counters: Stats, write: MainProcess.WriteResult)
      returns (before: Settings, after: Settings, reloaded: Settings)
    requires MainProcess.WellFormedFile(file)
    ensures after == before.(downloadLimit := 500)
    ensures write == MainProcess.Completed ==> reloaded == after
    ensures write == MainProcess.Truncated ==> reloaded == MainProcess.DefaultSettings(home)
  {
    var app := new MainProcess.TorrentApp(file, home, existing, counters);
    before := app.GetSettings();
    after := app.UpdateSettings(map[DownloadLimit := Num(500)], write);
    SettingsExtensional(after, before.(downloadLimit := 500));
    if write == MainProcess.Completed {
      MainProcess.LoadAfterSave(after, home, app.existing);
    }
    reloaded := MainProcess.LoadSettings(app.settingsFile, home, app.existing).settings;
  }
}
