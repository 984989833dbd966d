/** The Electron main process (src/main/main.ts): the settings store, the command
    handlers behind the IPC channels and the broadcast of the torrent list.
    The filesystem is a settings file plus the set of paths that exist; native
    dialogs, the engine's answer to an add, the outcome of a write and the
    presence of a window are values the caller supplies. */
module MainProcess {

  import opened Options
  import opened Types
  import opened Engine

  /** What reading the settings file finds: no file, a file whose reading or
      `JSON.parse` throws, or a parsed object holding some of the settings keys. */
  datatype SettingsFile = Absent | Unreadable | Stored(fields: PartialSettings)

  predicate WellFormedFile(file: SettingsFile) {
    file.Stored? ==> WellTyped(file.fields)
  }

  /** How `writeFileSync` of the settings file ends: it completes, it throws before the
      file is opened (the old file stays), or it throws after truncating it. */
  datatype WriteResult = Completed | NotOpened | Truncated

  /** `mainWindow`: none yet (or 'closed' has fired), a live window, or a destroyed one. */
  datatype Window = NoWindow | Live | Destroyed

  /** A message sent over `webContents.send`. */
  datatype Push = TorrentsUpdate(torrents: seq<Torrent>) | StatsUpdate(stats: Stats)

  /** A call into Electron's `shell`. */
  datatype ShellCall = ShowItemInFolder(path: string) | OpenPath(path: string)

  /** A `client.add(torrentId, { path })` request the main process issued. */
  datatype AddRequest = AddRequest(torrentId: string, path: string)

  /** What `client.add` does at once: throw, or return a handle that the client lists
      from then on, before its metadata arrives. The client keeps one handle per infoHash,
      so an accepted handle is new to it. */
  datatype AddOutcome = EngineThrows | EngineAccepts(handle: EngineTorrent)

  /** The state of an IPC promise: settled either way, or still waiting for a callback. */
  datatype Reply<+T> = Resolved(value: T) | Rejected | Pending

  /** The value `dialog.showOpenDialog` resolves with. */
  datatype DialogResult = DialogResult(canceled: bool, filePaths: seq<string>)

  /** `path.join` of a directory and one name (no normalisation). */
  function JoinPath(dir: string, name: string): (p: string)
    ensures |p| == |dir| + 1 + |name|
    ensures p[..|dir|] == dir && p[|dir|] == '/' && p[|dir| + 1..] == name
  {
    dir + "/" + name
  }

  /** `~/Downloads/GGTorrents`. */
  function DefaultDownloadPath(home: string): (p: string)
    ensures p == home + "/Downloads/GGTorrents"
  {
    JoinPath(JoinPath(home, "Downloads"), "GGTorrents")
  }

  /** The defaults: the download folder under the home directory, no bandwidth limits,
      port 6881, 55 connections, DHT and PEX on, no auto-start. */
  function DefaultSettings(home: string): (d: Settings)
    ensures d.downloadPath == DefaultDownloadPath(home)
    ensures d.uploadLimit == -1 && d.downloadLimit == -1
    ensures d.port == 6881 && d.maxConnections == 55
    ensures d.enableDHT && d.enablePEX && !d.autoStart
  {
    Settings(DefaultDownloadPath(home), -1, -1, 6881, 55, true, true, false)
  }

  /** The settings `loadSettings` returns and the paths that exist afterwards. */
  datatype Loaded = Loaded(settings: Settings, existing: set<string>)

  /** `loadSettings`: a stored object is spread over the defaults and nothing is
      created; on any other path the defaults are returned and their download
      directory is made to exist. */
  function LoadSettings(file: SettingsFile, home: string, existing: set<string>): (r: Loaded)
    requires WellFormedFile(file)
    ensures file.Stored? ==> r.existing == existing
    ensures file.Stored? ==>
              forall f :: Get(r.settings, f)
                == if f in file.fields then file.fields[f] else Get(DefaultSettings(home), f)
    ensures !file.Stored? ==> r.settings == DefaultSettings(home)
    ensures !file.Stored? ==> r.existing == existing + {DefaultDownloadPath(home)}
    ensures !file.Stored? ==>
              && r.settings.uploadLimit == -1 && r.settings.downloadLimit == -1
              && r.settings.port == 6881 && r.settings.maxConnections == 55
              && r.settings.enableDHT && r.settings.enablePEX && !r.settings.autoStart
  {
    match file
    case Stored(fields) => Loaded(Merge(DefaultSettings(home), fields), existing)
    case _ => Loaded(DefaultSettings(home), existing + {DefaultDownloadPath(home)})
  }

  /** What a later start reads back after settings were saved: exactly those settings. */
  lemma LoadAfterSave(s: Settings, home: string, existing: set<string>)
    ensures LoadSettings(Stored(Full(s)), home, existing) == Loaded(s, existing)
  {
    MergeFull(s);
  }

  /** `getTorrentInfo`: the record sent to the renderer for one engine handle. */
  function TorrentInfo(t: EngineTorrent): (r: Torrent)
    ensures r.infoHash == t.infoHash && r.name == t.name && r.magnetURI == t.magnetURI
    ensures r.size == t.length && r.downloaded == t.downloaded && r.uploaded == t.uploaded
    ensures r.progress == t.progress && r.done == t.done && r.path == t.path
    ensures r.downloadSpeed == t.downloadSpeed && r.uploadSpeed == t.uploadSpeed && r.ratio == t.ratio
    ensures r.numPeers == t.numPeers && r.timeRemaining == t.timeRemaining
    ensures !r.paused
    ensures |r.files| == |t.files|
    ensures forall k :: 0 <= k < |t.files| ==> r.files[k] == FileInfo(t.files[k])
  {
    Torrent(t.infoHash, t.name, t.magnetURI, t.length, t.downloaded, t.uploaded,
            t.downloadSpeed, t.uploadSpeed, t.progress, t.ratio, t.numPeers, t.path,
            t.timeRemaining, t.done, false, FileInfos(t.files))
  }

  function FileInfo(f: EngineFile): (r: TorrentFile)
    ensures r.name == f.name && r.size == f.length && r.downloaded == f.downloaded
    ensures r.progress == f.progress && r.path == f.path
  {
    TorrentFile(f.name, f.length, f.downloaded, f.progress, f.path)
  }

  /** `torrent.files.map(...)`: same length, same order. */
  function FileInfos(fs: seq<EngineFile>): (r: seq<TorrentFile>)
    ensures |r| == |fs|
    ensures forall k :: 0 <= k < |fs| ==> r[k] == FileInfo(fs[k])
  {
    if fs == [] then [] else [FileInfo(fs[0])] + FileInfos(fs[1..])
  }

  /** `client.torrents.map(t => this.getTorrentInfo(t))`: one record per handle, in engine order. */
  function Snapshot(ts: seq<EngineTorrent>): (r: seq<Torrent>)
    ensures |r| == |ts|
    ensures forall i :: 0 <= i < |ts| ==> r[i] == TorrentInfo(ts[i])
  {
    if ts == [] then [] else [TorrentInfo(ts[0])] + Snapshot(ts[1..])
  }

  /** The projection carries no file-selection state: selecting or deselecting a file
      leaves the record the renderer receives unchanged. */
  lemma {:induction false} InfoIgnoresSelection(t: EngineTorrent, k: nat, on: bool)
    requires k < |t.files|
    ensures TorrentInfo(WithFileSelected(t, k, on)) == TorrentInfo(t)
  {
    var u := WithFileSelected(t, k, on);
    assert FileInfos(u.files) == FileInfos(t.files) by {
      forall j | 0 <= j < |t.files| ensures FileInfos(u.files)[j] == FileInfos(t.files)[j] {
        assert FileInfo(u.files[j]) == FileInfo(t.files[j]);
      }
    }
  }

  /** What `sendTorrentUpdate` sends: nothing without a live window, otherwise the
      torrent list and then the client counters. */
  function Broadcast(w: Window, ts: seq<EngineTorrent>, counters: Stats): (r: seq<Push>)
    ensures w != Live ==> r == []
    ensures w == Live ==> r == [TorrentsUpdate(Snapshot(ts)), StatsUpdate(counters)]
  {
    if w == Live then [TorrentsUpdate(Snapshot(ts)), StatsUpdate(counters)] else []
  }

  /** The first chosen path of an open dialog, or null when cancelled or empty. */
  function ChosenPath(d: DialogResult): (r: Option<string>)
    ensures r.Some? <==> !d.canceled && |d.filePaths| > 0
    ensures r.Some? ==> r.value == d.filePaths[0]
  {
    if !d.canceled && |d.filePaths| > 0 then Some(d.filePaths[0]) else None
  }

  /** The shell call `open-file-location` makes. */
  function LocationCall(ts: seq<EngineTorrent>, h: string, downloadPath: string, existing: set<string>): (r: ShellCall)
    ensures (IndexOf(ts, h).Some? && ts[IndexOf(ts, h).value].name != ""
             && JoinPath(downloadPath, ts[IndexOf(ts, h).value].name) in existing)
            <==> r.ShowItemInFolder?
    ensures r.ShowItemInFolder? ==> r.path == JoinPath(downloadPath, ts[IndexOf(ts, h).value].name)
    ensures r.OpenPath? ==> r.path == downloadPath
  {
    match IndexOf(ts, h)
    case Some(i) =>
      if ts[i].name != "" && JoinPath(downloadPath, ts[i].name) in existing
      then ShowItemInFolder(JoinPath(downloadPath, ts[i].name))
      else OpenPath(downloadPath)
    case None => OpenPath(downloadPath)
  }

  class TorrentApp {
    var settings: Settings
    var settingsFile: SettingsFile
    /** Paths that exist on disk. */
    var existing: set<string>
    /** `client.torrents`, in engine order. */
    var torrents: seq<EngineTorrent>
    /** The client-wide counters `downloadSpeed`, `uploadSpeed`, `progress`, `ratio`. */
    var counters: Stats
    var window: Window
    /** Everything sent to the renderer so far. */
    var pushed: seq<Push>
    var addRequests: seq<AddRequest>
    /** Torrents removed with `destroyStore: true`. */
    var purged: seq<string>
    var shellCalls: seq<ShellCall>
    const home: string
    /** The only two settings the engine receives, once, at construction. */
    const engineMaxConns: int
    const engineDHT: bool

    /** The stored file holds well-typed keys, and the engine keeps one handle per infoHash. */
    ghost predicate Valid()
      reads this
    {
      WellFormedFile(settingsFile) && UniqueHashes(torrents)
    }

    constructor (file: SettingsFile, home: string, existing: set<string>, counters: Stats)
      requires WellFormedFile(file)
      ensures Valid()
      ensures settings == LoadSettings(file, home, existing).settings
      ensures this.existing == LoadSettings(file, home, existing).existing
      ensures settingsFile == file && this.home == home && this.counters == counters
      ensures engineMaxConns == settings.maxConnections && engineDHT == settings.enableDHT
      ensures torrents == [] && window == NoWindow && pushed == []
      ensures addRequests == [] && purged == [] && shellCalls == []
    {
      var loaded := LoadSettings(file, home, existing);
      this.home := home;
      settingsFile := file;
      settings := loaded.settings;
      this.existing := loaded.existing;
      engineMaxConns := loaded.settings.maxConnections;
      engineDHT := loaded.settings.enableDHT;
      this.counters := counters;
      torrents := [];
      window := NoWindow;
      pushed := [];
      addRequests := [];
      purged := [];
      shellCalls := [];
    }

    /** `createWindow` and the window's 'closed' event, reduced to the state they leave. */
    method SetWindow(w: Window)
      modifies this`window
      ensures window == w
    {
      window := w;
    }

    /** `saveSettings`: write the whole in-memory settings; a failed write is swallowed.
        A write that fails after truncating leaves a file that no longer parses. */
    method SaveSettings(write: WriteResult)
      requires Valid()
      modifies this`settingsFile
      ensures Valid()
      ensures write == Completed ==> settingsFile == Stored(Full(settings))
      ensures write == NotOpened ==> settingsFile == old(settingsFile)
      ensures write == Truncated ==> settingsFile == Unreadable
    {
      match write
      case Completed => settingsFile := Stored(Full(settings));
      case NotOpened =>
      case Truncated => settingsFile := Unreadable;
    }

    /** `sendTorrentUpdate`. */
    method SendTorrentUpdate()
      modifies this`pushed
      ensures pushed == old(pushed) + Broadcast(window, torrents, counters)
    {
      if window == Live {
        pushed := pushed + [TorrentsUpdate(Snapshot(torrents)), StatsUpdate(counters)];
      }
    }

    /** One firing of the 1 s interval. */
    method Tick()
      modifies this`pushed
      ensures pushed == old(pushed) + Broadcast(window, torrents, counters)
    {
      SendTorrentUpdate();
    }

    /** 'update-settings': spread the partial, save, create the download directory. */
    method UpdateSettings(partial: PartialSettings, write: WriteResult) returns (r: Settings)
      requires Valid() && WellTyped(partial)
      modifies this`settings, this`settingsFile, this`existing
      ensures Valid()
      ensures settings == Merge(old(settings), partial) && r == settings
      ensures write == Completed ==> settingsFile == Stored(Full(settings))
      ensures write == NotOpened ==> settingsFile == old(settingsFile)
      ensures write == Truncated ==> settingsFile == Unreadable
      ensures existing == old(existing) + {settings.downloadPath}
    {
      settings := Merge(settings, partial);
      SaveSettings(write);
      if settings.downloadPath !in existing {
        existing := existing + {settings.downloadPath};
      }
      r := settings;
    }

    /** 'remove-torrent'. */
    method RemoveTorrent(h: string, deleteFiles: bool) returns (ok: bool)
      requires Valid()
      modifies this`torrents, this`purged, this`pushed
      ensures Valid()
      ensures ok <==> IndexOf(old(torrents), h).Some?
      ensures IndexOf(torrents, h).None?
      ensures !ok ==> torrents == old(torrents) && purged == old(purged) && pushed == old(pushed)
      ensures ok ==> torrents == RemoveAt(old(torrents), IndexOf(old(torrents), h).value)
      ensures ok ==> purged == old(purged) + (if deleteFiles then [h] else [])
      ensures ok ==> pushed == old(pushed) + Broadcast(window, torrents, counters)
    {
      var i := IndexOf(torrents, h);
      if i.Some? {
        RemoveForgetsOnlyThatTorrent(torrents, h);
        torrents := RemoveAt(torrents, i.value);
        if deleteFiles {
          purged := purged + [h];
        }
        SendTorrentUpdate();
        return true;
      }
      return false;
    }

    /** 'set-file-priority': priority 0 deselects, anything else selects. */
    method SetFilePriority(h: string, fileIndex: int, priority: int) returns (ok: bool)
      requires Valid()
      modifies this`torrents, this`pushed
      ensures Valid()
      ensures ok <==> IndexOf(old(torrents), h).Some?
                      && 0 <= fileIndex < |old(torrents)[IndexOf(old(torrents), h).value].files|
      ensures !ok ==> torrents == old(torrents) && pushed == old(pushed)
      ensures ok ==> var i := IndexOf(old(torrents), h).value;
                     torrents == old(torrents)[i := WithFileSelected(old(torrents)[i], fileIndex, priority != 0)]
      ensures ok ==> pushed == old(pushed) + Broadcast(window, torrents, counters)
    {
      var found := IndexOf(torrents, h);
      if found.Some? && 0 <= fileIndex < |torrents[found.value].files| {
        var i := found.value;
        torrents := torrents[i := WithFileSelected(torrents[i], fileIndex, priority != 0)];
        SendTorrentUpdate();
        return true;
      }
      return false;
    }

    /** 'add-torrent': ask the engine to add into the current download path. An accepted
        handle is listed at once; the promise stays pending until its ready callback. */
    method AddTorrent(torrentId: string, outcome: AddOutcome) returns (reply: Reply<Torrent>)
      requires Valid()
      requires outcome.EngineAccepts? ==> IndexOf(torrents, outcome.handle.infoHash).None?
      modifies this`torrents, this`addRequests
      ensures Valid()
      ensures addRequests == old(addRequests) + [AddRequest(torrentId, settings.downloadPath)]
      ensures outcome.EngineThrows? ==> reply == Rejected && torrents == old(torrents)
      ensures outcome.EngineAccepts? ==> reply == Pending && torrents == old(torrents) + [outcome.handle]
    {
      addRequests := addRequests + [AddRequest(torrentId, settings.downloadPath)];
      match outcome
      case EngineThrows =>
        reply := Rejected;
      case EngineAccepts(t) =>
        torrents := torrents + [t];
        reply := Pending;
    }

    /** The ready callback of an add: the listed handle, found by its infoHash, now has its
        metadata; the pending promise resolves with its projection (wrapped in `Some` for
        'add-torrent-file') and the list is broadcast. A handle removed before it is ready
        never calls back. */
    method OnAddReady(ready: EngineTorrent) returns (info: Torrent)
      requires Valid() && IndexOf(torrents, ready.infoHash).Some?
      modifies this`torrents, this`pushed
      ensures Valid()
      ensures info == TorrentInfo(ready)
      ensures torrents == old(torrents)[IndexOf(old(torrents), ready.infoHash).value := ready]
      ensures pushed == old(pushed) + Broadcast(window, torrents, counters)
    {
      var i := IndexOf(torrents, ready.infoHash).value;
      torrents := torrents[i := ready];
      info := TorrentInfo(ready);
      SendTorrentUpdate();
    }

    /** 'add-torrent-file': null on cancel or an empty selection, else add the first path. */
    method AddTorrentFile(choice: DialogResult, outcome: AddOutcome) returns (reply: Reply<Option<Torrent>>)
      requires Valid()
      requires outcome.EngineAccepts? ==> IndexOf(torrents, outcome.handle.infoHash).None?
      modifies this`torrents, this`addRequests
      ensures Valid()
      ensures ChosenPath(choice).None? ==>
                reply == Resolved(None) && torrents == old(torrents) && addRequests == old(addRequests)
      ensures ChosenPath(choice).Some? ==>
                addRequests == old(addRequests) + [AddRequest(choice.filePaths[0], settings.downloadPath)]
      ensures ChosenPath(choice).Some? && outcome.EngineThrows? ==>
                reply == Rejected && torrents == old(torrents)
      ensures ChosenPath(choice).Some? && outcome.EngineAccepts? ==>
                reply == Pending && torrents == old(torrents) + [outcome.handle]
    {
      match ChosenPath(choice)
      case None =>
        reply := Resolved(None);
      case Some(p) =>
        var r := AddTorrent(p, outcome);
        reply := if r.Rejected? then Rejected else Pending;
    }

    /** 'get-torrents'. */
    method GetTorrents() returns (r: seq<Torrent>)
      ensures |r| == |torrents|
      ensures forall i :: 0 <= i < |r| ==> r[i] == TorrentInfo(torrents[i])
    {
      r := Snapshot(torrents);
    }

    /** 'get-settings'. */
    method GetSettings() returns (r: Settings)
      ensures r == settings
    {
      r := settings;
    }

    /** 'get-stats'. */
    method GetStats() returns (r: Stats)
      ensures r == counters
    {
      r := counters;
    }

    /** 'select-directory'. */
    method SelectDirectory(choice: DialogResult) returns (r: Option<string>)
      ensures r.Some? <==> !choice.canceled && |choice.filePaths| > 0
      ensures r.Some? ==> r.value == choice.filePaths[0]
    {
      r := ChosenPath(choice);
    }

    /** 'open-file-location': reveal the torrent's folder, or open the download directory; always true. */
    method OpenFileLocation(h: string) returns (ok: bool)
      modifies this`shellCalls
      ensures ok
      ensures shellCalls == old(shellCalls) + [LocationCall(torrents, h, settings.downloadPath, existing)]
    {
      shellCalls := shellCalls + [LocationCall(torrents, h, settings.downloadPath, existing)];
      ok := true;
    }
  }
}
