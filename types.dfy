/** Records shared by the main process and the renderer (src/renderer/types.ts),
    and the shallow object-spread merge that both sides apply to settings. */
module Types {

  /** One file of a torrent as the renderer sees it. */
  datatype TorrentFile = TorrentFile(
    name: string,
    size: nat,
    downloaded: nat,
    progress: real,
    path: string)

  /** One torrent as the renderer sees it: a projection of an engine handle. */
  datatype Torrent = Torrent(
    infoHash: string,
    name: string,
    magnetURI: string,
    size: nat,
    downloaded: nat,
    uploaded: nat,
    downloadSpeed: real,
    uploadSpeed: real,
    progress: real,
    ratio: real,
    numPeers: nat,
    path: string,
    timeRemaining: real,
    done: bool,
    paused: bool,
    files: seq<TorrentFile>)

  /** The persisted configuration. Limits are in KB/s, -1 meaning unlimited. */
  datatype Settings = Settings(
    downloadPath: string,
    uploadLimit: int,
    downloadLimit: int,
    port: int,
    maxConnections: int,
    enableDHT: bool,
    enablePEX: bool,
    autoStart: bool)

  /** Client-wide counters pushed beside the torrent list. */
  datatype Stats = Stats(downloadSpeed: real, uploadSpeed: real, progress: real, ratio: real)

  /** The keys of a Settings object, and the JSON values they hold. */
  datatype Field = DownloadPath | UploadLimit | DownloadLimit | Port | MaxConnections
                 | EnableDHT | EnablePEX | AutoStart

  datatype Value = Str(s: string) | Num(n: int) | Flag(b: bool)

  /** `Partial<Settings>`: an object holding some of the keys. */
  type PartialSettings = map<Field, Value>

  /** The JSON kind a field carries. */
  predicate Fits(f: Field, v: Value) {
    match f
    case DownloadPath => v.Str?
    case UploadLimit | DownloadLimit | Port | MaxConnections => v.Num?
    case EnableDHT | EnablePEX | AutoStart => v.Flag?
  }

  predicate WellTyped(p: PartialSettings) {
    forall f :: f in p ==> Fits(f, p[f])
  }

  /** Property access `s[f]`. */
  function Get(s: Settings, f: Field): (v: Value)
    ensures Fits(f, v)
  {
    match f
    case DownloadPath => Str(s.downloadPath)
    case UploadLimit => Num(s.uploadLimit)
    case DownloadLimit => Num(s.downloadLimit)
    case Port => Num(s.port)
    case MaxConnections => Num(s.maxConnections)
    case EnableDHT => Flag(s.enableDHT)
    case EnablePEX => Flag(s.enablePEX)
    case AutoStart => Flag(s.autoStart)
  }

  /** Two settings objects with equal fields are equal. */
  lemma SettingsExtensional(a: Settings, b: Settings)
    requires forall f :: Get(a, f) == Get(b, f)
    ensures a == b
  {
    assert Get(a, DownloadPath) == Get(b, DownloadPath);
    assert Get(a, UploadLimit) == Get(b, UploadLimit);
    assert Get(a, DownloadLimit) == Get(b, DownloadLimit);
    assert Get(a, Port) == Get(b, Port);
    assert Get(a, MaxConnections) == Get(b, MaxConnections);
    assert Get(a, EnableDHT) == Get(b, EnableDHT);
    assert Get(a, EnablePEX) == Get(b, EnablePEX);
    assert Get(a, AutoStart) == Get(b, AutoStart);
  }

  /** Every key of a Settings object. */
  const AllFields: set<Field> :=
    {DownloadPath, UploadLimit, DownloadLimit, Port, MaxConnections, EnableDHT, EnablePEX, AutoStart}

  lemma AllFieldsCovered()
    ensures forall f: Field :: f in AllFields
  {
    forall f: Field ensures f in AllFields {
      match f
      case DownloadPath =>
      case UploadLimit =>
      case DownloadLimit =>
      case Port =>
      case MaxConnections =>
      case EnableDHT =>
      case EnablePEX =>
      case AutoStart =>
    }
  }

  /** The whole object viewed as a partial one holding every key
      (what `JSON.stringify` writes and what `onSave(formData)` passes). */
  function Full(s: Settings): (p: PartialSettings)
    ensures WellTyped(p)
    ensures forall f :: f in p && p[f] == Get(s, f)
  {
    AllFieldsCovered();
    map f | f in AllFields :: Get(s, f)
  }

  function PickStr(p: PartialSettings, f: Field, d: string): string
    requires WellTyped(p)
  {
    if f in p && p[f].Str? then p[f].s else d
  }

  function PickNum(p: PartialSettings, f: Field, d: int): int
    requires WellTyped(p)
  {
    if f in p && p[f].Num? then p[f].n else d
  }

  function PickFlag(p: PartialSettings, f: Field, d: bool): bool
    requires WellTyped(p)
  {
    if f in p && p[f].Flag? then p[f].b else d
  }

  /** `{ ...s, ...p }`: every key present in `p` overrides, every other key keeps `s`'s value. */
  function Merge(s: Settings, p: PartialSettings): (r: Settings)
    requires WellTyped(p)
    ensures forall f :: Get(r, f) == if f in p then p[f] else Get(s, f)
  {
    Settings(
      PickStr(p, DownloadPath, s.downloadPath),
      PickNum(p, UploadLimit, s.uploadLimit),
      PickNum(p, DownloadLimit, s.downloadLimit),
      PickNum(p, Port, s.port),
      PickNum(p, MaxConnections, s.maxConnections),
      PickFlag(p, EnableDHT, s.enableDHT),
      PickFlag(p, EnablePEX, s.enablePEX),
      PickFlag(p, AutoStart, s.autoStart))
  }

  /** Spreading the same partial twice is spreading it once. */
  lemma MergeIdempotent(s: Settings, p: PartialSettings)
    requires WellTyped(p)
    ensures Merge(Merge(s, p), p) == Merge(s, p)
  {
    SettingsExtensional(Merge(Merge(s, p), p), Merge(s, p));
  }

  /** Spreading a complete object replaces everything. */
  lemma MergeFull(s: Settings)
    ensures forall t :: Merge(t, Full(s)) == s
  {
    forall t ensures Merge(t, Full(s)) == s {
      SettingsExtensional(Merge(t, Full(s)), s);
    }
  }

  /** Spreading `{}` changes nothing. */
  lemma MergeEmpty(s: Settings)
    ensures Merge(s, map[]) == s
  {
    SettingsExtensional(Merge(s, map[]), s);
  }

  /** Two successive spreads are one spread of their union, the later partial winning. */
  lemma MergeCompose(s: Settings, p: PartialSettings, q: PartialSettings)
    requires WellTyped(p) && WellTyped(q)
    ensures WellTyped(p + q)
    ensures Merge(Merge(s, p), q) == Merge(s, p + q)
  {
    assert WellTyped(p + q);
    var l, r := Merge(Merge(s, p), q), Merge(s, p + q);
    forall f ensures Get(l, f) == Get(r, f) {
      if f in q { assert (p + q)[f] == q[f]; } else if f in p { assert (p + q)[f] == p[f]; }
    }
    SettingsExtensional(l, r);
  }
}
