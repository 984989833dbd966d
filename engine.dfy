/** The WebTorrent client as the main process sees it: an ordered list of torrent
    handles whose files can be selected or deselected. Everything the engine computes
    (progress, speeds, peers) is an opaque value copied from a handle. */
module Engine {

  import opened Options

  datatype EngineFile = EngineFile(
    name: string,
    length: nat,
    downloaded: nat,
    progress: real,
    path: string,
    selected: bool)

  datatype EngineTorrent = EngineTorrent(
    infoHash: string,
    name: string,
    magnetURI: string,
    length: nat,
    downloaded: nat,
    uploaded: nat,
    downloadSpeed: real,
    uploadSpeed: real,
    progress: real,
    ratio: real,
    numPeers: nat,
    path: string,
    timeRemaining: real,
    done: bool,
    files: seq<EngineFile>)

  /** The position of the first handle with the given infoHash (`client.get`). */
  function IndexOf(ts: seq<EngineTorrent>, h: string): (r: Option<nat>)
    ensures r.Some? ==> r.value < |ts| && ts[r.value].infoHash == h
    ensures r.Some? ==> forall j :: 0 <= j < r.value ==> ts[j].infoHash != h
    ensures r.None? ==> forall j :: 0 <= j < |ts| ==> ts[j].infoHash != h
  {
    if ts == [] then None
    else if ts[0].infoHash == h then Some(0)
    else match IndexOf(ts[1..], h)
      case None => None
      case Some(k) => Some(k + 1)
  }

  /** The list without its `i`-th handle (`client.remove`). */
  function RemoveAt(ts: seq<EngineTorrent>, i: nat): (r: seq<EngineTorrent>)
    requires i < |ts|
    ensures |r| == |ts| - 1
    ensures forall j :: 0 <= j < i ==> r[j] == ts[j]
    ensures forall j :: i <= j < |r| ==> r[j] == ts[j + 1]
  {
    ts[..i] + ts[i + 1..]
  }

  /** `file.select()` / `file.deselect()` on file `k` of a handle. */
  function WithFileSelected(t: EngineTorrent, k: nat, on: bool): (r: EngineTorrent)
    requires k < |t.files|
    ensures |r.files| == |t.files| && r.files[k].selected == on
    ensures forall j :: 0 <= j < |t.files| && j != k ==> r.files[j] == t.files[j]
    ensures r.files[k] == t.files[k].(selected := on)
    ensures r == t.(files := r.files)
  {
    t.(files := t.files[k := t.files[k].(selected := on)])
  }

  /** No two handles share an infoHash. */
  predicate UniqueHashes(ts: seq<EngineTorrent>) {
    forall i, j :: 0 <= i < j < |ts| ==> ts[i].infoHash != ts[j].infoHash
  }

  /** With distinct infoHashes, a removed torrent can no longer be found,
      and every other torrent still can. */
  lemma RemoveForgetsOnlyThatTorrent(ts: seq<EngineTorrent>, h: string)
    requires UniqueHashes(ts) && IndexOf(ts, h).Some?
    ensures IndexOf(RemoveAt(ts, IndexOf(ts, h).value), h).None?
    ensures forall g :: g != h ==> (IndexOf(RemoveAt(ts, IndexOf(ts, h).value), g).Some? <==> IndexOf(ts, g).Some?)
    ensures UniqueHashes(RemoveAt(ts, IndexOf(ts, h).value))
  {
    var i := IndexOf(ts, h).value;
    var r := RemoveAt(ts, i);
    forall g | g != h
      ensures IndexOf(r, g).Some? <==> IndexOf(ts, g).Some?
    {
      if IndexOf(ts, g).Some? {
        var k := IndexOf(ts, g).value;
        assert k != i;
        if k < i { assert r[k].infoHash == g; } else { assert r[k - 1].infoHash == g; }
      }
      if IndexOf(r, g).Some? {
        var k := IndexOf(r, g).value;
        if k < i { assert ts[k].infoHash == g; } else { assert ts[k + 1].infoHash == g; }
      }
    }
    forall j | 0 <= j < |r| ensures r[j].infoHash != h {
      if j >= i { assert r[j] == ts[j + 1]; }
    }
  }
}
