/** The aggregates the statistics panel computes over the pushed torrent list
    (src/renderer/components/StatsPanel.tsx). */
module StatsPanel {

  import opened Types

  /** `torrents.reduce((sum, t) => sum + t.size, 0)` */
  function TotalSize(ts: seq<Torrent>): nat {
    if ts == [] then 0 else TotalSize(ts[..|ts| - 1]) + ts[|ts| - 1].size
  }

  /** `torrents.reduce((sum, t) => sum + t.downloaded, 0)` */
  function TotalDownloaded(ts: seq<Torrent>): nat {
    if ts == [] then 0 else TotalDownloaded(ts[..|ts| - 1]) + ts[|ts| - 1].downloaded
  }

  /** `torrents.reduce((sum, t) => sum + t.uploaded, 0)` */
  function TotalUploaded(ts: seq<Torrent>): nat {
    if ts == [] then 0 else TotalUploaded(ts[..|ts| - 1]) + ts[|ts| - 1].uploaded
  }

  predicate IsActive(t: Torrent) { !t.paused && !t.done }

  /** `torrents.filter(t => !t.paused && !t.done).length`: never more than the list. */
  function ActiveTorrents(ts: seq<Torrent>): (n: nat)
    ensures n <= |ts|
  {
    if ts == [] then 0
    else ActiveTorrents(ts[..|ts| - 1]) + (if IsActive(ts[|ts| - 1]) then 1 else 0)
  }

  /** `torrents.filter(t => t.done).length`: never more than the list. */
  function CompletedTorrents(ts: seq<Torrent>): (n: nat)
    ensures n <= |ts|
  {
    if ts == [] then 0
    else CompletedTorrents(ts[..|ts| - 1]) + (if ts[|ts| - 1].done then 1 else 0)
  }

  /** The overall ratio shown: uploaded over downloaded, or zero when nothing was downloaded. */
  function OverallRatio(ts: seq<Torrent>): (r: real)
    ensures TotalDownloaded(ts) > 0 ==> r * (TotalDownloaded(ts) as real) == TotalUploaded(ts) as real
    ensures TotalDownloaded(ts) == 0 ==> r == 0.0
    ensures r >= 0.0
  {
    if TotalDownloaded(ts) > 0 then (TotalUploaded(ts) as real) / (TotalDownloaded(ts) as real) else 0.0
  }

  /** The sums add up over a split of the list. */
  lemma {:induction false} TotalsAppend(a: seq<Torrent>, b: seq<Torrent>)
    ensures TotalSize(a + b) == TotalSize(a) + TotalSize(b)
    ensures TotalDownloaded(a + b) == TotalDownloaded(a) + TotalDownloaded(b)
    ensures TotalUploaded(a + b) == TotalUploaded(a) + TotalUploaded(b)
  {
    if b != [] {
      var c := a + b;
      assert c[..|c| - 1] == a + b[..|b| - 1];
      assert c[|c| - 1] == b[|b| - 1];
      TotalsAppend(a, b[..|b| - 1]);
    } else {
      assert a + b == a;
    }
  }

  /** The counts add up over a split of the list. */
  lemma {:induction false} CountsAppend(a: seq<Torrent>, b: seq<Torrent>)
    ensures ActiveTorrents(a + b) == ActiveTorrents(a) + ActiveTorrents(b)
    ensures CompletedTorrents(a + b) == CompletedTorrents(a) + CompletedTorrents(b)
  {
    if b != [] {
      var c := a + b;
      assert c[..|c| - 1] == a + b[..|b| - 1];
      assert c[|c| - 1] == b[|b| - 1];
      CountsAppend(a, b[..|b| - 1]);
    } else {
      assert a + b == a;
    }
  }

  /** The number of torrents that are paused without being done. */
  function PausedPending(ts: seq<Torrent>): nat {
    if ts == [] then 0
    else PausedPending(ts[..|ts| - 1]) + (if ts[|ts| - 1].paused && !ts[|ts| - 1].done then 1 else 0)
  }

  /** Every torrent is active, completed, or paused and not done, and exactly one of these:
      so the active and completed counts never exceed the list, and fill it when nothing is paused. */
  lemma {:induction false} ActiveCompletedPartition(ts: seq<Torrent>)
    ensures ActiveTorrents(ts) + CompletedTorrents(ts) + PausedPending(ts) == |ts|
    ensures ActiveTorrents(ts) + CompletedTorrents(ts) <= |ts|
    ensures (forall i :: 0 <= i < |ts| ==> !ts[i].paused) ==> ActiveTorrents(ts) + CompletedTorrents(ts) == |ts|
  {
    if ts != [] {
      ActiveCompletedPartition(ts[..|ts| - 1]);
    }
    if forall i :: 0 <= i < |ts| ==> !ts[i].paused {
      NoPausedNoPending(ts);
    }
  }

  lemma {:induction false} NoPausedNoPending(ts: seq<Torrent>)
    requires forall i :: 0 <= i < |ts| ==> !ts[i].paused
    ensures PausedPending(ts) == 0
  {
    if ts != [] {
      NoPausedNoPending(ts[..|ts| - 1]);
    }
  }

  /** Each sum is zero exactly when every torrent contributes zero to it; in particular
      all three are zero for the empty list. */
  lemma {:induction false} TotalsZeroIff(ts: seq<Torrent>)
    ensures TotalSize(ts) == 0 <==> forall i :: 0 <= i < |ts| ==> ts[i].size == 0
    ensures TotalDownloaded(ts) == 0 <==> forall i :: 0 <= i < |ts| ==> ts[i].downloaded == 0
    ensures TotalUploaded(ts) == 0 <==> forall i :: 0 <= i < |ts| ==> ts[i].uploaded == 0
  {
    if ts != [] {
      var p := ts[..|ts| - 1];
      TotalsZeroIff(p);
      assert forall i :: 0 <= i < |p| ==> p[i] == ts[i];
    }
  }

  /** A count is zero exactly when no torrent qualifies, and the whole list exactly when
      every torrent does. */
  lemma {:induction false} CountsExtremes(ts: seq<Torrent>)
    ensures ActiveTorrents(ts) == 0 <==> forall i :: 0 <= i < |ts| ==> !IsActive(ts[i])
    ensures ActiveTorrents(ts) == |ts| <==> forall i :: 0 <= i < |ts| ==> IsActive(ts[i])
    ensures CompletedTorrents(ts) == 0 <==> forall i :: 0 <= i < |ts| ==> !ts[i].done
    ensures CompletedTorrents(ts) == |ts| <==> forall i :: 0 <= i < |ts| ==> ts[i].done
  {
    if ts != [] {
      var p := ts[..|ts| - 1];
      CountsExtremes(p);
      assert forall i :: 0 <= i < |p| ==> p[i] == ts[i];
    }
  }
}
