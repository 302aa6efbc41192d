/**
 A whole download (main.cpp): the objects are wired together, the event loop's calls are made one by
 one, and the final check runs once every piece is held.
 */
module Session {
  import opened Bytes
  import opened Geometry
  import opened Disk
  import opened Bitfields
  import opened Pieces
  import opened Picker
  import opened Swarm
  import opened Reach
  import opened Runs
  import opened Coordinator

  /** One call of the event loop. */
  method Dispatch(coordinator: DownloadCoordinator, ev: Event)
    requires coordinator.Valid() && Enabled(coordinator.Cfg(), coordinator.View(), ev)
    modifies coordinator, coordinator.pm, coordinator.pm.bitfield.bytes, coordinator.picker, coordinator.disk
    ensures coordinator.Valid() && coordinator.View() == Step(coordinator.Cfg(), old(coordinator.View()), ev)
  {
    hide Handle, OnUnregister, Put, Sound, LaidOut, Shaped, Members;
    match ev
    case Register(p, choking, interested) => coordinator.RegisterPeer(p, choking, interested);
    case Unregister(p) => coordinator.UnregisterPeer(p);
    case Deliver(p, msg) => var _ := coordinator.HandlePeerMessage(p, msg);
  }

  lemma {:induction false} LegalPrefix(c: Config, disk: seq<byte>, evs: seq<Event>, n: nat)
    requires Startable(c, disk) && Legal(c, disk, evs) && n <= |evs|
    ensures Legal(c, disk, evs[..n])
    decreases |evs|
  {
    hide Startable, Enabled, Step;
    if n == |evs| {
      assert evs[..n] == evs;
    } else {
      AfterUnfolds(c, disk, evs);
      LegalPrefix(c, disk, evs[..|evs| - 1], n);
      assert evs[..|evs| - 1][..n] == evs[..n];
    }
  }

  lemma NextEvent(c: Config, disk: seq<byte>, evs: seq<Event>, k: nat)
    requires Startable(c, disk) && Legal(c, disk, evs) && k < |evs|
    ensures Legal(c, disk, evs[..k]) && Legal(c, disk, evs[..k + 1])
    ensures Enabled(c, After(c, disk, evs[..k]), evs[k])
    ensures After(c, disk, evs[..k + 1]) == Step(c, After(c, disk, evs[..k]), evs[k])
  {
    hide Startable, Enabled, Step, Legal, After;
    LegalPrefix(c, disk, evs, k + 1);
    LegalPrefix(c, disk, evs, k);
    AfterUnfolds(c, disk, evs[..k + 1]);
    assert evs[..k + 1][..k] == evs[..k];
  }

  /** Makes the calls of `evs` in order, after those of `before`. */
  method Drive(coordinator: DownloadCoordinator, evs: seq<Event>, ghost before: seq<Event>, ghost disk: seq<byte>)
    requires coordinator.Valid() && Startable(coordinator.Cfg(), disk)
    requires Legal(coordinator.Cfg(), disk, before) && Legal(coordinator.Cfg(), disk, before + evs)
    requires coordinator.View() == After(coordinator.Cfg(), disk, before)
    modifies coordinator, coordinator.pm, coordinator.pm.bitfield.bytes, coordinator.picker, coordinator.disk
    ensures coordinator.Valid() && coordinator.View() == After(coordinator.Cfg(), disk, before + evs)
  {
    hide Startable, Enabled, Step, Sound, LaidOut, Shaped, Members, After, Legal;
    ghost var c, all := coordinator.Cfg(), before + evs;
    assert all[..|before|] == before;
    for k := 0 to |evs|
      invariant coordinator.Valid() && Legal(c, disk, all[..|before| + k])
      invariant coordinator.View() == After(c, disk, all[..|before| + k])
    {
      NextEvent(c, disk, all, |before| + k);
      Dispatch(coordinator, evs[k]);
    }
    assert all[..|before| + |evs|] == all;
  }

  lemma StartSound(c: Config, disk: seq<byte>)
    requires Startable(c, disk)
    ensures Sound(c.meta) && Legal(c, disk, []) && After(c, disk, []) == Start(c, disk)
  {
  }

  ghost function UpTo(n: nat): (r: set<nat>)
    ensures forall i: nat :: i in r <==> i < n
    ensures |r| == n
  {
    if n == 0 then {} else UpTo(n - 1) + {n - 1}
  }

  /** A set of pieces is complete exactly when it has as many as there are. */
  lemma CountsAll(s: set<nat>, n: nat)
    requires forall i | i in s :: i < n
    ensures |s| == n <==> forall i: nat | i < n :: i in s
  {
    var all := UpTo(n);
    assert s <= all;
    SubsetSize(s, all);
    if |s| == n && s != all {
      var i :| i in all && i !in s;
      SubsetSize(s, all - {i});
    } else if forall i: nat | i < n :: i in s {
      assert s == all;
    }
  }

  /** Held pieces are in range and stored with their hashes, so a complete download passes the final check. */
  lemma FinalCheckPasses(c: Config, disk: seq<byte>, evs: seq<Event>)
    requires Startable(c, disk) && Legal(c, disk, evs)
    requires forall i: nat | i < c.meta.numPieces :: i in After(c, disk, evs).mgr.have
    ensures forall i: nat | i < c.meta.numPieces :: Verifies(c.meta, c.sha1, After(c, disk, evs).disk, i)
  {
    hide Startable, Legal, After, PieceStart, PieceLength;
    forall i: nat | i < c.meta.numPieces ensures Verifies(c.meta, c.sha1, After(c, disk, evs).disk, i) {
      HeldPiecesVerify(c, disk, evs, i);
    }
  }

  lemma HeldInRange(c: Config, disk: seq<byte>, evs: seq<Event>)
    requires Startable(c, disk) && Legal(c, disk, evs)
    ensures forall i | i in After(c, disk, evs).mgr.have :: i < c.meta.numPieces
  {
    hide Startable, Legal, After, NoLost;
    Reachable(c, disk, evs);
  }

  /**
   A download from empty hands over preallocated files: the files end up as the run says, completion is
   noticed exactly when every piece is held, and the check made then succeeds for every piece.
   */
  method Download(c: Config, initial: seq<seq<byte>>, evs: seq<Event>)
    returns (complete: bool, allOk: bool, files: seq<seq<byte>>)
    requires LaidOut(initial, c.meta.files) && Startable(c, Concat(initial)) && Legal(c, Concat(initial), evs)
    ensures LaidOut(files, c.meta.files) && Concat(files) == After(c, Concat(initial), evs).disk
    ensures complete <==> forall i: nat | i < c.meta.numPieces :: i in After(c, Concat(initial), evs).mgr.have
    ensures complete ==> allOk
  {
    hide Startable, Legal, After, Sound, LaidOut, Members, Verifies, Concat;
    StartSound(c, Concat(initial));
    var pm := new PieceManager(c.meta, c.sha1);
    var picker := new PiecePicker(c.meta.numPieces, c.rng);
    var disk := new DiskIOManager(c.meta, c.sha1, initial);
    var coordinator := new DownloadCoordinator(pm, picker, disk);
    assert [] + evs == evs;
    Drive(coordinator, evs, [], Concat(initial));
    var held := pm.bitfield.Count();
    HeldInRange(c, Concat(initial), evs);
    CountsAll(pm.View().have, c.meta.numPieces);
    complete := held == c.meta.numPieces;
    allOk := false;
    if complete {
      allOk := ValidateFiles(disk);
      FinalCheckPasses(c, Concat(initial), evs);
    }
    files := disk.files;
  }
}
