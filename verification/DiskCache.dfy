/** The disk hot cache: the lists, index and counters of the memory cache, plus files that
    change one operation at a time. Its bookkeeping is proved against the functions of Lru,
    its files against DiskFiles: every state the disk passes through can be restarted from. */
module DiskCache {
  import opened Prelude
  import opened DiskFiles
  import opened DiskWarm
  import L = Lru
  import LruLaws
  import LruPuts
  import LruRuns

  datatype Lookup = Hit(body: Bytes, entry: L.Entry<()>) | Miss | BadId

  /** validateBlobID. */
  predicate ValidId(id: BlobId) {
    id.name != "" && '/' !in id.name && '\\' !in id.name && id.name != "." && !HasDots(id.name)
  }

  predicate HasDots(s: string) { exists i :: 0 <= i < |s| - 1 && s[i] == '.' && s[i + 1] == '.' }

  /** Which step of publishing a staged body fails, if any. */
  datatype Fault = NoFault | RenameFails | MetaWriteFails | MetaRenameFails

  class DiskCache {
    const policy: L.Policy
    ghost const origin: Disk            // what was on disk when the cache was opened
    var hot: seq<BlobId>
    var main: seq<BlobId>
    var index: map<BlobId, L.Entry<()>>
    var bytesUsed: int
    var hotBytes: int
    var disk: Disk
    ghost var history: set<PutRecord>   // every Put that got as far as writing its metadata
    ghost var trail: seq<Disk>          // every state of the disk since the cache was opened
    ghost var log: seq<FileOp>          // the operations between them

    ghost function View(): L.Cache<()>
      reads this
    {
      L.Cache(hot, main, index, bytesUsed, hotBytes)
    }

    /** Whenever the process dies, what is on disk is one of `trail`. */
    ghost predicate CrashSafe()
      reads this`disk, this`history, this`trail, this`log
    {
      Safe(trail, history) && Logged(trail, log) && trail[0] == origin && trail[|trail| - 1] == disk
    }

    ghost predicate Sound()
      reads this`disk, this`history, this`trail, this`log, this`index
    {
      CrashSafe() && Backed(policy, disk, index)
    }

    method Perform(op: FileOp)
      requires CrashSafe()
      requires op.PublishBody? ==> op.t.id !in disk.metas
      requires op.PublishMeta? && op.id in disk.bodies && op.id in disk.metaTemps ==>
                 && PutRecord(op.id, disk.bodies[op.id], disk.metaTemps[op.id]) in history
                 && Honest(PutRecord(op.id, disk.bodies[op.id], disk.metaTemps[op.id]))
      modifies this`disk, this`trail, this`log
      ensures CrashSafe() && disk == Do(old(disk), op) && trail == old(trail) + [disk] && log == old(log) + [op]
    {
      OpConsistent(disk, op, history);
      disk := Do(disk, op);
      SafeGrows(trail, disk, history);
      trail, log := trail + [disk], log + [op];
    }

    /** Takes the entry out of its list, the index and the counters. */
    method Unlink(blobId: BlobId)
      requires blobId in index
      modifies this`hot, this`main, this`index, this`bytesUsed, this`hotBytes
      ensures View() == L.Drop(old(View()), blobId)
    {
      var entry := index[blobId];
      if entry.pinned {
        hot := L.Without(hot, {blobId});
        hotBytes := hotBytes - entry.size;
      } else {
        main := L.Without(main, {blobId});
      }
      index := index - {blobId};
      bytesUsed := bytesUsed - entry.size;
    }

    /** Since `log0`, blobs have only left the index, and only files of those were touched. */
    ghost predicate Cleared(log0: seq<FileOp>, index0: map<BlobId, L.Entry<()>>)
      reads this`log, this`index
    {
      log0 <= log && TouchedGone(log, |log0|, index) && index.Keys <= index0.Keys
    }

    method RemoveLocked(blobId: BlobId)
      requires blobId in index && Sound()
      modifies this`hot, this`main, this`index, this`bytesUsed, this`hotBytes, this`disk, this`trail, this`log
      ensures View() == L.Drop(old(View()), blobId)
      ensures Sound() && SameTemps(old(disk), disk) && Cleared(old(log), old(index))
    {
      RemoveBacked(policy, disk, index, blobId);
      Unlink(blobId);
      RemoveFiles(blobId);
    }

    method RemoveFiles(blobId: BlobId)
      requires CrashSafe()
      modifies this`disk, this`trail, this`log
      ensures CrashSafe() && disk == Do(Do(old(disk), RemoveBody(blobId)), RemoveMeta(blobId))
      ensures log == old(log) + [RemoveBody(blobId), RemoveMeta(blobId)]
    {
      Perform(RemoveBody(blobId));
      Perform(RemoveMeta(blobId));
    }

    method Get(blobId: BlobId, now: int, openFails: bool) returns (r: Lookup)
      requires L.Valid(View()) && Sound()
      modifies this`hot, this`main, this`index, this`bytesUsed, this`hotBytes, this`disk, this`trail, this`log
      ensures L.Valid(View()) && Sound() && SameTemps(old(disk), disk)
      ensures old(log) <= log && TouchedOnly(log, |old(log)|, index, blobId)
      ensures !ValidId(blobId) ==> r == BadId && View() == old(View())
      ensures ValidId(blobId) ==>
                if blobId in old(index) && !L.Expired(old(index)[blobId], now) && !openFails
                then r.Hit? && blobId in index && r.entry == index[blobId]
                     && PutRecord(blobId, r.body, old(disk.metas[blobId])) in history && r.entry.size == |r.body|
                else r == Miss
      ensures ValidId(blobId) ==> View() == AfterGet(old(View()), blobId, now, openFails)
    {
      if !ValidId(blobId) {
        return BadId;
      }
      AfterGetValid(View(), blobId, now, openFails);
      r := GetLocked(blobId, now, openFails);
    }

    /** The part of Get that runs under the lock. */
    method GetLocked(blobId: BlobId, now: int, openFails: bool) returns (r: Lookup)
      requires Sound()
      modifies this`hot, this`main, this`index, this`bytesUsed, this`hotBytes, this`disk, this`trail, this`log
      ensures Sound() && SameTemps(old(disk), disk) && old(log) <= log && TouchedOnly(log, |old(log)|, index, blobId)
      ensures View() == AfterGet(old(View()), blobId, now, openFails)
      ensures if blobId in old(index) && !L.Expired(old(index)[blobId], now) && !openFails
              then r.Hit? && blobId in index && r.entry == index[blobId]
                   && PutRecord(blobId, r.body, old(disk.metas[blobId])) in history && r.entry.size == |r.body|
              else r == Miss
    {
      if blobId !in index {
        return Miss;
      }
      if L.Expired(index[blobId], now) {
        RemoveLocked(blobId);
        return Miss;
      }
      DropAfterTouch(View(), blobId, now);
      assert Describes(policy, disk, blobId, index[blobId]) && SamePut(disk, history, blobId);
      TouchLocked(blobId, now);
      if openFails {
        RemoveLocked(blobId);
        return Miss;
      }
      return Hit(disk.bodies[blobId], index[blobId]);
    }

    method MoveToFront(blobId: BlobId, now: int)
      requires blobId in index
      modifies this`hot, this`main, this`index
      ensures View() == L.Touch(old(View()), blobId, now)
    {
      var entry := index[blobId];
      index := index[blobId := entry.(hits := entry.hits + 1, lastAccess := now)];
      if entry.pinned {
        hot := [blobId] + L.Without(hot, {blobId});
      } else {
        main := [blobId] + L.Without(main, {blobId});
      }
    }

    method TouchLocked(blobId: BlobId, now: int)
      requires blobId in index && Sound()
      modifies this`hot, this`main, this`index
      ensures View() == L.Touch(old(View()), blobId, now) && Sound()
    {
      var entry := index[blobId];
      TouchBacked(policy, disk, index, blobId, entry.(hits := entry.hits + 1, lastAccess := now));
      MoveToFront(blobId, now);
    }

    method Evict(blobId: BlobId)
      requires L.Valid(View()) && Sound()
      modifies this`hot, this`main, this`index, this`bytesUsed, this`hotBytes, this`disk, this`trail, this`log
      ensures L.Valid(View()) && Sound() && SameTemps(old(disk), disk)
      ensures old(log) <= log && TouchedOnly(log, |old(log)|, index, blobId)
      ensures View() == L.Drop(old(View()), blobId)
    {
      LruRuns.StepValid(policy, View(), LruRuns.OpRemove(blobId));
      if blobId in index {
        RemoveLocked(blobId);
      }
    }

    method OldestEvictable(list: seq<BlobId>) returns (found: Option<BlobId>)
      ensures var vs := L.Victims(list, index); found == if vs == [] then None else Some(vs[0])
    {
      var i := |list|;
      assert list[..i] == list;
      while i > 0 && L.Protected(index, list[i - 1])
        invariant 0 <= i <= |list|
        invariant L.Victims(list, index) == L.Victims(list[..i], index)
      {
        assert list[..i][..i - 1] == list[..i - 1];
        i := i - 1;
      }
      if i == 0 {
        return None;
      }
      return Some(list[i - 1]);
    }

    /** One round of an eviction loop: the oldest evictable entry of the list goes. */
    method RemoveOldest(list: seq<BlobId>) returns (removed: bool)
      requires Sound() && (L.Victims(list, index) != [] ==> L.Victims(list, index)[0] in index)
      modifies this`hot, this`main, this`index, this`bytesUsed, this`hotBytes, this`disk, this`trail, this`log
      ensures Sound() && SameTemps(old(disk), disk) && Cleared(old(log), old(index))
      ensures var vs := L.Victims(list, old(index));
              if vs == [] then !removed && View() == old(View()) else removed && View() == L.Drop(old(View()), vs[0])
    {
      var victim := OldestEvictable(list);
      if victim.None? {
        return false;
      }
      RemoveLocked(victim.value);
      return true;
    }

    method EvictMainLocked(incoming: nat)
      requires L.Valid(View()) && Sound()
      modifies this`hot, this`main, this`index, this`bytesUsed, this`hotBytes, this`disk, this`trail, this`log
      ensures View() == L.EvictMain(policy, old(View()), incoming)
      ensures Sound() && SameTemps(old(disk), disk) && Cleared(old(log), old(index))
    {
      if policy.maxBytes <= 0 {
        return;
      }
      ghost var c0, k := View(), 0;
      ghost var vs := L.Candidates(c0);
      while bytesUsed + incoming > policy.maxBytes
        invariant LruLaws.NotYet(vs, c0.index, c0.bytesUsed + incoming - policy.maxBytes, k)
        invariant View() == LruLaws.After(c0, vs, k)
        invariant Sound() && SameTemps(old(disk), disk) && Cleared(old(log), old(index))
        decreases |vs| - k
      {
        LruLaws.MainRound(c0, incoming, policy.maxBytes, k);
        ghost var log1, index1 := log, index;
        var removed := RemoveOldest(if main == [] then hot else main);
        GoneTwice(log1, log, |old(log)|, index1, index);
        if !removed {
          break;
        }
        k := k + 1;
      }
      LruLaws.MainDone(policy, c0, incoming, k);
    }

    method EvictHotLocked(incoming: nat)
      requires L.Valid(View()) && Sound()
      modifies this`hot, this`main, this`index, this`bytesUsed, this`hotBytes, this`disk, this`trail, this`log
      ensures View() == L.EvictHot(policy, old(View()), incoming)
      ensures Sound() && SameTemps(old(disk), disk) && Cleared(old(log), old(index))
    {
      if policy.hotLimit <= 0 {
        return;
      }
      ghost var c0, k := View(), 0;
      ghost var vs := L.Victims(c0.hot, c0.index);
      while hotBytes + incoming > policy.hotLimit
        invariant LruLaws.NotYet(vs, c0.index, c0.hotBytes + incoming - policy.hotLimit, k)
        invariant View() == LruLaws.After(c0, vs, k)
        invariant Sound() && SameTemps(old(disk), disk) && Cleared(old(log), old(index))
        decreases |vs| - k
      {
        LruLaws.HotRound(c0, incoming, policy.hotLimit, k);
        ghost var log1, index1 := log, index;
        var removed := RemoveOldest(hot);
        GoneTwice(log1, log, |old(log)|, index1, index);
        if !removed {
          break;
        }
        k := k + 1;
      }
      LruLaws.HotDone(policy, c0, incoming, k);
    }

    method PerformOnTemp(op: FileOp)
      requires Sound() && (op.WriteTemp? || op.RemoveTemp?)
      modifies this`disk, this`trail, this`log
      ensures Sound() && disk == Do(old(disk), op) && log == old(log) + [op]
    {
      Perform(op);
      SameFiles(policy, old(disk), disk, index);
    }

    /** Put before the lock: the body goes to a temporary file of its own. */
    method Stage(t: Temp, stream: Bytes, copyFails: bool) returns (ok: bool)
      requires Sound() && t !in disk.temps
      modifies this`disk, this`trail, this`log
      ensures Sound() && old(log) <= log && TouchedGone(log, |old(log)|, index)
      ensures ok <==> ValidId(t.id) && !copyFails && !L.TooBig(policy, |stream|)
      ensures disk == if ok then old(disk).(temps := old(disk.temps)[t := stream]) else old(disk)
    {
      if !ValidId(t.id) {
        return false;
      }
      PerformOnTemp(WriteTemp(t, stream));
      if copyFails || (policy.maxBytes > 0 && |stream| > policy.maxBytes) {
        PerformOnTemp(RemoveTemp(t));
        assert disk.temps == old(disk.temps);
        return false;
      }
      return true;
    }

    method EvictFor(size: nat, pin: bool)
      requires L.Valid(View()) && Sound()
      modifies this`hot, this`main, this`index, this`bytesUsed, this`hotBytes, this`disk, this`trail, this`log
      ensures View() == L.EvictMain(policy, if pin then L.EvictHot(policy, old(View()), size) else old(View()), size)
      ensures Sound() && SameTemps(old(disk), disk) && Cleared(old(log), old(index))
    {
      if pin {
        L.EvictHotValid(policy, View(), size);
        EvictHotLocked(size);
      }
      ghost var log1, index1 := log, index;
      EvictMainLocked(size);
      GoneTwice(log1, log, |old(log)|, index1, index);
    }

    /** Put under the lock, first half: the old entry and the victims go. */
    method MakeRoomLocked(blobId: BlobId, size: nat, pin: bool)
      requires L.Valid(View()) && Sound()
      modifies this`hot, this`main, this`index, this`bytesUsed, this`hotBytes, this`disk, this`trail, this`log
      ensures View() == L.MakeRoom(policy, old(View()), blobId, size, pin)
      ensures Sound() && SameTemps(old(disk), disk) && blobId !in index && Cleared(old(log), old(index))
    {
      if blobId in index {
        L.DropValid(View(), blobId);
        RemoveLocked(blobId);
      }
      ghost var log1, index1 := log, index;
      EvictFor(size, pin);
      GoneTwice(log1, log, |old(log)|, index1, index);
      MakeRoomTakes(policy, old(View()), blobId, size, pin);
    }

    /** writeMeta: a temporary file, renamed into place. */
    method WriteMeta(id: BlobId, meta: MetaFile, fault: Fault) returns (ok: bool)
      requires CrashSafe() && id in disk.bodies && Honest(PutRecord(id, disk.bodies[id], meta))
      modifies this`disk, this`history, this`trail, this`log
      ensures CrashSafe() && old(history) <= history && disk.bodies == old(disk.bodies)
      ensures disk.temps == old(disk.temps) && disk.metaTemps - {id} == old(disk.metaTemps) - {id}
      ensures old(log) <= log && forall i :: |old(log)| <= i < |log| ==> Subject(log[i]) in {None, Some(id)}
      ensures ok <==> fault != MetaWriteFails && fault != MetaRenameFails
      ensures disk.metas == if ok then old(disk.metas)[id := meta] else old(disk.metas)
      ensures ok ==> PutRecord(id, disk.bodies[id], meta) in history
    {
      if fault == MetaWriteFails {
        Perform(WriteMetaTemp(id, Garbage));
        return false;
      }
      RecordPut(id, meta);
      Perform(WriteMetaTemp(id, meta));
      if fault == MetaRenameFails {
        Perform(RemoveMetaTemp(id));
        return false;
      }
      Perform(PublishMeta(id));
      return true;
    }

    /** Renames the body into place, then writes its metadata; on failure the body goes again. */
    method PublishFiles(t: Temp, meta: MetaFile, fault: Fault) returns (ok: bool)
      requires CrashSafe() && t in disk.temps && t.id !in disk.bodies && t.id !in disk.metas
      requires Honest(PutRecord(t.id, disk.temps[t], meta))
      modifies this`disk, this`history, this`trail, this`log
      ensures CrashSafe() && old(history) <= history && (ok <==> fault == NoFault)
      ensures old(log) <= log && forall i :: |old(log)| <= i < |log| ==> Subject(log[i]) in {None, Some(t.id)}
      ensures disk.bodies == if ok then old(disk.bodies)[t.id := old(disk.temps[t])] else old(disk.bodies)
      ensures disk.metas == if ok then old(disk.metas)[t.id := meta] else old(disk.metas)
      ensures OneTempLess(old(disk), disk, t)
      ensures ok ==> PutRecord(t.id, old(disk.temps[t]), meta) in history
    {
      if fault == RenameFails {
        Perform(RemoveTemp(t));
        return false;
      }
      Perform(PublishBody(t));
      ok := WriteMeta(t.id, meta, fault);
      if !ok { Perform(RemoveBody(t.id)); }
    }

    /** Put under the lock, second half. */
    method Publish(t: Temp, entry: L.Entry<()>, fault: Fault) returns (ok: bool)
      requires Sound() && t in disk.temps && t.id !in index && entry.size == |disk.temps[t]|
      requires entry.pinned ==> policy.hotPin
      modifies this`disk, this`history, this`trail, this`log
      ensures CrashSafe() && old(history) <= history && (ok <==> fault == NoFault)
      ensures old(log) <= log && TouchedOnly(log, |old(log)|, index, t.id)
      ensures OneTempLess(old(disk), disk, t)
      ensures if ok then Backed(policy, disk, index[t.id := entry]) else Backed(policy, disk, index)
      ensures ok ==> t.id in disk.bodies && disk.bodies[t.id] == old(disk.temps[t])
      ensures ok ==> t.id in disk.metas && disk.metas[t.id] == MetaOf(entry)
      ensures ok ==> PutRecord(t.id, old(disk.temps[t]), MetaOf(entry)) in history
    {
      ghost var d0 := disk;
      ok := PublishFiles(t, MetaOf(entry), fault);
      if ok {
        InsertBacked(policy, d0, disk, index, t.id, entry, d0.temps[t]);
      } else {
        SameFiles(policy, d0, disk, index);
      }
    }

    ghost method RecordPut(id: BlobId, meta: MetaFile)
      requires CrashSafe() && id in disk.bodies
      modifies this`history
      ensures CrashSafe() && history == old(history) + {PutRecord(id, disk.bodies[id], meta)}
    {
      MoreHistory(trail, disk, history, PutRecord(id, disk.bodies[id], meta));
      history := history + {PutRecord(id, disk.bodies[id], meta)};
    }

    /** Adds the entry at the front of its list. */
    method Link(blobId: BlobId, entry: L.Entry<()>)
      modifies this`hot, this`main, this`index, this`bytesUsed, this`hotBytes
      ensures View() == L.Insert(old(View()), blobId, entry)
    {
      if entry.pinned {
        hot := [blobId] + hot;
        hotBytes := hotBytes + entry.size;
      } else {
        main := [blobId] + main;
      }
      index := index[blobId := entry];
      bytesUsed := bytesUsed + entry.size;
    }

    method Install(t: Temp, entry: L.Entry<()>, fault: Fault) returns (ok: bool)
      requires L.Valid(View()) && Sound() && t in disk.temps && entry.size == |disk.temps[t]|
      requires entry.pinned ==> policy.hotPin
      modifies this
      ensures Sound() && (ok <==> fault == NoFault) && OneTempLess(old(disk), disk, t)
      ensures old(log) <= log && TouchedOnly(log, |old(log)|, index, t.id)
      ensures var room := L.MakeRoom(policy, old(View()), t.id, entry.size, entry.pinned);
              View() == if ok then L.Insert(room, t.id, entry) else room
      ensures ok ==> t.id in disk.bodies && disk.bodies[t.id] == old(disk.temps[t])
      ensures ok ==> t.id in disk.metas && disk.metas[t.id] == MetaOf(entry)
      ensures ok ==> PutRecord(t.id, old(disk.temps[t]), MetaOf(entry)) in history
    {
      MakeRoomLocked(t.id, entry.size, entry.pinned);
      ghost var log1, index1 := log, index - {t.id};
      GoneIsOnly(log, |old(log)|, index, t.id);
      ok := Publish(t, entry, fault);
      GoneTwice(log1, log, |old(log)|, index1, index1);
      if ok {
        Link(t.id, entry);
      }
    }

    /** Put under the lock. A Put that fails to publish has lost the entry it replaces. */
    method Commit(t: Temp, opts: L.PutOptions, now: int, fault: Fault) returns (ok: bool)
      requires L.Valid(View()) && Sound() && t in disk.temps && !L.TooBig(policy, |disk.temps[t]|)
      modifies this
      ensures L.Valid(View()) && Sound() && (ok <==> fault == NoFault) && OneTempLess(old(disk), disk, t)
      ensures old(log) <= log && TouchedOnly(log, |old(log)|, index, t.id)
      ensures View() == AfterPut(policy, old(View()), t.id, |old(disk.temps[t])|, opts, now, ok)
      ensures ok ==> t.id in disk.bodies && disk.bodies[t.id] == old(disk.temps[t])
      ensures ok ==> t.id in index && LruPuts.AsPut(policy, index[t.id], (), |old(disk.temps[t])|, opts, now)
      ensures ok ==> t.id in disk.metas && disk.metas[t.id].Meta? && disk.metas[t.id].hits == 0
    {
      var size := |disk.temps[t]|;
      var entry := L.NewEntry(policy, (), size, opts, now);
      AfterPutValid(policy, View(), t.id, size, opts, now, fault == NoFault);
      LruPuts.PutStores(policy, View(), t.id, (), size, opts, now, now);
      ok := Install(t, entry, fault);
    }

    // -------------------------------------------------------------------
    // Restart
    // -------------------------------------------------------------------

    /** NewDiskCache on the files in `found`, left by earlier runs that made `puts`. */
    constructor Open(policy: L.Policy, found: Disk, ghost puts: set<PutRecord>, now: int)
      requires Consistent(found, puts)
      ensures this.policy == policy && L.Valid(View()) && Sound()
      ensures WarmsTo(policy, found, now, View())
      ensures disk.temps == map[] && disk.metaTemps == map[] && history == puts
      ensures origin == found && Spared(log, AllKept(policy, found, now))
    {
      this.policy, origin := policy, found;
      hot, main, index, bytesUsed, hotBytes := [], [], map[], 0, 0;
      disk, history, trail, log := found, puts, [found], [];
      new;
      assert CrashSafe() by { SafeStart(found, puts); }
      Warm(now);
    }

    /** warm. */
    method Warm(now: int)
      requires CrashSafe() && View() == L.Empty() && log == []
      modifies this`hot, this`main, this`index, this`bytesUsed, this`hotBytes, this`disk, this`trail, this`log
      ensures L.Valid(View()) && Sound() && disk.temps == map[] && disk.metaTemps == map[]
      ensures WarmsTo(policy, old(disk), now, View()) && Spared(log, AllKept(policy, old(disk), now))
    {
      ghost var keep := AllKept(policy, disk, now);
      var order := Scan(keep);
      Warmed(policy, old(disk), disk, order, now);
      AdoptedValid(policy, disk, order, now);
      KeptStays(policy, old(disk), disk, order, now);
      WarmUp(order, now, keep);
      WarmsToValid(policy, old(disk), now, View());
    }

    /** readShards and the sort by age. */
    method Scan(ghost keep: set<BlobId>) returns (order: seq<BlobId>)
      requires CrashSafe() && Spared(log, keep) && forall id :: id in keep ==> Complete(disk, id)
      modifies this`disk, this`trail, this`log
      ensures CrashSafe() && disk.temps == map[] && disk.metaTemps == map[] && Spared(log, keep)
      ensures ScanOrder(disk, order) && Sifted(old(disk), disk) && Adopting(policy, disk, disk, map[], order)
    {
      SweepTemps(keep);
      ghost var swept := disk;
      assert forall id :: id in keep ==> Complete(swept, id);
      var complete := LoadMetas(keep);
      ghost var loaded := disk;
      SweepOrphans(complete, keep);
      ScanDone(policy, swept, loaded, disk, complete);
      SiftedFrom(old(disk), swept, disk);
      return SortByAge(complete, disk.metas);
    }

    /** The rest of warm: fill the index, then evict down to the limit. */
    method WarmUp(order: seq<BlobId>, now: int, ghost keep: set<BlobId>)
      requires Spared(log, keep) && forall id :: id in keep ==> !L.Expired(EntryAt(policy, disk, id), now)
      requires keep <= L.EvictMain(policy, Adopted(policy, disk, order, now), 0).index.Keys
      requires CrashSafe() && View() == L.Empty() && Adopting(policy, disk, disk, map[], order)
      requires L.Valid(Adopted(policy, disk, order, now)) && disk.temps == map[] && disk.metaTemps == map[]
      modifies this`hot, this`main, this`index, this`bytesUsed, this`hotBytes, this`disk, this`trail, this`log
      ensures Sound() && disk.temps == map[] && disk.metaTemps == map[] && Spared(log, keep)
      ensures View() == L.EvictMain(policy, Adopted(policy, old(disk), order, now), 0)
    {
      Adopt(order, now, keep);
      ghost var log0 := log;
      EvictMainLocked(0);
      GoneSpares(log0, log, index, keep);
    }

    method SweepTemps(ghost keep: set<BlobId>)
      requires CrashSafe() && Spared(log, keep)
      modifies this`disk, this`trail, this`log
      ensures CrashSafe() && Spared(log, keep) && disk == Disk(old(disk.bodies), old(disk.metas), map[], map[])
    {
      while disk.temps != map[]
        invariant CrashSafe() && Spared(log, keep)
        invariant disk.bodies == old(disk.bodies) && disk.metas == old(disk.metas)
        decreases disk.temps.Keys
      {
        var t :| t in disk.temps;
        Perform(RemoveTemp(t));
      }
      while disk.metaTemps != map[]
        invariant CrashSafe() && Spared(log, keep)
        invariant disk.bodies == old(disk.bodies) && disk.metas == old(disk.metas) && disk.temps == map[]
        decreases disk.metaTemps.Keys
      {
        var id :| id in disk.metaTemps;
        Perform(RemoveMetaTemp(id));
      }
    }

    /** Removes metadata that cannot be used or has expired, after the body it may have. */
    method Discard(id: BlobId, ghost keep: set<BlobId>)
      requires CrashSafe() && Spared(log, keep) && id !in keep
      modifies this`disk, this`trail, this`log
      ensures CrashSafe() && SameTemps(old(disk), disk) && Spared(log, keep)
      ensures disk.metas == old(disk.metas) - {id} && disk.bodies == old(disk.bodies) - {id}
    {
      if id in disk.bodies { Perform(RemoveBody(id)); }
      Perform(RemoveMeta(id));
    }

    /** readShards, its metadata loop. */
    method LoadMetas(ghost keep: set<BlobId>) returns (complete: seq<BlobId>)
      requires CrashSafe() && Spared(log, keep) && forall id :: id in keep ==> Complete(disk, id)
      modifies this`disk, this`trail, this`log
      ensures CrashSafe() && SameTemps(old(disk), disk) && Spared(log, keep)
      ensures Scanning(old(disk), disk, {}, complete)
    {
      complete := [];
      var todo := disk.metas.Keys;
      while todo != {}
        invariant CrashSafe() && SameTemps(old(disk), disk) && Spared(log, keep)
        invariant Scanning(old(disk), disk, todo, complete)
        decreases todo
      {
        var id :| id in todo;
        ghost var d := disk;
        if id in disk.bodies && disk.metas[id].Meta? {
          ScanKeeps(old(disk), disk, todo, complete, id);
          complete := complete + [id];
        } else {
          assert id !in keep;
          Discard(id, keep);
          ScanDrops(old(disk), d, todo, complete, id, disk);
        }
        todo := todo - {id};
      }
    }

    /** readShards, its last loop: bodies nobody claims. */
    method SweepOrphans(complete: seq<BlobId>, ghost keep: set<BlobId>)
      requires CrashSafe() && forall id :: id in complete ==> id in disk.bodies
      requires Spared(log, keep) && forall id :: id in keep ==> id in complete
      modifies this`disk, this`trail, this`log
      ensures CrashSafe() && SameTemps(old(disk), disk) && Spared(log, keep)
      ensures disk.metas == old(disk.metas)
      ensures disk.bodies == map id | id in old(disk.bodies) && id in complete :: old(disk.bodies)[id]
    {
      var orphans := set id | id in disk.bodies && id !in complete;
      while orphans != {}
        invariant CrashSafe() && SameTemps(old(disk), disk) && Spared(log, keep)
        invariant disk.metas == old(disk.metas) && forall id :: id in orphans ==> id !in complete
        invariant disk.bodies == map id | id in old(disk.bodies) && (id in complete || id in orphans) :: old(disk.bodies)[id]
        decreases orphans
      {
        var id :| id in orphans;
        Perform(RemoveBody(id));
        orphans := orphans - {id};
      }
    }

    method AdoptNext(id: BlobId, now: int, ghost d1: Disk, ghost rest: seq<BlobId>, ghost keep: set<BlobId>)
      requires Spared(log, keep) && (id in keep ==> !L.Expired(EntryAt(policy, d1, id), now))
      requires CrashSafe() && Adopting(policy, d1, disk, index, rest) && rest != [] && rest[0] == id
      modifies this`hot, this`main, this`index, this`bytesUsed, this`hotBytes, this`disk, this`trail, this`log
      ensures CrashSafe() && Adopting(policy, d1, disk, index, rest[1..])
      ensures SameTemps(old(disk), disk) && Spared(log, keep)
      ensures View() == AdoptOne(policy, d1, old(View()), id, now)
    {
      assert id in rest && SamePut(disk, history, id);
      var e := EntryOf(policy, disk.metas[id]);
      if L.Expired(e, now) {
        ghost var d := disk;
        Discard(id, keep);
        AdoptDrops(policy, d1, d, disk, index, rest);
      } else {
        AdoptKeeps(policy, d1, disk, index, rest, history);
        Link(id, e);
      }
    }

    /** warm's loop over the entries, oldest first. */
    method Adopt(order: seq<BlobId>, now: int, ghost keep: set<BlobId>)
      requires Spared(log, keep) && forall id :: id in keep ==> !L.Expired(EntryAt(policy, disk, id), now)
      requires CrashSafe() && View() == L.Empty() && Adopting(policy, disk, disk, map[], order)
      modifies this`hot, this`main, this`index, this`bytesUsed, this`hotBytes, this`disk, this`trail, this`log
      ensures Sound() && SameTemps(old(disk), disk) && Spared(log, keep)
      ensures View() == Adopted(policy, old(disk), order, now)
    {
      ghost var d1 := disk;
      assert order[0..] == order;
      for k := 0 to |order|
        invariant CrashSafe() && SameTemps(d1, disk) && Spared(log, keep)
        invariant View() == Adopted(policy, d1, order[..k], now)
        invariant Adopting(policy, d1, disk, index, order[k..])
      {
        assert order[k..][1..] == order[k + 1..] && order[..k + 1][..k] == order[..k];
        AdoptNext(order[k], now, d1, order[k..], keep);
      }
      assert order[..|order|] == order && order[|order|..] == [];
      AdoptDone(policy, d1, disk, index);
    }
  }

  /** A Get whose body file cannot be opened drops the entry. */
  function AfterGet(c: L.Cache<()>, id: BlobId, now: int, openFails: bool): L.Cache<()> {
    if openFails then L.Drop(c, id) else L.Get(c, id, now)
  }

  lemma AfterGetValid(c: L.Cache<()>, id: BlobId, now: int, openFails: bool)
    requires L.Valid(c)
    ensures L.Valid(AfterGet(c, id, now, openFails))
  {
    var p := L.Policy(false, 0, 0, 0);
    if openFails {
      LruRuns.StepValid(p, c, LruRuns.OpRemove(id));
    } else {
      LruRuns.StepValid(p, c, LruRuns.OpGet(id, now));
    }
  }

  /** A Put that fails to publish has made room, and no more. */
  ghost function AfterPut(p: L.Policy, c: L.Cache<()>, id: BlobId, size: nat, opts: L.PutOptions, now: int, ok: bool): L.Cache<()> {
    if ok then L.Put(p, c, id, (), size, opts, now) else L.MakeRoom(p, c, id, size, opts.pinHot && p.hotPin)
  }

  lemma AfterPutValid(p: L.Policy, c: L.Cache<()>, id: BlobId, size: nat, opts: L.PutOptions, now: int, ok: bool)
    requires L.Valid(c)
    ensures L.Valid(AfterPut(p, c, id, size, opts, now, ok))
  {
    if ok {
      LruRuns.StepValid(p, c, LruRuns.OpPut(id, (), size, opts, now));
    } else {
      LruRuns.StepValid(p, c, LruRuns.OpLostPut(id, size, opts.pinHot && p.hotPin));
    }
  }

  lemma EvictHotKeys<B>(p: L.Policy, c: L.Cache<B>, incoming: nat)
    ensures L.EvictHot(p, c, incoming).index.Keys <= c.index.Keys
  {
    var vs := L.Victims(c.hot, c.index);
    DropAllSub(c, vs[..L.Shortest(vs, c.index, c.hotBytes + incoming - p.hotLimit)]);
  }

  lemma EvictMainKeys<B>(p: L.Policy, c: L.Cache<B>, incoming: nat)
    ensures L.EvictMain(p, c, incoming).index.Keys <= c.index.Keys
  {
    forall id | id in L.EvictMain(p, c, incoming).index ensures id in c.index { EvictMainSub(p, c, incoming, id); }
  }

  lemma MakeRoomTakes<B>(p: L.Policy, c: L.Cache<B>, id: BlobId, size: nat, pin: bool)
    ensures id !in L.MakeRoom(p, c, id, size, pin).index
  {
    var c1 := L.Drop(c, id);
    EvictHotKeys(p, c1, size);
    EvictMainKeys(p, if pin then L.EvictHot(p, c1, size) else c1, size);
  }

  /** Touching an entry and then dropping it is dropping it. */
  lemma DropAfterTouch<B>(c: L.Cache<B>, id: BlobId, now: int)
    requires id in c.index
    ensures L.Drop(L.Touch(c, id, now), id) == L.Drop(c, id)
  {
    L.WithoutTwice(c.hot, {id}, {id});
    L.WithoutTwice(c.main, {id}, {id});
    assert ([id] + L.Without(c.hot, {id}))[1..] == L.Without(c.hot, {id});
    assert ([id] + L.Without(c.main, {id}))[1..] == L.Without(c.main, {id});
    var t := L.Touch(c, id, now);
    assert t.index - {id} == c.index - {id};
    assert {id} + {id} == {id};
  }
}
