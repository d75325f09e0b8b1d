/** The in-memory hot cache: its lists, index and counters as mutable fields, its
    eviction loops as loops. Every method is proved against the functions of Lru;
    LruRuns shows what those keep over whole runs. */
module MemoryCache {
  import opened Prelude
  import L = Lru
  import LruLaws
  import LruPuts
  import LruRuns

  /** How a lookup ends; the source returns ErrCacheMiss or a required-argument error. */
  datatype Lookup = Hit(body: Bytes, entry: L.Entry<Bytes>) | Miss | BadId

  class MemoryCache {
    const policy: L.Policy
    var hot: seq<BlobId>
    var main: seq<BlobId>
    var index: map<BlobId, L.Entry<Bytes>>
    var bytesUsed: int
    var hotBytes: int

    ghost function View(): L.Cache<Bytes>
      reads this
    {
      L.Cache(hot, main, index, bytesUsed, hotBytes)
    }

    constructor (policy: L.Policy)
      ensures View() == L.Empty() && this.policy == policy
    {
      this.policy := policy;
      hot, main, index, bytesUsed, hotBytes := [], [], map[], 0, 0;
    }

    method Get(blobId: BlobId, now: int) returns (r: Lookup)
      requires L.Valid(View())
      modifies this
      ensures L.Valid(View())
      ensures blobId.name == "" ==> r == BadId && View() == old(View())
      ensures blobId.name != "" ==> View() == L.Get(old(View()), blobId, now)
      ensures blobId.name != "" ==>
                if blobId in old(index) && !L.Expired(old(index)[blobId], now)
                then r.Hit? && r.body == old(index)[blobId].body && blobId in index && r.entry == index[blobId]
                else r == Miss
    {
      if blobId.name == "" {
        return BadId;
      }
      LruRuns.StepValid(policy, View(), LruRuns.OpGet(blobId, now));
      if blobId !in index {
        return Miss;
      }
      var entry := index[blobId];
      if L.Expired(entry, now) {
        RemoveLocked(blobId);
        return Miss;
      }
      TouchLocked(blobId, now);
      return Hit(entry.body, index[blobId]);
    }

    /** Counts the hit and moves the entry to the front of its list. */
    method TouchLocked(blobId: BlobId, now: int)
      requires blobId in index
      modifies this
      ensures View() == L.Touch(old(View()), blobId, now)
    {
      var entry := index[blobId];
      index := index[blobId := entry.(hits := entry.hits + 1, lastAccess := now)];
      if entry.pinned {
        hot := [blobId] + L.Without(hot, {blobId});
      } else {
        main := [blobId] + L.Without(main, {blobId});
      }
    }

    /** `sizeHint` is PutOptions.SizeBytes; `readFails` says the reader returned an error. */
    method Put(blobId: BlobId, stream: Bytes, readFails: bool, sizeHint: int, opts: L.PutOptions, now: int)
      returns (ok: bool)
      requires L.Valid(View())
      modifies this
      ensures L.Valid(View())
      ensures ok <==> && blobId.name != "" && !readFails && !L.TooBig(policy, |stream|)
                      && !(sizeHint > 0 && policy.maxBytes > 0 && sizeHint > policy.maxBytes)
      ensures !ok ==> View() == old(View())
      ensures ok ==> View() == L.Put(policy, old(View()), blobId, stream, |stream|, opts, now)
      ensures ok ==> blobId in index && LruPuts.AsPut(policy, index[blobId], stream, |stream|, opts, now)
    {
      if blobId.name == "" {
        return false;
      }
      if sizeHint > 0 && policy.maxBytes > 0 && sizeHint > policy.maxBytes {
        return false;
      }
      // The limit reader hands over at most one byte more than the capacity.
      var data := if policy.maxBytes > 0 && |stream| > policy.maxBytes then stream[..policy.maxBytes + 1] else stream;
      if readFails || (policy.maxBytes > 0 && |data| > policy.maxBytes) {
        return false;
      }
      LruRuns.StepValid(policy, View(), LruRuns.OpPut(blobId, data, |data|, opts, now));
      LruPuts.PutStores(policy, View(), blobId, data, |data|, opts, now, now);
      Store(blobId, L.NewEntry(policy, data, |data|, opts, now));
      return true;
    }

    /** The part of Put that runs under the lock. */
    method Store(blobId: BlobId, entry: L.Entry<Bytes>)
      requires L.Valid(View())
      modifies this
      ensures View() == L.Insert(L.MakeRoom(policy, old(View()), blobId, entry.size, entry.pinned), blobId, entry)
    {
      if blobId in index {
        L.DropValid(View(), blobId);
        RemoveLocked(blobId);
      }
      MakeRoomLocked(entry.size, entry.pinned);
      Link(blobId, entry);
    }

    /** Adds the entry at the front of its list. */
    method Link(blobId: BlobId, entry: L.Entry<Bytes>)
      modifies this
      ensures View() == L.Insert(old(View()), blobId, entry)
    {
      if entry.pinned {
        hot := [blobId] + hot;
        hotBytes := hotBytes + entry.size;
      } else {
        main := [blobId] + main;
      }
      index := index[blobId := entry];
      bytesUsed := bytesUsed + entry.size;
    }

    method MakeRoomLocked(size: nat, pin: bool)
      requires L.Valid(View())
      modifies this
      ensures View() == L.EvictMain(policy, if pin then L.EvictHot(policy, old(View()), size) else old(View()), size)
    {
      if pin {
        L.EvictHotValid(policy, View(), size);
        EvictHotLocked(size);
      }
      EvictMainLocked(size);
    }

    method Evict(blobId: BlobId)
      requires L.Valid(View())
      modifies this
      ensures L.Valid(View())
      ensures View() == L.Drop(old(View()), blobId)
    {
      LruRuns.StepValid(policy, View(), LruRuns.OpRemove(blobId));
      if blobId in index {
        RemoveLocked(blobId);
      }
    }

    method RemoveLocked(blobId: BlobId)
      requires blobId in index
      modifies this
      ensures View() == L.Drop(old(View()), blobId)
    {
      var entry := index[blobId];
      if entry.pinned {
        hot := L.Without(hot, {blobId});
        hotBytes := hotBytes - entry.size;
      } else {
        main := L.Without(main, {blobId});
      }
      index := index - {blobId};
      bytesUsed := bytesUsed - entry.size;
    }

    /** Walks a list from its back to the first entry that may be evicted. */
    method OldestEvictable(list: seq<BlobId>) returns (found: Option<BlobId>)
      ensures var vs := L.Victims(list, index); found == if vs == [] then None else Some(vs[0])
    {
      var i := |list|;
      assert list[..i] == list;
      while i > 0 && L.Protected(index, list[i - 1])
        invariant 0 <= i <= |list|
        invariant L.Victims(list, index) == L.Victims(list[..i], index)
      {
        assert list[..i][..i - 1] == list[..i - 1];
        i := i - 1;
      }
      if i == 0 {
        return None;
      }
      return Some(list[i - 1]);
    }

    method EvictMainLocked(incoming: nat)
      requires L.Valid(View())
      modifies this
      ensures View() == L.EvictMain(policy, old(View()), incoming)
    {
      if policy.maxBytes <= 0 {
        return;
      }
      ghost var c0, k := View(), 0;
      ghost var vs := L.Candidates(c0);
      while bytesUsed + incoming > policy.maxBytes
        invariant LruLaws.NotYet(vs, c0.index, c0.bytesUsed + incoming - policy.maxBytes, k)
        invariant View() == LruLaws.After(c0, vs, k)
        decreases |vs| - k
      {
        LruLaws.MainRound(c0, incoming, policy.maxBytes, k);
        var back := if main == [] then hot else main;
        if back == [] {
          break;
        }
        var victim := OldestEvictable(back);
        if victim.None? {
          break;
        }
        RemoveLocked(victim.value);
        k := k + 1;
      }
      LruLaws.MainDone(policy, c0, incoming, k);
    }

    method EvictHotLocked(incoming: nat)
      requires L.Valid(View())
      modifies this
      ensures View() == L.EvictHot(policy, old(View()), incoming)
    {
      if policy.hotLimit <= 0 {
        return;
      }
      ghost var c0, k := View(), 0;
      ghost var vs := L.Victims(c0.hot, c0.index);
      while hotBytes + incoming > policy.hotLimit
        invariant LruLaws.NotYet(vs, c0.index, c0.hotBytes + incoming - policy.hotLimit, k)
        invariant View() == LruLaws.After(c0, vs, k)
        decreases |vs| - k
      {
        LruLaws.HotRound(c0, incoming, policy.hotLimit, k);
        if hot == [] {
          break;
        }
        var victim := OldestEvictable(hot);
        if victim.None? {
          break;
        }
        RemoveLocked(victim.value);
        k := k + 1;
      }
      LruLaws.HotDone(policy, c0, incoming, k);
    }
  }
}
