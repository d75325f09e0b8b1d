/** The disk cache's files: a body and a metadata file per blob, published by renaming
    temporary files, and what may be on disk when the process dies between two operations. */
module DiskFiles {
  import opened Prelude
  import L = Lru

  /** The parsed content of a metadata file, or one that does not parse. */
  datatype MetaFile =
    | Meta(size: nat, hash: string, storedAt: int, expiresAt: Option<int>, pinned: bool, nonEvictable: bool, hits: nat)
    | Garbage

  datatype Temp = Temp(id: BlobId, suffix: nat)

  datatype Disk = Disk(
    bodies: map<BlobId, Bytes>, metas: map<BlobId, MetaFile>,
    temps: map<Temp, Bytes>, metaTemps: map<BlobId, MetaFile>)

  datatype FileOp =
    | WriteTemp(t: Temp, body: Bytes) | RemoveTemp(t: Temp) | PublishBody(t: Temp) | RemoveBody(id: BlobId)
    | WriteMetaTemp(id: BlobId, meta: MetaFile) | RemoveMetaTemp(id: BlobId) | PublishMeta(id: BlobId) | RemoveMeta(id: BlobId)

  /** One file operation; a rename or removal of a file that is not there does nothing. */
  function Do(d: Disk, op: FileOp): Disk {
    match op
    case WriteTemp(t, body) => d.(temps := d.temps[t := body])
    case RemoveTemp(t) => d.(temps := d.temps - {t})
    case PublishBody(t) =>
      if t in d.temps then d.(bodies := d.bodies[t.id := d.temps[t]], temps := d.temps - {t}) else d
    case RemoveBody(id) => d.(bodies := d.bodies - {id})
    case WriteMetaTemp(id, meta) => d.(metaTemps := d.metaTemps[id := meta])
    case RemoveMetaTemp(id) => d.(metaTemps := d.metaTemps - {id})
    case PublishMeta(id) =>
      if id in d.metaTemps then d.(metas := d.metas[id := d.metaTemps[id]], metaTemps := d.metaTemps - {id}) else d
    case RemoveMeta(id) => d.(metas := d.metas - {id})
  }

  /** The blob whose body or metadata file an operation replaces or removes. */
  function Subject(op: FileOp): Option<BlobId> {
    match op
    case PublishBody(t) => Some(t.id)
    case RemoveBody(id) => Some(id)
    case PublishMeta(id) => Some(id)
    case RemoveMeta(id) => Some(id)
    case _ => None
  }

  /** `trail` lists the states that the operations in `log` lead through. */
  ghost predicate Logged(trail: seq<Disk>, log: seq<FileOp>) {
    |trail| == |log| + 1 && forall i :: 0 <= i < |log| ==> trail[i + 1] == Do(trail[i], log[i])
  }

  /** Since position `from`, only files of blobs no longer indexed were touched. */
  ghost predicate TouchedGone(log: seq<FileOp>, from: nat, index: map<BlobId, L.Entry<()>>) {
    from <= |log| && forall i :: from <= i < |log| ==> Subject(log[i]).None? || Subject(log[i]).value !in index
  }

  /** No file of the blobs in `keep` was touched. */
  ghost predicate Spared(log: seq<FileOp>, keep: set<BlobId>) {
    forall i :: 0 <= i < |log| ==> Subject(log[i]).None? || Subject(log[i]).value !in keep
  }

  /** Since position `from`, only files of `id` and of blobs no longer indexed were touched. */
  ghost predicate TouchedOnly(log: seq<FileOp>, from: nat, index: map<BlobId, L.Entry<()>>, id: BlobId) {
    TouchedGone(log, from, index - {id})
  }

  /** What one Put stored. */
  datatype PutRecord = PutRecord(id: BlobId, body: Bytes, meta: MetaFile)

  predicate Honest(r: PutRecord) { r.meta.Meta? && r.meta.size == |r.body| }

  ghost predicate Complete(d: Disk, id: BlobId) {
    id in d.bodies && id in d.metas && d.metas[id].Meta?
  }

  ghost predicate SamePut(d: Disk, history: set<PutRecord>, id: BlobId) {
    Complete(d, id) ==> PutRecord(id, d.bodies[id], d.metas[id]) in history && Honest(PutRecord(id, d.bodies[id], d.metas[id]))
  }

  /** A body and its metadata, where both are on disk, come from the same Put. */
  ghost predicate Consistent(d: Disk, history: set<PutRecord>) {
    forall id :: SamePut(d, history, id)
  }

  /** Every disk state so far could be restarted from. */
  ghost predicate Safe(trail: seq<Disk>, history: set<PutRecord>) {
    forall i :: 0 <= i < |trail| ==> Consistent(trail[i], history)
  }

  /** What the index says of a blob is what its files say. */
  ghost predicate Describes(p: L.Policy, d: Disk, id: BlobId, e: L.Entry<()>) {
    && Complete(d, id)
    && var m := d.metas[id];
       e.size == |d.bodies[id]| == m.size && e.hash == m.hash && e.storedAt == m.storedAt
       && e.expiresAt == m.expiresAt && e.nonEvictable == m.nonEvictable && e.pinned == (m.pinned && p.hotPin)
  }

  /** The files are exactly those of the indexed blobs. */
  ghost predicate Backed(p: L.Policy, d: Disk, index: map<BlobId, L.Entry<()>>) {
    && d.bodies.Keys == index.Keys && d.metas.Keys == index.Keys
    && forall id :: id in index ==> Describes(p, d, id, index[id])
  }

  predicate SameTemps(d: Disk, d': Disk) { d'.temps == d.temps && d'.metaTemps == d.metaTemps }

  /** Only the temporary file `t` is gone; a half-written metadata file of its blob may be left. */
  predicate OneTempLess(d: Disk, d': Disk, t: Temp) {
    d'.temps == d.temps - {t} && d'.metaTemps - {t.id} == d.metaTemps - {t.id}
  }

  function MetaOf(e: L.Entry<()>): MetaFile {
    Meta(e.size, e.hash, e.storedAt, e.expiresAt, e.pinned, e.nonEvictable, e.hits)
  }

  // ---------------------------------------------------------------------
  // What the operations keep
  // ---------------------------------------------------------------------

  lemma SafeGrows(trail: seq<Disk>, d: Disk, history: set<PutRecord>)
    requires Safe(trail, history) && Consistent(d, history)
    ensures Safe(trail + [d], history)
  {
  }

  lemma SafeStart(d: Disk, history: set<PutRecord>)
    requires Consistent(d, history)
    ensures Safe([d], history) && Logged([d], [])
  {
  }

  lemma MoreHistory(trail: seq<Disk>, d: Disk, history: set<PutRecord>, r: PutRecord)
    requires Safe(trail, history) && Consistent(d, history)
    ensures Safe(trail, history + {r}) && Consistent(d, history + {r})
  {
    forall id ensures SamePut(d, history + {r}, id) { assert SamePut(d, history, id); }
    forall i | 0 <= i < |trail| ensures Consistent(trail[i], history + {r}) {
      forall id ensures SamePut(trail[i], history + {r}, id) { assert SamePut(trail[i], history, id); }
    }
  }

  lemma GoneTwice(log0: seq<FileOp>, log1: seq<FileOp>, from: nat, index0: map<BlobId, L.Entry<()>>, index1: map<BlobId, L.Entry<()>>)
    requires TouchedGone(log0, from, index0) && log0 <= log1 && TouchedGone(log1, |log0|, index1)
    requires index1.Keys <= index0.Keys
    ensures TouchedGone(log1, from, index1)
  {
    forall i | from <= i < |log1| ensures Subject(log1[i]).None? || Subject(log1[i]).value !in index1 {
      if i < |log0| {
        assert log1[i] == log0[i];
        if Subject(log0[i]).Some? { assert Subject(log0[i]).value !in index0.Keys; }
      }
    }
  }

  lemma GoneIsOnly(log: seq<FileOp>, from: nat, index: map<BlobId, L.Entry<()>>, id: BlobId)
    requires TouchedGone(log, from, index)
    ensures TouchedOnly(log, from, index, id)
  {
  }

  /** What leaves alone the indexed blobs spares those of them one wants to keep. */
  lemma GoneSpares(log0: seq<FileOp>, log: seq<FileOp>, index: map<BlobId, L.Entry<()>>, keep: set<BlobId>)
    requires Spared(log0, keep) && log0 <= log && TouchedGone(log, |log0|, index) && keep <= index.Keys
    ensures Spared(log, keep)
  {
    forall i | 0 <= i < |log| ensures Subject(log[i]).None? || Subject(log[i]).value !in keep {
      assert i < |log0| ==> log[i] == log0[i];
    }
  }

  /** Temporary files are invisible; removals and the first half of a publication are safe. */
  lemma OpConsistent(d: Disk, op: FileOp, history: set<PutRecord>)
    requires Consistent(d, history)
    requires op.PublishBody? ==> op.t.id !in d.metas
    requires op.PublishMeta? && op.id in d.bodies && op.id in d.metaTemps ==>
               && PutRecord(op.id, d.bodies[op.id], d.metaTemps[op.id]) in history
               && Honest(PutRecord(op.id, d.bodies[op.id], d.metaTemps[op.id]))
    ensures Consistent(Do(d, op), history)
  {
    forall id ensures SamePut(Do(d, op), history, id) { assert SamePut(d, history, id); }
  }

  lemma SameFiles(p: L.Policy, d: Disk, d': Disk, index: map<BlobId, L.Entry<()>>)
    requires Backed(p, d, index) && d'.metas == d.metas && d'.bodies == d.bodies
    ensures Backed(p, d', index)
  {
    forall x | x in index ensures Describes(p, d', x, index[x]) { assert Describes(p, d, x, index[x]); }
  }

  lemma RemoveBacked(p: L.Policy, d: Disk, index: map<BlobId, L.Entry<()>>, id: BlobId)
    requires Backed(p, d, index)
    ensures Backed(p, Do(Do(d, RemoveBody(id)), RemoveMeta(id)), index - {id})
  {
    var d' := Do(Do(d, RemoveBody(id)), RemoveMeta(id));
    var index' := index - {id};
    assert d'.bodies.Keys == index'.Keys && d'.metas.Keys == index'.Keys;
    forall x | x in index' ensures Describes(p, d', x, index'[x]) { assert Describes(p, d, x, index[x]); }
  }

  lemma InsertBacked(p: L.Policy, d: Disk, d': Disk, index: map<BlobId, L.Entry<()>>, id: BlobId, e: L.Entry<()>, body: Bytes)
    requires Backed(p, d, index) && e.size == |body| && (e.pinned ==> p.hotPin)
    requires d'.bodies == d.bodies[id := body] && d'.metas == d.metas[id := MetaOf(e)]
    ensures Backed(p, d', index[id := e])
  {
    var index' := index[id := e];
    assert d'.bodies.Keys == index'.Keys && d'.metas.Keys == index'.Keys;
    forall x | x in index' ensures Describes(p, d', x, index'[x]) {
      if x != id { assert Describes(p, d, x, index[x]); }
    }
  }

  /** Counting a hit changes nothing the files record. */
  lemma TouchBacked(p: L.Policy, d: Disk, index: map<BlobId, L.Entry<()>>, id: BlobId, e: L.Entry<()>)
    requires Backed(p, d, index) && id in index && e == index[id].(hits := e.hits, lastAccess := e.lastAccess)
    ensures Backed(p, d, index[id := e])
  {
    var index' := index[id := e];
    assert index'.Keys == index.Keys;
    forall x | x in index' ensures Describes(p, d, x, index'[x]) { assert Describes(p, d, x, index[x]); }
  }
}
