/** The disk cache's file names: the scan at start-up reads back the blob and the kind of
    every file the cache writes, and no two of them share a path. */
module CacheFileNames {

  datatype Kind = BodyOf(id: string) | MetaOf(id: string) | Temporary | Foreign

  function ShardOf(id: string): string { if |id| < 2 then "_" else id[..2] }

  function BodyName(id: string): string { id + ".bin" }
  function MetaName(id: string): string { id + ".meta.json" }
  function TempName(id: string, random: string): string { id + "." + random + ".tmp" }
  function MetaTempName(id: string): string { MetaName(id) + ".tmp" }

  predicate HasSuffix(s: string, suf: string) { |s| >= |suf| && s[|s| - |suf|..] == suf }

  /** The switch of readShards. */
  function Classify(name: string): Kind {
    if HasSuffix(name, ".bin") then BodyOf(name[..|name| - 4])
    else if HasSuffix(name, ".meta.json") then MetaOf(name[..|name| - 10])
    else if HasSuffix(name, ".tmp") then Temporary
    else Foreign
  }

  lemma SuffixOf(s: string, suf: string)
    ensures HasSuffix(s + suf, suf) && (s + suf)[..|s|] == s
  {
    assert (s + suf)[|s|..] == suf;
  }

  lemma LastChar(s: string, suf: string, i: nat)
    requires HasSuffix(s, suf) && i < |suf|
    ensures s[|s| - |suf| + i] == suf[i]
  {
    assert s[|s| - |suf|..][i] == suf[i];
  }

  lemma NoTwoSuffixes(s: string)
    ensures HasSuffix(s, ".meta.json") ==> !HasSuffix(s, ".bin")
    ensures HasSuffix(s, ".tmp") ==> !HasSuffix(s, ".bin") && !HasSuffix(s, ".meta.json")
  {
    if HasSuffix(s, ".bin") { LastChar(s, ".bin", 0); LastChar(s, ".bin", 3); }
    if HasSuffix(s, ".meta.json") { LastChar(s, ".meta.json", 6); LastChar(s, ".meta.json", 9); }
    if HasSuffix(s, ".tmp") { LastChar(s, ".tmp", 0); LastChar(s, ".tmp", 3); }
  }

  /** Every file is recognised for what it is, whatever the blob is called. */
  lemma ScanReadsBack(id: string, random: string)
    ensures Classify(BodyName(id)) == BodyOf(id) && Classify(MetaName(id)) == MetaOf(id)
    ensures Classify(TempName(id, random)) == Temporary && Classify(MetaTempName(id)) == Temporary
  {
    SuffixOf(id, ".bin");
    SuffixOf(id, ".meta.json");
    SuffixOf(id + "." + random, ".tmp");
    SuffixOf(MetaName(id), ".tmp");
    NoTwoSuffixes(MetaName(id));
    NoTwoSuffixes(TempName(id, random));
    NoTwoSuffixes(MetaTempName(id));
  }

  function BodyPath(id: string): (string, string) { (ShardOf(id), BodyName(id)) }
  function MetaPath(id: string): (string, string) { (ShardOf(id), MetaName(id)) }

  /** Different blobs have different files, and a body is never a metadata file. */
  lemma PathsAreDistinct(a: string, b: string)
    ensures BodyPath(a) == BodyPath(b) <==> a == b
    ensures MetaPath(a) == MetaPath(b) <==> a == b
    ensures BodyPath(a) != MetaPath(b)
  {
    ScanReadsBack(a, "");
    ScanReadsBack(b, "");
  }
}
