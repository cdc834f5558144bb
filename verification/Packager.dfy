/** Packages: an archive of named device contents, and the extraction that reads it once from front to
    back for all requested devices together. */
module Packager {
  import opened Options

  type Content = seq<bv8>
  type Files = map<string, Content>

  datatype Device = Device(name: string, path: string)
  datatype Entry = Entry(name: string, content: Content)

  /** The tar reader: it moves forward only. */
  class ArchiveReader {
    const entries: seq<Entry>
    var next: nat

    ghost predicate Valid()
      reads this
    {
      next <= |entries|
    }

    constructor (entries: seq<Entry>)
      ensures Valid() && next == 0 && this.entries == entries
    {
      this.entries, next := entries, 0;
    }

    method Next() returns (header: Option<Entry>)
      requires Valid()
      modifies this
      ensures Valid()
      ensures if old(next) < |entries| then header == Some(entries[old(next)]) && next == old(next) + 1
              else header == None && next == old(next)
    {
      if next == |entries| {
        return None;
      }
      header := Some(entries[next]);
      next := next + 1;
    }
  }

  /* ------------------------------------------------------------ archiving */

  /** One entry per device, in order, until a device is missing. */
  method ArchivePackage(files: Files, devices: seq<Device>) returns (ok: bool, archive: seq<Entry>)
    ensures ok <==> forall i :: 0 <= i < |devices| ==> devices[i].path in files
    ensures ok ==> |archive| == |devices|
    ensures |archive| <= |devices| && forall i :: 0 <= i < |archive| ==>
              devices[i].path in files && archive[i] == Entry(devices[i].name, files[devices[i].path])
    ensures !ok ==> |archive| < |devices| && devices[|archive|].path !in files
  {
    archive := [];
    for i := 0 to |devices|
      invariant |archive| == i
      invariant forall k :: 0 <= k < i ==> devices[k].path in files && archive[k] == Entry(devices[k].name, files[devices[k].path])
    {
      if devices[i].path !in files {
        return false, archive;
      }
      archive := archive + [Entry(devices[i].name, files[devices[i].path])];
    }
    ok := true;
  }

  /* ------------------------------------------------------------ extraction */

  /** `at` places the devices, in order, on entries with their names. */
  ghost predicate Places(entries: seq<Entry>, devices: seq<Device>, at: seq<nat>) {
    && |at| == |devices|
    && (forall j :: 0 <= j < |at| ==> at[j] < |entries| && entries[at[j]].name == devices[j].name)
    && (forall i, j :: 0 <= i < j < |at| ==> at[i] < at[j])
  }

  /** The requested names occur in the archive in this order. */
  ghost predicate IsSubsequence(entries: seq<Entry>, devices: seq<Device>) {
    exists at: seq<nat> :: Places(entries, devices, at)
  }

  predicate Absent(entries: seq<Entry>, lo: nat, hi: nat, name: string) {
    forall i :: lo <= i < hi && i < |entries| ==> entries[i].name != name
  }

  /** Where the search for device `j` begins. */
  function From(at: seq<nat>, j: nat): nat
    requires j <= |at|
  {
    if j == 0 then 0 else at[j - 1] + 1
  }

  /** Each device is on the first entry with its name after the one before it. */
  ghost predicate Greedy(entries: seq<Entry>, devices: seq<Device>, at: seq<nat>) {
    && Places(entries, devices, at)
    && forall j :: 0 <= j < |at| ==> IsFirst(entries, devices[j].name, at, j)
  }

  predicate IsFirst(entries: seq<Entry>, name: string, at: seq<nat>, j: nat)
    requires j < |at|
  {
    Absent(entries, From(at, j), at[j], name)
  }

  /** No placement is ahead of the greedy one. */
  lemma {:induction false} GreedyIsLeast(entries: seq<Entry>, devices: seq<Device>, at: seq<nat>, other: seq<nat>, j: nat)
    requires Greedy(entries, devices, at) && Places(entries, devices, other) && j < |devices|
    ensures at[j] <= other[j]
  {
    if j > 0 {
      GreedyIsLeast(entries, devices, at, other, j - 1);
      assert other[j - 1] < other[j];
    }
    assert IsFirst(entries, devices[j].name, at, j);
  }

  lemma {:induction false} PrefixPlaces(entries: seq<Entry>, devices: seq<Device>, at: seq<nat>, n: nat)
    requires Places(entries, devices, at) && n <= |devices|
    ensures Places(entries, devices[..n], at[..n])
  {
  }

  lemma {:induction false} LastIsLeast(entries: seq<Entry>, devices: seq<Device>, at: seq<nat>, other: seq<nat>)
    requires 0 < |at| < |devices| && Greedy(entries, devices[..|at|], at) && Places(entries, devices, other)
    ensures |other| == |devices| && at[|at| - 1] <= other[|at| - 1] < other[|at|]
  {
    hide Greedy;
    assert |other| == |devices| && other[|at| - 1] < other[|at|];
    hide Places;
    PrefixPlaces(entries, devices, other, |at|);
    GreedyIsLeast(entries, devices[..|at|], at, other[..|at|], |at| - 1);
  }

  /** Every placement has the next device where the search for it goes on, or later. */
  lemma {:induction false} NextIsAhead(entries: seq<Entry>, devices: seq<Device>, at: seq<nat>, other: seq<nat>)
    requires |at| < |devices| && Greedy(entries, devices[..|at|], at) && Places(entries, devices, other)
    ensures |other| == |devices| && From(at, |at|) <= other[|at|] < |entries|
    ensures entries[other[|at|]].name == devices[|at|].name
  {
    if |at| > 0 { LastIsLeast(entries, devices, at, other); }
    hide Greedy;
  }

  lemma {:induction false} NoPlacement(entries: seq<Entry>, devices: seq<Device>, at: seq<nat>, other: seq<nat>)
    requires |at| < |devices| && Greedy(entries, devices[..|at|], at)
    requires Absent(entries, From(at, |at|), |entries|, devices[|at|].name)
    ensures !Places(entries, devices, other)
  {
    hide Greedy, Places;
    if Places(entries, devices, other) { NextIsAhead(entries, devices, at, other); }
  }

  /** If no entry after the greedy ones has the next name, no placement at all exists. */
  lemma {:induction false} MissingMeansNoSubsequence(entries: seq<Entry>, devices: seq<Device>, at: seq<nat>)
    requires |at| < |devices| && Greedy(entries, devices[..|at|], at)
    requires Absent(entries, From(at, |at|), |entries|, devices[|at|].name)
    ensures !IsSubsequence(entries, devices[..|at| + 1]) && !IsSubsequence(entries, devices)
  {
    hide Places, Greedy, Absent;
    var longer := devices[..|at| + 1];
    assert longer[..|at|] == devices[..|at|];
    if other: seq<nat> :| Places(entries, devices, other) {
      NoPlacement(entries, devices, at, other);
    }
    if other: seq<nat> :| Places(entries, longer, other) {
      NoPlacement(entries, longer, at, other);
    }
  }

  lemma {:induction false} GreedyIsUnique(entries: seq<Entry>, devices: seq<Device>, a: seq<nat>, b: seq<nat>)
    requires Greedy(entries, devices, a) && Greedy(entries, devices, b)
    ensures a == b
  {
    forall j | 0 <= j < |a| ensures a[j] == b[j] {
      GreedyIsLeast(entries, devices, a, b, j);
      GreedyIsLeast(entries, devices, b, a, j);
    }
  }

  ghost predicate Within(at: seq<nat>, n: nat) { forall j :: 0 <= j < |at| ==> at[j] < n }

  /** The files after the devices were written, one after the other; a path named twice keeps the last. */
  ghost function Extracted(files: Files, entries: seq<Entry>, devices: seq<Device>, at: seq<nat>): Files
    requires |at| <= |devices| && Within(at, |entries|)
  {
    if at == [] then files
    else
      var n := |at| - 1;
      Extracted(files, entries, devices, at[..n])[devices[n].path := entries[at[n]].content]
  }

  lemma {:induction false} AppendExtracted(files: Files, entries: seq<Entry>, devices: seq<Device>, at: seq<nat>, p: nat)
    requires |at| < |devices| && Within(at, |entries|) && p < |entries|
    ensures Within(at + [p], |entries|)
    ensures Extracted(files, entries, devices, at + [p])
         == Extracted(files, entries, devices, at)[devices[|at|].path := entries[p].content]
  {
    assert (at + [p])[..|at|] == at;
  }

  lemma {:induction false} AppendGreedy(entries: seq<Entry>, devices: seq<Device>, at: seq<nat>, p: nat)
    requires |at| < |devices| && Greedy(entries, devices[..|at|], at) && From(at, |at|) <= p < |entries|
    requires entries[p].name == devices[|at|].name && Absent(entries, From(at, |at|), p, devices[|at|].name)
    ensures Greedy(entries, devices[..|at| + 1], at + [p])
  {
    hide IsFirst, Places, Absent;
    var longer, after := at + [p], devices[..|at| + 1];
    forall j | 0 <= j <= |at| ensures IsFirst(entries, after[j].name, longer, j) {
      AppendFirst(entries, devices, at, p, j);
    }
    AppendPlaces(entries, devices, at, p);
  }

  lemma {:induction false} AppendFirst(entries: seq<Entry>, devices: seq<Device>, at: seq<nat>, p: nat, j: nat)
    requires j <= |at| < |devices| && (j < |at| ==> IsFirst(entries, devices[..|at|][j].name, at, j))
    requires Absent(entries, From(at, |at|), p, devices[|at|].name)
    ensures IsFirst(entries, devices[..|at| + 1][j].name, at + [p], j)
  {
    hide Absent;
    assert From(at + [p], j) == From(at, j);
  }

  lemma {:induction false} AppendPlaces(entries: seq<Entry>, devices: seq<Device>, at: seq<nat>, p: nat)
    requires |at| < |devices| && Places(entries, devices[..|at|], at) && From(at, |at|) <= p < |entries|
    requires entries[p].name == devices[|at|].name
    ensures Places(entries, devices[..|at| + 1], at + [p])
  {
    forall j | 0 <= j < |at| ensures at[j] < p { if j < |at| - 1 { assert at[j] < at[|at| - 1]; } }
  }

  lemma {:induction false} AbsentLonger(entries: seq<Entry>, lo: nat, p: nat, name: string)
    requires p < |entries| && Absent(entries, lo, p, name) && entries[p].name != name
    ensures Absent(entries, lo, p + 1, name)
  {
  }

  /** Extraction succeeds exactly when the requested names are a subsequence of the archive's names; it
      then writes the contents of the greedy placement. When it fails, the devices before the first one
      that cannot be placed have been written, and nothing else. */
  method ExtractPackage(entries: seq<Entry>, devices: seq<Device>, files: Files)
    returns (ok: bool, output: Files, ghost at: seq<nat>)
    ensures ok <==> IsSubsequence(entries, devices)
    ensures |at| <= |devices| && Within(at, |entries|) && Greedy(entries, devices[..|at|], at)
    ensures output == Extracted(files, entries, devices, at)
    ensures if ok then |at| == |devices| else |at| < |devices| && !IsSubsequence(entries, devices[..|at| + 1])
  {
    hide Greedy, Extracted, Absent, Within, IsSubsequence;
    var archive := new ArchiveReader(entries);
    output, at := files, [];
    Nothing(entries, devices, files);
    for i := 0 to |devices|
      invariant archive.Valid() && archive.entries == entries && fresh(archive)
      invariant |at| == i && Greedy(entries, devices[..i], at) && archive.next == From(at, i)
      invariant Within(at, |entries|) && output == Extracted(files, entries, devices, at)
    {
      var extracted := false;
      AbsentNone(entries, archive.next, devices[i].name);
      while true
        invariant archive.Valid() && archive.entries == entries
        invariant archive.next >= From(at, i) && Absent(entries, From(at, i), archive.next, devices[i].name)
        decreases |entries| - archive.next
      {
        var header := archive.Next();
        if header.None? {
          break;
        }
        if header.value.name != devices[i].name {
          AbsentLonger(entries, From(at, i), archive.next - 1, devices[i].name);
          continue;
        }
        AppendGreedy(entries, devices, at, archive.next - 1);
        AppendExtracted(files, entries, devices, at, archive.next - 1);
        output := output[devices[i].path := header.value.content];
        at := at + [archive.next - 1];
        extracted := true;
        break;
      }
      if !extracted {
        MissingMeansNoSubsequence(entries, devices, at);
        return false, output, at;
      }
    }
    GreedyPlaces(entries, devices, at);
    ok := true;
  }

  lemma {:induction false} Nothing(entries: seq<Entry>, devices: seq<Device>, files: Files)
    ensures Within([], |entries|) && Greedy(entries, devices[..0], []) && Extracted(files, entries, devices, []) == files
  {
  }

  lemma {:induction false} AbsentNone(entries: seq<Entry>, p: nat, name: string)
    ensures Absent(entries, p, p, name)
  {
  }

  lemma {:induction false} GreedyPlaces(entries: seq<Entry>, devices: seq<Device>, at: seq<nat>)
    requires |at| == |devices| && Greedy(entries, devices[..|at|], at)
    ensures IsSubsequence(entries, devices) && Greedy(entries, devices, at)
  {
    assert devices[..|devices|] == devices;
  }

  ghost predicate DistinctPaths(devices: seq<Device>) {
    forall i, j :: 0 <= i < j < |devices| ==> devices[i].path != devices[j].path
  }

  /** A device keeps its content unless a later one has the same path, and no other file changes. */
  lemma {:induction false} ExtractedAt(files: Files, entries: seq<Entry>, devices: seq<Device>, at: seq<nat>, j: nat)
    requires |at| <= |devices| && Within(at, |entries|)
    ensures j < |at| && (forall k :: j < k < |at| ==> devices[k].path != devices[j].path) ==>
              && devices[j].path in Extracted(files, entries, devices, at)
              && Extracted(files, entries, devices, at)[devices[j].path] == entries[at[j]].content
    ensures forall path :: (forall k :: 0 <= k < |at| ==> devices[k].path != path) ==>
              (path in Extracted(files, entries, devices, at) <==> path in files)
              && (path in files ==> Extracted(files, entries, devices, at)[path] == files[path])
  {
    if at != [] {
      ExtractedAt(files, entries, devices, at[..|at| - 1], j);
    }
  }

  lemma {:induction false} StraightIsGreedy(entries: seq<Entry>, devices: seq<Device>, straight: seq<nat>)
    requires |entries| == |devices| && forall i :: 0 <= i < |entries| ==> entries[i].name == devices[i].name
    requires |straight| == |devices| && forall j :: 0 <= j < |straight| ==> straight[j] == j
    ensures Greedy(entries, devices, straight)
  {
    forall j | 0 <= j < |devices| ensures IsFirst(entries, devices[j].name, straight, j) {
      assert j == 0 || straight[j - 1] == j - 1;
    }
  }

  /** The whole archive is placed one to one, even where names repeat. */
  lemma {:induction false} WholeArchive(entries: seq<Entry>, devices: seq<Device>, at: seq<nat>)
    requires |entries| == |devices| && forall i :: 0 <= i < |entries| ==> entries[i].name == devices[i].name
    requires Greedy(entries, devices, at)
    ensures |at| == |devices| && forall j :: 0 <= j < |at| ==> at[j] == j
  {
    hide Greedy;
    var straight := seq(|devices|, i => i);
    StraightIsGreedy(entries, devices, straight);
    GreedyIsUnique(entries, devices, at, straight);
  }

  /** A package that was made from `sources` and is extracted to devices of the same names at distinct
      paths gives every device its content back, even where names repeat. */
  method RoundTrip(files: Files, sources: seq<Device>, targets: seq<Device>, before: Files) returns (ok: bool, output: Files)
    requires |sources| == |targets| && (forall i :: 0 <= i < |sources| ==> sources[i].name == targets[i].name) && DistinctPaths(targets)
    ensures ok <==> forall i :: 0 <= i < |sources| ==> sources[i].path in files
    ensures ok ==> forall i :: 0 <= i < |targets| ==>
              targets[i].path in output && output[targets[i].path] == files[sources[i].path]
    ensures ok ==> forall path :: (forall i :: 0 <= i < |targets| ==> targets[i].path != path) ==>
              (path in output <==> path in before) && (path in before ==> output[path] == before[path])
  {
    var archived, archive := ArchivePackage(files, sources);
    if !archived {
      return false, before;
    }
    Placeable(archive, targets);
    var extracted, out, at := ExtractPackage(archive, targets, before);
    GreedyPlaces(archive, targets, at);
    WholeArchive(archive, targets, at);
    forall j | 0 <= j < |targets|
      ensures targets[j].path in out && out[targets[j].path] == files[sources[j].path]
    {
      ExtractedAt(before, archive, targets, at, j);
    }
    ExtractedAt(before, archive, targets, at, 0);
    return true, out;
  }

  lemma {:induction false} Placeable(entries: seq<Entry>, devices: seq<Device>)
    requires |entries| == |devices| && forall i :: 0 <= i < |entries| ==> entries[i].name == devices[i].name
    ensures IsSubsequence(entries, devices)
  {
    assert Places(entries, devices, seq(|devices|, i => i));
  }
}
