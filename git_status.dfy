/**
 * The status snapshot of a Git repository shown in File Explorer
 * (extensions/GitExtension/FileExplorerGitIntegration/Models/GitRepositoryStatus.cs).
 *
 * Every file entry is recorded once under its path, and is also appended to
 * the bucket of each of nine tracked status flags that its status carries. A
 * file status is a set of flags; `HasFlag` of a one-bit flag is membership.
 */
module GitStatus {

  type Int32 = x: int | -0x8000_0000 <= x < 0x8000_0000

  /** The flags of a file status (LibGit2Sharp's FileStatus; Unaltered is the empty set). */
  datatype FileStatusFlag =
    | NewInIndex | ModifiedInIndex | DeletedFromIndex | RenamedInIndex | TypeChangeInIndex
    | NewInWorkdir | ModifiedInWorkdir | DeletedFromWorkdir | TypeChangeInWorkdir | RenamedInWorkdir
    | Unreadable | Ignored | Conflicted | Nonexistent

  type FileStatus = set<FileStatusFlag>

  datatype GitStatusEntry = GitStatusEntry(path: string, status: FileStatus)

  /** The flags that get a bucket, in the order the constructor creates them. */
  const TrackedFlags: seq<FileStatusFlag> := [
    NewInIndex, ModifiedInIndex, DeletedFromIndex,
    NewInWorkdir, ModifiedInWorkdir, DeletedFromWorkdir,
    RenamedInIndex, RenamedInWorkdir, Conflicted]

  lemma TrackedFlagsDistinct()
    ensures forall i, j :: 0 <= i < j < |TrackedFlags| ==> TrackedFlags[i] != TrackedFlags[j]
  {
  }

  /** The entries of `entries` whose status carries `flag`, in their original order. */
  function WithFlag(entries: seq<GitStatusEntry>, flag: FileStatusFlag): seq<GitStatusEntry>
  {
    if entries == [] then []
    else WithFlag(entries[..|entries| - 1], flag)
         + (if flag in entries[|entries| - 1].status then [entries[|entries| - 1]] else [])
  }

  /** An entry is in a bucket iff it was added and carries the bucket's flag. */
  lemma {:induction false} WithFlagMembership(entries: seq<GitStatusEntry>, flag: FileStatusFlag, e: GitStatusEntry)
    ensures e in WithFlag(entries, flag) <==> e in entries && flag in e.status
  {
    if entries != [] {
      var init := entries[..|entries| - 1];
      WithFlagMembership(init, flag, e);
      assert entries == init + [entries[|entries| - 1]];
    }
  }

  class GitRepositoryStatus {
    var fileEntries: map<string, GitStatusEntry>
    /** One bucket per tracked flag. */
    var statusEntries: map<FileStatusFlag, seq<GitStatusEntry>>
    var branchName: string
    var isBranchDetached: bool
    var upstreamBranch: string
    var aheadBy: Int32
    var behindBy: Int32
    var sha: string

    /** The paths accepted by Add, in order, and the entries added under them. */
    ghost var addedPaths: seq<string>
    ghost var added: seq<GitStatusEntry>

    ghost predicate Valid()
      reads this
    {
      && (forall f :: f in statusEntries <==> f in TrackedFlags)
      && (forall f :: f in statusEntries ==> statusEntries[f] == WithFlag(added, f))
      && |addedPaths| == |added|
      && (forall p :: p in fileEntries <==> p in addedPaths)
      && (forall i :: 0 <= i < |addedPaths| ==> addedPaths[i] in fileEntries && fileEntries[addedPaths[i]] == added[i])
      && (forall i, j :: 0 <= i < j < |addedPaths| ==> addedPaths[i] != addedPaths[j])
    }

    constructor()
      ensures Valid()
      ensures fileEntries == map[] && added == []
      ensures forall f :: f in statusEntries <==> f in TrackedFlags
      ensures forall f :: f in statusEntries ==> statusEntries[f] == []
      ensures branchName == "" && !isBranchDetached && upstreamBranch == ""
      ensures aheadBy == 0 && behindBy == 0 && sha == ""
    {
      fileEntries := map[];
      statusEntries := map[];
      branchName, isBranchDetached, upstreamBranch := "", false, "";
      aheadBy, behindBy, sha := 0, 0, "";
      addedPaths, added := [], [];
      new;
      statusEntries := statusEntries[NewInIndex := []];
      statusEntries := statusEntries[ModifiedInIndex := []];
      statusEntries := statusEntries[DeletedFromIndex := []];
      statusEntries := statusEntries[NewInWorkdir := []];
      statusEntries := statusEntries[ModifiedInWorkdir := []];
      statusEntries := statusEntries[DeletedFromWorkdir := []];
      statusEntries := statusEntries[FileStatusFlag.RenamedInIndex := []];
      statusEntries := statusEntries[RenamedInWorkdir := []];
      statusEntries := statusEntries[FileStatusFlag.Conflicted := []];
    }

    /**
     * Records `entry` under `path` and appends it to every bucket whose flag its
     * status carries. The dictionary insert comes first, so a path that is
     * already present fails (ArgumentException) before any bucket changes.
     */
    method Add(path: string, entry: GitStatusEntry) returns (ok: bool)
      requires Valid()
      modifies this`fileEntries, this`statusEntries, this`addedPaths, this`added
      ensures Valid()
      ensures ok <==> path !in old(fileEntries)
      ensures !ok ==> fileEntries == old(fileEntries) && statusEntries == old(statusEntries) && added == old(added)
      ensures ok ==> fileEntries == old(fileEntries)[path := entry] && added == old(added) + [entry]
      ensures ok ==> forall f :: f in statusEntries ==>
                       statusEntries[f] == old(statusEntries)[f] + (if f in entry.status then [entry] else [])
    {
      if path in fileEntries {
        return false;
      }
      fileEntries := fileEntries[path := entry];
      ghost var before := added;
      addedPaths, added := addedPaths + [path], added + [entry];
      AppendToBuckets(entry);
      ok := true;
      assert added[..|added| - 1] == before;
      forall f | f in statusEntries ensures statusEntries[f] == WithFlag(added, f) {
      }
    }

    /** The `foreach` over the bucket dictionary: `entry` goes to each bucket whose flag its status carries. */
    method AppendToBuckets(entry: GitStatusEntry)
      requires forall f :: f in statusEntries <==> f in TrackedFlags
      modifies this`statusEntries
      ensures forall f :: f in statusEntries <==> f in TrackedFlags
      ensures forall f :: f in statusEntries ==>
                statusEntries[f] == old(statusEntries)[f] + (if f in entry.status then [entry] else [])
    {
      TrackedFlagsDistinct();
      for i := 0 to |TrackedFlags|
        invariant forall f :: f in statusEntries <==> f in TrackedFlags
        invariant forall j :: 0 <= j < i ==> var f := TrackedFlags[j];
                    statusEntries[f] == old(statusEntries)[f] + (if f in entry.status then [entry] else [])
        invariant forall j :: i <= j < |TrackedFlags| ==> var f := TrackedFlags[j];
                    statusEntries[f] == old(statusEntries)[f]
      {
        var flag := TrackedFlags[i];
        if flag in entry.status {
          statusEntries := statusEntries[flag := statusEntries[flag] + [entry]];
        }
      }
    }

    method SetSha(sha: string)
      modifies this`sha
      ensures Sha() == sha
    {
      this.sha := sha;
    }

    method SetBranchName(branchName: string)
      modifies this`branchName
      ensures BranchName() == branchName
    {
      this.branchName := branchName;
    }

    method SetIsBranchDetached(isBranchDetached: bool)
      modifies this`isBranchDetached
      ensures IsHeadDetached() == isBranchDetached
    {
      this.isBranchDetached := isBranchDetached;
    }

    method SetAheadBy(aheadBy: Int32)
      modifies this`aheadBy
      ensures AheadBy() == aheadBy
    {
      this.aheadBy := aheadBy;
    }

    method SetBehindBy(behindBy: Int32)
      modifies this`behindBy
      ensures BehindBy() == behindBy
    {
      this.behindBy := behindBy;
    }

    method SetUpstreamBranch(upstreamBranch: string)
      modifies this`upstreamBranch
      ensures UpstreamBranch() == upstreamBranch
    {
      this.upstreamBranch := upstreamBranch;
    }

    /** The path-to-entry map: exactly the paths Add accepted, each with the entry added under it. */
    function FileEntries(): (m: map<string, GitStatusEntry>)
      reads this
      requires Valid()
      ensures forall p :: p in m <==> p in addedPaths
      ensures forall i :: 0 <= i < |addedPaths| ==> m[addedPaths[i]] == added[i]
    {
      fileEntries
    }

    /** The bucket of a tracked flag. */
    function Bucket(flag: FileStatusFlag): (b: seq<GitStatusEntry>)
      reads this
      requires Valid() && flag in TrackedFlags
      ensures b == WithFlag(added, flag)
    {
      statusEntries[flag]
    }

    function Added(): seq<GitStatusEntry> reads this requires Valid() { Bucket(NewInIndex) }
    function Staged(): seq<GitStatusEntry> reads this requires Valid() { Bucket(ModifiedInIndex) }
    function Removed(): seq<GitStatusEntry> reads this requires Valid() { Bucket(DeletedFromIndex) }
    function Untracked(): seq<GitStatusEntry> reads this requires Valid() { Bucket(NewInWorkdir) }
    function Modified(): seq<GitStatusEntry> reads this requires Valid() { Bucket(ModifiedInWorkdir) }
    function Missing(): seq<GitStatusEntry> reads this requires Valid() { Bucket(DeletedFromWorkdir) }
    function RenamedInIndex(): seq<GitStatusEntry> reads this requires Valid() { Bucket(FileStatusFlag.RenamedInIndex) }
    function RenamedInWorkDir(): seq<GitStatusEntry> reads this requires Valid() { Bucket(RenamedInWorkdir) }
    function Conflicted(): seq<GitStatusEntry> reads this requires Valid() { Bucket(FileStatusFlag.Conflicted) }

    function BranchName(): string reads this { branchName }
    function IsHeadDetached(): bool reads this { isBranchDetached }
    function AheadBy(): Int32 reads this { aheadBy }
    function BehindBy(): Int32 reads this { behindBy }
    function Sha(): string reads this { sha }
    function UpstreamBranch(): string reads this { upstreamBranch }

    /**
     * Every accessor lists exactly the added entries carrying its flag, in the
     * order they were added; an entry with none of the nine flags (say, only
     * Ignored) is in no bucket.
     */
    lemma AccessorsAreFlagFilters(e: GitStatusEntry)
      requires Valid()
      ensures e in Added() <==> e in added && NewInIndex in e.status
      ensures e in Staged() <==> e in added && ModifiedInIndex in e.status
      ensures e in Removed() <==> e in added && DeletedFromIndex in e.status
      ensures e in Untracked() <==> e in added && NewInWorkdir in e.status
      ensures e in Modified() <==> e in added && ModifiedInWorkdir in e.status
      ensures e in Missing() <==> e in added && DeletedFromWorkdir in e.status
      ensures e in RenamedInIndex() <==> e in added && FileStatusFlag.RenamedInIndex in e.status
      ensures e in RenamedInWorkDir() <==> e in added && RenamedInWorkdir in e.status
      ensures e in Conflicted() <==> e in added && FileStatusFlag.Conflicted in e.status
      ensures (forall f :: f in TrackedFlags ==> f !in e.status) ==>
                forall f :: f in TrackedFlags ==> e !in Bucket(f)
    {
      forall f | f in TrackedFlags ensures e in Bucket(f) <==> e in added && f in e.status {
        WithFlagMembership(added, f, e);
      }
    }
  }
}
