/**
 * What the downloader's decisions add up to over several calls: which
 * downloads a later `download_if_not_exists` recognises, where nested ids
 * land, and the raw-file target that makes nested ids download again.
 */
module DownloaderProperties {
  import opened Wrappers
  import opened Paths
  import opened Catalog
  import opened Downloader

  /** The size probe looks at the same file as the existence check, for a
      non-empty destination and an id that does not start with '/'. */
  lemma ProbeIsCheckedPath(id: string, dest: string)
    requires dest != "" && Relative(id)
    ensures Canon(ProbePath(id, dest)) == Canon(CheckPath(id, dest))
  {
    if '/' in id {
      var sub, base := Subfolder(id), Basename(id);
      assert id == sub + "/" + base;
      assert |sub| > 0 && sub[0] == id[0];
      assert ProbePath(id, dest) == Join(Join(dest, sub), base);
      SplitJoinSameFile(dest, sub, base, id);
    } else {
      SlashJoinSameFile(dest, id);
    }
  }

  /** The two joins of the size probe name `dest + "/" + id`, for an id
      split into a relative subfolder and a name without '/'. */
  lemma SplitJoinSameFile(dest: string, sub: string, base: string, id: string)
    requires dest != "" && Relative(sub) && '/' !in base && id == sub + "/" + base
    ensures Canon(Join(Join(dest, sub), base)) == Canon(dest + "/" + id)
  {
    JoinTwiceSameFile(dest, sub, base);
    assert dest + "/" + sub + "/" + base == dest + "/" + id;
  }

  /** For a destination without a trailing '/', a nested id `sub/name` is
      fetched into `dest/sub`, and its raw-file target repeats `sub`. */
  lemma NestedIdPaths(id: string, dest: string)
    requires '/' in id && Relative(id)
    requires dest != "" && dest[|dest| - 1] != '/'
    ensures id == Subfolder(id) + "/" + Basename(id)
    ensures TransferDir(id, dest) == dest + "/" + Subfolder(id)
    ensures RawTarget(id, dest) == dest + "/" + Subfolder(id) + "/" + Subfolder(id) + "/" + Basename(id)
  {
  }

  /** A download whose transfer left the checked file behind is recognised:
      the next `download_if_not_exists` of the same id does nothing.  This
      holds for archives that unpack the id's basename, and for raw files
      of ids without a subfolder. */
  lemma FetchThenPresent(s: State, id: string, url: string, dest: string, run: ToolRun, again: ToolRun)
    requires dest != "" && Relative(id) && run.pgetSucceeds
    requires ModeOf(s.weights, id) == Archive ==> Basename(id) in run.unpacked
    requires ModeOf(s.weights, id) == RawFile ==> '/' !in id
    ensures var first := EnsurePresent(s, id, url, dest, run);
      && (first.outcome == AlreadyPresent || first.outcome == Fetched(true))
      && EnsurePresent(first.state, id, url, dest, again) == Step(first.state, AlreadyPresent)
  {
    var first := EnsurePresent(s, id, url, dest, run);
    if first.outcome != AlreadyPresent {
      assert first == Fetch(s, id, url, dest, run);
      ProbeIsCheckedPath(id, dest);
      if ModeOf(s.weights, id) == Archive {
        assert Exists(first.state.fs, Join(TransferDir(id, dest), Basename(id)));
      } else {
        assert RawTarget(id, dest) == CheckPath(id, dest);
      }
      assert Exists(first.state.fs, CheckPath(id, dest));
    }
  }

  /** `download_torch_checkpoints` is idempotent once the archive has
      unpacked the checkpoint file, although the checked path of its
      destination contains "//". */
  lemma TorchCheckpointsOnce(s: State, run: ToolRun, again: ToolRun)
    requires TorchId !in s.weights && run.pgetSucceeds && TorchId in run.unpacked
    ensures var first := TorchCheckpoints(s, run);
      && (first.outcome == AlreadyPresent || first.outcome == Fetched(true))
      && TorchCheckpoints(first.state, again) == Step(first.state, AlreadyPresent)
  {
    assert '/' !in TorchId && Relative(TorchId);
    assert Basename(TorchId) == TorchId;
    FetchThenPresent(s, TorchId, TorchUrl, TorchDest, run, again);
  }

  /** After `append_custom_models_from_string`, a missing weight of the
      payload is fetched as a raw file, never extracted. */
  lemma PayloadDownloadsRawFile(s: State, custom: Weights, id: string, run: ToolRun)
    requires id in custom && custom[id].url.Some? && custom[id].dest.Some?
    ensures var s' := s.(weights := OverlayRawFile(s.weights, custom));
      var r := Request(s', id, run);
      r.outcome == AlreadyPresent ||
      (r.state.log == s.log + Plan(s'.weights, id, custom[id].url.value, custom[id].dest.value) &&
       r.state.log[|r.state.log| - 1] == Run(RawArgv(custom[id].url.value, RawTarget(id, custom[id].dest.value))))
  {
  }

  /** `rsplit` and `basename` of the id `sub/m.bin`, and the directory it
      is fetched into under `/cache`. */
  lemma NestedExampleSplit()
    ensures Subfolder("sub/m.bin") == "sub" && Basename("sub/m.bin") == "m.bin"
    ensures TransferDir("sub/m.bin", "/cache") == "/cache/sub"
    ensures !BasenameRepeatsFirstComponent("sub/m.bin")
  {
    assert LastSlash("sub/m.bin") == Some(3);
  }

  /** The paths `download` derives for the id `sub/m.bin` and the
      destination `/cache`. */
  lemma NestedExamplePaths()
    ensures TransferDir("sub/m.bin", "/cache") == "/cache/sub"
    ensures RawTarget("sub/m.bin", "/cache") == "/cache/sub/sub/m.bin"
    ensures ProbePath("sub/m.bin", "/cache") == "/cache/sub/m.bin"
    ensures CheckPath("sub/m.bin", "/cache") == "/cache/sub/m.bin"
  {
    NestedExampleSplit();
    var dir := "/cache/sub";
    assert RawTarget("sub/m.bin", "/cache") == dir + "/" + "sub/m.bin";
    assert ProbePath("sub/m.bin", "/cache") == Join(dir, "m.bin") == dir + "/" + "m.bin";
  }

  /** As written, the raw file of a nested id that does not end in '/' is
      written where the existence check does not look (it has the subfolder
      twice), and the directory `download` creates is not the checked path
      either. */
  lemma NestedRawTargetIsNeverChecked(id: string, dest: string)
    requires '/' in id && Relative(id) && dest != "" && Basename(id) != ""
    ensures Canon(RawTarget(id, dest)) != Canon(CheckPath(id, dest))
    ensures Canon(TransferDir(id, dest)) != Canon(CheckPath(id, dest))
  {
    var sub, base := Subfolder(id), Basename(id);
    var dir := TransferDir(id, dest);
    assert sub[0] == id[0];
    assert Letters(sub) >= 1;
    LettersOfComponent(base);
    LettersConcat(sub, "/");
    LettersConcat(sub + "/", base);
    LettersConcat(dest, "/");
    LettersConcat(dest + "/", id);
    LettersJoin(dest, sub);
    LettersConcat(dir, "/");
    LettersConcat(dir + "/", id);
    LettersCanon(RawTarget(id, dest));
    LettersCanon(CheckPath(id, dest));
    LettersCanon(dir);
  }

  /** For the id `a/a` under `/c` the checked path is a directory on the way
      to the raw-file target, so writing the target makes it exist. */
  lemma RepeatedComponentExample()
    ensures BasenameRepeatsFirstComponent("a/a")
    ensures CheckPath("a/a", "/c") == "/c/a/a"
    ensures RawTarget("a/a", "/c") == "/c/a/a" + "/a"
  {
    assert LastSlash("a/a") == Some(1);
    assert Subfolder("a/a") == "a" && Basename("a/a") == "a";
  }

  /** As written, a nested raw-file weight is downloaded again by every
      `download_if_not_exists`, and its size is never reported: e.g. the id
      `sub/m.bin` with destination `/cache` (see `NestedExamplePaths`).
      Ids whose basename is the first component of their subfolder are
      excluded: for them the checked path is a parent of the target.  So
      are ids ending in '/' (`TrailingSlashIdIsCreatedDir`). */
  lemma NestedRawDownloadRepeats(s: State, id: string, url: string, dest: string, run: ToolRun, again: ToolRun)
    requires '/' in id && Relative(id) && dest != "" && Basename(id) != ""
    requires !BasenameRepeatsFirstComponent(id)
    requires ModeOf(s.weights, id) == RawFile
    requires !Exists(s.fs, CheckPath(id, dest))
    ensures var first := EnsurePresent(s, id, url, dest, run);
      var second := EnsurePresent(first.state, id, url, dest, again);
      && (run.pgetSucceeds ==> first.outcome == Fetched(false))
      && second.outcome != AlreadyPresent
      && second.state.log == s.log + Plan(s.weights, id, url, dest) + Plan(s.weights, id, url, dest)
  {
    var first := EnsurePresent(s, id, url, dest, run);
    assert first == Fetch(s, id, url, dest, run);
    NestedRawFetchMisses(s, id, url, dest, run);
  }

  /** One raw-file download of a nested id that does not end in '/' and
      whose basename is not the first component of its subfolder leaves the checked path as absent as it
      found it, and reports no size. */
  lemma NestedRawFetchMisses(s: State, id: string, url: string, dest: string, run: ToolRun)
    requires '/' in id && Relative(id) && dest != "" && Basename(id) != ""
    requires !BasenameRepeatsFirstComponent(id)
    requires ModeOf(s.weights, id) == RawFile
    requires !Exists(s.fs, CheckPath(id, dest))
    ensures var r := Fetch(s, id, url, dest, run);
      && !Exists(r.state.fs, CheckPath(id, dest))
      && (run.pgetSucceeds ==> r.outcome == Fetched(false))
  {
    RawFetchCreates(s, id, url, dest, run);
    NestedRawTargetIsNeverChecked(id, dest);
    ProbeIsCheckedPath(id, dest);
  }

  /** For an id ending in '/', such as `sub/`, the checked path
      `f"{dest}/{id}"` is the directory `download` creates. */
  lemma TrailingSlashIdIsCreatedDir(id: string, dest: string)
    requires '/' in id && Relative(id) && dest != "" && Basename(id) == ""
    ensures Canon(TransferDir(id, dest)) == Canon(CheckPath(id, dest))
  {
    var sub := Subfolder(id);
    assert id == sub + "/";
    assert sub[0] == id[0];
    assert CheckPath(id, dest) == (dest + "/" + sub) + "/";
    CanonTrailingSlash(dest + "/" + sub);
    SlashJoinSameFile(dest, sub);
  }

  /** So an id ending in '/' is downloaded at most once, in either mode. */
  lemma TrailingSlashIdFetchedOnce(s: State, id: string, url: string, dest: string, run: ToolRun, again: ToolRun)
    requires '/' in id && Relative(id) && dest != "" && Basename(id) == ""
    ensures var first := EnsurePresent(s, id, url, dest, run);
      EnsurePresent(first.state, id, url, dest, again) == Step(first.state, AlreadyPresent)
  {
    var first := EnsurePresent(s, id, url, dest, run);
    TrailingSlashIdIsCreatedDir(id, dest);
    if first.outcome != AlreadyPresent {
      assert first == Fetch(s, id, url, dest, run);
    }
  }

  /** A raw-file download creates at most its destination directory and
      its target. */
  lemma RawFetchCreates(s: State, id: string, url: string, dest: string, run: ToolRun)
    requires ModeOf(s.weights, id) == RawFile
    ensures Fetch(s, id, url, dest, run).state.fs <= s.fs + {Canon(TransferDir(id, dest)), Canon(RawTarget(id, dest))}
  {
  }

  /** The raw-file target that the existence check and the size probe
      both expect: the basename inside the rewritten destination, which is
      the path the size probe looks at. */
  function IntendedRawTarget(id: string, dest: string): (t: string)
    requires dest != "" && Relative(id)
    ensures Canon(t) == Canon(CheckPath(id, dest))
  {
    ProbeIsCheckedPath(id, dest);
    ProbePath(id, dest)
  }

  /** With the intended target, a finished raw-file download of any id,
      nested or not, has its size reported, and the next
      `download_if_not_exists` of it does nothing. */
  lemma IntendedRawTargetIsRemembered(s: State, id: string, url: string, dest: string, again: ToolRun)
    requires dest != "" && Relative(id)
    ensures var after := s.(fs := Touch(s.fs, IntendedRawTarget(id, dest)));
      && Exists(after.fs, ProbePath(id, dest))
      && EnsurePresent(after, id, url, dest, again) == Step(after, AlreadyPresent)
  {
    var after := s.(fs := Touch(s.fs, IntendedRawTarget(id, dest)));
    assert Canon(IntendedRawTarget(id, dest)) in after.fs;
  }
}
