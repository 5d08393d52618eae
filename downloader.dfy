/**
 * `WeightsDownloader`: the decision of whether to fetch a weight, the
 * destination it derives, the transfer mode it picks and the commands it
 * issues. The external tools (`pget`, `mkdir`) and the filesystem are
 * abstract: every command issued is appended to a log, the filesystem is a
 * set of canonical paths, and what the tools do is given as a `ToolRun`.
 */
module Downloader {
  import opened Wrappers
  import opened Paths
  import opened Catalog

  const BaseUrl := "https://weights.replicate.delivery/default/comfy-ui"
  const TorchId := "mobilenet_v2-b0353104.pth"
  const TorchUrl := BaseUrl + "/custom_nodes/comfyui_controlnet_aux/mobilenet_v2-b0353104.pth.tar"
  const TorchDest := "/root/.cache/torch/hub/checkpoints/"

  /** An action on the outside world: `os.makedirs(path, exist_ok=True)`, or
      a subprocess started with the argument vector `argv`. */
  datatype Effect = MakeDirs(path: string) | Run(argv: seq<string>)

  /** What the external tools do when run: whether `mkdir` exits with 0,
      whether `pget` exits with 0, and the relative paths an archive
      unpacks into its destination directory. */
  datatype ToolRun = ToolRun(mkdirSucceeds: bool, pgetSucceeds: bool, unpacked: set<string>)

  /** How one call ends. `TransferFailed` is the `CalledProcessError` of
      `pget`, `UnknownWeight` the `ValueError` of `download_weights`, and
      `MissingField` the `KeyError` of an entry without `url` or `dest`.
      `Fetched(false)` is a finished transfer whose size probe found nothing. */
  datatype Outcome =
    | AlreadyPresent
    | Fetched(sizeReported: bool)
    | TransferFailed
    | UnknownWeight(id: string)
    | MissingField(id: string, field: string)

  /** Everything a call can read or change: the catalog, the existing
      paths, and the effects issued so far. */
  datatype State = State(weights: Weights, fs: set<string>, log: seq<Effect>)

  datatype Step = Step(state: State, outcome: Outcome)

  /** `os.path.exists(p)` / `os.path.getsize(p)` succeeding. */
  predicate Exists(fs: set<string>, p: string)
  {
    Canon(p) in fs
  }

  /** The filesystem after `p` was created. */
  function Touch(fs: set<string>, p: string): set<string>
  {
    fs + {Canon(p)}
  }

  /** The filesystem after an archive unpacked `files` into `dir`. */
  function Unpack(fs: set<string>, dir: string, files: set<string>): set<string>
  {
    fs + set f | f in files :: Canon(Join(dir, f))
  }

  /** The path `download_if_not_exists` tests: `f"{dest}/{id}"`. */
  function CheckPath(id: string, dest: string): string
  {
    dest + "/" + id
  }

  /** `dest` as `download` rewrites it: the id's subfolder joined on. */
  function TransferDir(id: string, dest: string): (r: string)
    ensures '/' !in id ==> r == dest
    ensures '/' in id && Relative(id) && dest != "" && dest[|dest| - 1] != '/' ==> r == dest + "/" + Subfolder(id)
  {
    if '/' in id then Join(dest, Subfolder(id)) else dest
  }

  /** The raw-file target: `f"{dest}/{id}"` on the rewritten `dest`. */
  function RawTarget(id: string, dest: string): (r: string)
    ensures '/' !in id ==> r == CheckPath(id, dest)
  {
    TransferDir(id, dest) + "/" + id
  }

  /** The path whose size is reported: the rewritten `dest` joined with the
      id's basename. */
  function ProbePath(id: string, dest: string): (r: string)
    ensures '/' !in id ==> r == Join(dest, id)
  {
    Join(TransferDir(id, dest), Basename(id))
  }

  function ArchiveArgv(url: string, dir: string): seq<string>
  {
    ["pget", "--log-level", "warn", "-xf", url, dir]
  }

  function RawArgv(url: string, target: string): seq<string>
  {
    ["pget", "--log-level", "warn", url, target]
  }

  function MkdirArgv(dir: string): seq<string>
  {
    ["mkdir", dir]
  }

  /** A run of the transfer tool. */
  predicate IsTransfer(e: Effect)
  {
    e.Run? && |e.argv| > 0 && e.argv[0] == "pget"
  }

  /** The effects `download` issues, in order.  The directory of a nested
      id is created first; then archive mode runs one extracting `pget`,
      raw mode a `mkdir` followed by one plain `pget`.  The transfer tool
      runs exactly once, last. */
  function Plan(weights: Weights, id: string, url: string, dest: string): (p: seq<Effect>)
    ensures |p| == (if '/' in id then 1 else 0) + (if ModeOf(weights, id) == Archive then 1 else 2)
    ensures p[0].MakeDirs? <==> '/' in id
    ensures p[0].MakeDirs? ==> p[0].path == Join(dest, Subfolder(id))
    ensures forall i :: 0 < i < |p| ==> p[i].Run?
    ensures forall i :: 0 <= i < |p| - 1 ==> !IsTransfer(p[i])
    ensures ModeOf(weights, id) == Archive ==> p[|p| - 1] == Run(ArchiveArgv(url, TransferDir(id, dest)))
    ensures ModeOf(weights, id) == RawFile ==>
      p[|p| - 2] == Run(MkdirArgv(TransferDir(id, dest))) &&
      p[|p| - 1] == Run(RawArgv(url, RawTarget(id, dest)))
  {
    var dir := TransferDir(id, dest);
    var transfer := match ModeOf(weights, id)
      case Archive => [Run(ArchiveArgv(url, dir))]
      case RawFile => [Run(MkdirArgv(dir)), Run(RawArgv(url, RawTarget(id, dest)))];
    if '/' in id then [MakeDirs(dir)] + transfer else transfer
  }

  /** `download(id, url, dest)`.  The catalog never changes, the effects of
      `Plan` are issued even when a tool fails, nothing is removed from the
      filesystem, the call fails exactly when `pget` does, and the size is
      reported exactly when the probed path exists afterwards. */
  function Fetch(s: State, id: string, url: string, dest: string, run: ToolRun): (r: Step)
    ensures r.state.weights == s.weights
    ensures r.state.log == s.log + Plan(s.weights, id, url, dest)
    ensures s.fs <= r.state.fs
    ensures r.outcome.Fetched? <==> run.pgetSucceeds
    ensures r.outcome.TransferFailed? <==> !run.pgetSucceeds
    ensures r.outcome == Fetched(true) <==> run.pgetSucceeds && Exists(r.state.fs, ProbePath(id, dest))
    ensures '/' in id ==> Exists(r.state.fs, TransferDir(id, dest))
    ensures run.pgetSucceeds && ModeOf(s.weights, id) == RawFile ==> Exists(r.state.fs, RawTarget(id, dest))
    ensures run.pgetSucceeds && ModeOf(s.weights, id) == Archive ==>
      forall f :: f in run.unpacked ==> Exists(r.state.fs, Join(TransferDir(id, dest), f))
  {
    var dir := TransferDir(id, dest);
    var fs1 := if '/' in id then Touch(s.fs, dir) else s.fs;
    var log := s.log + Plan(s.weights, id, url, dest);
    match ModeOf(s.weights, id)
    case Archive =>
      if run.pgetSucceeds then
        var fs2 := Unpack(fs1, dir, run.unpacked);
        Step(State(s.weights, fs2, log), Fetched(Exists(fs2, ProbePath(id, dest))))
      else
        Step(State(s.weights, fs1, log), TransferFailed)
    case RawFile =>
      var fs2 := if run.mkdirSucceeds then Touch(fs1, dir) else fs1;
      if run.pgetSucceeds then
        var fs3 := Touch(fs2, RawTarget(id, dest));
        Step(State(s.weights, fs3, log), Fetched(Exists(fs3, ProbePath(id, dest))))
      else
        Step(State(s.weights, fs2, log), TransferFailed)
  }

  /** `download_if_not_exists(id, url, dest)`: nothing at all happens when
      the checked path exists; otherwise the download's effects are issued. */
  function EnsurePresent(s: State, id: string, url: string, dest: string, run: ToolRun): (r: Step)
    ensures r.outcome == AlreadyPresent <==> Exists(s.fs, CheckPath(id, dest))
    ensures r.outcome == AlreadyPresent ==> r.state == s
    ensures r.outcome != AlreadyPresent ==>
      r.state.log == s.log + Plan(s.weights, id, url, dest) && (r.outcome.Fetched? <==> run.pgetSucceeds)
    ensures r.state.weights == s.weights
  {
    if Exists(s.fs, CheckPath(id, dest)) then Step(s, AlreadyPresent)
    else Fetch(s, id, url, dest, run)
  }

  /** `download_weights(id)`: an unknown id or an entry without `url` or
      `dest` fails before anything is issued; otherwise the entry's url and
      destination are handed to `download_if_not_exists`. */
  function Request(s: State, id: string, run: ToolRun): (r: Step)
    ensures r.outcome.UnknownWeight? <==> id !in s.weights
    ensures r.outcome.UnknownWeight? ==> r.outcome.id == id
    ensures r.outcome.MissingField? <==>
      id in s.weights && (s.weights[id].url.None? || s.weights[id].dest.None?)
    ensures r.outcome.MissingField? ==>
      r.outcome == MissingField(id, if s.weights[id].url.None? then "url" else "dest")
    ensures r.outcome.UnknownWeight? || r.outcome.MissingField? ==> r.state == s
    ensures r.state.weights == s.weights
    ensures id in s.weights && s.weights[id].url.Some? && s.weights[id].dest.Some? ==>
      r == EnsurePresent(s, id, s.weights[id].url.value, s.weights[id].dest.value, run)
  {
    if id !in s.weights then Step(s, UnknownWeight(id))
    else
      var entry := s.weights[id];
      if entry.url.None? then Step(s, MissingField(id, "url"))
      else if entry.dest.None? then Step(s, MissingField(id, "dest"))
      else EnsurePresent(s, id, entry.url.value, entry.dest.value, run)
  }

  /** `download_torch_checkpoints()`: the fixed MobileNet checkpoint.  Its id
      is not a nested one, and unless the catalog lists it with `notar`, the
      archive is extracted straight into the torch hub cache. */
  function TorchCheckpoints(s: State, run: ToolRun): (r: Step)
    ensures r.outcome == AlreadyPresent <==> Exists(s.fs, TorchDest + "/" + TorchId)
    ensures TorchId !in s.weights && r.outcome != AlreadyPresent ==>
      r.state.log == s.log + [Run(["pget", "--log-level", "warn", "-xf", TorchUrl, TorchDest])]
  {
    assert '/' !in TorchId;
    EnsurePresent(s, TorchId, TorchUrl, TorchDest, run)
  }

  /** The weights downloader object: the catalog it owns and updates in
      place, the filesystem it observes and the effects it has issued. */
  class WeightsDownloader {
    var weightsMap: Weights
    var fs: set<string>
    ghost var log: seq<Effect>

    ghost function Snapshot(): State
      reads this
    {
      State(weightsMap, fs, log)
    }

    /** `__init__`: the manifest's catalog, overwritten by the parsed
        `extra_weights.json`. */
    constructor (manifest: Weights, extraWeights: Weights, disk: set<string>)
      ensures weightsMap == Overlay(manifest, extraWeights)
      ensures fs == disk && log == []
    {
      weightsMap, fs, log := manifest, disk, [];
      new;
      AppendCustomModelsFromFile(extraWeights);
    }

    /** `append_custom_models_from_file`, on the already parsed file. */
    method AppendCustomModelsFromFile(custom: Weights)
      modifies this
      ensures weightsMap == Overlay(old(weightsMap), custom)
      ensures fs == old(fs) && log == old(log)
    {
      var pending := custom.Keys;
      while pending != {}
        invariant pending <= custom.Keys
        invariant weightsMap == Overlay(old(weightsMap), map k | k in custom && k !in pending :: custom[k])
        invariant fs == old(fs) && log == old(log)
        decreases pending
      {
        var key :| key in pending;
        weightsMap := weightsMap[key := custom[key]];
        pending := pending - {key};
      }
      assert (map k | k in custom && k !in pending :: custom[k]) == custom;
    }

    /** `append_custom_models_from_string`; `payload` is `None` when the
        string is not valid JSON.  `parsed == false` then stands for the
        `JSONDecodeError` that `json.loads` raises to the caller before the
        catalog is touched. */
    method AppendCustomModelsFromString(payload: Option<Weights>) returns (parsed: bool)
      modifies this
      ensures parsed == payload.Some?
      ensures weightsMap == if payload.Some? then OverlayRawFile(old(weightsMap), payload.value) else old(weightsMap)
      ensures fs == old(fs) && log == old(log)
    {
      if payload.None? {
        return false;
      }
      var custom := payload.value;
      var pending := custom.Keys;
      while pending != {}
        invariant pending <= custom.Keys
        invariant weightsMap == OverlayRawFile(old(weightsMap), map k | k in custom && k !in pending :: custom[k])
        invariant fs == old(fs) && log == old(log)
        decreases pending
      {
        var key :| key in pending;
        ghost var done := map k | k in custom && k !in pending :: custom[k];
        var obj := custom[key];
        obj := obj.(notar := Some(true));
        weightsMap := weightsMap[key := obj];
        pending := pending - {key};
        OverlayRawFileStep(old(weightsMap), done, key, custom[key]);
        assert done[key := custom[key]] == map k | k in custom && k !in pending :: custom[k];
      }
      assert (map k | k in custom && k !in pending :: custom[k]) == custom;
      parsed := true;
    }

    /** `download_weights(id)`. */
    method DownloadWeights(id: string, run: ToolRun) returns (outcome: Outcome)
      modifies this
      ensures Step(Snapshot(), outcome) == Request(old(Snapshot()), id, run)
    {
      if id in weightsMap {
        var entry := weightsMap[id];
        if entry.url.None? {
          return MissingField(id, "url");
        }
        if entry.dest.None? {
          return MissingField(id, "dest");
        }
        outcome := DownloadIfNotExists(id, entry.url.value, entry.dest.value, run);
      } else {
        outcome := UnknownWeight(id);
      }
    }

    /** `download_torch_checkpoints()`. */
    method DownloadTorchCheckpoints(run: ToolRun) returns (outcome: Outcome)
      modifies this
      ensures Step(Snapshot(), outcome) == TorchCheckpoints(old(Snapshot()), run)
    {
      outcome := DownloadIfNotExists(TorchId, TorchUrl, TorchDest, run);
    }

    /** `download_if_not_exists(id, url, dest)`. */
    method DownloadIfNotExists(id: string, url: string, dest: string, run: ToolRun) returns (outcome: Outcome)
      modifies this
      ensures Step(Snapshot(), outcome) == EnsurePresent(old(Snapshot()), id, url, dest, run)
    {
      if Canon(dest + "/" + id) !in fs {
        outcome := Download(id, url, dest, run);
      } else {
        outcome := AlreadyPresent;
      }
    }

    /** `download(id, url, dest)`: rewrites `dest`, settles the `tar` flag,
        then issues the commands one after another. */
    method Download(id: string, url: string, dest: string, run: ToolRun) returns (outcome: Outcome)
      modifies this
      ensures Step(Snapshot(), outcome) == Fetch(old(Snapshot()), id, url, dest, run)
    {
      ghost var s0 := Snapshot();
      var dir := dest;
      if '/' in id {
        var subfolder := Subfolder(id);
        dir := Join(dir, subfolder);
        fs := fs + {Canon(dir)};
        log := log + [MakeDirs(dir)];
      }
      assert dir == TransferDir(id, dest);
      ghost var fs1 := fs;
      var tar := true;
      if id in weightsMap {
        match weightsMap[id].notar
        case Some(truthy) =>
          if truthy {
            tar := false;
          }
        case None =>
      }
      assert tar <==> ModeOf(weightsMap, id) == Archive;
      if tar {
        log := log + [Run(["pget", "--log-level", "warn", "-xf", url, dir])];
        assert log == s0.log + Plan(s0.weights, id, url, dest);
        if !run.pgetSucceeds {
          assert Fetch(s0, id, url, dest, run) == Step(State(weightsMap, fs1, log), TransferFailed);
          return TransferFailed;
        }
        fs := fs + set f | f in run.unpacked :: Canon(Join(dir, f));
        assert fs == Unpack(fs1, dir, run.unpacked);
      } else {
        log := log + [Run(["mkdir", dir])];
        if run.mkdirSucceeds {
          fs := fs + {Canon(dir)};
        }
        ghost var fs2 := fs;
        log := log + [Run(["pget", "--log-level", "warn", url, dir + "/" + id])];
        assert log == s0.log + Plan(s0.weights, id, url, dest);
        if !run.pgetSucceeds {
          assert Fetch(s0, id, url, dest, run) == Step(State(weightsMap, fs2, log), TransferFailed);
          return TransferFailed;
        }
        fs := fs + {Canon(dir + "/" + id)};
        assert fs == Touch(fs2, RawTarget(id, dest));
      }
      var probed := Canon(Join(dir, Basename(id))) in fs;
      outcome := Fetched(probed);
      assert Fetch(s0, id, url, dest, run) == Step(Snapshot(), outcome);
    }
  }
}
