# Weights downloader — a Dafny model

This project models the core of the `WeightsDownloader` of cog-comfyui, the code that makes sure a named model weight is on local disk before it is used.

- The catalog `weights_map` maps a weight id to an entry (`url`, `dest`, optional `notar`). Two append operations overwrite it in place: a static override file, and a runtime JSON payload whose entries are all forced to `notar = True`.
- `download_weights(id)` rejects ids the catalog does not know. It hands the entry's url and destination to `download_if_not_exists`, which does nothing when `f"{dest}/{id}"` exists.
- Otherwise `download` runs. An id with a `/` has its subfolder joined onto `dest`, and that directory is created. Then the weight is transferred in one of two ways:
  - archive mode: `pget --log-level warn -xf url dest`
  - raw-file mode, used when the entry's `notar` is truthy: `mkdir dest`, whose failure is ignored, then `pget --log-level warn url dest/id`
- Finally the size of `dest/basename(id)` is probed. If that fails, only a warning is printed.

## Structure

- `wrappers.dfy` — `Option`.
- `paths.dfy` (module `Paths`) holds the exact string logic:
  - `rsplit("/", 1)[0]` (`Subfolder`), `os.path.basename` (`Basename`), and POSIX two-argument `os.path.join` (`Join`).
  - `Canon`: the spelling under which two paths name the same file. Runs of `/` count as one, and a trailing `/` is dropped.
- `catalog.dfy` (module `Catalog`) holds the `Entry` datatype, the pure meaning of the two append operations (`Overlay`, `OverlayRawFile`) and the transfer-mode decision (`ModeOf`).
- `downloader.dfy` (module `Downloader`):
  - Every effect on the outside world is an `Effect`: `os.makedirs`, or a subprocess run given by its exact argument vector, appended to a log.
  - The filesystem is a set of canonical paths.
  - What the external tools do is a `ToolRun` parameter: whether `mkdir` and `pget` exit with 0, and which files an archive unpacks.
  - The pure functions `Plan`, `Fetch`, `EnsurePresent`, `Request` and `TorchCheckpoints` specify `download`, `download_if_not_exists`, `download_weights` and `download_torch_checkpoints`.
  - The class `WeightsDownloader` holds `weightsMap`, `fs` and a ghost `log`. Its methods do the source's work step by step: the `for key in custom` loops, the rewriting of `dest`, the `tar` flag, and the commands in order. Each method is proved equal to its specification function.
- `properties.dfy` (module `DownloaderProperties`):
  - which downloads a later `download_if_not_exists` recognises;
  - the paths of nested ids;
  - the finding below.

Modelling choices:
- `os.path.exists`/`os.path.getsize` succeed when the canonical path is in the set. This matters for `download_torch_checkpoints`: its destination ends in `/`, so the checked path `f"{dest}/{id}"` contains `//`, while the probed path, built with `os.path.join`, does not.
- `notar` holds the Python truthiness of the stored JSON value.
- An entry lacking `url` or `dest` leads to the `KeyError` of `download_weights` (`MissingField`).
- A payload string that is not JSON is `None`. It stands for the `JSONDecodeError` that `json.loads` raises to the caller (line 25) before the catalog is touched; `parsed == false` reports that exception.

For a nested raw-file weight `sub/model.bin`, the existence check (line 59) and the size probe (line 91) look at `dest/sub/model.bin`. The raw transfer (line 86) writes `dest/sub/sub/model.bin`. The model keeps this as written (see Findings).

## Model

| member | source | states |
|---|---|---|
| Paths.LastSlash | weights_downloader.py:63-64 | there is no index exactly when the id has no `/`; otherwise the index holds a `/` and no `/` follows it |
| Paths.Subfolder | weights_downloader.py:64 | `rsplit("/", 1)[0]` is the proper prefix of the id that ends right before its last `/`: a `/` follows it and no `/` comes after that one |
| Paths.Basename | weights_downloader.py:91 | the basename holds no `/`; it is the whole id when the id has no `/`; otherwise the id is `Subfolder + "/" + Basename` (the rsplit round trip) |
| Paths.Join | weights_downloader.py:65 | joining a relative component onto a non-empty directory without a trailing `/` inserts exactly one `/` |
| Paths.SlashJoinSameFile | weights_downloader.py:89-92 | `dest + "/" + b` and `os.path.join(dest, b)` name the same file for a non-empty `dest` and a `b` not starting with `/` |
| Paths.JoinTwiceSameFile | weights_downloader.py:62-66 | joining a subfolder and then a name names the same file as `dest/sub/name` |
| Paths.CollapseKeepsLast | weights_downloader.py:59 | collapsing runs of `/` keeps a non-empty path non-empty and keeps its last character |
| Paths.CollapseAppendSlash | weights_downloader.py:59 | a `/` appended after a last character that is not `/` survives the collapsing |
| Paths.CanonTrailingSlash | weights_downloader.py:59 | a non-empty path and the same path with a `/` appended name the same file, whether or not it already ended in `/` |
| Catalog.Overlay | weights_downloader.py:17-22 | after the file's keys are assigned, every payload key maps to its payload entry; every other key keeps its entry; no key is lost; entries are not merged |
| Catalog.ForceRawFile | weights_downloader.py:26-29 | every payload entry keeps its url and dest and gets `notar = True`, whatever its `notar` was |
| Catalog.OverlayRawFile | weights_downloader.py:24-31 | after the string payload, every payload key maps to its entry with `notar = True`; other keys are unchanged |
| Catalog.OverlayLastWriteWins | weights_downloader.py:20-21 | two successive appends equal one append of the second payload laid over the first (last write wins) |
| Catalog.OverlayRawFileStep | weights_downloader.py:26-29 | one more payload key forced to `notar = True` and assigned is the overlay of the payload with that key added |
| Catalog.ModeOf | weights_downloader.py:69-74 | raw-file mode exactly when the id is catalogued and its `notar` is present and truthy; an uncatalogued id or a missing `notar` means archive mode |
| Downloader.Plan | weights_downloader.py:62-87 | `makedirs` of the rewritten dest comes first exactly for ids with `/`; archive mode then issues only `pget --log-level warn -xf url dest`; raw mode issues `mkdir dest` and then `pget --log-level warn url dest/id`; `pget` runs exactly once, last |
| Downloader.Fetch | weights_downloader.py:62-98 | the catalog is unchanged, the planned effects are all issued, and no file disappears; the call fails exactly when `pget` fails; the nested directory exists afterwards; a raw transfer leaves its target and an archive its unpacked files; the size is reported exactly when the probed path exists |
| Downloader.EnsurePresent | weights_downloader.py:58-60 | nothing at all happens exactly when `f"{dest}/{id}"` exists; otherwise the planned effects are issued and the outcome follows `pget` |
| Downloader.Request | weights_downloader.py:33-49 | an unknown id gives `UnknownWeight(id)` and a missing url or dest gives `MissingField`; both change no state and issue nothing; a complete entry's url and dest go to `download_if_not_exists`; the catalog never changes |
| Downloader.TorchCheckpoints | weights_downloader.py:51-56 | the MobileNet checkpoint is skipped exactly when its checked path exists; if it is not catalogued, the only command is the extracting `pget` into the torch hub cache |
| Downloader.WeightsDownloader.constructor | weights_downloader.py:12-15 | the catalog is the manifest overlaid with the parsed `extra_weights.json` |
| Downloader.WeightsDownloader.AppendCustomModelsFromFile | weights_downloader.py:17-22 | the loop leaves `weightsMap == Overlay(old weightsMap, custom)`; filesystem and log are unchanged |
| Downloader.WeightsDownloader.AppendCustomModelsFromString | weights_downloader.py:24-31 | a parsed payload leaves `weightsMap == OverlayRawFile(old weightsMap, payload)`; an unparsable one changes nothing |
| Downloader.WeightsDownloader.DownloadWeights | weights_downloader.py:33-49 | the new state and outcome are those of `Request` |
| Downloader.WeightsDownloader.DownloadTorchCheckpoints | weights_downloader.py:51-56 | the new state and outcome are those of `TorchCheckpoints` |
| Downloader.WeightsDownloader.DownloadIfNotExists | weights_downloader.py:58-60 | the new state and outcome are those of `EnsurePresent` |
| Downloader.WeightsDownloader.Download | weights_downloader.py:62-98 | the step-by-step rewriting of `dest`, the `tar` flag and the command sequence give exactly the state and outcome of `Fetch` |
| Downloader.CheckPath | weights_downloader.py:59 | the path `download_if_not_exists` tests, `f"{dest}/{id}"`; a definition without a contract of its own, whose meaning `ProbeIsCheckedPath` and `NestedRawTargetIsNeverChecked` state |
| Downloader.TransferDir | weights_downloader.py:63-65 | `dest` is unchanged for an id without `/`; for a relative nested id and a dest without a trailing `/` it becomes `dest/sub` |
| Downloader.RawTarget | weights_downloader.py:86 | for an id without `/` the raw target is the checked path `f"{dest}/{id}"` (it is `f"{dest'}/{id}"` on the rewritten dest in general) |
| Downloader.ProbePath | weights_downloader.py:91 | for an id without `/` the probe is `os.path.join(dest, id)` (it is `os.path.join(dest', basename(id))` in general) |
| DownloaderProperties.ProbeIsCheckedPath | weights_downloader.py:89-92 | for a non-empty dest and a relative id, the size probe `join(dest', basename(id))` names the file the existence check tests |
| DownloaderProperties.SplitJoinSameFile | weights_downloader.py:89-92 | joining a relative subfolder and then a name without `/` onto a non-empty dest names `dest + "/" + id` |
| DownloaderProperties.NestedIdPaths | weights_downloader.py:63-86 | for a dest without a trailing `/`, a nested id `sub/name` is fetched into `dest/sub`, and its raw target is `dest/sub/sub/name` |
| DownloaderProperties.FetchThenPresent | weights_downloader.py:58-79 | after a successful archive transfer that unpacked the basename, or a raw transfer of an id without `/`, the first call reports the size and the next `download_if_not_exists` does nothing |
| DownloaderProperties.TorchCheckpointsOnce | weights_downloader.py:51-60 | once the checkpoint archive unpacked its file, a second `download_torch_checkpoints` does nothing, despite the `//` in the checked path |
| DownloaderProperties.PayloadDownloadsRawFile | weights_downloader.py:24-87 | a missing weight of a string payload is fetched with a raw-file `pget` to `dest'/id`, never extracted |
| DownloaderProperties.NestedExampleSplit | weights_downloader.py:63-65 | `sub/m.bin` splits into `sub` and `m.bin` and is fetched into `/cache/sub` |
| DownloaderProperties.NestedExamplePaths | weights_downloader.py:58-91 | for `sub/m.bin` under `/cache` the raw target is `/cache/sub/sub/m.bin`, while the checked and probed path is `/cache/sub/m.bin` |
| DownloaderProperties.NestedRawTargetIsNeverChecked | weights_downloader.py:59-86 | for a nested relative id that does not end in `/`, neither the raw target nor the created directory names the checked file |
| DownloaderProperties.NestedRawDownloadRepeats | weights_downloader.py:58-98 | a nested raw-file weight that does not end in `/` and whose basename is not the first component of its subfolder (so not `sub/`, `a/a` or `a/x/a`) never reports its size and is downloaded again by the next request, whose log holds the plan twice |
| DownloaderProperties.NestedRawFetchMisses | weights_downloader.py:59-92 | one raw-file download of a nested relative id that does not end in `/` and whose basename is not the first component of its subfolder leaves the checked path absent if it was absent, and reports no size |
| DownloaderProperties.TrailingSlashIdIsCreatedDir | weights_downloader.py:59-66 | for a relative nested id ending in `/`, the directory `download` creates names the checked path `f"{dest}/{id}"` |
| DownloaderProperties.TrailingSlashIdFetchedOnce | weights_downloader.py:58-66 | such an id is downloaded at most once, in either mode: after the first `download_if_not_exists` the next one does nothing |
| DownloaderProperties.RepeatedComponentExample | weights_downloader.py:59-86 | for the id `a/a` under `/c`, the checked path `/c/a/a` is the parent directory of the raw target `/c/a/a/a`, so those ids are excluded above |
| DownloaderProperties.IntendedRawTarget | weights_downloader.py:86 | the corrected raw target is the size probe's path `join(dest', basename(id))`, and it names the file the existence check looks at |
| DownloaderProperties.IntendedRawTargetIsRemembered | weights_downloader.py:58-91 | once the corrected target is written, for any relative id, nested or not, the size probe finds it and the next `download_if_not_exists` does nothing |

## Left out

- `is_non_commercial_only` and `WeightsManifest` are not part of this model. The manifest's catalog comes in as the constructor's `manifest` parameter. The licence check only prints an advisory and never changes control flow, so it is dropped.
- JSON parsing and reading `extra_weights.json` are left out. Payloads arrive as parsed maps from string ids to entries, and an unparsable string arrives as `None`. A missing file (fatal in `__init__`) is not modelled. Neither is any payload that is not a JSON object of JSON objects:
  - `[]` and `""` make both loops (lines 20 and 26) run zero times and change nothing.
  - A number, `true`, `false` or `null` is not iterable, so both loops raise a `TypeError`.
  - A non-empty string iterates over its characters, and `custom[key]` raises a `TypeError` (lines 21 and 27).
  - An array iterates over its elements and indexes itself with them. A non-integer element raises a `TypeError` and an out-of-range integer an `IndexError`. An in-range integer such as in `[0]` is stored under an integer key by the file variant (line 21). The string variant then fails with a `TypeError` at line 28.
  - The string variant handles the keys of an object in iteration order. On the first value that is not an object it raises a `TypeError` at line 28, and the keys handled before it stay written: the catalog is updated partly.
  - The file variant stores any value (line 21). A value that is not an object makes `download_weights` raise a `TypeError` at the `["url"]` lookup (line 41).
  - A `url` or `dest` that is not a string (`null`, a number) cannot be held in an `Entry`. The source formats such values into paths with f-strings (lines 59, 82 and 86). Where it passes them on unformatted it raises a `TypeError`: in `os.path.join` (lines 65 and 91) and in the argument vectors of `check_call` (lines 78 and 86).
- Running the subprocesses is left out, including `close_fds` and what `pget` does internally (retries, partial files after a failure). Their exit statuses and the files an archive unpacks are the `ToolRun` parameter.
- Only the directory itself is recorded for `os.makedirs`, not its parents, and its own errors (a file in the way, permissions) are not modelled. Likewise a raw transfer records only the file it writes, not the directories on the way to it. For an id like `a/a` or `a/x/a`, the checked path `dest/sub/name` is such a directory on the way to the as-written target, so the source would find it after one download. The model does not, and `NestedRawFetchMisses` and `NestedRawDownloadRepeats` exclude those ids (`RepeatedComponentExample`).
- `os.path.getsize` errors other than `FileNotFoundError` are not modelled. The size in bytes, the MB formatting, `time.time()` and all printed lines are left out.
- Path canonicalisation covers repeated and trailing `/` only. `.`, `..`, symbolic links and the special leading `//` are not modelled. File kinds are not tracked, so a trailing `/` is accepted after a regular file: `Exists(fs, "f/")` holds when `f` is a file, where POSIX fails with `ENOTDIR`. This matters only for ids ending in `/`. The finding's lemmas assume a non-empty `dest` and an id that does not start with `/`; those about nested ids also assume that the id does not end in `/`. For an id such as `sub/`, the checked path `dest/sub/` is the directory `download` creates, so the source finds it after one download (`TrailingSlashIdFetchedOnce`).
- In the source, `weights_map` is the manifest's own dictionary, shared with it. The model gives the downloader its own catalog.
- Entry fields other than `url`, `dest` and `notar` are not modelled. Replacing whole entries means they are replaced too.
- There is no concurrency in this code.

## Findings

| source | as written | input that shows it | evidently intended | confidence | as-written member | corrected member |
|---|---|---|---|---|---|---|
| weights_downloader.py:86 | the raw-file target is `f"{dest}/{weight_str}"` built after `dest` was already extended with the id's subfolder | id `sub/m.bin` whose entry has `notar` true and dest `/cache`: the file is written to `/cache/sub/sub/m.bin`, while `/cache/sub/m.bin` is checked (line 59) and probed (line 91) | write to `os.path.join(dest, os.path.basename(weight_str))`, the path lines 59 and 91 look at | high that the paths differ; medium that it is unintended; not executed | DownloaderProperties.NestedRawDownloadRepeats | DownloaderProperties.IntendedRawTarget |

`NestedRawDownloadRepeats` proves the as-written behaviour for every nested relative id that does not end in `/` and whose basename is not the first component of its subfolder: the size is never reported and every later request downloads the weight again. `NestedExamplePaths` gives the concrete paths. `IntendedRawTarget` is the corrected target, and its contract states that it names the checked and probed file. `IntendedRawTargetIsRemembered` proves that with it a finished download is recognised by the next request. The `Downloader` module keeps the as-written target, because it models the code as it stands.
