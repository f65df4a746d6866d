# Dependency code diff: a verified model

`diff_tool/diff_v1.py` compares the third-party code of a Dart/Flutter project
between two git revisions. It reads `pubspec.lock` at each revision
(`get_dependencies`). It reconciles the two package mappings: a package whose
descriptor is identical on both sides is skipped when `skip_unchanged` is set.
Every other package is fetched on each side where it appears (`process_packages`):

- a hosted package's archive is downloaded from the registry and unpacked;
- a git package is cloned and checked out;
- any other source only gets its directory created (`download_package`).

Finally `git diff --no-index` runs on the two trees (`generate_diff`). An exit
status of 1 ("differences found") counts as success.

This project models that core in Dafny and proves what it promises.

- `runtime.dfy` holds the Python vocabulary:
  - `Option` and `Result`;
  - the exceptions that can arise;
  - `Outcome`, a call that either returns a value (possibly after logging a
    caught exception) or lets an exception escape.
- `yaml.dfy` holds the loaded YAML document (`Node`) and Python's two ways of
  reading a key:
  - `.get`, whose AttributeError on a non-dict is modelled;
  - `[]`, whose KeyError and TypeError are modelled.
- `paths.dfy` holds POSIX `os.path.join`.
- `manifest.dfy` holds `get_dependencies`, as a function of what reading and
  parsing the lock file yielded.
- `fetcher.dfy` holds `download_package`, as a function of the package and of
  an environment `ok: Effect -> bool`. The environment says which network or
  filesystem step succeeds. The result is the sequence of steps carried out,
  plus the outcome.
- `diff.dfy` holds `generate_diff`, as a function of whether the output file
  opens and of how the `git diff` process ended.
- `reconcile.dfy` holds the loop of `process_packages`, in two layers:
  - a specification function `Schedule` gives the fetches made when the union
    of package names is visited in a given order. `Intended` gives an
    order-free reference rule for single fetches, and lemmas connect the two.
  - imperative methods (`ProcessPackages`, `FetchAll`, `FetchName`,
    `FetchSide`) run the loop, calling `DownloadPackage`. They are proved
    against `Schedule`, including the case where an exception escaping a
    download aborts the loop part-way.
- `seqs.dfy` holds generic facts about logs built by appending: a predicate
  that holds of no element, and concatenating what each element contributes.

The iteration order of the Python set on line 87 is unspecified, so it is a
parameter `order`. The requirement on it is only that it lists the names of
both manifests, each once.

## Model

| member | source | states |
|---|---|---|
| Manifest.GetDependencies | diff_tool/diff_v1.py:21-31 | A GitCommandError or YAMLError from reading or parsing is logged, and the result is an empty mapping. Any other read error escapes. A document without `packages` gives an empty mapping. A `packages` value that is a string, list or mapping is returned as it is. Null or a non-text scalar (a number or boolean) raises TypeError, because `len` at line 27 rejects it. A document that is not a mapping (a list or a scalar) raises AttributeError. A returned value always has a length. |
| Paths.JoinShape | diff_tool/diff_v1.py:35 | `os.path.join`: an absolute second part replaces the first. A relative one is appended to the first. A `/` is put in between exactly when the first part is non-empty and does not already end in `/`. Either way the result ends with the second part. |
| Paths.JoinComponent | diff_tool/diff_v1.py:35 | Joining a directory and a relative component puts exactly one `/` between them, and the result is again a directory. |
| Fetcher.ArchiveUrlShape | diff_tool/diff_v1.py:40 | The archive URL is the registry's `https://pub.dartlang.org/packages/`, the package name, `/versions/`, the version and `.tar.gz`, each at its position. |
| Fetcher.ArchiveUrlInjective | diff_tool/diff_v1.py:40 | Names contain no `/`, so two archive URLs are equal only for the same name and version. |
| Fetcher.Run | diff_tool/diff_v1.py:38-54 | The steps of the `try` run in order and stop at the first failure. The steps carried out are a prefix of the plan. Nothing fails iff every step succeeds, and then all are carried out. On a failure, the last step carried out is the one that failed, all earlier ones succeeded, and the exception is that step's. |
| Fetcher.TryFetch | diff_tool/diff_v1.py:38-54 | Whenever the `try` statement completes normally, it completes with the package directory. |
| Fetcher.TryFetchContract | diff_tool/diff_v1.py:38-54 | Completing without a logged error means every step succeeded. A logged error is the exception of the last step, the only one that failed. An exception escapes only if every step succeeded and the exception is not one the `except` clause names. |
| Fetcher.DownloadPackage | diff_tool/diff_v1.py:34-56 | The first step is `makedirs(join(temp_dir, name))`. Whenever the function returns, it returns `join(temp_dir, name)`, whether or not the fetch worked. |
| Fetcher.DownloadContract | diff_tool/diff_v1.py:34-56 | Returning with nothing logged means every step succeeded. A logged error is the caught exception (RequestException, GitCommandError, OSError or ReadError) of the last step, the only one that failed. An exception escapes in two cases only. One is the OSError of the `makedirs` outside the `try`, when that is the only step. The other is an exception the `except` clause does not name, after steps that all succeeded. |
| Fetcher.DownloadRaisesExactly | diff_tool/diff_v1.py:36-53 | `download_package` raises iff `makedirs` fails or the descriptor is malformed. Malformed means: not a dict; hosted without `version`; git with an unusable `description`/`url`; or a successful clone without `resolved-ref`. |
| Fetcher.HostedDispatch | diff_tool/diff_v1.py:39-47 | For `source: hosted`, the archive URL `https://pub.dartlang.org/packages/<name>/versions/<version>.tar.gz` is fetched first. The steps carried out follow the get, write, unpack, remove plan. The download returns, and it logs nothing iff all four steps succeed. Then all four have been carried out: the archive is written, unpacked into the package directory and removed. A missing `version` raises KeyError("version") before any network step. |
| Fetcher.GitDispatch | diff_tool/diff_v1.py:48-51 | For `source: git`, `description.url` is cloned into the package directory. A failed clone is logged as GitCommandError. After a successful clone, a missing `resolved-ref` raises KeyError. Otherwise `resolved-ref` is checked out, and a failed checkout is logged. |
| Fetcher.OtherSourceFetchesNothing | diff_tool/diff_v1.py:38-52 | With any other `source`, or none, only the directory is created and the download returns it with nothing logged. |
| Diff.GenerateDiff | diff_tool/diff_v1.py:59-76 | Opens the output file and runs `git diff --no-index old new` into it. A file that cannot be opened, or a git that cannot be started, escapes as OSError. Otherwise it returns. Exit status 0 or 1 logs nothing, and any other status is logged as CalledProcessError with that status. |
| Diff.DiffNeverAborts | diff_tool/diff_v1.py:70-76 | Once the file is open and git has run, the diff step never aborts the tool. It reports an error iff the exit status is neither 0 nor 1. |
| Reconcile.FetchesForShape | diff_tool/diff_v1.py:89-101 | One iteration fetches nothing for a skipped package. Otherwise it makes one fetch per side that lists the package, old side first, all for that package. Each fetch satisfies the reference rule `Intended`: its side lists the package, and it carries that side's descriptor and destination. |
| Reconcile.ScheduleLength | diff_tool/diff_v1.py:87-101 | The loop makes at most two fetches per visited name. |
| Reconcile.ScheduleMembers | diff_tool/diff_v1.py:87-101 | A fetch is in the schedule iff its name is visited and it satisfies the reference rule `Intended`. |
| Reconcile.ScheduleIsIntended | diff_tool/diff_v1.py:87-101 | When the order lists the union of both manifests' keys, the schedule holds exactly the intended fetches. A package is fetched on a side iff it is a key of that side's manifest and is not skipped, with that side's descriptor and into that side's destination. |
| Reconcile.SkipUnchangedFetchesNeither | diff_tool/diff_v1.py:89-92 | With skipping on, a package present on both sides with equal descriptors is fetched on neither side. |
| Reconcile.FetchedOnSideIff | diff_tool/diff_v1.py:94-101 | A package that is not skipped is fetched on a side iff it is a key of that side's manifest. Every such fetch uses that side's descriptor and destination. |
| Reconcile.NoSkipFetchesEverySide | diff_tool/diff_v1.py:87-101 | With skipping off, every package of the old manifest is fetched on the old side and every package of the new manifest on the new side. Nothing else is fetched. |
| Reconcile.ScheduleWithinUnion | diff_tool/diff_v1.py:87-88 | Every fetched name is a key of one of the two manifests. |
| Reconcile.ScheduleOncePerSide | diff_tool/diff_v1.py:87-101 | Visiting each name once, the loop fetches each (side, name) pair at most once. |
| Reconcile.ScheduleOrderIndependent | diff_tool/diff_v1.py:87-88 | Any two iteration orders of the name set produce the same multiset of fetches, and whether some download raises does not depend on the order. |
| Reconcile.DestinationShape | diff_tool/diff_v1.py:94-101 | A package lands in `<temp>/<old or new>/<name>/<name>`: the loop passes `join(side dir, name)` and `download_package` joins the name again (line 35). |
| Reconcile.DestinationsDistinct | diff_tool/diff_v1.py:94-101 | Different (side, name) pairs get different destination paths. Names are single path segments (non-empty, no `/`, not `.` or `..`), so the paths also name different directories. |
| Reconcile.UnreadableOldLock | diff_tool/diff_v1.py:29-31 | When the old lock file cannot be read or parsed, every package of the new manifest is fetched on the new side only, and nothing is fetched on the old side. |
| Reconcile.DownloadLandsInDestination | diff_tool/diff_v1.py:95-101 | A scheduled download that returns, returns exactly that fetch's destination. |
| Reconcile.FetchSide | diff_tool/diff_v1.py:94-101 | One side of an iteration fetches the package iff it is in that side's manifest. The fetch uses that side's descriptor and destination. It reports the exception its download let escape, if any. |
| Reconcile.FetchName | diff_tool/diff_v1.py:88-101 | One iteration makes a prefix of that name's planned fetches: old side, then new side. It makes all of them unless one raises. The one that raised is the last fetch made, and its exception is reported. |
| Reconcile.FetchAll | diff_tool/diff_v1.py:87-101 | The loop's fetches are a prefix of `Schedule`, with the effects of their downloads in order. The loop runs to completion iff no scheduled download raises, and then it has made the whole schedule. Otherwise it stops right after the first download that raised, with that download's exception. |
| Reconcile.ProcessPackages | diff_tool/diff_v1.py:79-103 | Creates `<temp>/old` and `<temp>/new`, then runs the loop. It returns `(<temp>/old, <temp>/new)` iff both directories are created and no scheduled download raises, and then it has made exactly the schedule. A failed `makedirs` escapes before any fetch, as OSError. Otherwise the fetch log ends at the first download that raised, and that download's exception escapes. |

## Left out

- Logging, the info and error messages, and the verbosity switch (`configure_logging`, lines 16-18) are left out. Where logging matters, the model records which exception was logged, not the message text.
- The progress bar (`tqdm`, line 88) is left out: it only displays the iteration.
- `main` (lines 106-126) and the argument parser (lines 129-147) are left out. This includes opening the repository, the temporary directory and its removal, and the absolute path of the output file. Note that `--skip-unchanged` is `store_true` with `default=True`, so on the command line skipping is always on. The model keeps `skipUnchanged` as a parameter and proves both settings.
- The contents of the network and filesystem steps are left out: HTTP, archive bytes, how cloning works, and the files `git diff` writes. Each step is reduced to whether it succeeds (the parameter `ok`), and a failing step raises one representative exception. HTTP errors are RequestException. Writing and removing files raise OSError. Unpacking raises ReadError. Clone and checkout raise GitCommandError. The environment is stateless: whether a step succeeds depends only on the step.
- Fetcher.GitDispatch: `Repo(package_dir)` at line 50 is assumed to succeed once the clone has. An InvalidGitRepositoryError there, which the `except` clause does not name, is not modelled.
- `shutil.unpack_archive` on a malformed archive can raise exceptions other than ReadError (such as `tarfile` errors). Only ReadError is modelled.
- YAML scalar typing is partly left out. A plain string (`Str`) and a number or boolean (`Literal`) are told apart, but a `Literal` keeps only the text `str()` gives it. So Python's numeric equalities (`1 == 1.0`, `True == 1`) between descriptors are not modelled.
- Yaml.Text: for a list- or mapping-valued `version`, the f-string on line 40 would use the value's `repr`. The model uses the fixed placeholders `[...]` and `{...}`, so two different such versions give the same URL here.
- Reconcile.ProcessPackages: takes the two `packages` values as typed maps. It does not model line 87 raising AttributeError when `get_dependencies` returned a `packages` value that is a string or a list rather than a mapping.
- Paths are POSIX only. `os.path.join` is modelled as `posixpath.join`.
- `get_dependencies` takes what `repo.git.show` and `yaml.safe_load` yielded as its input `read`. Running git and the YAML parser are not part of this model.
