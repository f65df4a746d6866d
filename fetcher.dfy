/** The package fetcher, `download_package` (diff_tool/diff_v1.py:34-56).
    Network and filesystem steps are recorded as effects; whether each one
    succeeds is given by the environment `ok`. */
module Fetcher {
  import opened Runtime
  import opened Yaml
  import opened Paths

  /** One network or filesystem step. */
  datatype Effect =
    | MakeDirs(path: string)               // os.makedirs(path, exist_ok=True)
    | HttpGet(url: string)                 // requests.get(url) and raise_for_status()
    | WriteFile(path: string)              // open(path, "wb") and write the response body
    | Unpack(archive: string, into: string)  // shutil.unpack_archive(archive, into, "gztar")
    | RemoveFile(path: string)             // os.remove(path)
    | Clone(remote: Node, into: string)    // Repo.clone_from(remote, into)
    | Checkout(repo: string, ref: Node)    // Repo(repo).git.checkout(ref)

  /** The exception a step raises when it fails. */
  function ErrorOf(e: Effect): Exception
  {
    match e
    case MakeDirs(_) => OSError
    case HttpGet(_) => RequestException
    case WriteFile(_) => OSError
    case Unpack(_, _) => ReadError
    case RemoveFile(_) => OSError
    case Clone(_, _) => GitCommandError
    case Checkout(_, _) => GitCommandError
  }

  /** The exceptions the `except` clause of `download_package` catches. */
  predicate CaughtByFetcher(e: Exception)
  {
    e == RequestException || e == GitCommandError || e == OSError || e == ReadError
  }

  predicate AllSucceed(steps: seq<Effect>, ok: Effect -> bool)
  {
    forall i :: 0 <= i < |steps| ==> ok(steps[i])
  }

  /** The steps of a sequence that were carried out, and the exception of the
      one that failed, if one did. */
  datatype Attempt = Attempt(done: seq<Effect>, failure: Option<Exception>)

  /** Runs `steps` in order and stops at the first one that fails. */
  function Run(steps: seq<Effect>, ok: Effect -> bool): (r: Attempt)
    ensures r.done <= steps
    ensures r.failure.None? <==> AllSucceed(steps, ok)
    ensures r.failure.None? ==> r.done == steps
    ensures r.failure.Some? ==>
              && r.done != []
              && AllSucceed(r.done[..|r.done| - 1], ok)
              && !ok(r.done[|r.done| - 1])
              && r.failure.value == ErrorOf(r.done[|r.done| - 1])
  {
    if steps == [] then Attempt([], None)
    else if !ok(steps[0]) then Attempt([steps[0]], Some(ErrorOf(steps[0])))
    else
      var rest := Run(steps[1..], ok);
      assert steps == [steps[0]] + steps[1..];
      PrependSucceeds(steps[0], steps[1..], ok);
      PrependSucceeds(steps[0], rest.done, ok);
      PrependSucceeds(steps[0], if rest.done == [] then [] else rest.done[..|rest.done| - 1], ok);
      Attempt([steps[0]] + rest.done, rest.failure)
  }

  /** What one call of `download_package` did, and how it completed. */
  datatype Download = Download(effects: seq<Effect>, outcome: Outcome<string>)

  const Registry: string := "https://pub.dartlang.org/packages/"

  /** The registry archive URL of version `version` of package `name`: under the
      registry's package path, the package's name, then its `versions/`
      directory and the version's `.tar.gz` archive. */
  function ArchiveUrl(name: string, version: string): string
  {
    Registry + name + "/versions/" + version + ".tar.gz"
  }

  /** The URL is the registry's package path, the package's name, its
      `/versions/` directory, the version and `.tar.gz`, each at its place. */
  lemma ArchiveUrlShape(name: string, version: string)
    ensures var u := ArchiveUrl(name, version);
            && |u| == |Registry| + |name| + |"/versions/"| + |version| + |".tar.gz"|
            && u[..|Registry|] == Registry
            && u[|Registry|..|Registry| + |name|] == name
            && u[|Registry| + |name|..|Registry| + |name| + |"/versions/"|] == "/versions/"
            && u[|u| - |".tar.gz"| - |version|..|u| - |".tar.gz"|] == version
            && u[|u| - |".tar.gz"|..] == ".tar.gz"
  {
  }

  /** A shorter name ends where a longer one, having no `/`, still goes on. */
  lemma ShorterNameDiffers(name1: string, version1: string, name2: string, version2: string)
    requires '/' !in name2 && |name1| < |name2|
    ensures ArchiveUrl(name1, version1) != ArchiveUrl(name2, version2)
  {
    var u, w, k := ArchiveUrl(name1, version1), ArchiveUrl(name2, version2), |Registry|;
    ArchiveUrlShape(name1, version1);
    ArchiveUrlShape(name2, version2);
    assert u[k + |name1|] == '/';
    assert w[k + |name1|] == w[k..k + |name2|][|name1|] == name2[|name1|] != '/';
  }

  /** Package names contain no `/`, so different packages or versions never
      share an archive URL. */
  lemma ArchiveUrlInjective(name1: string, version1: string, name2: string, version2: string)
    requires '/' !in name1 && '/' !in name2
    requires ArchiveUrl(name1, version1) == ArchiveUrl(name2, version2)
    ensures name1 == name2 && version1 == version2
  {
    if |name1| < |name2| {
      ShorterNameDiffers(name1, version1, name2, version2);
    } else if |name2| < |name1| {
      ShorterNameDiffers(name2, version2, name1, version1);
    } else {
      var u := ArchiveUrl(name1, version1);
      ArchiveUrlShape(name1, version1);
      ArchiveUrlShape(name2, version2);
      assert version1 == u[|u| - |".tar.gz"| - |version1|..|u| - |".tar.gz"|] == version2;
    }
  }

  /** Where the downloaded archive is written before it is unpacked. */
  function ArchivePath(dir: string, name: string): string
  {
    Join(dir, name + ".tar.gz")
  }

  /** The steps for a package from the registry. */
  function HostedSteps(name: string, version: Node, dir: string): seq<Effect>
  {
    var archive := ArchivePath(dir, name);
    [HttpGet(ArchiveUrl(name, Text(version))), WriteFile(archive), Unpack(archive, dir), RemoveFile(archive)]
  }

  /** The `except` clause: a caught failure is logged and the function goes on to
      return the package directory. */
  function Handled(a: Attempt, dir: string): Download
  {
    Download(a.done, Returned(dir, a.failure))
  }

  /** The `try` statement of `download_package`, run in the package directory `dir`. */
  function TryFetch(name: string, info: Node, dir: string, ok: Effect -> bool): (r: Download)
    ensures r.outcome.Returned? ==> r.outcome.value == dir
  {
    match Get(info, "source")
    case Err(e) => Download([], Raised(e))
    case Ok(source) =>
      if source == Some(Str("hosted")) then
        match Index(info, "version")
        case Err(e) => Download([], Raised(e))
        case Ok(version) => Handled(Run(HostedSteps(name, version, dir), ok), dir)
      else if source == Some(Str("git")) then
        match Index(info, "description")
        case Err(e) => Download([], Raised(e))
        case Ok(description) =>
          match Index(description, "url")
          case Err(e) => Download([], Raised(e))
          case Ok(url) =>
            var clone := Run([Clone(url, dir)], ok);
            if clone.failure.Some? then Handled(clone, dir)
            // `resolved-ref` is only looked up once the clone has succeeded
            else match Index(description, "resolved-ref")
              case Err(e) => Download(clone.done, Raised(e))
              case Ok(ref) =>
                var checkout := Run([Checkout(dir, ref)], ok);
                Handled(Attempt(clone.done + checkout.done, checkout.failure), dir)
      else Download([], Returned(dir, None))
  }

  /** What the `try` statement did: the steps it ran, and which exception, if any,
      it logged or let escape. */
  lemma TryFetchContract(name: string, info: Node, dir: string, ok: Effect -> bool)
    ensures var r := TryFetch(name, info, dir, ok);
            && (r.outcome.Returned? && r.outcome.logged.None? ==> AllSucceed(r.effects, ok))
            && (r.outcome.Returned? && r.outcome.logged.Some? ==>
                  && r.effects != []
                  && AllSucceed(r.effects[..|r.effects| - 1], ok)
                  && !ok(r.effects[|r.effects| - 1])
                  && r.outcome.logged.value == ErrorOf(r.effects[|r.effects| - 1]))
            && (r.outcome.Raised? ==> AllSucceed(r.effects, ok) && !CaughtByFetcher(r.outcome.error))
  {
  }

  /** A step followed by `steps`: all succeed iff the step and `steps` do, and
      dropping the last step drops it from `steps`. */
  lemma PrependSucceeds(step: Effect, steps: seq<Effect>, ok: Effect -> bool)
    ensures AllSucceed([step] + steps, ok) <==> ok(step) && AllSucceed(steps, ok)
    ensures steps != [] ==> ([step] + steps)[..|steps|] == [step] + steps[..|steps| - 1]
  {
    assert ([step] + steps)[0] == step;
    assert forall i :: 0 <= i < |steps| ==> ([step] + steps)[i + 1] == steps[i];
  }

  /** `download_package(name, info, tempDir)`: whenever it returns, it returns the
      package directory, fetched or not. */
  function DownloadPackage(name: string, info: Node, tempDir: string, ok: Effect -> bool): (r: Download)
    ensures r.effects != [] && r.effects[0] == MakeDirs(Join(tempDir, name))
    ensures r.outcome.Returned? ==> r.outcome.value == Join(tempDir, name)
  {
    var dir := Join(tempDir, name);
    if !ok(MakeDirs(dir)) then Download([MakeDirs(dir)], Raised(OSError))
    else
      var fetched := TryFetch(name, info, dir, ok);
      Download([MakeDirs(dir)] + fetched.effects, fetched.outcome)
  }

  /** How `download_package` completed, stated on the steps it ran. */
  lemma DownloadContract(name: string, info: Node, tempDir: string, ok: Effect -> bool)
    ensures var r := DownloadPackage(name, info, tempDir, ok);
            // returning without a logged error means every step succeeded
            && (r.outcome.Returned? && r.outcome.logged.None? ==> AllSucceed(r.effects, ok))
            // a logged error is the caught exception of the last step, the only one that failed
            && (r.outcome.Returned? && r.outcome.logged.Some? ==>
                  && AllSucceed(r.effects[..|r.effects| - 1], ok)
                  && !ok(r.effects[|r.effects| - 1])
                  && r.outcome.logged.value == ErrorOf(r.effects[|r.effects| - 1])
                  && CaughtByFetcher(r.outcome.logged.value))
            // an exception escapes only from makedirs, outside the `try`, or when the
            // `except` clause does not name it
            && (r.outcome.Raised? ==>
                  || (r.effects == [MakeDirs(Join(tempDir, name))] && !ok(r.effects[0]) && r.outcome.error == OSError)
                  || (AllSucceed(r.effects, ok) && !CaughtByFetcher(r.outcome.error)))
  {
    var dir := Join(tempDir, name);
    if ok(MakeDirs(dir)) {
      var fetched := TryFetch(name, info, dir, ok);
      TryFetchContract(name, info, dir, ok);
      PrependSucceeds(MakeDirs(dir), fetched.effects, ok);
      if fetched.effects != [] {
        PrependSucceeds(MakeDirs(dir), fetched.effects[..|fetched.effects| - 1], ok);
        assert CaughtByFetcher(ErrorOf(fetched.effects[|fetched.effects| - 1]));
      }
    }
  }

  /** The descriptor faults that make `download_package` raise after it has
      created the directory, stated on the dict itself. */
  ghost predicate Malformed(info: Node, dir: string, ok: Effect -> bool)
  {
    match info
    case Mapping(m) =>
      if "source" in m && m["source"] == Str("hosted") then "version" !in m
      else if "source" in m && m["source"] == Str("git") then
        if "description" in m && m["description"].Mapping? && "url" in m["description"].entries then
          var d := m["description"].entries;
          ok(Clone(d["url"], dir)) && "resolved-ref" !in d
        else true
      else false
    case _ => true
  }

  /** The exact conditions under which `download_package` raises. */
  lemma DownloadRaisesExactly(name: string, info: Node, tempDir: string, ok: Effect -> bool)
    ensures DownloadPackage(name, info, tempDir, ok).outcome.Raised? <==>
              !ok(MakeDirs(Join(tempDir, name))) || Malformed(info, Join(tempDir, name), ok)
  {
  }

  /** `source: hosted`: the archive for `version` is fetched from the registry,
      written, unpacked into the package directory and removed, stopping at the
      first failure; a missing `version` raises KeyError. */
  lemma HostedDispatch(name: string, m: map<string, Node>, tempDir: string, ok: Effect -> bool)
    requires "source" in m && m["source"] == Str("hosted")
    requires ok(MakeDirs(Join(tempDir, name)))
    ensures var r := DownloadPackage(name, Mapping(m), tempDir, ok);
            var dir := Join(tempDir, name);
            if "version" in m then
              && r.outcome.Returned?
              && |r.effects| >= 2
              && r.effects[1] == HttpGet(ArchiveUrl(name, Text(m["version"])))
              && r.effects[1..] <= HostedSteps(name, m["version"], dir)
              && (r.outcome.logged.None? <==> AllSucceed(HostedSteps(name, m["version"], dir), ok))
              // a quiet return has carried out every step: get, write, unpack, remove
              && (r.outcome.logged.None? ==> r.effects == [MakeDirs(dir)] + HostedSteps(name, m["version"], dir))
            else r == Download([MakeDirs(dir)], Raised(KeyError("version")))
  {
  }

  /** `source: git`: the repository at `description.url` is cloned into the
      package directory and `description.resolved-ref` is checked out. */
  lemma GitDispatch(name: string, m: map<string, Node>, d: map<string, Node>, tempDir: string, ok: Effect -> bool)
    requires "source" in m && m["source"] == Str("git")
    requires "description" in m && m["description"] == Mapping(d) && "url" in d
    requires ok(MakeDirs(Join(tempDir, name)))
    ensures var r := DownloadPackage(name, Mapping(m), tempDir, ok);
            var dir := Join(tempDir, name);
            var clone := Clone(d["url"], dir);
            if !ok(clone) then
              r == Download([MakeDirs(dir), clone], Returned(dir, Some(GitCommandError)))
            else if "resolved-ref" !in d then
              r == Download([MakeDirs(dir), clone], Raised(KeyError("resolved-ref")))
            else
              var checkout := Checkout(dir, d["resolved-ref"]);
              r == Download([MakeDirs(dir), clone, checkout],
                            Returned(dir, if ok(checkout) then None else Some(GitCommandError)))
  {
    var dir := Join(tempDir, name);
    var clone := Clone(d["url"], dir);
    if ok(clone) && "resolved-ref" in d {
      var checkout := Checkout(dir, d["resolved-ref"]);
      var steps := [clone, checkout];
      assert steps[1..] == [checkout];
      assert Run(steps, ok) == Attempt([clone] + Run([checkout], ok).done, Run([checkout], ok).failure);
    }
  }

  /** Any other `source` (or none): only the directory is created. */
  lemma OtherSourceFetchesNothing(name: string, m: map<string, Node>, tempDir: string, ok: Effect -> bool)
    requires "source" !in m || (m["source"] != Str("hosted") && m["source"] != Str("git"))
    requires ok(MakeDirs(Join(tempDir, name)))
    ensures DownloadPackage(name, Mapping(m), tempDir, ok) ==
              Download([MakeDirs(Join(tempDir, name))], Returned(Join(tempDir, name), None))
  {
  }
}
