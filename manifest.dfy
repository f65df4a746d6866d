/** The manifest reader, `get_dependencies` (diff_tool/diff_v1.py:21-31). */
module Manifest {
  import opened Runtime
  import opened Yaml

  /** The two exceptions `get_dependencies` catches. */
  predicate CaughtByReader(e: Exception)
  {
    e == GitCommandError || e == YAMLError
  }

  /** `get_dependencies(repo, ref)`. `read` is what `repo.git.show` followed by
      `yaml.safe_load` yields for `<ref>:pubspec.lock`: the loaded document, or
      the exception one of them raised. */
  function GetDependencies(read: Result<Node, Exception>): (r: Outcome<Node>)
    // a failed read or parse is logged and reads as "no packages"
    ensures read.Err? && CaughtByReader(read.error) ==> r == Returned(Mapping(map[]), Some(read.error))
    // any other exception of the read escapes
    ensures read.Err? && !CaughtByReader(read.error) ==> r == Raised(read.error)
    // a document without a `packages` key has no packages
    ensures read.Ok? && read.value.Mapping? && "packages" !in read.value.entries ==>
              r == Returned(Mapping(map[]), None)
    // otherwise the `packages` value is handed on as it is, unless `len` of it
    // fails: null, a number or a bool
    ensures read.Ok? && read.value.Mapping? && "packages" in read.value.entries ==>
              r == (if !Sized(read.value.entries["packages"]) then Raised(TypeError)
                    else Returned(read.value.entries["packages"], None))
    // a document that is not a mapping (an empty file loads as None, a list
    // or a scalar) has no `.get`
    ensures read.Ok? && !read.value.Mapping? ==> r == Raised(AttributeError)
    ensures r.Returned? ==> Sized(r.value)
  {
    match read
    case Err(e) =>
      if CaughtByReader(e) then Returned(Mapping(map[]), Some(e)) else Raised(e)
    case Ok(document) =>
      match Get(document, "packages")
      case Err(e) => Raised(e)
      case Ok(found) =>
        var packages := if found.Some? then found.value else Mapping(map[]);
        // `len(packages)` in the log line fails on None, numbers and bools
        if !Sized(packages) then Raised(TypeError) else Returned(packages, None)
  }
}
