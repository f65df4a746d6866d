/** Python-level notions shared by the whole model: optional values, results of
    foreign calls, the exception classes the tool raises or catches, and how a
    Python call completes. */
module Runtime {

  datatype Option<T> = None | Some(value: T)

  datatype Result<T, E> = Ok(value: T) | Err(error: E)

  /** The exception classes that occur in diff_tool/diff_v1.py. */
  datatype Exception =
    | AttributeError                     // `.get` on a value that is not a dict
    | KeyError(key: string)              // `d[key]` on a dict without `key`
    | TypeError                          // `x[key]` on a non-dict, `len` of None, a number or a bool
    | OSError                            // makedirs, open, write, remove, spawning a process
    | RequestException                   // requests.get or raise_for_status
    | ReadError                          // shutil.unpack_archive on an unreadable archive
    | GitCommandError                    // a git command exited with an error
    | YAMLError                          // yaml.safe_load on a malformed document
    | CalledProcessError(returncode: int)  // subprocess.run(check=True) exiting non-zero

  /** How a Python call completes: it returns `value`, after logging at error
      level the exception it caught (if any), or an exception escapes it. */
  datatype Outcome<T> = Returned(value: T, logged: Option<Exception>) | Raised(error: Exception)
}
