/**
 * The directory of downloaded videos as the Rust host sees it, given as a
 * value instead of being read from disk.
 */
module FileSystem {

  /** One item yielded while iterating a directory with `std::fs::read_dir`. */
  datatype DirEntry =
    | File(name: string)   // a regular file whose name is valid UTF-8
    | NonUnicodeFile       // a regular file whose name is not valid UTF-8
    | NotAFile             // a directory or any other non-file entry
    | EntryError           // the iterator yielded an I/O error

  /** What opening the directory gives. */
  datatype Directory =
    | Missing                          // the path does not exist
    | Unreadable                       // it exists but `read_dir` fails
    | Listing(entries: seq<DirEntry>)  // the entries, in iteration order

  /**
   * Rust `Path::join` on `/`-separated paths: an absolute `name` replaces `dir`;
   * otherwise one `/` is put between them. `Path::join` puts none after an
   * empty `dir` or one already ending in `/`; the downloads directory the host
   * joins onto is never either, so those cases are not modelled.
   */
  function JoinPath(dir: string, name: string): (p: string)
    ensures |name| > 0 && name[0] == '/' ==> p == name
  {
    if |name| > 0 && name[0] == '/' then name else dir + "/" + name
  }
}
