/**
 * The read-only file systems the server reads templates and files from
 * (Go's `fs.FS`, together with the `fs.ReadFileFS` and `fs.ReadDirFS`
 * extensions that `embed.FS` implements).
 *
 * A file system is only ever queried by path, so it is modelled as the
 * record of its three query operations; what they return is not interpreted.
 */
module Fs {

  newtype byte = x: int | 0 <= x < 256

  /** An open file, a directory entry and a file-system error, left abstract. */
  type File(==)
  type DirEntry(==)
  type FsError(==)

  /** Go's `(value, error)` pair. */
  datatype Result<+T> = Ok(value: T) | Err(error: FsError)

  datatype FileSystem = FileSystem(
    open: string -> Result<File>,
    readFile: string -> Result<seq<byte>>,
    readDir: string -> Result<seq<DirEntry>>)
}
