/**
 * The files of the working tree, as the analysers see them after the fix pass.
 * Reading a file is the only effect the analysers have; it is modelled as a lookup.
 */
module Workspace {

  /** What opening and reading one path yields. */
  datatype Entry =
    | Readable(text: string)
    | Unreadable(reason: string)  // the file exists but open or read raises (a directory, no permission, bad encoding)

  /** The working tree: a path that is not a key does not exist. */
  type Disk = map<string, Entry>

  /** The outcome of `open(path).read()`. */
  datatype FileRead = Read(content: string) | NotFound | ReadError(reason: string)

  function ReadFile(disk: Disk, path: string): (r: FileRead)
    ensures r.NotFound? <==> path !in disk
    ensures r.Read? <==> path in disk && disk[path].Readable?
  {
    if path !in disk then NotFound
    else match disk[path]
      case Readable(text) => Read(text)
      case Unreadable(reason) => ReadError(reason)
  }

  /** `str(e)` of the exception a failed read raises. */
  function ErrorText(path: string, r: FileRead): string
    requires !r.Read?
  {
    if r.NotFound? then "[Errno 2] No such file or directory: '" + path + "'" else r.reason
  }
}
