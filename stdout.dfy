/**
 * The console output device: every write forwards the whole buffer to the
 * console, unvalidated, and reports all of it written.
 */
module ConsoleOutput {
  import opened Vfs

  class Stdout {
    /** Everything forwarded to the console so far (the printing itself is I/O). */
    ghost var console: seq<uint8>

    constructor ()
      ensures console == []
    {
      console := [];
    }

    /** Emits all of `buf`, whatever `offset`, and reports that many bytes written. */
    method WriteAt(offset: nat, buf: seq<uint8>) returns (r: Result<nat, FsError>)
      modifies this
      ensures console == old(console) + buf
      ensures r.Ok? && r.value == |console| - |old(console)|
    {
      console := console + buf;
      r := Ok(|buf|);
    }
  }
}
