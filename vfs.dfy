/**
 * The node interface shared by the character devices: fixed-width integers,
 * the error values the devices return, and the table of filesystem-structural
 * operations that every device answers in the same way.
 */
module Vfs {

  /** Rust's `u8`, `u16` and `u32`. */
  newtype uint8 = x: int | 0 <= x < 0x100
  newtype uint16 = x: int | 0 <= x < 0x1_0000
  newtype uint32 = x: int | 0 <= x < 0x1_0000_0000

  /** The filesystem errors these devices produce (a subset of the VFS error enum). */
  datatype FsError = NotSupported | NotDir

  /** The errors of the control operation (`ioctl`). */
  datatype IoctlError = NotValidParam

  datatype Option<T> = None | Some(value: T)

  datatype Result<T, E> = Ok(value: T) | Err(error: E)

  /**
   * The control operation of a device that defines no control requests (the
   * console input and output): every request is accepted and does nothing.
   */
  function IgnoredControl(request: uint32): (r: Result<(), IoctlError>)
    ensures r == Ok(())
  {
    Ok(())
  }

  /**
   * The structural operations of a node. Their arguments are kept where they
   * are plain values; none of them influences the answer.
   */
  datatype StructuralCall =
    | Metadata
    | SyncAll
    | SyncData
    | Resize(len: nat)
    | Create(name: string, mode: uint32)
    | Unlink(name: string)
    | Link(name: string)
    | Move(oldName: string, newName: string)
    | Find(name: string)
    | GetEntry(id: nat)
    | Chmod(permissions: uint16)
  {
    /** Operations that only make sense on a directory. */
    predicate DirectoryShaped() {
      Create? || Unlink? || Link? || Move? || Find? || GetEntry?
    }

    /** Operations on stored contents and attributes, which a character device has none of. */
    predicate StorageShaped() {
      Metadata? || Resize?
    }

    /** Operations a character device accepts as harmless no-ops. */
    predicate Maintenance() {
      SyncAll? || SyncData? || Chmod?
    }
  }

  /**
   * The answer every device gives to a structural operation. It depends on the
   * operation alone, so it reads and changes no device state.
   */
  function Structural(call: StructuralCall): (r: Result<(), FsError>)
    ensures r == Err(NotDir) <==> call.DirectoryShaped()
    ensures r == Err(NotSupported) <==> call.StorageShaped()
    ensures r == Ok(()) <==> call.Maintenance()
  {
    match call
    case Metadata => Err(NotSupported)
    case SyncAll => Ok(())
    case SyncData => Ok(())
    case Resize(_) => Err(NotSupported)
    case Create(_, _) => Err(NotDir)
    case Unlink(_) => Err(NotDir)
    case Link(_) => Err(NotDir)
    case Move(_, _) => Err(NotDir)
    case Find(_) => Err(NotDir)
    case GetEntry(_) => Err(NotDir)
    case Chmod(_) => Ok(())
  }
}
