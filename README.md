# Console, audio and GPIO character devices

A model of the kernel's standard character devices (`kernel/src/fs/stdio.rs`):
four devices behind one node interface of `read_at`, `write_at`, `ioctl`, plus
filesystem-structural operations.

- **Console input** (`ConsoleInput.Stdin`) is an unbounded FIFO of characters.
  `push` appends at the tail. `pop` takes the head and retries while the queue is
  empty. `can_read` probes the queue. `read_at` puts one popped character, cut to
  its low 8 bits, into the first byte of the caller's buffer.
- **Console output** (`ConsoleOutput.Stdout`) forwards every write to the console
  and reports the whole buffer as written.
- **Audio sink** (`Audio.Dsp`) accumulates written bytes. Control request 0 clears
  them. Request 1 plays them through the PWM sound backend (44100 Hz, 2048-frame
  buffer, mono, 8-bit) without clearing them. Every other request is a successful no-op.
- **GPIO output** (`Gpio.GpioOutput`) holds a selected pin, 0 at start-up. A control
  request of at most 53 selects that pin; a larger one is refused with
  `NotValidParam` and the selection is unchanged. A write drives the selected pin
  high and reports 0 bytes.
- **Structural operations** (`Vfs.Structural`) are one table shared by every device:
  `metadata` and `resize` fail with `NotSupported`; `create`, `unlink`, `link`,
  `move_`, `find` and `get_entry` fail with `NotDir`; `sync_all`, `sync_data` and
  `chmod` succeed and do nothing.

Each device is a class whose fields are the state the source mutates. Four
methods are proved against a pure transition function: `Stdin.Replay`, which
performs a trace with `Push` and `Pop`, against `ConsoleInput.Run`;
`Dsp.WriteAt` against `Audio.Write`; `Dsp.Ioctl` against `Audio.Control`; and
`GpioOutput.Ioctl` against `Gpio.Select`. The other methods (`Stdin.Push`,
`TryPop`, `Pop`, `ReadAt`, `Stdout.WriteAt` and `GpioOutput.WriteAt`) state
their new state directly in terms of the old one. The lemmas state what the source promises
about sequences of calls. Hardware effects are ghost logs on the classes:
`Stdout.console` (bytes printed), `Dsp.played` (playbacks handed to the backend)
and `GpioOutput.driven` (pins set high). Rust's `u8`, `u16` and `u32` are the
newtypes `uint8`, `uint16` and `uint32`; `usize` is `nat`.

The blocking `pop` is modelled through its retry loop. The parameter `producer`
lists the characters that other contexts push while the caller is suspended,
one push per wakeup. `Devices` holds the fixed device identifiers, the
process-wide instances, and three client scenarios that use the devices only
through their contracts.

## Model

| member | source | states |
|---|---|---|
| `Vfs.Structural` | kernel/src/fs/stdio.rs:79-95 | a structural operation fails with `NotDir` exactly when it is directory-shaped (create, unlink, link, move, find, get_entry); it fails with `NotSupported` exactly for metadata and resize; it succeeds exactly for sync_all, sync_data and chmod; the answer depends on the operation alone, so no device state is read or changed |
| `ConsoleInput.ToByte` | kernel/src/fs/stdio.rs:99 | the byte stored is congruent to the character's code point modulo 256, and equals it for code points below 256 |
| `ConsoleInput.Run` | kernel/src/fs/stdio.rs:24-37 | a run of pushes (tail appends) and pops (head removals) that never pops an empty queue returns exactly one character per pop |
| `ConsoleInput.RunKeepsOrder` | kernel/src/fs/stdio.rs:24-38 | for any interleaving of pushes and pops that never pops an empty queue, the popped characters followed by those still queued equal the initial queue followed by all pushed characters in push order: no reordering, duplication or loss |
| `ConsoleInput.PopsTakePrefix` | kernel/src/fs/stdio.rs:28-37 | n pops on a queue of at least n characters return its first n characters in order and leave the rest |
| `ConsoleInput.PushesThenPops` | kernel/src/fs/stdio.rs:24-27 | for every n, pushing cs one at a time and then popping n times behaves exactly like popping n times from the queue with cs appended (including blocking when n exceeds what is queued) |
| `ConsoleInput.Fifo` | kernel/src/fs/stdio.rs:24-37 | pushes c1..cn on an empty queue followed by n pops return c1..cn in order and leave the queue empty |
| `ConsoleInput.Stdin.constructor` | kernel/src/fs/stdio.rs:17-21 | a new console input queue is empty |
| `ConsoleInput.Stdin.Push` | kernel/src/fs/stdio.rs:24-27 | the new queue is the old queue with `c` appended at the tail |
| `ConsoleInput.Stdin.TryPop` | kernel/src/fs/stdio.rs:32-34 | one attempt of the pop loop: on an empty queue it returns None and changes nothing; otherwise it returns the head and leaves the tail |
| `ConsoleInput.Stdin.Replay` | kernel/src/fs/stdio.rs:24-37 | performing a trace of `Push` and `Pop` calls on the device returns exactly the characters `Run` pops and leaves exactly the queue `Run` leaves, so the FIFO lemmas hold of the class |
| `ConsoleInput.Stdin.CanRead` | kernel/src/fs/stdio.rs:39-41 | true exactly when the queue holds a character; reads the queue and changes nothing |
| `ConsoleInput.Stdin.Pop` | kernel/src/fs/stdio.rs:28-38 | if `can_read` held, returns the old head and removes it; otherwise returns the first character pushed by another context during the wait, and the queue is empty again; never returns without a character |
| `ConsoleInput.Stdin.ReadAt` | kernel/src/fs/stdio.rs:98-101 | stores the low 8 bits of the popped character in `buf[0]`, leaves `buf[1..]` unchanged, ignores the offset and returns `Ok(1)` whatever the buffer length, at least 1 |
| `Vfs.IgnoredControl` | kernel/src/fs/stdio.rs:105 | the control operation of console input (and, identically, of console output at line 121) returns `Ok` for every request |
| `ConsoleOutput.Stdout.WriteAt` | kernel/src/fs/stdio.rs:114-120 | the whole buffer is appended to the console output, whatever the offset, and the count returned is the number of bytes emitted |
| `ConsoleOutput.Stdout.constructor` | kernel/src/fs/stdio.rs:73 | a new console output has emitted nothing |
| `Audio.PlaybackOf` | kernel/src/fs/stdio.rs:141-144 | a playback hands the backend exactly the accumulated bytes, with their length, in mono at 8 bits |
| `Audio.Write` | kernel/src/fs/stdio.rs:129-133 | a write keeps the old bytes as a prefix, puts exactly the written bytes after them, grows the length by the written length and plays nothing |
| `Audio.Control` | kernel/src/fs/stdio.rs:134-152 | a control request either keeps the bytes or empties them, and only request 0 changes them; the playback history only grows, by one entry, exactly for request 1 |
| `Audio.WritesAccumulate` | kernel/src/fs/stdio.rs:129-133 | a sequence of writes appends exactly the written bytes in order; the length grows by the sum of the written lengths; the playback history is unchanged |
| `Audio.ResetThenWrites` | kernel/src/fs/stdio.rs:129-137 | after a reset, the buffer is exactly the concatenation of the writes since, and its length is the sum of their lengths |
| `Audio.ResetIdempotent` | kernel/src/fs/stdio.rs:135-137 | request 0 empties the buffer, keeps the playback history, and a second reset changes nothing |
| `Audio.PlayHandsOverSamples` | kernel/src/fs/stdio.rs:138-150 | request 1 leaves the buffer unchanged and adds exactly one playback, carrying the buffer's bytes and its length |
| `Audio.PlayTwiceReplays` | kernel/src/fs/stdio.rs:138-150 | playing does not clear the buffer, so two plays in a row hand the same bytes to the backend twice |
| `Audio.OtherRequestsIgnored` | kernel/src/fs/stdio.rs:134-152 | any request other than 0 and 1 changes nothing |
| `Audio.Dsp.constructor` | kernel/src/fs/stdio.rs:47-50 | a new audio sink has no bytes and has played nothing |
| `Audio.Dsp.WriteAt` | kernel/src/fs/stdio.rs:129-133 | the buffer becomes the old buffer followed by the whole slice, whatever the offset, and the result is `Ok(len)` |
| `Audio.Dsp.Ioctl` | kernel/src/fs/stdio.rs:134-152 | the new buffer and playback history are `Control` of the old ones: reset, play or no-op; every request returns `Ok` |
| `Gpio.Select` | kernel/src/fs/stdio.rs:167-175 | a request succeeds exactly when it is at most 53, and then becomes the selected pin; otherwise it fails with `NotValidParam` and the pin is unchanged |
| `Gpio.SelectAll` | kernel/src/fs/stdio.rs:167-175 | after a sequence of control requests, the selected pin is the initial pin or one of the requests of at most 53 |
| `Gpio.SelectAllSnoc` | kernel/src/fs/stdio.rs:167-175 | applying one more control request after a sequence is one more selection step on the pin that sequence reached |
| `Gpio.SelectedIsLastValid` | kernel/src/fs/stdio.rs:167-175 | after any sequence of control requests, the selected pin is the last request of at most 53, or the initial pin when there is none |
| `Gpio.PinStaysValid` | kernel/src/fs/stdio.rs:167-175 | starting from a pin of at most 53, no sequence of control requests selects a pin above 53 |
| `Gpio.GpioOutput.constructor` | kernel/src/fs/stdio.rs:58-62 | a new device selects the given initial pin and has driven no pin |
| `Gpio.GpioOutput.Ioctl` | kernel/src/fs/stdio.rs:167-175 | the new pin and the reply are those of `Select` on the old pin; a valid selector stays valid; no pin is driven |
| `Gpio.GpioOutput.WriteAt` | kernel/src/fs/stdio.rs:161-166 | drives exactly the selected pin high, leaves the selection unchanged, ignores the offset and the buffer, and returns `Ok(0)` |
| `Devices.Identifier` | kernel/src/fs/stdio.rs:65-69 | each device node has a fixed identifier below 5 (stdin 0, stdout 1, stderr 2, gpio 3, dsp 4) |
| `Devices.IdentifiersDistinct` | kernel/src/fs/stdio.rs:65-69 | two nodes have the same identifier exactly when they are the same node |
| `Devices.Registry.constructor` | kernel/src/fs/stdio.rs:71-76 | one fresh instance of each device: empty console input, GPIO selecting pin 0, empty audio buffer |

## Left out

- The condition variable: `notify_one` in `push` and `_wait` in `pop` are not modelled as synchronisation. A wait is one step of `Stdin.Pop` that takes the next push of `producer`.
- ConsoleInput.Stdin.ReadAt: requires a buffer of at least one byte. On an empty buffer the source pops a character first, so that character is lost, and then panics at `buf[0]`; the model does not cover that panic or the lost character.
- ConsoleInput.Stdin.Pop: requires that the queue or `producer` is non-empty, because the source would otherwise block forever. Competing consumers and spurious wakeups are not modelled.
- The spin locks and the `RwLock` around the device state are not modelled; each method is treated as atomic.
- The bcm2837 hardware drivers are foreign calls. For `PWMSoundDevice::new`, `init` and `Playback`, a `Playback` record is added to `Dsp.played`. For `Gpio::new(..).into_output().set()`, the pin is appended to `GpioOutput.driven`.
- The `PlaybackActive` busy-poll loop is left out because its termination depends on the hardware. `Dsp.Ioctl` for request 1 returns as if playback had finished.
- `print!` output is left out. The diagnostic prints of the audio sink and the `warn!` on a refused pin are dropped. Console output is kept only as the ghost log `Stdout.console`, which ignores UTF-8 validity, like `from_utf8_unchecked`.
- The `data` pointer argument of `ioctl` is left out because no device reads it.
- The `unimplemented!()` operations are left out: `Stdin::write_at`, the `read_at` of the other three devices, and `fs()`.
- `as_any_ref` is left out because it is dynamic typing with no behaviour.
- Vfs.Structural: the success types of `metadata`, `create`, `find` and `get_entry` are collapsed to `()`, since those calls never succeed. The `FileType` argument of `create` and the inode arguments of `link` and `move_` are not modelled.
- `lazy_static` initialisation and `Arc` sharing are modelled only as the one-time `Registry` constructor. `STDERR_ID` is only a constant in this file; the source defines no separate standard-error instance.
- The `Default` derivation of `GPIOOutput` also starts at pin 0. It is covered by `GpioOutput.constructor` with initial pin 0.
