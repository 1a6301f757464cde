/**
 * The device identifiers and the process-wide device instances, created once
 * and shared, with client scenarios that use the devices only through their
 * contracts.
 */
module Devices {
  import opened Vfs
  import ConsoleInput
  import ConsoleOutput
  import Audio
  import Gpio

  /** The fixed identifiers under which the filesystem layer exposes the devices. */
  const STDIN_ID: nat := 0
  const STDOUT_ID: nat := 1
  const STDERR_ID: nat := 2
  const GPIO_ID: nat := 3
  const DSP_ID: nat := 4

  /** The device nodes the identifiers name; standard error is a name of its own. */
  datatype Node = ConsoleIn | ConsoleOut | ConsoleErr | GpioPins | AudioSink

  /** The identifier of each node. */
  function Identifier(n: Node): (id: nat)
    ensures id < 5
  {
    match n
    case ConsoleIn => STDIN_ID
    case ConsoleOut => STDOUT_ID
    case ConsoleErr => STDERR_ID
    case GpioPins => GPIO_ID
    case AudioSink => DSP_ID
  }

  /** No two nodes share an identifier. */
  lemma IdentifiersDistinct(a: Node, b: Node)
    ensures Identifier(a) == Identifier(b) <==> a == b
  {
  }

  /** One instance of each device, as set up at first use. */
  class Registry {
    const stdin: ConsoleInput.Stdin
    const stdout: ConsoleOutput.Stdout
    const gpio: Gpio.GpioOutput
    const dsp: Audio.Dsp

    constructor ()
      ensures fresh(stdin) && fresh(stdout) && fresh(gpio) && fresh(dsp)
      ensures stdin.buf == [] && stdout.console == []
      ensures gpio.pin == 0 && gpio.Valid() && gpio.driven == []
      ensures dsp.buf == [] && dsp.played == []
    {
      stdin := new ConsoleInput.Stdin();
      stdout := new ConsoleOutput.Stdout();
      gpio := new Gpio.GpioOutput(0);
      dsp := new Audio.Dsp();
    }
  }

  /** push 'h', 'i'; pop 'h'; pop 'i'; a pop on the empty queue waits for the push of 'x' and returns it. */
  method ConsoleScenario()
  {
    var devices := new Registry();
    devices.stdin.Push('h');
    devices.stdin.Push('i');
    var c := devices.stdin.Pop([]);
    assert c == 'h';
    c := devices.stdin.Pop([]);
    assert c == 'i';
    assert !devices.stdin.CanRead();
    c := devices.stdin.Pop(['x']);
    assert c == 'x' && devices.stdin.buf == [];
  }

  /** Pin 54 is refused and pin 12 stays selected; a write then drives pin 12 and reports 0. */
  method GpioScenario()
  {
    var devices := new Registry();
    var r := devices.gpio.Ioctl(12);
    assert r == Ok(());
    r := devices.gpio.Ioctl(54);
    assert r == Err(NotValidParam) && devices.gpio.pin == 12;
    var n := devices.gpio.WriteAt(0, [0]);
    assert n == Ok(0) && devices.gpio.driven == [12];
    r := devices.gpio.Ioctl(53);
    n := devices.gpio.WriteAt(7, []);
    assert devices.gpio.driven == [12, 53];
  }

  /** Writes [a, b] and [c] at any offsets accumulate a, b, c; unknown requests keep them; reset empties. */
  method AudioScenario(a: uint8, b: uint8, c: uint8)
  {
    var devices := new Registry();
    var n := devices.dsp.WriteAt(100, [a, b]);
    n := devices.dsp.WriteAt(0, [c]);
    assert devices.dsp.buf == [a, b, c];
    var r := devices.dsp.Ioctl(7);
    assert r == Ok(()) && devices.dsp.buf == [a, b, c];
    r := devices.dsp.Ioctl(Audio.PLAY);
    assert devices.dsp.buf == [a, b, c] && devices.dsp.played == [Audio.PlaybackOf([a, b, c])];
    r := devices.dsp.Ioctl(Audio.RESET);
    assert devices.dsp.buf == [];
  }
}
