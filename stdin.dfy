/**
 * The console input device: an unbounded FIFO of characters filled by the
 * console driver (`push`) and drained by readers (`pop`, `read_at`).
 */
module ConsoleInput {
  import opened Vfs

  /** The low eight bits of a character's code point, as Rust's `c as u8` keeps them. */
  function ToByte(c: char): (b: uint8)
    ensures (c as int - b as int) % 0x100 == 0
    ensures c as int < 0x100 ==> b as int == c as int
  {
    (c as int % 0x100) as uint8
  }

  /** One step on the queue: a push at the tail, or a pop from the head. */
  datatype QueueOp = Enqueue(c: char) | Dequeue

  /** The characters a trace pushes, in the order it pushes them. */
  function Pushed(trace: seq<QueueOp>): seq<char>
  {
    if trace == [] then []
    else (if trace[0].Enqueue? then [trace[0].c] else []) + Pushed(trace[1..])
  }

  /** How many pops a trace makes. */
  function Pops(trace: seq<QueueOp>): nat
  {
    if trace == [] then 0 else (if trace[0].Dequeue? then 1 else 0) + Pops(trace[1..])
  }

  /**
   * Runs a trace of pushes and pops, one at a time, on queue `q`. Gives the
   * characters the pops returned and the queue left behind, or None when a
   * pop meets an empty queue (where the device would wait for a producer).
   */
  function Run(q: seq<char>, trace: seq<QueueOp>): (r: Option<(seq<char>, seq<char>)>)
    ensures r.Some? ==> |r.value.0| == Pops(trace)
    decreases |trace|
  {
    if trace == [] then Some(([], q))
    else if trace[0].Enqueue? then Run(q + [trace[0].c], trace[1..])
    else if q == [] then None
    else
      var after := Run(q[1..], trace[1..]);
      if after.None? then None else Some(([q[0]] + after.value.0, after.value.1))
  }

  /**
   * No reordering, no duplication, no loss: whatever the interleaving, the
   * characters popped followed by those still queued are exactly the initial
   * queue followed by everything pushed, in push order.
   */
  lemma {:induction false} RunKeepsOrder(q: seq<char>, trace: seq<QueueOp>)
    requires Run(q, trace).Some?
    ensures Run(q, trace).value.0 + Run(q, trace).value.1 == q + Pushed(trace)
    decreases |trace|
  {
    if trace != [] {
      if trace[0].Enqueue? {
        var c := trace[0].c;
        RunKeepsOrder(q + [c], trace[1..]);
        assert Pushed(trace) == [c] + Pushed(trace[1..]);
        assert q + [c] + Pushed(trace[1..]) == q + Pushed(trace);
      } else {
        RunKeepsOrder(q[1..], trace[1..]);
        var after := Run(q[1..], trace[1..]).value;
        assert Pushed(trace) == Pushed(trace[1..]);
        assert [q[0]] + after.0 + after.1 == [q[0]] + (after.0 + after.1);
        assert [q[0]] + q[1..] == q;
      }
    }
  }

  /** The trace that pushes `cs` one by one. */
  function PushTrace(cs: seq<char>): (t: seq<QueueOp>)
    ensures |t| == |cs|
  {
    if cs == [] then [] else [Enqueue(cs[0])] + PushTrace(cs[1..])
  }

  /** The trace of `n` pops. */
  function PopTrace(n: nat): (t: seq<QueueOp>)
    ensures |t| == n
  {
    if n == 0 then [] else [Dequeue] + PopTrace(n - 1)
  }

  /** `n` pops on a queue holding at least `n` characters return its first `n`, in order. */
  lemma {:induction false} PopsTakePrefix(q: seq<char>, n: nat)
    requires n <= |q|
    ensures Run(q, PopTrace(n)) == Some((q[..n], q[n..]))
  {
    if n > 0 {
      PopsTakePrefix(q[1..], n - 1);
      assert PopTrace(n)[1..] == PopTrace(n - 1);
      assert [q[0]] + q[1..][..n - 1] == q[..n];
      assert q[1..][n - 1..] == q[n..];
    }
  }

  /** Pushing `cs` and then popping `n` times is popping `n` times from `q + cs`. */
  lemma {:induction false} PushesThenPops(q: seq<char>, cs: seq<char>, n: nat)
    ensures Run(q, PushTrace(cs) + PopTrace(n)) == Run(q + cs, PopTrace(n))
    decreases |cs|
  {
    if cs != [] {
      PushesThenPops(q + [cs[0]], cs[1..], n);
      var rest := PushTrace(cs[1..]) + PopTrace(n);
      assert PushTrace(cs) + PopTrace(n) == [Enqueue(cs[0])] + rest;
      PushStep(q, cs[0], rest);
      assert q + [cs[0]] + cs[1..] == q + cs;
    } else {
      assert PushTrace(cs) + PopTrace(n) == PopTrace(n);
      assert q + cs == q;
    }
  }

  /** A push followed by `trace` runs `trace` on the queue with the character appended. */
  lemma PushStep(q: seq<char>, c: char, trace: seq<QueueOp>)
    ensures Run(q, [Enqueue(c)] + trace) == Run(q + [c], trace)
  {
    assert ([Enqueue(c)] + trace)[1..] == trace;
  }

  /** Pushes c1..cn on an empty queue, then n pops, return c1..cn and leave it empty. */
  lemma {:induction false} Fifo(cs: seq<char>)
    ensures Run([], PushTrace(cs) + PopTrace(|cs|)) == Some((cs, []))
  {
    PushesThenPops([], cs, |cs|);
    PopsTakePrefix(cs, |cs|);
    assert [] + cs == cs;
    assert cs[..|cs|] == cs && cs[|cs|..] == [];
  }

  /** The console input device. */
  class Stdin {
    /** The queued characters, head first. */
    var buf: seq<char>

    constructor ()
      ensures buf == []
    {
      buf := [];
    }

    /** Appends `c` at the tail (and would wake one waiting reader). */
    method Push(c: char)
      modifies this
      ensures buf == old(buf) + [c]
    {
      buf := buf + [c];
    }

    /** One attempt of `pop`: removes and returns the head, if there is one. */
    method TryPop() returns (r: Option<char>)
      modifies this
      ensures old(buf) == [] ==> r == None && buf == []
      ensures old(buf) != [] ==> r == Some(old(buf)[0]) && buf == old(buf)[1..]
    {
      if buf == [] {
        r := None;
      } else {
        r := Some(buf[0]);
        buf := buf[1..];
      }
    }

    /** Whether a character is queued; reads the queue and changes nothing. */
    function CanRead(): (r: bool)
      reads this
      ensures r <==> buf != []
    {
      |buf| > 0
    }

    /**
     * Pops one character, retrying until one is there. `producer` lists the
     * characters other contexts push while this call is suspended, in order;
     * each wakeup follows one of those pushes. Since a wakeup always finds the
     * character just pushed, the loop body runs at most once and only
     * `producer[0]` is ever taken.
     */
    method Pop(producer: seq<char>) returns (c: char)
      requires buf != [] || producer != []
      modifies this
      ensures old(CanRead()) ==> c == old(buf)[0] && buf == old(buf)[1..]
      ensures !old(CanRead()) ==> c == producer[0] && buf == []
    {
      var r := TryPop();
      var woken := 0;
      while r.None?
        invariant woken <= 1 && woken <= |producer|
        invariant r.None? ==> woken == 0 && buf == [] && old(buf) == []
        invariant r.Some? && old(buf) != [] ==> woken == 0 && r.value == old(buf)[0] && buf == old(buf)[1..]
        invariant r.Some? && old(buf) == [] ==> woken == 1 && r.value == producer[0] && buf == []
        decreases |producer| - woken
      {
        // Suspended until another context pushes its next character.
        Push(producer[woken]);
        woken := woken + 1;
        r := TryPop();
      }
      c := r.value;
    }

    /**
     * Performs the pushes and pops of `trace`, in order, on this queue and
     * returns what the pops returned: the class follows `Run` step by step.
     */
    method Replay(trace: seq<QueueOp>) returns (popped: seq<char>)
      requires Run(buf, trace).Some?
      modifies this
      ensures popped == Run(old(buf), trace).value.0
      ensures buf == Run(old(buf), trace).value.1
    {
      popped := [];
      var i := 0;
      assert trace[i..] == trace;
      assert popped + Run(buf, trace).value.0 == Run(buf, trace).value.0;
      while i < |trace|
        invariant 0 <= i <= |trace|
        invariant Run(buf, trace[i..]).Some?
        invariant Run(old(buf), trace) == Some((popped + Run(buf, trace[i..]).value.0, Run(buf, trace[i..]).value.1))
      {
        assert trace[i..][0] == trace[i] && trace[i..][1..] == trace[i + 1..];
        ghost var q := buf;
        if trace[i].Enqueue? {
          Push(trace[i].c);
        } else {
          var c := Pop([]);
          assert [q[0]] + Run(buf, trace[i + 1..]).value.0 == Run(q, trace[i..]).value.0;
          popped := popped + [c];
          assert popped + Run(buf, trace[i + 1..]).value.0 == popped[..|popped| - 1] + Run(q, trace[i..]).value.0;
        }
        i := i + 1;
      }
      assert trace[|trace|..] == [];
      assert popped + [] == popped;
    }

    /**
     * Reads exactly one character into `out[0]`, whatever the length of `out`
     * (at least 1) and whatever `offset`, and reports one byte read.
     */
    method ReadAt(offset: nat, out: array<uint8>, producer: seq<char>) returns (r: Result<nat, FsError>)
      requires out.Length >= 1
      requires buf != [] || producer != []
      modifies this, out
      ensures r == Ok(1)
      ensures out[0] == ToByte((old(buf) + producer)[0])
      ensures out[1..] == old(out[1..])
      ensures buf == if old(buf) != [] then old(buf)[1..] else []
    {
      var c := Pop(producer);
      out[0] := ToByte(c);
      r := Ok(1);
    }
  }
}
