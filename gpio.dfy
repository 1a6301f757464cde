/**
 * The GPIO output device: a control request selects a pin, and every write
 * drives the selected pin high.
 */
module Gpio {
  import opened Vfs

  /** The highest pin index of the board. */
  const MAX_PIN: uint32 := 53

  /** The pin selector after a control request, and the request's reply. */
  datatype Selection = Selection(pin: uint8, reply: Result<(), IoctlError>)

  /**
   * `ioctl`: a request above the highest pin is refused with the selector
   * unchanged; any other request becomes the selected pin.
   */
  function Select(pin: uint8, request: uint32): (r: Selection)
    ensures r.reply.Ok? <==> request <= MAX_PIN
    ensures r.reply.Ok? ==> r.pin as int == request as int
    ensures r.reply.Err? ==> r.reply.error == NotValidParam && r.pin == pin
  {
    if request > MAX_PIN then Selection(pin, Err(NotValidParam))
    else Selection(request as uint8, Ok(()))
  }

  /** The selector after the control requests `requests`, applied in order. */
  function SelectAll(pin: uint8, requests: seq<uint32>): (r: uint8)
    ensures r == pin || exists i :: 0 <= i < |requests| && requests[i] <= MAX_PIN && r as int == requests[i] as int
    decreases |requests|
  {
    if requests == [] then pin else SelectAll(Select(pin, requests[0]).pin, requests[1..])
  }

  /** The last request that names a pin, or `pin` when none does. */
  function LastValid(pin: uint8, requests: seq<uint32>): uint8
  {
    if requests == [] then pin
    else if requests[|requests| - 1] <= MAX_PIN then requests[|requests| - 1] as uint8
    else LastValid(pin, requests[..|requests| - 1])
  }

  /** Applying one more request is one more `Select` on the selector reached so far. */
  lemma {:induction false} SelectAllSnoc(pin: uint8, requests: seq<uint32>, request: uint32)
    ensures SelectAll(pin, requests + [request]) == Select(SelectAll(pin, requests), request).pin
    decreases |requests|
  {
    if requests == [] {
      assert [] + [request] == [request];
    } else {
      SelectAllSnoc(Select(pin, requests[0]).pin, requests[1..], request);
      assert (requests + [request])[1..] == requests[1..] + [request];
    }
  }

  /** The selected pin is the last in-range request; refused requests leave no trace. */
  lemma {:induction false} SelectedIsLastValid(pin: uint8, requests: seq<uint32>)
    ensures SelectAll(pin, requests) == LastValid(pin, requests)
    decreases |requests|
  {
    if requests != [] {
      var init := requests[..|requests| - 1];
      var last := requests[|requests| - 1];
      assert requests == init + [last];
      SelectAllSnoc(pin, init, last);
      SelectedIsLastValid(pin, init);
    }
  }

  /**
   * From a valid pin, no sequence of control requests selects an invalid one
   * (it follows from the contract of `SelectAll`).
   */
  lemma PinStaysValid(pin: uint8, requests: seq<uint32>)
    requires pin as int <= MAX_PIN as int
    ensures SelectAll(pin, requests) as int <= MAX_PIN as int
  {
  }

  /** The GPIO output device. */
  class GpioOutput {
    /** The selected pin. */
    var pin: uint8
    /** The pins driven high so far, in order (a hardware effect). */
    ghost var driven: seq<uint8>

    constructor (initPin: uint8)
      ensures pin == initPin && driven == []
    {
      pin := initPin;
      driven := [];
    }

    /** The selector names a pin of the board. */
    predicate Valid()
      reads this
    {
      pin as int <= MAX_PIN as int
    }

    /** Selects pin `request`, or refuses it when out of range; drives nothing. */
    method Ioctl(request: uint32) returns (r: Result<(), IoctlError>)
      modifies this
      ensures Selection(pin, r) == Select(old(pin), request)
      ensures old(Valid()) ==> Valid()
      ensures driven == old(driven)
    {
      if request > MAX_PIN {
        return Err(NotValidParam);
      }
      pin := request as uint8;
      r := Ok(());
    }

    /** Drives the selected pin high, whatever `offset` and `buf`, and reports 0 bytes written. */
    method WriteAt(offset: nat, buf: seq<uint8>) returns (r: Result<nat, FsError>)
      modifies this
      ensures pin == old(pin)
      ensures driven == old(driven) + [pin]
      ensures r == Ok(0)
    {
      driven := driven + [pin];
      r := Ok(0);
    }
  }
}
