/**
 * A response the server sends back: status, optional content type, declared
 * content length, and the reader that supplies its body. The body reader may
 * be opened only after `PrepareForReading` and at most once.
 */
module Responses {
  import opened Wrappers
  import StatusCodes

  /** `Int.max` on the 64-bit platforms Swift runs on: the "no declared length" sentinel. */
  const IntMax: int := 0x7FFF_FFFF_FFFF_FFFF

  /** The only body reader a response ever installs is the response itself. */
  datatype BodyReader = SelfReader

  /** What `PerformOpen` depends on: whether a reader is installed, and whether it was opened. */
  datatype ReadingState = ReadingState(prepared: bool, isOpened: bool)

  /** The calls that change a response's reading state. */
  datatype ReadingCall = PrepareForReadingCall | PerformOpenCall

  /**
   * What `PerformOpen` returns in state `s` when the reader's own open
   * returns `readerOpens`: it fails before a reader is installed and after the
   * first open, and otherwise hands over to the reader.
   */
  function OpenResult(s: ReadingState, readerOpens: bool): (ok: bool)
    ensures !s.prepared ==> !ok
    ensures s.isOpened ==> !ok
    ensures s.prepared && !s.isOpened ==> ok == readerOpens
  {
    if s.isOpened || !s.prepared then false else readerOpens
  }

  /**
   * The reading state after a call. `PerformOpen` latches `opened` as soon as a
   * reader is installed, before (and whatever) the reader answers.
   */
  function AfterCall(s: ReadingState, call: ReadingCall): (next: ReadingState)
    ensures next.prepared == (s.prepared || call == PrepareForReadingCall)
    ensures next.isOpened == (s.isOpened || (call == PerformOpenCall && s.prepared))
  {
    match call
    case PrepareForReadingCall => s.(prepared := true)
    case PerformOpenCall => if s.isOpened || !s.prepared then s else s.(isOpened := true)
  }

  /** How many of the `PerformOpen` calls in `calls`, made from state `s`, succeed. */
  function SuccessfulOpens(s: ReadingState, calls: seq<ReadingCall>, readerOpens: bool): nat
    decreases |calls|
  {
    if calls == [] then 0
    else
      var here := if calls[0] == PerformOpenCall && OpenResult(s, readerOpens) then 1 else 0;
      here + SuccessfulOpens(AfterCall(s, calls[0]), calls[1..], readerOpens)
  }

  /**
   * A response opens at most once: over any sequence of calls, at most one
   * `PerformOpen` succeeds, and none does once the response has been opened.
   */
  lemma {:induction false} OpensAtMostOnce(s: ReadingState, calls: seq<ReadingCall>, readerOpens: bool)
    ensures SuccessfulOpens(s, calls, readerOpens) + (if s.isOpened then 1 else 0) <= 1
    decreases |calls|
  {
    if calls != [] {
      OpensAtMostOnce(AfterCall(s, calls[0]), calls[1..], readerOpens);
    }
  }

  /** From a fresh response, preparing and then opening succeeds exactly once, however often it is retried. */
  lemma {:induction false} PrepareThenOpenSucceedsOnce(tries: nat)
    requires tries >= 1
    ensures SuccessfulOpens(ReadingState(false, false),
                            [PrepareForReadingCall] + seq(tries, _ => PerformOpenCall), true) == 1
  {
    var opens := seq(tries, _ => PerformOpenCall);
    var calls := [PrepareForReadingCall] + opens;
    assert calls[1..] == opens;
    assert opens[1..] == seq(tries - 1, _ => PerformOpenCall);
    OpensAtMostOnce(ReadingState(true, true), opens[1..], true);
  }

  class Response {
    var statusCode: int
    var contentType: Option<string>
    var contentLength: int
    var reader: Option<BodyReader>
    // The source's `opened` (a reserved word in Dafny).
    var isOpened: bool

    /** A fresh response: 200, no content type, no declared length, no reader, not opened. */
    constructor ()
      ensures statusCode == StatusCodes.SuccessfulStatus.Ok.RawValue() == 200
      ensures contentType == None && contentLength == IntMax
      ensures reader == None && !isOpened
      ensures !HasBody()
    {
      statusCode := StatusCodes.SuccessfulStatus.Ok.RawValue();
      contentType := None;
      contentLength := IntMax;
      reader := None;
      isOpened := false;
    }

    /** A fresh response with the given status and every other default. */
    constructor WithStatusCode(statusCode: int)
      ensures this.statusCode == statusCode
      ensures contentType == None && contentLength == IntMax
      ensures reader == None && !isOpened
    {
      this.statusCode := statusCode;
      contentType := None;
      contentLength := IntMax;
      reader := None;
      isOpened := false;
    }

    /** A response has a body exactly when it has a content type. */
    function HasBody(): (hasBody: bool)
      reads this
      ensures hasBody <==> contentType != None
    {
      contentType.Some?
    }

    function State(): ReadingState
      reads this
    {
      ReadingState(reader.Some?, isOpened)
    }

    /** Installs the response itself as its body reader. */
    method PrepareForReading()
      modifies this`reader
      ensures reader == Some(SelfReader)
      ensures State() == AfterCall(old(State()), PrepareForReadingCall)
    {
      reader := Some(SelfReader);
    }

    /** Opens the body reader, if one is installed and it was not opened before. */
    method PerformOpen() returns (ok: bool)
      modifies this`isOpened
      ensures ok == OpenResult(old(State()), Open())
      ensures State() == AfterCall(old(State()), PerformOpenCall)
    {
      if isOpened || reader.None? {
        return false;
      }
      isOpened := true;
      match reader.value
      case SelfReader => ok := Open();
    }

    /** The response's own body reader: opening it always succeeds. */
    function Open(): (ok: bool)
      ensures ok
    {
      true
    }
  }

  /** The class-level factory: a fresh response with the given status. */
  method ResponseWith(statusCode: int) returns (response: Response)
    ensures fresh(response)
    ensures response.statusCode == statusCode
    ensures response.contentType == None && response.contentLength == IntMax
    ensures response.reader == None && !response.isOpened
  {
    response := new Response.WithStatusCode(statusCode);
  }
}
