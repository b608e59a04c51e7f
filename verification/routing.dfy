/**
 * The ordering discipline shared by both versions of the handler registry:
 * new handlers go to the head of the list, and routing asks the handlers in
 * list order, stopping at the first one that accepts.
 */
module Routing {
  import opened Wrappers

  /**
   * The answer of the first handler, in list order, whose matcher accepts;
   * None when no matcher accepts.
   */
  function FirstMatch<H, R>(handlers: seq<H>, tryMatch: H -> Option<R>): (result: Option<R>)
    ensures result.None? <==> forall i :: 0 <= i < |handlers| ==> tryMatch(handlers[i]).None?
    ensures result.Some? ==>
      exists i :: 0 <= i < |handlers| && tryMatch(handlers[i]) == result &&
        forall j :: 0 <= j < i ==> tryMatch(handlers[j]).None?
  {
    if handlers == [] then None
    else if tryMatch(handlers[0]).Some? then tryMatch(handlers[0])
    else
      var rest := FirstMatch(handlers[1..], tryMatch);
      assert forall i :: 1 <= i < |handlers| ==> handlers[i] == handlers[1..][i - 1];
      rest
  }

  /** The registry after `added` has been registered, one after the other, on top of `handlers`. */
  function Registered<H>(handlers: seq<H>, added: seq<H>): seq<H>
    decreases |added|
  {
    if added == [] then handlers
    else [added[|added| - 1]] + Registered(handlers, added[..|added| - 1])
  }

  /**
   * Registering two batches one after the other is registering the second
   * batch on the registry the first one left: every later handler goes in
   * front of every earlier one.
   */
  lemma {:induction false} RegisteredAppend<H>(handlers: seq<H>, first: seq<H>, second: seq<H>)
    ensures Registered(handlers, first + second) == Registered(Registered(handlers, first), second)
    decreases |second|
  {
    if second == [] {
      assert first + second == first;
    } else {
      var init := second[..|second| - 1];
      var all := first + second;
      assert all[..|all| - 1] == first + init;
      assert all[|all| - 1] == second[|second| - 1];
      RegisteredAppend(handlers, first, init);
    }
  }

  /** The registry is the reverse of the registration order, followed by what was there before. */
  lemma {:induction false} RegisteredShape<H>(handlers: seq<H>, added: seq<H>)
    ensures |Registered(handlers, added)| == |added| + |handlers|
    ensures forall i :: 0 <= i < |added| ==> Registered(handlers, added)[i] == added[|added| - 1 - i]
    ensures Registered(handlers, added)[|added|..] == handlers
    decreases |added|
  {
    if added != [] {
      var init := added[..|added| - 1];
      RegisteredShape(handlers, init);
      var r := Registered(handlers, added);
      assert r == [added[|added| - 1]] + Registered(handlers, init);
      forall i | 1 <= i < |added|
        ensures r[i] == added[|added| - 1 - i]
      {
        assert r[i] == Registered(handlers, init)[i - 1];
        assert init[|init| - 1 - (i - 1)] == added[|added| - 1 - i];
      }
    }
  }

  /**
   * Routing after a series of registrations: the most recently registered
   * handler that accepts wins, whatever was registered before or after it.
   */
  lemma {:induction false} MostRecentRegistrationWins<H, R>(
    handlers: seq<H>, added: seq<H>, tryMatch: H -> Option<R>, k: nat)
    requires k < |added| && tryMatch(added[k]).Some?
    requires forall j :: k < j < |added| ==> tryMatch(added[j]).None?
    ensures FirstMatch(Registered(handlers, added), tryMatch) == tryMatch(added[k])
  {
    RegisteredShape(handlers, added);
    var r := Registered(handlers, added);
    var pos := |added| - 1 - k;
    assert r[pos] == added[k];
    forall j | 0 <= j < pos
      ensures tryMatch(r[j]).None?
    {
      assert r[j] == added[|added| - 1 - j];
    }
    FirstMatchAt(r, tryMatch, pos);
  }

  /** When the handler at `pos` accepts and none before it does, routing returns its answer. */
  lemma {:induction false} FirstMatchAt<H, R>(handlers: seq<H>, tryMatch: H -> Option<R>, pos: nat)
    requires pos < |handlers| && tryMatch(handlers[pos]).Some?
    requires forall j :: 0 <= j < pos ==> tryMatch(handlers[j]).None?
    ensures FirstMatch(handlers, tryMatch) == tryMatch(handlers[pos])
    decreases pos
  {
    if pos > 0 {
      var rest := handlers[1..];
      assert forall j :: 0 <= j < pos - 1 ==> rest[j] == handlers[j + 1];
      FirstMatchAt(rest, tryMatch, pos - 1);
    }
  }
}
