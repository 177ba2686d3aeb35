/**
 * The secret-share engine, modelled as an ideal evaluator: it computes
 * the plaintext result of every gate scheduled with it, and it records,
 * level by level, the batched rounds it has executed. Traffic is derived
 * from that record.
 */
module Engines {
  import opened Values
  import opened Gates

  /** One gate handed to the engine, with the number of elements it produces. */
  datatype Call = Call(fn: GateFn, elements: nat)

  /** One execution of the scheduled operations: the level and the gates in it. */
  datatype Round = Round(level: nat, calls: seq<Call>)

  /** Elements exchanged for one call: only interactive gates communicate. */
  function Cost(c: Call): nat {
    if Interactive(c.fn) then c.elements else 0
  }

  function CallsCost(cs: seq<Call>): nat {
    if cs == [] then 0 else CallsCost(cs[..|cs| - 1]) + Cost(cs[|cs| - 1])
  }

  /** Elements exchanged over a sequence of rounds. */
  function Traffic(rs: seq<Round>): nat {
    if rs == [] then 0 else Traffic(rs[..|rs| - 1]) + CallsCost(rs[|rs| - 1].calls)
  }

  /** Traffic is additive over the log, so it only grows. */
  lemma {:induction false} TrafficAppend(rs: seq<Round>, more: seq<Round>)
    ensures Traffic(rs + more) == Traffic(rs) + Traffic(more)
  {
    if more != [] {
      var init := more[..|more| - 1];
      assert (rs + more)[..|rs + more| - 1] == rs + init;
      assert (rs + more)[|rs + more| - 1] == more[|more| - 1];
      TrafficAppend(rs, init);
      assert Traffic(rs + more) == Traffic(rs + init) + CallsCost(more[|more| - 1].calls);
    } else {
      assert rs + more == rs;
    }
  }

  /** A round made only of non-interactive calls costs nothing. */
  lemma {:induction false} LocalCallsAreFree(cs: seq<Call>)
    requires forall i :: 0 <= i < |cs| ==> !Interactive(cs[i].fn)
    ensures CallsCost(cs) == 0
  {
    if cs != [] {
      LocalCallsAreFree(cs[..|cs| - 1]);
    }
  }

  class Engine {
    /** Operations scheduled for the round being assembled. */
    var scheduled: seq<Call>
    /** Every round executed so far, oldest first. */
    var rounds: seq<Round>

    constructor ()
      ensures scheduled == [] && rounds == []
    {
      scheduled := [];
      rounds := [];
    }

    /** Schedules one gate; the ideal engine's results are the plaintext ones. */
    method Schedule(fn: GateFn, vals: seq<Payload>, elements: nat) returns (outs: seq<Payload>)
      modifies this
      ensures outs == Compute(fn, vals)
      ensures scheduled == old(scheduled) + [Call(fn, elements)]
      ensures rounds == old(rounds)
    {
      outs := Compute(fn, vals);
      scheduled := scheduled + [Call(fn, elements)];
    }

    /** Runs the scheduled operations as one round; an empty schedule runs nothing. */
    method ExecuteScheduledOperations(level: nat)
      modifies this
      ensures scheduled == []
      ensures rounds == old(rounds) + if old(scheduled) == [] then [] else [Round(level, old(scheduled))]
    {
      if scheduled != [] {
        rounds := rounds + [Round(level, scheduled)];
      }
      scheduled := [];
    }

    /** (elements sent, elements received); each interactive element goes both ways. */
    function GetTrafficStatistics(): (nat, nat)
      reads this
    {
      (Traffic(rounds), Traffic(rounds))
    }
  }
}
