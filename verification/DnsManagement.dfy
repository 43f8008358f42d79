/** Clearing a pool when the addresses of its host change. */
module DnsManagement {
  import opened Wrappers

  type Addresses = seq<string>

  /** The last addresses that a resolution gave before cycle `n`; there are none at first. */
  function LastKnown(resolutions: seq<Option<Addresses>>, n: nat): Addresses
    requires n <= |resolutions|
  {
    if n == 0 then []
    else if resolutions[n - 1].Some? then resolutions[n - 1].value
    else LastKnown(resolutions, n - 1)
  }

  /** The resolution of a cycle gives other addresses than the last one that succeeded. */
  predicate Changes(resolutions: seq<Option<Addresses>>, n: nat)
    requires n < |resolutions|
  {
    resolutions[n].Some? && resolutions[n].value != LastKnown(resolutions, n)
  }

  class DnsAwarePool {
    var clears: seq<nat>  // the cycles in which the pool was cleared

    constructor ()
      ensures clears == []
    {
      clears := [];
    }

    method ClearPool(cycle: nat)
      modifies this
      ensures clears == old(clears) + [cycle]
    {
      clears := clears + [cycle];
    }

    /** A run of the job, given how the resolution of each cycle ends; a failed one throws. */
    method Job(resolutions: seq<Option<Addresses>>)
      modifies this
      ensures clears == old(clears) + ChangesUpTo(resolutions, |resolutions|)
    {
      var lastIpAddresses := [];
      var cycle := 0;
      while cycle < |resolutions|
        invariant cycle <= |resolutions|
        invariant lastIpAddresses == LastKnown(resolutions, cycle)
        invariant clears == old(clears) + ChangesUpTo(resolutions, cycle)
      {
        match resolutions[cycle] {
          case Some(ipAddresses) =>
            if lastIpAddresses != ipAddresses {
              ClearPool(cycle);
              lastIpAddresses := ipAddresses;
            }
          case None =>
        }
        cycle := cycle + 1;
      }
    }
  }

  /** The cycles before `n` that bring a change, in order. */
  function ChangesUpTo(resolutions: seq<Option<Addresses>>, n: nat): (cycles: seq<nat>)
    requires n <= |resolutions|
    ensures forall i | 0 <= i < |cycles| :: cycles[i] < n && Changes(resolutions, cycles[i])
    ensures forall k | 0 <= k < n && Changes(resolutions, k) :: k in cycles
    ensures forall i, j | 0 <= i < j < |cycles| :: cycles[i] < cycles[j]
  {
    if n == 0 then []
    else ChangesUpTo(resolutions, n - 1) + if Changes(resolutions, n - 1) then [n - 1] else []
  }

  // ---- failed resolutions do not matter ----

  function Successes(resolutions: seq<Option<Addresses>>): seq<Addresses> {
    if resolutions == [] then []
    else
      var last := resolutions[|resolutions| - 1];
      Successes(resolutions[..|resolutions| - 1]) + if last.Some? then [last.value] else []
  }

  /** Leaves out what repeats its predecessor. */
  function WithoutRepeats(last: Addresses, known: seq<Addresses>): seq<Addresses>
    decreases known
  {
    if known == [] then []
    else if known[0] == last then WithoutRepeats(last, known[1..])
    else [known[0]] + WithoutRepeats(known[0], known[1..])
  }

  function Final(last: Addresses, known: seq<Addresses>): Addresses {
    if known == [] then last else known[|known| - 1]
  }

  lemma {:induction false} WithoutRepeatsSnoc(last: Addresses, known: seq<Addresses>, next: Addresses)
    ensures WithoutRepeats(last, known + [next])
         == WithoutRepeats(last, known) + if next == Final(last, known) then [] else [next]
    decreases known
  {
    if known != [] {
      assert (known + [next])[1..] == known[1..] + [next];
      WithoutRepeatsSnoc(known[0], known[1..], next);
    } else {
      assert known + [next] == [next];
    }
  }

  /** The addresses for which the pool was cleared. */
  function AddressesAt(resolutions: seq<Option<Addresses>>, cycles: seq<nat>): seq<Addresses>
    requires forall i | 0 <= i < |cycles| :: cycles[i] < |resolutions| && resolutions[cycles[i]].Some?
  {
    seq(|cycles|, i requires 0 <= i < |cycles| => resolutions[cycles[i]].value)
  }

  /** The pool is cleared once for each change in the successful resolutions, wherever failed ones fall
      between them. */
  lemma {:induction false} FailuresDoNotMatter(resolutions: seq<Option<Addresses>>, n: nat)
    requires n <= |resolutions|
    ensures AddressesAt(resolutions, ChangesUpTo(resolutions, n)) == WithoutRepeats([], Successes(resolutions[..n]))
    ensures LastKnown(resolutions, n) == Final([], Successes(resolutions[..n]))
  {
    if n > 0 {
      FailuresDoNotMatter(resolutions, n - 1);
      SuccessesSnoc(resolutions, n - 1);
      var known, cycles := Successes(resolutions[..n - 1]), ChangesUpTo(resolutions, n - 1);
      assert known + [] == known && cycles + [] == cycles;
      if resolutions[n - 1].Some? {
        WithoutRepeatsSnoc([], known, resolutions[n - 1].value);
        AddressesSnoc(resolutions, cycles, n - 1);
      }
    }
  }

  lemma SuccessesSnoc(resolutions: seq<Option<Addresses>>, n: nat)
    requires n < |resolutions|
    ensures Successes(resolutions[..n + 1])
         == Successes(resolutions[..n]) + if resolutions[n].Some? then [resolutions[n].value] else []
  {
    assert resolutions[..n + 1][..n] == resolutions[..n];
  }

  lemma AddressesSnoc(resolutions: seq<Option<Addresses>>, cycles: seq<nat>, n: nat)
    requires n < |resolutions| && resolutions[n].Some?
    requires forall i | 0 <= i < |cycles| :: cycles[i] < |resolutions| && resolutions[cycles[i]].Some?
    ensures AddressesAt(resolutions, cycles + [n]) == AddressesAt(resolutions, cycles) + [resolutions[n].value]
  {
  }
}
