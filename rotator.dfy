/**
 * The outbound-address rotator of the current server. The class keeps its
 * state in class attributes (`_networks`, `_total`, `_banned`, `_current`),
 * so the whole process shares one rotator: one object here. The same class
 * is written out twice in the repository, in `swish/ip_rotator.py` and in
 * `swish/rotator.py`.
 *
 * `random.choice(cls._networks)` is the `choice` argument: the index of the
 * network picked.
 */
module Rotator {
  import opened Results
  import opened Networks

  /** The addresses a scan skips: the banned ones and the current one. */
  function Taken(banned: seq<nat>, current: Option<nat>): set<nat> {
    (set a | a in banned) + (if current.Some? then {current.value} else {})
  }

  /** The current address after a scan of `n`: the first address not taken, else the old one. */
  function Next(n: Network, banned: seq<nat>, current: Option<nat>): Option<nat> {
    var found := FirstOutside(n, 0, Taken(banned, current));
    if found.Some? then found else current
  }

  /**
   * A move changes the current address to one that was neither banned nor
   * current, the first such address of the network; when the network has no
   * such address the current address stays.
   */
  lemma NextSpec(n: Network, banned: seq<nat>, current: Option<nat>)
    ensures var c := Next(n, banned, current);
      && (c != current ==> c.Some? && n.base <= c.value < n.base + n.count
                           && c.value !in banned && (forall j :: 0 <= j < c.value - n.base ==> At(n, j) in Taken(banned, current)))
      && (c == current <==> forall j :: 0 <= j < n.count ==> At(n, j) in Taken(banned, current))
  {
    FirstOutsideSpec(n, 0, Taken(banned, current));
  }

  /** What `rotate` answers: the sentinel without networks, else `str` of the current address. */
  function Answer(networks: seq<Network>, current: Option<nat>): string {
    if networks == [] then "0.0.0.0" else ShowOptional(current)
  }

  /** The banned list and the current address after one `rotate()` with `choice`. */
  function After(networks: seq<Network>, choice: nat, banned: seq<nat>, current: Option<nat>): (seq<nat>, Option<nat>)
    requires networks != [] ==> choice < |networks|
  {
    if networks == [] then (banned, current)
    else (banned + (if current.Some? then [current.value] else []), Next(networks[choice], banned, current))
  }

  class IpRotator {
    const networks: seq<Network>
    const total: nat
    var banned: seq<nat>
    var current: Option<nat>
    /** Every address `rotate` has moved to, in order. */
    ghost var issued: seq<nat>

    ghost predicate Valid()
      reads this
    {
      && AllWellFormed(networks)
      && total == TotalAddresses(networks)
      && (forall a :: a in issued ==> a in banned || current == Some(a))
    }

    /** The class body: parse the blocks, total their sizes, start with nothing banned or current. */
    constructor(networks: seq<Network>)
      requires AllWellFormed(networks)
      ensures Valid()
      ensures this.networks == networks && total == TotalAddresses(networks)
      ensures banned == [] && current == None && issued == []
    {
      this.networks := networks;
      total := if networks != [] then TotalAddresses(networks) else 0;
      banned := [];
      current := None;
      issued := [];
    }

    /**
     * `IpRotator.rotate()`. Without networks it answers `'0.0.0.0'` and
     * changes nothing. Otherwise it bans the current address (when there is
     * one), moves to the first address of the chosen network that is neither
     * current nor banned, and answers `str` of the current address, which is
     * the old one when every address of the network was excluded. It never
     * moves to an address it has moved to before.
     */
    method Rotate(choice: nat) returns (address: string)
      requires Valid()
      requires networks != [] ==> choice < |networks|
      modifies this
      ensures Valid()
      ensures address == Answer(networks, current)
      ensures networks == [] ==> banned == old(banned) && current == old(current) && issued == old(issued)
      ensures networks != [] ==>
        && banned == old(banned) + (if old(current).Some? then [old(current).value] else [])
        && current == Next(networks[choice], old(banned), old(current))
      ensures current != old(current) ==> current.value !in old(issued) && issued == old(issued) + [current.value]
      ensures current == old(current) ==> issued == old(issued)
    {
      if networks == [] {
        return "0.0.0.0";
      }
      ghost var taken := Taken(banned, current);
      if current.Some? {
        banned := banned + [current.value];
      }
      assert Taken(banned, current) == taken;
      ghost var before := current;
      var net := networks[choice];
      var k := 0;
      while k < net.count
        invariant k <= net.count
        invariant current == before && issued == old(issued) && banned == old(banned) + (if before.Some? then [before.value] else [])
        invariant FirstOutside(net, 0, taken) == FirstOutside(net, k, taken)
      {
        var ip := net.base + k;
        if current == Some(ip) || ip in banned {
          k := k + 1;
          continue;
        }
        current := Some(ip);
        issued := issued + [ip];
        break;
      }
      address := ShowOptional(current);
    }
  }
}
