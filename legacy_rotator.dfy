/**
 * The rotator of the older server (`src/ip_rotator.py`): an ordinary
 * instance, built once per application. Unlike the current rotator it bans
 * the previous address unconditionally (`None` included), has no
 * "no networks" shortcut in `rotate`, and answers `None` when the chosen
 * network is used up.
 */
module LegacyRotator {
  import opened Results
  import opened Networks

  /** The addresses in the banned list (`None` entries ban nothing). */
  function BannedSet(banned: seq<Option<nat>>): set<nat> {
    set o | o in banned && o.Some? :: o.value
  }

  class IpRotator {
    const networks: seq<Network>
    const total: nat
    var banned: seq<Option<nat>>
    var current: Option<nat>

    ghost predicate Valid()
      reads this
    {
      AllWellFormed(networks) && total == TotalAddresses(networks)
    }

    /**
     * `IpRotator()`: no current address, nothing banned, the total of the
     * networks' sizes, and one `rotate` when there are networks.
     */
    constructor(networks: seq<Network>, choice: nat)
      requires AllWellFormed(networks)
      requires networks != [] ==> choice < |networks|
      ensures Valid()
      ensures this.networks == networks
      ensures networks == [] ==> banned == [] && current == None
      ensures networks != [] ==> banned == [None] && current == Some(networks[choice].base)
    {
      this.networks := networks;
      total := TotalAddresses(networks);
      banned := [];
      current := None;
      new;
      if networks != [] {
        FirstOutsideNothingTaken(networks[choice]);
        assert BannedSet([None]) == {};
        var _ := Rotate(choice);
      }
    }

    /**
     * `rotate()`: appends the previous address (even `None`) to the banned
     * list, then takes the first address of the chosen network that is not
     * banned and answers its `str`. A used-up network leaves the current
     * address alone and answers `None`; with no networks at all
     * `random.choice` raises `IndexError` after the append.
     */
    method Rotate(choice: nat) returns (r: Result<Option<string>>)
      requires Valid()
      requires networks != [] ==> choice < |networks|
      modifies this
      ensures Valid()
      ensures banned == old(banned) + [old(current)]
      ensures networks == [] ==> r == Failure(IndexError) && current == old(current)
      ensures networks != [] ==>
        var found := FirstOutside(networks[choice], 0, BannedSet(banned));
        && current == (if found.Some? then found else old(current))
        && r == Success(if found.Some? then Some(Show(found.value)) else None)
    {
      banned := banned + [current];
      if networks == [] {
        return Failure(IndexError);
      }
      var net := networks[choice];
      var k := 0;
      while k < net.count
        invariant k <= net.count
        invariant current == old(current) && banned == old(banned) + [old(current)]
        invariant FirstOutside(net, 0, BannedSet(banned)) == FirstOutside(net, k, BannedSet(banned))
      {
        var ip := net.base + k;
        if Some(ip) in banned {
          k := k + 1;
          continue;
        }
        assert At(net, k) !in BannedSet(banned);
        current := Some(ip);
        return Success(Some(Show(ip)));
      }
      r := Success(None);
    }
  }

  /**
   * Because the previous address is banned before the scan, a rotation that
   * finds an address always finds a different one, and never one banned
   * before.
   */
  lemma RotateMovesAway(n: Network, banned: seq<Option<nat>>, current: Option<nat>)
    ensures var found := FirstOutside(n, 0, BannedSet(banned + [current]));
      found.Some? ==> Some(found.value) != current && Some(found.value) !in banned
  {
    var all := banned + [current];
    FirstOutsideSpec(n, 0, BannedSet(all));
    var found := FirstOutside(n, 0, BannedSet(all));
    if found.Some? {
      assert all[|banned|] == current;
      forall i | 0 <= i < |banned| ensures banned[i] != Some(found.value) {
        assert all[i] == banned[i];
      }
    }
  }
}

/**
 * The oldest rotator (`src/rotator.py`, class `IPRotator`). Its banned list
 * starts empty and nothing ever adds to it; `networks` and `total` only
 * exist when blocks were configured.
 */
module EarlyRotator {
  import opened Results
  import opened Networks

  class IPRotator {
    var current: Option<nat>
    /** `_banned`: created empty; no method appends to it. */
    var banned: seq<nat>
    var networks: Option<seq<Network>>
    var total: Option<nat>

    ghost predicate Valid()
      reads this
    {
      && (networks.Some? ==> networks.value != [] && AllWellFormed(networks.value))
      && (networks.Some? <==> total.Some?)
      && (networks.Some? ==> total.value == TotalAddresses(networks.value))
    }

    /**
     * `IPRotator()`: with blocks, sums their sizes with a running total and
     * picks a first address; without blocks neither `networks` nor `total`
     * is ever assigned and `current` stays `None`.
     */
    constructor(blocks: seq<Network>, choice: nat)
      requires AllWellFormed(blocks)
      requires blocks != [] ==> choice < |blocks|
      ensures Valid()
      ensures blocks == [] ==> networks == None && total == None && current == None
      ensures blocks != [] ==> networks == Some(blocks) && total == Some(TotalAddresses(blocks))
      ensures blocks != [] ==> current == Some(blocks[choice].base)
      ensures banned == []
    {
      current := None;
      banned := [];
      networks := None;
      total := None;
      new;
      if blocks != [] {
        networks := Some(blocks);
        total := Some(0);
        var i := 0;
        while i < |blocks|
          invariant i <= |blocks|
          invariant networks == Some(blocks) && banned == [] && current == None
          invariant total == Some(TotalAddresses(blocks[..i]))
        {
          TotalStep(blocks, i);
          total := Some(total.value + blocks[i].count);
          i := i + 1;
        }
        assert blocks[..|blocks|] == blocks;
        FirstOutsideNothingTaken(blocks[choice]);
        assert (set a: nat | a in banned) == {};
        var _ := GetIp(choice);
      }
    }

    /**
     * `get_ip()`: the first address of the chosen network not in the banned
     * list, which also becomes `current`. Without configured blocks the
     * attribute `networks` does not exist.
     */
    method GetIp(choice: nat) returns (r: Result<Option<nat>>)
      requires Valid()
      requires networks.Some? ==> choice < |networks.value|
      modifies this
      ensures Valid() && networks == old(networks) && total == old(total) && banned == old(banned)
      ensures networks.None? ==> r == Failure(AttributeError("networks")) && current == old(current)
      ensures networks.Some? ==>
        var found := FirstOutside(networks.value[choice], 0, set a | a in banned);
        && r == Success(found)
        && current == (if found.Some? then found else old(current))
      ensures networks.Some? && banned == [] ==>
        r == Success(Some(networks.value[choice].base)) && current == Some(networks.value[choice].base)
    {
      if networks.None? {
        return Failure(AttributeError("networks"));
      }
      var net := networks.value[choice];
      assert WellFormed(net);
      if banned == [] {
        FirstOutsideNothingTaken(net);
        assert (set a: nat | a in banned) == {};
      }
      var k := 0;
      while k < net.count
        invariant k <= net.count && current == old(current) && banned == old(banned)
        invariant FirstOutside(net, 0, set a | a in banned) == FirstOutside(net, k, set a | a in banned)
      {
        var ip := net.base + k;
        if ip in banned {
          k := k + 1;
          continue;
        }
        current := Some(ip);
        return Success(Some(ip));
      }
      r := Success(None);
    }
  }
}
