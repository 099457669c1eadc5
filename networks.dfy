/**
 * IPv4 networks as the rotators use them: `ipaddress.ip_network(block)`
 * iterates over every address of the block, network and broadcast address
 * included, in increasing order. An address is its 32-bit value.
 */
module Networks {
  import opened Results
  import JsonText

  const AddressSpace: nat := 0x1_0000_0000

  /** `count` consecutive addresses starting at `base` (`num_addresses` is `count`). */
  datatype Network = Network(base: nat, count: nat)

  /** Every parsed network holds at least one address and stays inside the IPv4 space. */
  predicate WellFormed(n: Network) {
    n.count >= 1 && n.base + n.count <= AddressSpace
  }

  predicate AllWellFormed(ns: seq<Network>) {
    forall i :: 0 <= i < |ns| ==> WellFormed(ns[i])
  }

  /** `sum(network.num_addresses for network in networks)`, accumulated from the left. */
  function TotalAddresses(ns: seq<Network>): nat {
    if |ns| == 0 then 0 else TotalAddresses(ns[..|ns| - 1]) + ns[|ns| - 1].count
  }

  /** Every network counts towards the total, and the total is zero only when there are no networks. */
  lemma {:induction false} TotalCoversNetworks(ns: seq<Network>)
    requires AllWellFormed(ns)
    ensures TotalAddresses(ns) >= |ns|
    ensures forall i :: 0 <= i < |ns| ==> ns[i].count <= TotalAddresses(ns)
    ensures TotalAddresses(ns) == 0 <==> ns == []
  {
    if |ns| > 0 {
      var init := ns[..|ns| - 1];
      assert AllWellFormed(init) by {
        forall i | 0 <= i < |init| ensures WellFormed(init[i]) {
          assert init[i] == ns[i];
        }
      }
      TotalCoversNetworks(init);
      forall i | 0 <= i < |ns| ensures ns[i].count <= TotalAddresses(ns) {
        if i < |ns| - 1 {
          assert init[i] == ns[i];
        }
      }
    }
  }

  /** The running total after the first `i + 1` networks is the total after `i` plus the next count. */
  lemma TotalStep(ns: seq<Network>, i: nat)
    requires i < |ns|
    ensures TotalAddresses(ns[..i + 1]) == TotalAddresses(ns[..i]) + ns[i].count
  {
    assert ns[..i + 1][..i] == ns[..i];
  }

  /** The address at offset `j` of the network. */
  function At(n: Network, j: nat): nat {
    n.base + j
  }

  /**
   * The first address of `n`, from offset `k` on, that is not in `taken`:
   * what a `for ip in network` loop that skips taken addresses settles on.
   */
  function FirstOutside(n: Network, k: nat, taken: set<nat>): (r: Option<nat>)
    decreases n.count - k
  {
    if k >= n.count then None
    else if At(n, k) in taken then FirstOutside(n, k + 1, taken)
    else Some(At(n, k))
  }

  /**
   * `FirstOutside` finds an address of the network that is not taken, and
   * every address before it is taken; it finds none exactly when every
   * address from `k` on is taken.
   */
  lemma {:induction false} FirstOutsideSpec(n: Network, k: nat, taken: set<nat>)
    ensures var r := FirstOutside(n, k, taken);
      && (r.Some? ==> n.base + k <= r.value < n.base + n.count && r.value !in taken)
      && (r.Some? ==> forall j :: k <= j < r.value - n.base ==> At(n, j) in taken)
      && (r.None? <==> forall j :: k <= j < n.count ==> At(n, j) in taken)
    decreases n.count - k
  {
    if k < n.count && At(n, k) in taken {
      FirstOutsideSpec(n, k + 1, taken);
    }
  }

  /** With nothing taken, the first address is the network address itself. */
  lemma FirstOutsideNothingTaken(n: Network)
    requires WellFormed(n)
    ensures FirstOutside(n, 0, {}) == Some(n.base)
  {
  }

  /** `str(ip)`: the dotted-quad form of an IPv4 address. */
  function Show(a: nat): string {
    JsonText.NatText(a / 0x100_0000 % 256) + "." + JsonText.NatText(a / 0x1_0000 % 256) + "."
      + JsonText.NatText(a / 0x100 % 256) + "." + JsonText.NatText(a % 256)
  }

  /** `str(x)` for an address or `None`. */
  function ShowOptional(a: Option<nat>): string {
    match a
    case None => "None"
    case Some(x) => Show(x)
  }
}
