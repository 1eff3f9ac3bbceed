/** The one-way ring: process `index` of the program is process `index - 1` here, so ids run from
    0 to n - 1.  A process sends to the one with the next lower index, and the lowest to the highest. */
module Topology {

  function Succ(n: nat, i: nat): nat
    requires i < n
  {
    if i == 0 then n - 1 else i - 1
  }

  function Pred(n: nat, i: nat): nat
    requires i < n
  {
    if i == n - 1 then 0 else i + 1
  }

  /** The number of hops a message sent by `p` has made when it arrives at `q`, counted modulo one lap. */
  function Dist(n: nat, p: nat, q: nat): nat
    requires p < n && q < n
  {
    if q <= p then p - q else p + n - q
  }

  /** The process that lies `d` hops after `p`. */
  function After(n: nat, p: nat, d: nat): nat
    requires p < n && d <= n
  {
    if d <= p then p - d else p + n - d
  }

  /** Process `id` listens on port 8001 + id. */
  function Port(id: nat): int {
    8001 + id
  }

  /** The ports by program index; index 0 is not used. */
  const SERVER_PORT: seq<int> := [0, 8001, 8002, 8003, 8004]

  /** A process listens on the port of its index and connects to that of the next lower index, the first
      process to that of the last. */
  lemma Connections(n: nat, index: nat)
    requires 1 <= index <= n <= 4
    ensures Port(index - 1) == SERVER_PORT[index]
    ensures Port(Succ(n, index - 1)) == SERVER_PORT[if index == 1 then n else index - 1]
    ensures Succ(n, Pred(n, index - 1)) == index - 1
  {
  }
}
