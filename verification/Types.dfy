/** The records the control plane passes around: node, status, function definition and policy. */
module Types {

  datatype Option<+T> = None | Some(value: T)

  /** A node is known by the name its topology file gives it. */
  datatype NodeId = NodeId(name: string)

  /** `Other` is any status text a topology file may preset; the empty text is "not given". */
  datatype Status = Sleeping | Waking | Active | Dead | Other(text: string)

  /** A point on an abstract nondecreasing clock; `Never` is the zero time. */
  datatype Stamp = Never | At(t: int)

  /** Whether at least `d` has passed since `stamp`. The zero time is longer ago than any duration. */
  predicate ElapsedAtLeast(now: int, stamp: Stamp, d: int)
  {
    stamp.Never? || now - stamp.t >= d
  }

  function Min(a: int, b: int): int
  {
    if a <= b then a else b
  }

  datatype Node = Node(
    id: NodeId,
    address: string,
    managerAddress: string,
    relayUid: string,
    channel: int,
    status: Status,
    load: int,
    lastUsed: Stamp,
    deadSince: Stamp,
    local: bool,
    dispatchOnly: bool)

  datatype FunctionDef = FunctionDef(env: string, threads: int, envs: map<string, string>, zip: string)

  /** The scale-down policy, plus the number of readiness polls a wake may use. */
  datatype Config = Config(enabled: bool, idleTimeout: int, minActive: int, deadRetry: int, attempts: nat)
}
