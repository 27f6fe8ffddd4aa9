/** The severity scale `SquidLogLevel` and its gating predicate. */
module Levels {
  import opened Wrappers

  /** The six levels, in increasing severity; `None` as a threshold suppresses every real message. */
  datatype Level = Debug | Info | Warn | Error | Fatal | None

  /** The enum's `Int` raw value. */
  function Rank(l: Level): (n: int)
    ensures 1 <= n <= 6
  {
    match l
    case Debug => 1
    case Info => 2
    case Warn => 3
    case Error => 4
    case Fatal => 5
    case None => 6
  }

  /** The synthesized failable initialiser `SquidLogLevel(rawValue:)`. */
  function FromRank(n: int): (r: Option<Level>)
    ensures r.Some? <==> 1 <= n <= 6
    ensures r.Some? ==> Rank(r.value) == n
  {
    if n == 1 then Some(Debug)
    else if n == 2 then Some(Info)
    else if n == 3 then Some(Warn)
    else if n == 4 then Some(Error)
    else if n == 5 then Some(Fatal)
    else if n == 6 then Some(None)
    else Nil
  }

  /** The custom `<`, comparing raw values. */
  predicate Less(a: Level, b: Level) {
    Rank(a) < Rank(b)
  }

  /** `threshold.canFlushAs(level)`, i.e. `threshold <= level`, where `<=` is the
      operator `Comparable` derives from `<` as `!(level < threshold)`. */
  function CanFlushAs(threshold: Level, level: Level): (b: bool)
    ensures b <==> Rank(threshold) <= Rank(level)
    ensures b <==> threshold == level || Less(threshold, level)
  {
    !Less(level, threshold)
  }

  /** A `SquidLogLevelSymbol` strategy: what `description()` renders a level as. Every
      hook that calls `description()` reads the manager's current strategy, so hooks
      receive it as an argument. */
  type Symboler = Level -> string

  /** The raw value identifies the level: the initialiser inverts `Rank`. */
  lemma RankRoundTrip(l: Level, n: int)
    ensures FromRank(Rank(l)) == Some(l)
    ensures FromRank(n).Some? ==> Rank(FromRank(n).value) == n
  {
  }

  /** The next more severe level, if there is one. */
  function Next(l: Level): (r: Option<Level>)
    ensures r.Some? <==> l != None
    ensures r.Some? ==> Rank(r.value) == Rank(l) + 1
  {
    FromRank(Rank(l) + 1)
  }

  ghost predicate Reflexive() {
    forall x :: CanFlushAs(x, x)
  }

  ghost predicate AntiSymmetric() {
    forall x, y :: CanFlushAs(x, y) && CanFlushAs(y, x) ==> x == y
  }

  ghost predicate Transitive() {
    forall x, y, z :: CanFlushAs(x, y) && CanFlushAs(y, z) ==> CanFlushAs(x, z)
  }

  ghost predicate StronglyConnected() {
    forall x, y :: CanFlushAs(x, y) || CanFlushAs(y, x)
  }

  /** The gate relation is a total order on the six levels. */
  lemma CanFlushAsIsTotalOrder()
    ensures Reflexive() && AntiSymmetric() && Transitive() && StronglyConnected()
  {
  }

  /** A gate at threshold `l` emits messages at `l`, and a gate at the next
      threshold suppresses them. */
  lemma GateBoundary(l: Level)
    ensures CanFlushAs(l, l)
    ensures Next(l).Some? ==> !CanFlushAs(Next(l).value, l)
  {
  }

  /** A `debug` threshold passes every message; a `none` threshold passes only
      `none`-level messages. */
  lemma ExtremeThresholds(m: Level)
    ensures CanFlushAs(Debug, m)
    ensures CanFlushAs(None, m) <==> m == None
  {
  }

  /** Raising a threshold can only suppress more: whatever a higher threshold
      passes, every lower threshold passes too. */
  lemma ThresholdMonotone(lower: Level, higher: Level, m: Level)
    requires CanFlushAs(lower, higher)
    ensures CanFlushAs(higher, m) ==> CanFlushAs(lower, m)
  {
  }
}
