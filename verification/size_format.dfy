/** `formatar_tamanho`: the choice of a base-1024 unit for a byte count and the
    magnitude shown in that unit. */
module SizeFormat {

  datatype Unit = B | KB | MB | GB | TB

  /** Bytes per unit. */
  function Scale(u: Unit): nat {
    match u
    case B => 1
    case KB => 1024
    case MB => 1048576
    case GB => 1073741824
    case TB => 1099511627776
  }

  /** The units the loop tries in order, before falling through to `TB`. */
  const LoopUnits: seq<Unit> := [B, KB, MB, GB]

  /** The unit in force after `tier` divisions. */
  function UnitAt(tier: nat): Unit
    requires tier <= 4
  {
    if tier < 4 then LoopUnits[tier] else TB
  }

  /** A formatted size: the number printed with one decimal, and its unit. */
  datatype SizeLabel = SizeLabel(magnitude: real, unit: Unit)

  /** One pass of the loop: `x` is the count after `tier` divisions by 1024. */
  function Escalate(n: int, x: real, tier: nat): (r: SizeLabel)
    requires tier <= 4
    requires x * (Scale(UnitAt(tier)) as real) == n as real
    requires tier > 0 ==> n >= Scale(UnitAt(tier))
    decreases 4 - tier
    ensures r.magnitude * (Scale(r.unit) as real) == n as real
    ensures r.unit != B ==> n >= Scale(r.unit)
    ensures r.unit != TB ==> n < 1024 * Scale(r.unit)
  {
    if tier == 4 then SizeLabel(x, TB)
    else if x < 1024.0 then SizeLabel(x, LoopUnits[tier])
    else Escalate(n, x / 1024.0, tier + 1)
  }

  /** `formatar_tamanho(n)`: the unit is the largest one (up to `TB`) not exceeding
      `n`, and the magnitude is `n` measured in that unit. */
  function FormatSize(n: int): (r: SizeLabel)
    ensures r.magnitude * (Scale(r.unit) as real) == n as real
    ensures r.unit == B <==> n < 1024
    ensures r.unit == KB <==> 1024 <= n < 1048576
    ensures r.unit == MB <==> 1048576 <= n < 1073741824
    ensures r.unit == GB <==> 1073741824 <= n < 1099511627776
    ensures r.unit == TB <==> 1099511627776 <= n
    ensures r.unit != TB ==> r.magnitude < 1024.0
    ensures r.unit != B ==> r.magnitude >= 1.0
  {
    Escalate(n, n as real, 0)
  }

  /** Three examples: 500 B, 1.5 KB and 1.0 GB. */
  lemma SizeExamples()
    ensures FormatSize(500) == SizeLabel(500.0, B)
    ensures FormatSize(1536) == SizeLabel(1.5, KB)
    ensures FormatSize(1073741824) == SizeLabel(1.0, GB)
  {
  }
}
