/** How many HTTP workers the primary launches at startup (server.js lines
    126 and 220-225): one per CPU index, except that a truthy `maxWorkers`
    skips every index at or above it. */
module WorkerCount {
  import opened Messages

  /** `limit && index >= limit`, with an unset limit as `None`. */
  predicate Skipped(index: nat, limit: Option<int>)
  {
    limit.Some? && limit.value != 0 && index >= limit.value
  }

  /** The number of CPU indices below `cpus` that are not skipped. */
  function LaunchedCount(cpus: nat, limit: Option<int>): (r: nat)
    ensures r <= cpus
  {
    if cpus == 0 then 0
    else LaunchedCount(cpus - 1, limit) + (if Skipped(cpus - 1, limit) then 0 else 1)
  }

  function Min(a: int, b: int): int
  {
    if a <= b then a else b
  }

  /** All CPUs when the limit is unset or zero, `min(cpus, limit)` for a
      positive limit, and none for a negative one (every index is at or
      above it). */
  lemma {:induction false} LaunchedCountClosedForm(cpus: nat, limit: Option<int>)
    ensures LaunchedCount(cpus, limit) ==
            if limit.None? || limit.value == 0 then cpus
            else if limit.value > 0 then Min(cpus, limit.value)
            else 0
  {
    if cpus > 0 {
      LaunchedCountClosedForm(cpus - 1, limit);
    }
  }
}
