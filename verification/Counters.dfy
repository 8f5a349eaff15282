/** The two counters of a task and what each call does to them. */
module TaskCounters {

  datatype TaskCounts = TaskCounts(retainCount: int, holdCount: int, killReason: int)

  predicate Killed(k: TaskCounts) {
    k.killReason != -1
  }

  /** Killed and no longer held: Retain is refused. */
  predicate Dead(k: TaskCounts) {
    Killed(k) && k.holdCount == 0
  }

  /** Dead with the last reference gone: thrown away. */
  predicate Spent(k: TaskCounts) {
    Dead(k) && k.retainCount == 0
  }

  function Retained(k: TaskCounts): TaskCounts {
    k.(retainCount := k.retainCount + 1)
  }

  function Released(k: TaskCounts): TaskCounts {
    k.(retainCount := k.retainCount - 1)
  }

  function Held(k: TaskCounts): TaskCounts {
    k.(holdCount := k.holdCount + 1)
  }

  function Unheld(k: TaskCounts): TaskCounts {
    k.(holdCount := k.holdCount - 1)
  }

  /** Only the first reason is recorded. */
  function KilledFor(k: TaskCounts, reason: int): TaskCounts {
    if Killed(k) then k else k.(killReason := reason)
  }

  /** Kill kills with every reason but -1, which stands for "alive". */
  lemma KillsExactly(k: TaskCounts, reason: int)
    ensures Killed(KilledFor(k, reason)) <==> Killed(k) || reason != -1
  {
  }

  /** Of two reasons that kill an unkilled task the first is kept. */
  lemma FirstReasonWins(k: TaskCounts, a: int, b: int)
    requires !Killed(k) && a != -1
    ensures KilledFor(KilledFor(k, a), b).killReason == a
  {
  }

  /** With reason -1 the task stays unkilled, and the next reason is the one recorded. */
  lemma MinusOneIsNoKill(k: TaskCounts, later: int)
    requires !Killed(k)
    ensures !Killed(KilledFor(k, -1)) && KilledFor(KilledFor(k, -1), later).killReason == later
  {
  }
}

/** The retain count of a thread and its kill mark. */
module ThreadCounters {

  datatype ThreadCounts = ThreadCounts(retainCount: int, killed: bool)

  /** Killed with the last reference gone: thrown away. */
  predicate LastOfKilled(n: ThreadCounts) {
    n.retainCount == 0 && n.killed
  }

  function ThreadRetained(n: ThreadCounts): ThreadCounts {
    n.(retainCount := n.retainCount + 1)
  }

  function ThreadReleased(n: ThreadCounts): ThreadCounts {
    n.(retainCount := n.retainCount - 1)
  }

  function ThreadKilled(n: ThreadCounts): ThreadCounts {
    n.(killed := true)
  }
}
