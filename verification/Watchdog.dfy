/** The daemon watchdog: an online monitor over polls, against what the whole poll history says. */
module Watchdog {

  /** What one poll sees: the time, the daemons found failed, whether some thrasher holds an error. */
  datatype Poll = Poll(now: real, failed: seq<string>, thrasherError: bool)

  // ---------------------------------------------------------------- the history

  /** Index of the poll at which the failure of `d` that lasts at poll `k` began. */
  function StreakStart(polls: seq<Poll>, k: nat, d: string): (j: nat)
    requires k < |polls| && d in polls[k].failed
    ensures j <= k
  {
    if k == 0 || d !in polls[k - 1].failed then k else StreakStart(polls, k - 1, d)
  }

  /** From poll `j` to poll `k` the daemon was found failed each time, and not just before. */
  predicate Streak(polls: seq<Poll>, j: nat, k: nat, d: string)
    requires k < |polls|
  {
    j <= k && (forall i :: j <= i <= k ==> d in polls[i].failed) && (j > 0 ==> d !in polls[j - 1].failed)
  }

  /** The streak is unbroken and cannot be extended backwards. */
  lemma {:induction false} StreakIsMaximal(polls: seq<Poll>, k: nat, d: string)
    requires k < |polls| && d in polls[k].failed
    ensures Streak(polls, StreakStart(polls, k, d), k, d)
  {
    if k > 0 && d in polls[k - 1].failed {
      StreakIsMaximal(polls, k - 1, d);
    }
  }

  /** The time the streak of `d` began. */
  function Since(polls: seq<Poll>, k: nat, d: string): real
    requires k < |polls| && d in polls[k].failed
  {
    polls[StreakStart(polls, k, d)].now
  }

  /** Some failure has lasted longer than the timeout, or a thrasher holds an error. */
  predicate ShouldBark(polls: seq<Poll>, k: nat, timeout: int)
    requires k < |polls|
  {
    polls[k].thrasherError ||
    exists d :: d in polls[k].failed && polls[k].now - Since(polls, k, d) > timeout as real
  }

  lemma {:induction false} StreakIs(polls: seq<Poll>, j: nat, k: nat, d: string)
    requires k < |polls| && Streak(polls, j, k, d)
    ensures d in polls[k].failed && StreakStart(polls, k, d) == j
  {
    StreakIsMaximal(polls, k, d);
  }

  /** The same without computing where a streak began. */
  lemma BarksIff(polls: seq<Poll>, k: nat, timeout: int)
    requires k < |polls|
    ensures ShouldBark(polls, k, timeout) <==>
            || polls[k].thrasherError
            || exists j: nat, d :: Streak(polls, j, k, d) && polls[k].now - polls[j].now > timeout as real
  {
    hide StreakStart;
    if d :| d in polls[k].failed && polls[k].now - Since(polls, k, d) > timeout as real {
      StreakIsMaximal(polls, k, d);
    }
    if j: nat, d :| Streak(polls, j, k, d) && polls[k].now - polls[j].now > timeout as real {
      StreakIs(polls, j, k, d);
    }
  }

  /** The table names exactly the failed daemons, each with the start of its streak. */
  ghost predicate Tells(table: map<string, real>, polls: seq<Poll>, k: nat)
    requires k < |polls|
  {
    && (forall d :: d in table <==> d in polls[k].failed)
    && (forall d :: d in table ==> table[d] == Since(polls, k, d))
  }

  // ---------------------------------------------------------------- the monitor

  /** The first inner loop: `setdefault` for every failed daemon. */
  method NoteFailures(table: map<string, real>, failed: seq<string>, now: real, timeout: int)
    returns (noted: map<string, real>, bark: bool)
    ensures forall d :: d in noted <==> d in table || d in failed
    ensures forall d :: d in noted ==> noted[d] == if d in table then table[d] else now
    ensures bark <==> exists d :: d in failed && now - noted[d] > timeout as real
  {
    noted, bark := table, false;
    for i := 0 to |failed|
      invariant forall d :: d in noted <==> d in table || d in failed[..i]
      invariant forall d :: d in noted ==> noted[d] == if d in table then table[d] else now
      invariant bark <==> exists d :: d in failed[..i] && now - noted[d] > timeout as real
    {
      var name := failed[i];
      assert failed[..i + 1] == failed[..i] + [name];
      if name !in noted {
        noted := noted[name := now];
      }
      if now - noted[name] > timeout as real {
        bark := true;
      }
    }
    assert failed[..|failed|] == failed;
  }

  /** The second inner loop: forget every daemon that is no longer failed. */
  method DropRestored(table: map<string, real>, failed: seq<string>) returns (kept: map<string, real>)
    ensures forall d :: d in kept <==> d in table && d in failed
    ensures forall d :: d in kept ==> kept[d] == table[d]
  {
    kept := table;
    var names := table.Keys;
    while names != {}
      invariant names <= table.Keys
      invariant forall d :: d in kept <==> d in table && (d in names || d in failed)
      invariant forall d :: d in kept ==> kept[d] == table[d]
      decreases |names|
    {
      var name :| name in names;
      names := names - {name};
      if name !in failed {
        kept := kept - {name};
      }
    }
  }

  /** Watching any sequence of polls.  The watchdog barks at exactly the first poll where the
      history calls for it; after a poll without a bark its table tells the history. */
  method Watch(polls: seq<Poll>, timeout: int) returns (barked: bool, at: nat, table: map<string, real>)
    ensures at <= |polls| && forall j :: 0 <= j < at ==> !ShouldBark(polls, j, timeout)
    ensures if barked then at < |polls| && ShouldBark(polls, at, timeout) else at == |polls|
    ensures !barked && polls != [] ==> Tells(table, polls, |polls| - 1)
  {
    table := map[];
    at := 0;
    while at < |polls|
      invariant 0 <= at <= |polls|
      invariant forall j :: 0 <= j < at ==> !ShouldBark(polls, j, timeout)
      invariant if at == 0 then table == map[] else Tells(table, polls, at - 1)
    {
      var poll := polls[at];
      var noted, bark := NoteFailures(table, poll.failed, poll.now, timeout);
      assert forall d :: d in poll.failed ==> noted[d] == Since(polls, at, d);
      table := DropRestored(noted, poll.failed);
      if poll.thrasherError {
        bark := true;
      }
      if bark {
        return true, at, table;
      }
      at := at + 1;
    }
    return false, at, table;
  }
}
