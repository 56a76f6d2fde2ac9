/**
 * The rolling 24-hour quota shared by the paid services: a grant counts the earlier grants at or after
 * the start of its own window, whatever their clocks said.
 */
module RollingQuota {
  import opened Prelude

  const WINDOW_MS := 24 * 60 * 60 * 1000

  /** One reservation, in insertion order, with the instant it recorded. */
  datatype Grant = Grant(id: nat, at: Instant)

  function Since(log: seq<Grant>, since: Instant): set<nat> {
    set i | 0 <= i < |log| && log[i].at >= since :: log[i].id
  }

  /** The grants of a closed window of 24 hours. */
  function InWindow(log: seq<Grant>, from: Instant): set<nat> {
    set i | 0 <= i < |log| && from <= log[i].at <= from + WINDOW_MS :: log[i].id
  }

  /** When a grant was inserted, fewer than `most` earlier ones fell at or after the start of its window. */
  ghost predicate Rationed(log: seq<Grant>, most: int) {
    forall n | 0 <= n < |log| :: |Since(log[..n], log[n].at - WINDOW_MS)| < most
  }

  lemma GrantKeepsRation(log: seq<Grant>, grant: Grant, most: int)
    requires Rationed(log, most) && |Since(log, grant.at - WINDOW_MS)| < most
    ensures Rationed(log + [grant], most)
  {
    var all := log + [grant];
    forall n | 0 <= n < |all| ensures |Since(all[..n], all[n].at - WINDOW_MS)| < most {
      if n < |log| {
        assert all[..n] == log[..n];
      } else {
        assert all[..n] == log;
      }
    }
  }

  lemma SubsetIsSmaller(small: set<nat>, large: set<nat>)
    requires small <= large
    ensures |small| <= |large|
  {
    assert large == small + (large - small);
  }

  /** Index of the last grant that falls into the window. */
  function LastInWindow(log: seq<Grant>, from: Instant): (n: nat)
    requires InWindow(log, from) != {}
    ensures n < |log| && from <= log[n].at <= from + WINDOW_MS
    ensures forall i | n < i < |log| :: !(from <= log[i].at <= from + WINDOW_MS)
  {
    if from <= log[|log| - 1].at <= from + WINDOW_MS then |log| - 1
    else
      assert InWindow(log, from) == InWindow(log[..|log| - 1], from);
      LastInWindow(log[..|log| - 1], from)
  }

  /**
   * Every closed 24-hour window holds at most `most` grants, with no assumption on the order of the
   * recorded instants: the last grant inserted into the window saw all the others.
   */
  lemma EveryWindowIsWithinQuota(log: seq<Grant>, most: nat, from: Instant)
    requires Rationed(log, most)
    ensures |InWindow(log, from)| <= most
  {
    if InWindow(log, from) != {} {
      var n := LastInWindow(log, from);
      var earlier := Since(log[..n], log[n].at - WINDOW_MS);
      assert |earlier| < most;
      forall id | id in InWindow(log, from) ensures id in earlier + {log[n].id} {
        var i :| 0 <= i < |log| && from <= log[i].at <= from + WINDOW_MS && log[i].id == id;
        if i != n {
          assert i < n && log[..n][i] == log[i];
        }
      }
      SubsetIsSmaller(InWindow(log, from), earlier + {log[n].id});
    }
  }
}
