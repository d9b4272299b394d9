/**
 * The per-class statistics `process_image` reports: a dictionary from class
 * name to the number of detections carrying that name, built in one pass.
 */
module Statistics {
  import opened Detector

  /** How many of `detections` carry the class name `c`. */
  function Count(detections: seq<Detection>, c: string): nat {
    if detections == [] then 0
    else Count(detections[..|detections| - 1], c)
         + (if detections[|detections| - 1].className == c then 1 else 0)
  }

  /** The class names that occur in `detections`. */
  function ClassNames(detections: seq<Detection>): set<string> {
    set i | 0 <= i < |detections| :: detections[i].className
  }

  /** The sum of the counts in `stats`. */
  ghost function Total(stats: map<string, nat>): nat
    decreases |stats|
  {
    if stats == map[] then 0
    else
      var k :| k in stats;
      stats[k] + Total(stats - {k})
  }

  /** The total is the same whichever key is taken out first. */
  lemma {:induction false} TotalRemove(stats: map<string, nat>, k: string)
    requires k in stats
    ensures Total(stats) == stats[k] + Total(stats - {k})
    decreases |stats|
  {
    var j :| j in stats && Total(stats) == stats[j] + Total(stats - {j});
    if j != k {
      var rest := stats - {j};
      assert k in rest;
      TotalRemove(rest, k);
      assert rest - {k} == stats - {k} - {j};
      TotalRemove(stats - {k}, j);
    }
  }

  /** Adding one to the count of `k`, or entering `k` with count one, adds one to the total. */
  lemma TotalBump(stats: map<string, nat>, k: string)
    ensures Total(stats[k := (if k in stats then stats[k] else 0) + 1]) == Total(stats) + 1
  {
    var bumped := stats[k := (if k in stats then stats[k] else 0) + 1];
    TotalRemove(bumped, k);
    assert bumped - {k} == stats - {k};
    if k in stats {
      TotalRemove(stats, k);
    } else {
      assert stats - {k} == stats;
    }
  }

  /**
   * The class-statistics loop: every class name that occurs is a key, every
   * key occurs (so no key has count zero), each count is the number of
   * detections with that name, and the counts add up to the number of
   * detections, which is the reported `total_detections`.
   */
  method ClassStats(detections: seq<Detection>) returns (stats: map<string, nat>)
    ensures stats.Keys == ClassNames(detections)
    ensures forall c :: c in stats ==> stats[c] == Count(detections, c) && 1 <= stats[c]
    ensures Total(stats) == |detections|
  {
    stats := map[];
    for i := 0 to |detections|
      invariant stats.Keys == ClassNames(detections[..i])
      invariant forall c :: c in stats ==> stats[c] == Count(detections[..i], c) && 1 <= stats[c]
      invariant Total(stats) == i
    {
      var className := detections[i].className;
      PrefixStep(detections, i);
      if className !in stats {
        CountAbsent(detections[..i], className);
      }
      TotalBump(stats, className);
      stats := stats[className := (if className in stats then stats[className] else 0) + 1];
    }
    assert detections[..|detections|] == detections;
  }

  /** A class name that does not occur has count zero. */
  lemma {:induction false} CountAbsent(detections: seq<Detection>, c: string)
    requires c !in ClassNames(detections)
    ensures Count(detections, c) == 0
  {
    if detections != [] {
      var front := detections[..|detections| - 1];
      assert ClassNames(front) <= ClassNames(detections) by {
        forall x | x in ClassNames(front) ensures x in ClassNames(detections) {
          var i :| 0 <= i < |front| && front[i].className == x;
          assert detections[i].className == x;
        }
      }
      assert detections[|detections| - 1].className in ClassNames(detections);
      CountAbsent(front, c);
    }
  }

  /** Extending a prefix by one detection adds its class name and one to its count. */
  lemma PrefixStep(detections: seq<Detection>, i: nat)
    requires i < |detections|
    ensures ClassNames(detections[..i + 1]) == ClassNames(detections[..i]) + {detections[i].className}
    ensures forall c :: Count(detections[..i + 1], c) ==
                        Count(detections[..i], c) + (if detections[i].className == c then 1 else 0)
  {
    var front, next := detections[..i], detections[..i + 1];
    assert next[..i] == front;
    assert next[i] == detections[i];
    forall x | x in ClassNames(next) ensures x in ClassNames(front) + {detections[i].className} {
      var j :| 0 <= j < |next| && next[j].className == x;
      if j < i {
        assert front[j].className == x;
      }
    }
    forall x | x in ClassNames(front) ensures x in ClassNames(next) {
      var j :| 0 <= j < |front| && front[j].className == x;
      assert next[j].className == x;
    }
    assert detections[i].className == next[|next| - 1].className;
  }
}
