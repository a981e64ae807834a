/** Severity levels, the aggregate ("highest") severity of a scan and the
    mapping from a severity to the process exit code. */
module Severity {
  import opened DriftTypes

  /** The level map lookup: a key missing from the map reads as 0. */
  function SeverityLevel(s: string): (level: int)
    ensures 0 <= level <= 3
    ensures level == 1 <==> s == Info
    ensures level == 2 <==> s == Warning
    ensures level == 3 <==> s == Critical
    ensures level == 0 <==> s !in {Info, Warning, Critical}
  {
    var levels := map[Info := 1, Warning := 2, Critical := 3];
    if s in levels then levels[s] else 0
  }

  /** The exit code a severity stands for; unknown strings and "info" give 0. */
  function SeverityToExitCode(s: string): (code: int)
    ensures code in {0, 2, 3}
    ensures code == 3 <==> s == Critical
    ensures code == 2 <==> s == Warning
    ensures code == 0 <==> s != Critical && s != Warning
  {
    if s == Critical then 3
    else if s == Warning then 2
    else 0
  }

  /** The severity whose level is `level`, for the three defined levels. */
  function SeverityNamed(level: int): (s: string)
    requires 1 <= level <= 3
    ensures SeverityLevel(s) == level
  {
    if level == 3 then Critical else if level == 2 then Warning else Info
  }

  /** The exit code is the level for warning and critical and 0 below that. */
  lemma ExitCodeFollowsLevel(s: string)
    ensures SeverityToExitCode(s) == if SeverityLevel(s) >= 2 then SeverityLevel(s) else 0
  {
  }

  /** Running maximum over the records, scanned from the first to the last:
      the value the aggregation loop holds after seeing all of `rs`. A record
      replaces the current value only when its level is strictly greater. */
  function Highest(rs: seq<ScanResult>): string
  {
    if rs == [] then Info
    else
      var h := Highest(rs[..|rs| - 1]);
      if SeverityLevel(rs[|rs| - 1].severity) > SeverityLevel(h) then rs[|rs| - 1].severity else h
  }

  /** Reference definition of the aggregate level: the largest level of any
      record, and never below the level of "info". */
  function MaxLevel(rs: seq<ScanResult>): (m: int)
    ensures 1 <= m <= 3
  {
    if rs == [] then 1
    else
      var rest := MaxLevel(rs[1..]);
      var here := SeverityLevel(rs[0].severity);
      if here > rest then here else rest
  }

  /** The aggregation loop: keep the first record whose level beats
      everything seen so far. */
  method HighestSeverity(rs: seq<ScanResult>) returns (highest: string)
    ensures highest == Highest(rs)
  {
    highest := Info;
    var i := 0;
    while i < |rs|
      invariant 0 <= i <= |rs|
      invariant highest == Highest(rs[..i])
    {
      assert rs[..i + 1][..i] == rs[..i];
      if SeverityLevel(rs[i].severity) > SeverityLevel(highest) {
        highest := rs[i].severity;
      }
      i := i + 1;
    }
    assert rs[..i] == rs;
  }

  /** Every record's level is at most the level of the aggregate, and the
      aggregate is "info" or a severity some record carries, found at the
      first record that reaches the aggregate's level. */
  lemma {:induction false} HighestIsFirstMaximum(rs: seq<ScanResult>)
    ensures forall i :: 0 <= i < |rs| ==> SeverityLevel(rs[i].severity) <= SeverityLevel(Highest(rs))
    ensures SeverityLevel(Highest(rs)) >= 1
    ensures Highest(rs) == Info ||
            exists i :: 0 <= i < |rs| && rs[i].severity == Highest(rs) &&
              forall j :: 0 <= j < i ==> SeverityLevel(rs[j].severity) < SeverityLevel(Highest(rs))
  {
    if rs != [] {
      var init := rs[..|rs| - 1];
      HighestIsFirstMaximum(init);
      var h := Highest(init);
      if SeverityLevel(rs[|rs| - 1].severity) > SeverityLevel(h) {
        var k := |rs| - 1;
        assert rs[k].severity == Highest(rs);
        forall j | 0 <= j < k
          ensures SeverityLevel(rs[j].severity) < SeverityLevel(Highest(rs))
        {
          assert rs[j] == init[j];
        }
      } else {
        assert Highest(rs) == h;
        if h != Info {
          var i :| 0 <= i < |init| && init[i].severity == h &&
            forall j :: 0 <= j < i ==> SeverityLevel(init[j].severity) < SeverityLevel(h);
          assert rs[i] == init[i];
          forall j | 0 <= j < i
            ensures SeverityLevel(rs[j].severity) < SeverityLevel(Highest(rs))
          {
            assert rs[j] == init[j];
          }
        }
      }
      forall i | 0 <= i < |rs|
        ensures SeverityLevel(rs[i].severity) <= SeverityLevel(Highest(rs))
      {
        if i < |rs| - 1 {
          assert rs[i] == init[i];
        }
      }
    }
  }

  /** The maximum level is reached by some record unless it is the floor 1,
      and bounds every record's level. */
  lemma {:induction false} MaxLevelIsMaximum(rs: seq<ScanResult>)
    ensures forall i :: 0 <= i < |rs| ==> SeverityLevel(rs[i].severity) <= MaxLevel(rs)
    ensures MaxLevel(rs) == 1 || exists i :: 0 <= i < |rs| && SeverityLevel(rs[i].severity) == MaxLevel(rs)
  {
    if rs != [] {
      MaxLevelIsMaximum(rs[1..]);
      forall i | 0 < i < |rs|
        ensures SeverityLevel(rs[i].severity) <= MaxLevel(rs)
      {
        assert rs[i] == rs[1..][i - 1];
      }
      if MaxLevel(rs) != 1 && SeverityLevel(rs[0].severity) != MaxLevel(rs) {
        var i :| 0 <= i < |rs[1..]| && SeverityLevel(rs[1..][i].severity) == MaxLevel(rs[1..]);
        assert rs[i + 1] == rs[1..][i];
      }
    }
  }

  /** The aggregate is the severity named by the largest level among the
      records (with "info" as the floor), so it does not depend on the order
      in which the loop meets the records. */
  lemma HighestIsMaxLevel(rs: seq<ScanResult>)
    ensures Highest(rs) == SeverityNamed(MaxLevel(rs))
  {
    HighestIsFirstMaximum(rs);
    MaxLevelIsMaximum(rs);
    var h := Highest(rs);
    if h != Info {
      var i :| 0 <= i < |rs| && rs[i].severity == h;
    }
    if MaxLevel(rs) != 1 {
      var i :| 0 <= i < |rs| && SeverityLevel(rs[i].severity) == MaxLevel(rs);
    }
  }

  /** Reordering two blocks of records does not change the aggregate. */
  lemma HighestCommutes(a: seq<ScanResult>, b: seq<ScanResult>)
    ensures Highest(a + b) == Highest(b + a)
  {
    HighestIsMaxLevel(a + b);
    HighestIsMaxLevel(b + a);
    MaxLevelIsMaximum(a + b);
    MaxLevelIsMaximum(b + a);
    if MaxLevel(a + b) != 1 {
      var i :| 0 <= i < |a + b| && SeverityLevel((a + b)[i].severity) == MaxLevel(a + b);
      if i < |a| {
        assert (a + b)[i] == (b + a)[|b| + i];
      } else {
        assert (a + b)[i] == (b + a)[i - |a|];
      }
    }
    if MaxLevel(b + a) != 1 {
      var i :| 0 <= i < |b + a| && SeverityLevel((b + a)[i].severity) == MaxLevel(b + a);
      if i < |b| {
        assert (b + a)[i] == (a + b)[|a| + i];
      } else {
        assert (b + a)[i] == (a + b)[i - |b|];
      }
    }
  }
}
