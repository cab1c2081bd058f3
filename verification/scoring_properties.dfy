/**
 * Properties of the reliability scoring engine `ScoringFormula.Assess`:
 * bounds, the archival short-circuit, the confidence step function, the
 * stagnation tiers, the bus-factor penalty, flag order, severity overrides,
 * the verdict sentence, monotonicity in time and in issue resolution time,
 * and worked scenarios.
 */
module ScoringProperties {
  import opened Wrappers
  import opened ScoringFormula

  /** The position of each flag in the engine's detection order. */
  function DetectionRank(f: Flag): nat
  {
    match f
    case BurstActivity => 0
    case NoIssueData => 1
    case StaleMaintenance => 2
    case Abandoned => 3
    case HighBusFactor => 4
    case Archived => 5
  }

  ghost predicate InDetectionOrder(flags: seq<Flag>)
  {
    forall i, j :: 0 <= i < j < |flags| ==> DetectionRank(flags[i]) < DetectionRank(flags[j])
  }

  // ---------------------------------------------------------------------
  // Arithmetic facts about Math.round

  lemma RoundMonotone(x: real, y: real)
    requires x <= y
    ensures Round(x) <= Round(y)
  {
  }

  /** Shifting the argument by a whole number shifts the rounded value by the same amount. */
  lemma RoundShift(x: real, k: int)
    ensures Round(x + k as real) == Round(x) + k
  {
  }

  // ---------------------------------------------------------------------
  // Facts about the inputs

  /** When every commit is counted under one author, that author has every commit. */
  lemma {:induction false} CountSingleAuthor(commits: seq<Commit>, author: string)
    requires forall k :: 0 <= k < |commits| ==> AuthorKey(commits[k]) == author
    ensures Count(commits, author) == |commits|
  {
    if commits != [] {
      CountSingleAuthor(commits[..|commits| - 1], author);
    }
  }

  // ---------------------------------------------------------------------
  // The archival short-circuit

  /** An archived repository scores 0, is critical with high confidence and carries only ARCHIVED. */
  lemma ArchivedShortCircuit(m: Metrics, now: int)
    requires m.isArchived
    ensures var a := Assess(m, now);
            a.score == 0 && a.severity == Critical && a.confidence == High
            && a.flags == [Archived] && a.riskRatio == None && a.explanation == ARCHIVED_TEXT
  {
  }

  /** Nothing but the archived bit matters for an archived repository. */
  lemma ArchivedIgnoresEverythingElse(m1: Metrics, now1: int, m2: Metrics, now2: int)
    requires m1.isArchived && m2.isArchived
    ensures Assess(m1, now1) == Assess(m2, now2)
  {
  }

  // ---------------------------------------------------------------------
  // Bounds

  /** The score and the risk ratio are whole percentages. */
  lemma ScoreAndRiskRatioBounds(m: Metrics, now: int)
    requires !m.isArchived
    ensures 0 <= Assess(m, now).score <= 100
    ensures Assess(m, now).riskRatio.Some?
    ensures 0 <= Assess(m, now).riskRatio.value <= 100
  {
    AssessFields(m, now);
  }

  // ---------------------------------------------------------------------
  // Confidence

  /** Confidence is low below 5 commits, medium from 5 to 14, high from 15. */
  lemma ConfidenceStepFunction(m: Metrics, now: int)
    requires !m.isArchived
    ensures Assess(m, now).confidence == Low <==> |m.commits| < 5
    ensures Assess(m, now).confidence == Medium <==> 5 <= |m.commits| < 15
    ensures Assess(m, now).confidence == High <==> 15 <= |m.commits|
  {
    AssessFields(m, now);
  }

  /** Two repositories with the same number of commits get the same confidence, whatever else differs. */
  lemma ConfidenceDependsOnlyOnCommitCount(m1: Metrics, now1: int, m2: Metrics, now2: int)
    requires !m1.isArchived && !m2.isArchived
    requires |m1.commits| == |m2.commits|
    ensures Assess(m1, now1).confidence == Assess(m2, now2).confidence
  {
    AssessFields(m1, now1);
    AssessFields(m2, now2);
  }

  // ---------------------------------------------------------------------
  // Flags

  ghost predicate RanksBelow(flags: seq<Flag>, bound: nat)
  {
    forall k :: 0 <= k < |flags| ==> DetectionRank(flags[k]) < bound
  }

  /** Raising a flag (or not) of a higher rank keeps the order. */
  lemma RaiseInDetectionOrder(flags: seq<Flag>, raised: bool, f: Flag)
    requires InDetectionOrder(flags) && RanksBelow(flags, DetectionRank(f))
    ensures InDetectionOrder(Raise(flags, raised, f)) && RanksBelow(Raise(flags, raised, f), DetectionRank(f) + 1)
  {
  }

  /** Flags in strictly increasing detection rank, all below ARCHIVED's, are distinct and exclude ARCHIVED. */
  lemma OrderedFlagsAreDistinct(flags: seq<Flag>)
    requires InDetectionOrder(flags) && RanksBelow(flags, DetectionRank(Archived))
    ensures forall i, j :: 0 <= i < j < |flags| ==> flags[i] != flags[j]
    ensures Archived !in flags
  {
    forall i, j | 0 <= i < j < |flags| ensures flags[i] != flags[j] {
      assert DetectionRank(flags[i]) < DetectionRank(flags[j]);
    }
  }

  /** The first two checks leave at most BURST_ACTIVITY then NO_ISSUE_DATA. */
  lemma ActivityFlagsRanked(uniqueDays: nat, totalCommits: nat, avg: real)
    ensures var s2 := Raise(Raise([], uniqueDays < 2 && totalCommits > 0, BurstActivity),
                            !(avg > 0.0) && totalCommits > 0, NoIssueData);
            InDetectionOrder(s2) && RanksBelow(s2, DetectionRank(StaleMaintenance))
  {
    var s1 := Raise([], uniqueDays < 2 && totalCommits > 0, BurstActivity);
    RaiseInDetectionOrder([], uniqueDays < 2 && totalCommits > 0, BurstActivity);
    RaiseInDetectionOrder(s1, !(avg > 0.0) && totalCommits > 0, NoIssueData);
  }

  lemma DetectedFlagsRanked(uniqueDays: nat, totalCommits: nat, avg: real, days: real, share: real)
    ensures var flags := DetectedFlags(uniqueDays, totalCommits, avg, days, share);
            InDetectionOrder(flags) && RanksBelow(flags, DetectionRank(Archived))
  {
    var s1 := Raise([], uniqueDays < 2 && totalCommits > 0, BurstActivity);
    var s2 := Raise(s1, !(avg > 0.0) && totalCommits > 0, NoIssueData);
    ActivityFlagsRanked(uniqueDays, totalCommits, avg);
    var s3 := Raise(s2, days > STAGNATION_THRESHOLD_DAYS, StaleMaintenance);
    RaiseInDetectionOrder(s2, days > STAGNATION_THRESHOLD_DAYS, StaleMaintenance);
    var s4 := Raise(s3, days > CRITICAL_STAGNATION_DAYS, Abandoned);
    RaiseInDetectionOrder(s3, days > CRITICAL_STAGNATION_DAYS, Abandoned);
    RaiseInDetectionOrder(s4, share > BUS_FACTOR_THRESHOLD, HighBusFactor);
  }

  /**
   * The detected flags come in detection order (burst, no issue data, stale,
   * abandoned, bus factor), so none is repeated, and ARCHIVED is never among them.
   */
  lemma DetectedFlagsInOrder(uniqueDays: nat, totalCommits: nat, avg: real, days: real, share: real)
    ensures var flags := DetectedFlags(uniqueDays, totalCommits, avg, days, share);
            InDetectionOrder(flags)
            && (forall i, j :: 0 <= i < j < |flags| ==> flags[i] != flags[j])
            && Archived !in flags
  {
    DetectedFlagsRanked(uniqueDays, totalCommits, avg, days, share);
    OrderedFlagsAreDistinct(DetectedFlags(uniqueDays, totalCommits, avg, days, share));
  }

  /** Each flag is raised exactly when its check fires. */
  lemma DetectedFlagsMembership(uniqueDays: nat, totalCommits: nat, avg: real, days: real, share: real)
    ensures var flags := DetectedFlags(uniqueDays, totalCommits, avg, days, share);
            (BurstActivity in flags <==> uniqueDays < 2 && totalCommits > 0)
            && (NoIssueData in flags <==> !(avg > 0.0) && totalCommits > 0)
            && (StaleMaintenance in flags <==> days > STAGNATION_THRESHOLD_DAYS)
            && (Abandoned in flags <==> days > CRITICAL_STAGNATION_DAYS)
            && (HighBusFactor in flags <==> share > BUS_FACTOR_THRESHOLD)
  {
  }

  /** The flags of an assessment are in detection order and never repeat. */
  lemma FlagsInDetectionOrder(m: Metrics, now: int)
    ensures InDetectionOrder(Assess(m, now).flags)
    ensures forall i, j :: 0 <= i < j < |Assess(m, now).flags| ==> Assess(m, now).flags[i] != Assess(m, now).flags[j]
  {
    if !m.isArchived {
      AssessFields(m, now);
      DetectedFlagsInOrder(UniqueDays(m.commits), |m.commits|, m.avgResolutionDays,
                           DaysSinceLastCommit(m.commits, now), TopShare(m.commits));
    }
  }

  /** HIGH_BUS_FACTOR is raised exactly when the top author has more than 75% of the commits. */
  lemma HighBusFactorExactly(m: Metrics, now: int)
    requires !m.isArchived
    ensures HighBusFactor in Assess(m, now).flags <==> TopShare(m.commits) > BUS_FACTOR_THRESHOLD
  {
    AssessFields(m, now);
    var flags := Assess(m, now).flags;
    if TopShare(m.commits) > BUS_FACTOR_THRESHOLD {
      assert flags[|flags| - 1] == HighBusFactor;
    }
  }

  /**
   * The bus-factor penalty is exactly 15 points: two repositories that agree
   * on everything the score reads except the top author's share, one above
   * 75% and one not, differ by 15 before clamping.
   */
  lemma BusFactorDeductsFifteen(m1: Metrics, m2: Metrics, now: int)
    requires !m1.isArchived && !m2.isArchived
    requires UniqueDays(m1.commits) == UniqueDays(m2.commits)
    requires |m1.commits| == |m2.commits|
    requires m1.avgResolutionDays == m2.avgResolutionDays
    requires DaysSinceLastCommit(m1.commits, now) == DaysSinceLastCommit(m2.commits, now)
    requires TopShare(m1.commits) > BUS_FACTOR_THRESHOLD >= TopShare(m2.commits)
    ensures UnclampedScore(m1, now) == UnclampedScore(m2, now) - 15
    ensures HighBusFactor in Assess(m1, now).flags && HighBusFactor !in Assess(m2, now).flags
  {
    var base := ActivityScore(UniqueDays(m2.commits))
                + ResponsivenessScore(m2.avgResolutionDays, |m2.commits|)
                + 30.0 - StagnationPenalty(DaysSinceLastCommit(m2.commits, now)) as real;
    RoundShift(base, -15);
    HighBusFactorExactly(m1, now);
    HighBusFactorExactly(m2, now);
  }

  // ---------------------------------------------------------------------
  // Stagnation

  /** Which stagnation flags the detected flags carry, and where. */
  lemma StagnationFlags(uniqueDays: nat, totalCommits: nat, avg: real, days: real, share: real)
    ensures var flags := DetectedFlags(uniqueDays, totalCommits, avg, days, share);
            (days <= STAGNATION_THRESHOLD_DAYS ==> StaleMaintenance !in flags && Abandoned !in flags)
            && (STAGNATION_THRESHOLD_DAYS < days <= CRITICAL_STAGNATION_DAYS ==>
                  StaleMaintenance in flags && Abandoned !in flags)
            && (days > CRITICAL_STAGNATION_DAYS ==>
                  exists i :: 0 <= i < |flags| - 1 && flags[i] == StaleMaintenance && flags[i + 1] == Abandoned)
  {
    var s1 := Raise([], uniqueDays < 2 && totalCommits > 0, BurstActivity);
    var s2 := Raise(s1, !(avg > 0.0) && totalCommits > 0, NoIssueData);
    assert StaleMaintenance !in s2 && Abandoned !in s2;
    var s3 := Raise(s2, days > STAGNATION_THRESHOLD_DAYS, StaleMaintenance);
    var s4 := Raise(s3, days > CRITICAL_STAGNATION_DAYS, Abandoned);
    var flags := Raise(s4, share > BUS_FACTOR_THRESHOLD, HighBusFactor);
    assert flags == DetectedFlags(uniqueDays, totalCommits, avg, days, share);
    assert forall k :: 0 <= k < |s4| ==> flags[k] == s4[k];
    if days > CRITICAL_STAGNATION_DAYS {
      assert s4 == s2 + [StaleMaintenance] + [Abandoned];
      assert flags[|s2|] == StaleMaintenance && flags[|s2| + 1] == Abandoned;
    }
  }

  /**
   * Past 90 days the penalty is 20 and STALE_MAINTENANCE is raised; past 365
   * it is 60, not 20 + 60, and STALE_MAINTENANCE is directly followed by ABANDONED.
   */
  lemma StagnationTiers(m: Metrics, now: int)
    requires !m.isArchived
    ensures var days := DaysSinceLastCommit(m.commits, now);
            var flags := Assess(m, now).flags;
            (days <= STAGNATION_THRESHOLD_DAYS ==>
               StagnationPenalty(days) == 0 && StaleMaintenance !in flags && Abandoned !in flags)
            && (STAGNATION_THRESHOLD_DAYS < days <= CRITICAL_STAGNATION_DAYS ==>
               StagnationPenalty(days) == 20 && StaleMaintenance in flags && Abandoned !in flags)
            && (days > CRITICAL_STAGNATION_DAYS ==>
               StagnationPenalty(days) == 60
               && exists i :: 0 <= i < |flags| - 1 && flags[i] == StaleMaintenance && flags[i + 1] == Abandoned)
  {
    AssessFields(m, now);
    StagnationFlags(UniqueDays(m.commits), |m.commits|, m.avgResolutionDays,
                    DaysSinceLastCommit(m.commits, now), TopShare(m.commits));
  }

  /**
   * Going from fresh (at most 90 days after the last commit) to stale costs
   * 20 points and from fresh to abandoned (more than 365 days) costs 60 points
   * before clamping: the tiers are not summed.
   */
  lemma StagnationPenaltyNotSummed(m: Metrics, recent: int, stale: int, abandoned: int)
    requires !m.isArchived && m.commits != []
    requires recent - m.commits[0].timestamp <= 90 * MILLISECONDS_PER_DAY
    requires 90 * MILLISECONDS_PER_DAY < stale - m.commits[0].timestamp <= 365 * MILLISECONDS_PER_DAY
    requires abandoned - m.commits[0].timestamp > 365 * MILLISECONDS_PER_DAY
    ensures UnclampedScore(m, stale) == UnclampedScore(m, recent) - 20
    ensures UnclampedScore(m, abandoned) == UnclampedScore(m, recent) - 60
  {
    var t := m.commits[0].timestamp;
    var k := MILLISECONDS_PER_DAY as real;
    assert DaysSinceLastCommit(m.commits, recent) <= STAGNATION_THRESHOLD_DAYS by {
      assert (recent - t) as real <= 90.0 * k;
    }
    assert STAGNATION_THRESHOLD_DAYS < DaysSinceLastCommit(m.commits, stale) <= CRITICAL_STAGNATION_DAYS by {
      assert 90.0 * k < (stale - t) as real <= 365.0 * k;
    }
    assert DaysSinceLastCommit(m.commits, abandoned) > CRITICAL_STAGNATION_DAYS by {
      assert (abandoned - t) as real > 365.0 * k;
    }
    var base := ActivityScore(UniqueDays(m.commits))
                + ResponsivenessScore(m.avgResolutionDays, |m.commits|)
                + 30.0 - BusFactorPenalty(TopShare(m.commits)) as real;
    RoundShift(base, -20);
    RoundShift(base, -60);
  }

  /**
   * Past 365 days the severity is critical. The low-confidence override to
   * "unknown" cannot apply: fewer than 5 commits give at most 4 distinct days,
   * so at most 16 + 30 + 30 - 60 = 16 points.
   */
  lemma AbandonedIsCritical(m: Metrics, now: int)
    requires !m.isArchived
    requires DaysSinceLastCommit(m.commits, now) > CRITICAL_STAGNATION_DAYS
    ensures Assess(m, now).severity == Critical
  {
    AssessFields(m, now);
    if |m.commits| < MIN_DATA_POINTS {
      var x := ActivityScore(UniqueDays(m.commits))
               + ResponsivenessScore(m.avgResolutionDays, |m.commits|)
               + 30.0 - 60.0 - BusFactorPenalty(TopShare(m.commits)) as real;
      assert x <= 16.0;
      RoundMonotone(x, 16.0);
      assert Assess(m, now).score <= 16;
    }
  }

  // ---------------------------------------------------------------------
  // Severity

  /**
   * Without the two overrides (abandonment, or low confidence with a score
   * above 50) the severity is the colour classifier's verdict on the score.
   */
  lemma SeverityAgreesWithClassifier(m: Metrics, now: int)
    requires !m.isArchived
    requires DaysSinceLastCommit(m.commits, now) <= CRITICAL_STAGNATION_DAYS
    requires !(Assess(m, now).confidence == Low && Assess(m, now).score > 50)
    ensures Assess(m, now).severity == GetScoreSeverity(Assess(m, now).score)
  {
    AssessFields(m, now);
  }

  /** "unknown" is given only to thin samples (under 5 commits) that score above 50. */
  lemma UnknownOnlyForThinSamples(m: Metrics, now: int)
    requires Assess(m, now).severity == Unknown
    ensures !m.isArchived && |m.commits| < MIN_DATA_POINTS && Assess(m, now).score > 50
  {
    if !m.isArchived {
      AssessFields(m, now);
    }
  }

  // ---------------------------------------------------------------------
  // The verdict sentence

  /** The verdict sentence agrees with the flags raised. */
  lemma SummaryAgreesWithFlags(m: Metrics, now: int)
    requires !m.isArchived
    ensures var a := Assess(m, now);
            (a.explanation == ABANDONED_TEXT <==> Abandoned in a.flags)
            && (a.explanation == SINGLE_MAINTAINER_TEXT ==> HighBusFactor in a.flags)
            && (a.explanation == IRREGULAR_TEXT ==> BurstActivity in a.flags)
            && (a.explanation == HEALTHY_TEXT ==> a.score > 80 && a.severity == Healthy)
  {
    AssessFields(m, now);
    StagnationTiers(m, now);
    HighBusFactorExactly(m, now);
    if |m.commits| < MIN_DATA_POINTS {
      var x := ActivityScore(UniqueDays(m.commits))
               + ResponsivenessScore(m.avgResolutionDays, |m.commits|)
               + 30.0 - StagnationPenalty(DaysSinceLastCommit(m.commits, now)) as real
               - BusFactorPenalty(TopShare(m.commits)) as real;
      RoundMonotone(x, 76.0);
    }
  }

  /**
   * The healthy verdict sentence needs more than 80 points while the healthy
   * severity needs 80: at exactly 80, with enough commits and nothing else to
   * report, a repository is rated healthy and described as drifting.
   */
  lemma HealthyAtEightyIsDescribedAsDrift(days: real, share: real, confidence: Confidence, flags: seq<Flag>)
    requires days <= CRITICAL_STAGNATION_DAYS && share <= 0.9 && BurstActivity !in flags
    requires confidence != Low
    ensures SeverityFor(80, days, confidence) == Healthy
    ensures GetScoreSeverity(80) == Healthy
    ensures GenerateSummary(80, days, share, flags) == DRIFT_TEXT
  {
  }

  // ---------------------------------------------------------------------
  // Monotonicity

  /** With everything else fixed, a later `now` never raises the score. */
  lemma ScoreNonIncreasingOverTime(m: Metrics, now1: int, now2: int)
    requires now1 <= now2
    ensures Assess(m, now2).score <= Assess(m, now1).score
  {
    if !m.isArchived {
      AssessFields(m, now1);
      AssessFields(m, now2);
      var d1 := DaysSinceLastCommit(m.commits, now1);
      var d2 := DaysSinceLastCommit(m.commits, now2);
      if m.commits != [] {
        var t := m.commits[0].timestamp;
        assert (now1 - t) as real <= (now2 - t) as real;
        assert d1 <= d2;
      }
      assert StagnationPenalty(d1) <= StagnationPenalty(d2);
      var rest := ActivityScore(UniqueDays(m.commits))
                  + ResponsivenessScore(m.avgResolutionDays, |m.commits|)
                  + 30.0 - BusFactorPenalty(TopShare(m.commits)) as real;
      RoundMonotone(rest - StagnationPenalty(d2) as real, rest - StagnationPenalty(d1) as real);
    }
  }

  /**
   * With everything else fixed, a longer (positive) average issue resolution
   * time never raises the score.
   */
  lemma ScoreNonIncreasingInResolutionTime(m: Metrics, slower: real, now: int)
    requires 0.0 < m.avgResolutionDays <= slower
    ensures Assess(m.(avgResolutionDays := slower), now).score <= Assess(m, now).score
  {
    var m2 := m.(avgResolutionDays := slower);
    if !m.isArchived {
      AssessFields(m, now);
      AssessFields(m2, now);
      var rest := ActivityScore(UniqueDays(m.commits)) + 30.0
                  - StagnationPenalty(DaysSinceLastCommit(m.commits, now)) as real
                  - BusFactorPenalty(TopShare(m.commits)) as real;
      assert ResponsivenessScore(slower, |m.commits|) <= ResponsivenessScore(m.avgResolutionDays, |m.commits|);
      RoundMonotone(rest + ResponsivenessScore(slower, |m.commits|),
                    rest + ResponsivenessScore(m.avgResolutionDays, |m.commits|));
    }
  }

  /**
   * An average of 0 means "no sample" and earns the neutral 10 points, while
   * an average of one day earns 27: the score is not monotone in the average
   * across 0.
   */
  lemma ResolutionSampleOutscoresNoSample(m: Metrics, now: int)
    requires !m.isArchived && m.commits != [] && m.avgResolutionDays == 0.0
    ensures UnclampedScore(m.(avgResolutionDays := 1.0), now) == UnclampedScore(m, now) + 17
    ensures NoIssueData in Assess(m, now).flags
    ensures NoIssueData !in Assess(m.(avgResolutionDays := 1.0), now).flags
  {
    var m2 := m.(avgResolutionDays := 1.0);
    AssessFields(m, now);
    AssessFields(m2, now);
    var rest := ActivityScore(UniqueDays(m.commits)) + 30.0
                - StagnationPenalty(DaysSinceLastCommit(m.commits, now)) as real
                - BusFactorPenalty(TopShare(m.commits)) as real;
    RoundShift(rest + 10.0, 17);
    assert rest + 27.0 == rest + 10.0 + 17 as real;
    DetectedFlagsInOrder(UniqueDays(m.commits), |m.commits|, 1.0,
                         DaysSinceLastCommit(m.commits, now), TopShare(m.commits));
  }

  // ---------------------------------------------------------------------
  // Scenarios

  /**
   * No commits: low confidence, no burst or no-issue-data flag, the sentinel
   * recency raises STALE_MAINTENANCE and ABANDONED, and the score is 0.
   */
  lemma NoCommitsScenario(m: Metrics, now: int)
    requires !m.isArchived && m.commits == []
    ensures var a := Assess(m, now);
            a.confidence == Low && a.flags == [StaleMaintenance, Abandoned]
            && a.score == 0 && a.severity == Critical && a.riskRatio == Some(0)
            && a.explanation == ABANDONED_TEXT
  {
    AssessFields(m, now);
    assert DayKeys(m.commits) == {};
    assert TopShare(m.commits) == 0.0;
    var x := ResponsivenessScore(m.avgResolutionDays, 0) + 30.0 - 60.0;
    RoundMonotone(x, 0.0);
  }

  /**
   * Twenty recent commits on twelve distinct days, all by one author, with a
   * two-day average resolution time: 48 + 24 + 30 - 15 = 87 points, healthy
   * with high confidence, the bus-factor flag, a risk ratio of 100 and the
   * single-maintainer verdict.
   */
  lemma SingleMaintainerScenario(m: Metrics, now: int, author: string)
    requires !m.isArchived && |m.commits| == 20 && UniqueDays(m.commits) == 12
    requires forall k :: 0 <= k < |m.commits| ==> AuthorKey(m.commits[k]) == author
    requires m.avgResolutionDays == 2.0
    requires DaysSinceLastCommit(m.commits, now) <= STAGNATION_THRESHOLD_DAYS
    ensures Assess(m, now) == Assessment(87, Healthy, High, [HighBusFactor], Some(100), SINGLE_MAINTAINER_TEXT)
  {
    AssessFields(m, now);
    CountSingleAuthor(m.commits, author);
    TopCountIsMaximum(m.commits);
    assert TopCount(m.commits) == 20;
    assert TopShare(m.commits) == 1.0;
  }
}
