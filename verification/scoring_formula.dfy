/**
 * The reliability scoring engine ("Pulse Reliability Heuristic V3").
 *
 * `Assess` is the reference definition of the engine, built from one small
 * function per step of the heuristic; `CalculateHealthScore` is the engine as
 * the source runs it, step by step with local variables, a flag list that
 * grows by appending and a per-author commit-count dictionary, and is proved
 * to compute `Assess`. The properties of `Assess` are in ScoringProperties.
 *
 * Time is explicit: a commit carries its authorship instant in milliseconds
 * since the epoch and an abstract calendar-day key, and the caller passes the
 * current instant `now`.
 */
module ScoringFormula {
  import opened Wrappers

  // Fixed thresholds of the heuristic.
  const STAGNATION_THRESHOLD_DAYS: real := 90.0   // first sign of drift
  const CRITICAL_STAGNATION_DAYS: real := 365.0   // total abandonment
  const BUS_FACTOR_THRESHOLD: real := 0.75        // more than 75% of commits by one author
  const MIN_DATA_POINTS: nat := 5                 // fewer commits than this: low confidence
  const HIGH_CONFIDENCE_COMMITS: nat := 15        // this many commits or more: high confidence

  /** Recency used when there is no commit at all; above both stagnation thresholds. */
  const NO_COMMIT_SENTINEL_DAYS: real := 999.0
  const MILLISECONDS_PER_DAY: int := 86400000
  const UNKNOWN_AUTHOR: string := "unknown"

  const ARCHIVED_TEXT: string := "Repository is officially archived and read-only."
  const ABANDONED_TEXT: string := "Project is functionally abandoned."
  const SINGLE_MAINTAINER_TEXT: string := "Critical dependency on a single maintainer."
  const IRREGULAR_TEXT: string := "Activity is irregular; maintenance may be inconsistent."
  const HEALTHY_TEXT: string := "Project shows healthy, distributed maintenance."
  const DRIFT_TEXT: string := "Project shows signs of maintenance drift."

  /**
   * One commit: its authorship instant (ms since the epoch), the calendar day
   * that instant falls on, and the author's login if the commit is linked to
   * an account.
   */
  datatype Commit = Commit(timestamp: int, day: int, login: Option<string>)

  /** The engine's input; `commits` is most recent first. */
  datatype Metrics = Metrics(
    commits: seq<Commit>,
    avgResolutionDays: real,
    openIssues: int,
    isArchived: bool)

  datatype Flag = Archived | BurstActivity | NoIssueData | StaleMaintenance | Abandoned | HighBusFactor

  datatype Confidence = High | Medium | Low

  datatype Severity = Healthy | Warning | Critical | Unknown

  /** The engine's output; `riskRatio` is absent from the archived result. */
  datatype Assessment = Assessment(
    score: int,
    severity: Severity,
    confidence: Confidence,
    flags: seq<Flag>,
    riskRatio: Option<int>,
    explanation: string)

  /** `Math.round`: the nearest integer, halves rounded up. */
  function Round(x: real): (r: int)
    ensures x - 0.5 < r as real <= x + 0.5
  {
    (x + 0.5).Floor
  }

  /** `Math.max` on two reals. */
  function RealMax(x: real, y: real): (r: real)
    ensures r >= x && r >= y && (r == x || r == y)
  {
    if x >= y then x else y
  }

  /** `Math.max(0, Math.min(100, x))`. */
  function Clamp(x: int): (r: int)
    ensures 0 <= r <= 100
    ensures 0 <= x <= 100 ==> r == x
    ensures x < 0 ==> r == 0
    ensures x > 100 ==> r == 100
  {
    if x < 0 then 0 else if x > 100 then 100 else x
  }

  /** The identity a commit is counted under: its login, or "unknown" when it has none or an empty one. */
  function AuthorKey(c: Commit): (a: string)
    ensures a != ""
    ensures c.login.Some? && c.login.value != "" ==> a == c.login.value
    ensures c.login.None? || c.login.value == "" ==> a == UNKNOWN_AUTHOR
  {
    if c.login.Some? && c.login.value != "" then c.login.value else UNKNOWN_AUTHOR
  }

  /** Days elapsed since the most recent (first) commit, or the sentinel when there is none. */
  function DaysSinceLastCommit(commits: seq<Commit>, now: int): (d: real)
    ensures commits == [] ==> d > CRITICAL_STAGNATION_DAYS
  {
    if |commits| > 0 then (now - commits[0].timestamp) as real / MILLISECONDS_PER_DAY as real
    else NO_COMMIT_SENTINEL_DAYS
  }

  /** Confidence is a step function of the number of commits. */
  function ConfidenceFor(totalCommits: nat): (c: Confidence)
    ensures c == Low <==> totalCommits < MIN_DATA_POINTS
    ensures c == Medium <==> MIN_DATA_POINTS <= totalCommits < HIGH_CONFIDENCE_COMMITS
    ensures c == High <==> HIGH_CONFIDENCE_COMMITS <= totalCommits
  {
    if totalCommits < MIN_DATA_POINTS then Low
    else if totalCommits < HIGH_CONFIDENCE_COMMITS then Medium
    else High
  }

  /** The distinct calendar days on which some commit was authored. */
  function DayKeys(commits: seq<Commit>): set<int>
  {
    set c | c in commits :: c.day
  }

  /** Appending a commit adds its day to the set of days. */
  lemma DayKeysSnoc(init: seq<Commit>, c: Commit)
    ensures DayKeys(init + [c]) == DayKeys(init) + {c.day}
  {
    var s := init + [c];
    forall d | d in DayKeys(s) ensures d in DayKeys(init) + {c.day} {
      var x :| x in s && x.day == d;
      if x != c {
        assert x in init;
      }
    }
    forall d | d in DayKeys(init) + {c.day} ensures d in DayKeys(s) {
      if d == c.day {
        assert c in s;
      } else {
        var x :| x in init && x.day == d;
        assert x in s;
      }
    }
  }

  lemma {:induction false} DayKeysAtMostCommits(commits: seq<Commit>)
    ensures |DayKeys(commits)| <= |commits|
    ensures commits != [] ==> |DayKeys(commits)| >= 1
  {
    if commits != [] {
      var n := |commits|;
      var init := commits[..n - 1];
      var last := commits[n - 1];
      DayKeysAtMostCommits(init);
      assert commits == init + [last];
      DayKeysSnoc(init, last);
      var before := DayKeys(init);
      if last.day in before {
        assert before + {last.day} == before;
      } else {
        assert |before + {last.day}| == |before| + 1;
      }
      assert last.day in DayKeys(commits);
    }
  }

  /** The number of distinct commit days: at most one per commit, and at least one when there is a commit. */
  function UniqueDays(commits: seq<Commit>): (n: nat)
    ensures n <= |commits|
    ensures commits != [] ==> n >= 1
  {
    DayKeysAtMostCommits(commits);
    |DayKeys(commits)|
  }

  /**
   * Activity consistency: 4 points per distinct commit day, nominally worth
   * 40 points; not capped here (the final clamp is).
   */
  function ActivityScore(uniqueDays: nat): (s: real)
    ensures s == 4.0 * uniqueDays as real
    ensures 0.0 <= s
    ensures s <= 40.0 <==> uniqueDays <= 10
  {
    (uniqueDays as real / 10.0) * 40.0
  }

  /**
   * Responsiveness, worth at most 30 points: 3 points lost per day of average
   * issue resolution; a neutral 10 when there is no resolution sample but
   * there are commits; nothing when there is neither.
   */
  function ResponsivenessScore(avgResolutionDays: real, totalCommits: nat): (s: real)
    ensures 0.0 <= s <= 30.0
    ensures avgResolutionDays > 0.0 ==> s == RealMax(0.0, 30.0 - avgResolutionDays * 3.0)
    ensures avgResolutionDays <= 0.0 && totalCommits > 0 ==> s == 10.0
    ensures avgResolutionDays <= 0.0 && totalCommits == 0 ==> s == 0.0
  {
    if avgResolutionDays > 0.0 then RealMax(0.0, 30.0 - avgResolutionDays * 3.0)
    else if totalCommits > 0 then 10.0
    else 0.0
  }

  /** The stagnation tax: the higher tier replaces the lower one, the two are never added. */
  function StagnationPenalty(daysSinceLastCommit: real): (p: int)
    ensures p == 0 || p == 20 || p == 60
    ensures p == 60 <==> daysSinceLastCommit > CRITICAL_STAGNATION_DAYS
    ensures p == 20 <==> STAGNATION_THRESHOLD_DAYS < daysSinceLastCommit <= CRITICAL_STAGNATION_DAYS
  {
    if daysSinceLastCommit > CRITICAL_STAGNATION_DAYS then 60
    else if daysSinceLastCommit > STAGNATION_THRESHOLD_DAYS then 20
    else 0
  }

  /** Number of commits counted under `author`, folding over the commits in sequence order, as `reduce` does. */
  function Count(commits: seq<Commit>, author: string): (n: nat)
    ensures n <= |commits|
  {
    if commits == [] then 0
    else Count(commits[..|commits| - 1], author) + (if AuthorKey(commits[|commits| - 1]) == author then 1 else 0)
  }

  /** The largest per-author count among the authors of the commits in `probe`. */
  function TopCountAmong(commits: seq<Commit>, probe: seq<Commit>): (n: nat)
    ensures n <= |commits|
  {
    if probe == [] then 0
    else
      var here := Count(commits, AuthorKey(probe[0]));
      var rest := TopCountAmong(commits, probe[1..]);
      if here >= rest then here else rest
  }

  /** The number of commits of the most active author (0 when there are no commits). */
  function TopCount(commits: seq<Commit>): nat
  {
    TopCountAmong(commits, commits)
  }

  lemma FractionBounds(t: real, n: real)
    requires 0.0 <= t <= n && 0.0 < n
    ensures 0.0 <= t / n <= 1.0
  {
    assert t / n * n == t;
  }

  /**
   * The top author's share of the commits, with the denominator guarded
   * against 0: a fraction, and 0 when there are no commits.
   */
  function TopShare(commits: seq<Commit>): (r: real)
    ensures 0.0 <= r <= 1.0
    ensures commits == [] ==> r == 0.0
  {
    var n := if |commits| == 0 then 1 else |commits|;
    FractionBounds(TopCount(commits) as real, n as real);
    TopCount(commits) as real / n as real
  }

  function BusFactorPenalty(topShare: real): (p: int)
    ensures p == 15 <==> topShare > BUS_FACTOR_THRESHOLD
    ensures p == 0 <==> topShare <= BUS_FACTOR_THRESHOLD
  {
    if topShare > BUS_FACTOR_THRESHOLD then 15 else 0
  }

  /** `flags.push(f)` when `raised`; the flag list otherwise. */
  function Raise(flags: seq<Flag>, raised: bool, f: Flag): seq<Flag>
  {
    if raised then flags + [f] else flags
  }

  /**
   * The risk flags, in the order the engine detects them: at most one per
   * check. Which flags are raised, and their order, is stated in
   * ScoringProperties.
   */
  function DetectedFlags(uniqueDays: nat, totalCommits: nat, avgResolutionDays: real,
                         daysSinceLastCommit: real, topShare: real): (r: seq<Flag>)
    ensures |r| <= 5
  {
    var afterBurst := Raise([], uniqueDays < 2 && totalCommits > 0, BurstActivity);
    var afterIssues := Raise(afterBurst, !(avgResolutionDays > 0.0) && totalCommits > 0, NoIssueData);
    var afterStale := Raise(afterIssues, daysSinceLastCommit > STAGNATION_THRESHOLD_DAYS, StaleMaintenance);
    var afterAbandoned := Raise(afterStale, daysSinceLastCommit > CRITICAL_STAGNATION_DAYS, Abandoned);
    Raise(afterAbandoned, topShare > BUS_FACTOR_THRESHOLD, HighBusFactor)
  }

  /**
   * The rounded sum of the sub-scores, the base allowance of 30 and the
   * penalties, before clamping: at least -45 (both penalties, no points), at
   * most 4 per distinct day plus 60, and never positive without commits.
   */
  function UnclampedScore(m: Metrics, now: int): (r: int)
    ensures -45 <= r <= 4 * UniqueDays(m.commits) + 60
    ensures m.commits == [] ==> r <= 0
  {
    var days := DaysSinceLastCommit(m.commits, now);
    Round(ActivityScore(UniqueDays(m.commits))
          + ResponsivenessScore(m.avgResolutionDays, |m.commits|)
          + 30.0
          - StagnationPenalty(days) as real
          - BusFactorPenalty(TopShare(m.commits)) as real)
  }

  /**
   * Severity rules applied in order, each later rule overriding the earlier:
   * below 80 is a warning; below 50 or abandoned is critical; low confidence
   * with a score above 50 is unknown.
   */
  function SeverityFor(score: int, daysSinceLastCommit: real, confidence: Confidence): (s: Severity)
    ensures confidence == Low && score > 50 ==> s == Unknown
    ensures !(confidence == Low && score > 50) && (score < 50 || daysSinceLastCommit > CRITICAL_STAGNATION_DAYS)
            ==> s == Critical
    ensures s == Warning <==> !(confidence == Low && score > 50) && 50 <= score < 80
                              && daysSinceLastCommit <= CRITICAL_STAGNATION_DAYS
    ensures s == Healthy <==> !(confidence == Low && score > 50) && score >= 80
                              && daysSinceLastCommit <= CRITICAL_STAGNATION_DAYS
  {
    var afterRule1 := if score < 80 then Warning else Healthy;
    var afterRule2 := if score < 50 || daysSinceLastCommit > CRITICAL_STAGNATION_DAYS then Critical else afterRule1;
    if confidence == Low && score > 50 then Unknown else afterRule2
  }

  /** The verdict sentence: the first matching rule wins. */
  function GenerateSummary(score: int, days: real, share: real, flags: seq<Flag>): (s: string)
    ensures s in {ABANDONED_TEXT, SINGLE_MAINTAINER_TEXT, IRREGULAR_TEXT, HEALTHY_TEXT, DRIFT_TEXT}
    ensures s == ABANDONED_TEXT <==> days > 365.0
    ensures s == SINGLE_MAINTAINER_TEXT <==> days <= 365.0 && share > 0.9
    ensures s == IRREGULAR_TEXT <==> days <= 365.0 && share <= 0.9 && BurstActivity in flags
    ensures s == HEALTHY_TEXT <==> days <= 365.0 && share <= 0.9 && BurstActivity !in flags && score > 80
  {
    if days > 365.0 then ABANDONED_TEXT
    else if share > 0.9 then SINGLE_MAINTAINER_TEXT
    else if BurstActivity in flags then IRREGULAR_TEXT
    else if score > 80 then HEALTHY_TEXT
    else DRIFT_TEXT
  }

  /** The colour classifier used by the comparison view: total over all scores, never `Unknown`. */
  function GetScoreSeverity(score: int): (s: Severity)
    ensures s != Unknown
    ensures s == Healthy <==> score >= 80
    ensures s == Warning <==> 50 <= score < 80
    ensures s == Critical <==> score < 50
  {
    if score >= 80 then Healthy
    else if score >= 50 then Warning
    else Critical
  }

  /**
   * The reference definition of the engine. The score is a whole percentage;
   * the archived result, and only it, has no risk ratio;
   * "unknown" comes only with low confidence.
   */
  function Assess(m: Metrics, now: int): (r: Assessment)
    ensures 0 <= r.score <= 100
    ensures r.riskRatio.None? <==> m.isArchived
    ensures r.severity == Unknown ==> r.confidence == Low
  {
    if m.isArchived then Assessment(0, Critical, High, [Archived], None, ARCHIVED_TEXT)
    else
      var total := |m.commits|;
      var days := DaysSinceLastCommit(m.commits, now);
      var confidence := ConfidenceFor(total);
      var share := TopShare(m.commits);
      var flags := DetectedFlags(UniqueDays(m.commits), total, m.avgResolutionDays, days, share);
      var score := Clamp(UnclampedScore(m, now));
      Assessment(score, SeverityFor(score, days, confidence), confidence, flags,
                 Some(Round(share * 100.0)), GenerateSummary(score, days, share, flags))
  }

  /** `Assess` on a repository that is not archived, written out field by field. */
  lemma AssessFields(m: Metrics, now: int)
    requires !m.isArchived
    ensures var days := DaysSinceLastCommit(m.commits, now);
            var share := TopShare(m.commits);
            var flags := DetectedFlags(UniqueDays(m.commits), |m.commits|, m.avgResolutionDays, days, share);
            var score := Clamp(UnclampedScore(m, now));
            Assess(m, now)
            == Assessment(score, SeverityFor(score, days, ConfidenceFor(|m.commits|)), ConfidenceFor(|m.commits|),
                          flags, Some(Round(share * 100.0)), GenerateSummary(score, days, share, flags))
  {
    var days := DaysSinceLastCommit(m.commits, now);
    var share := TopShare(m.commits);
    var flags := DetectedFlags(UniqueDays(m.commits), |m.commits|, m.avgResolutionDays, days, share);
    var score := Clamp(UnclampedScore(m, now));
    assert Assess(m, now).flags == flags && Assess(m, now).score == score;
  }

  /** A score summed from sub-scores and penalties that each agree with `UnclampedScore`'s is `UnclampedScore`. */
  lemma UnclampedFromParts(m: Metrics, now: int, activity: real, responsiveness: real, stagnation: int, busFactor: int)
    requires activity == ActivityScore(UniqueDays(m.commits))
    requires responsiveness == ResponsivenessScore(m.avgResolutionDays, |m.commits|)
    requires stagnation == StagnationPenalty(DaysSinceLastCommit(m.commits, now))
    requires busFactor == BusFactorPenalty(TopShare(m.commits))
    ensures Round(activity + responsiveness + 30.0 - stagnation as real - busFactor as real) == UnclampedScore(m, now)
  {
  }

  /** An assessment assembled from parts that each agree with `Assess`'s is `Assess`'s. */
  lemma AssessFromParts(m: Metrics, now: int, score: int, severity: Severity, confidence: Confidence,
                        flags: seq<Flag>, share: real, days: real)
    requires !m.isArchived
    requires days == DaysSinceLastCommit(m.commits, now) && share == TopShare(m.commits)
    requires confidence == ConfidenceFor(|m.commits|)
    requires flags == DetectedFlags(UniqueDays(m.commits), |m.commits|, m.avgResolutionDays, days, share)
    requires score == Clamp(UnclampedScore(m, now))
    requires severity == SeverityFor(score, days, confidence)
    ensures Assessment(score, severity, confidence, flags, Some(Round(share * 100.0)),
                       GenerateSummary(score, days, share, flags)) == Assess(m, now)
  {
    AssessFields(m, now);
  }

  /** A positive count for `author` means some commit is counted under `author`. */
  lemma {:induction false} CountPositiveHasWitness(commits: seq<Commit>, author: string)
    requires Count(commits, author) > 0
    ensures exists k :: 0 <= k < |commits| && AuthorKey(commits[k]) == author
  {
    var n := |commits|;
    if AuthorKey(commits[n - 1]) != author {
      CountPositiveHasWitness(commits[..n - 1], author);
      var k :| 0 <= k < n - 1 && AuthorKey(commits[..n - 1][k]) == author;
      assert AuthorKey(commits[k]) == author;
    }
  }

  lemma {:induction false} TopCountAmongBounds(commits: seq<Commit>, probe: seq<Commit>, k: nat)
    requires k < |probe|
    ensures Count(commits, AuthorKey(probe[k])) <= TopCountAmong(commits, probe)
  {
    if k > 0 {
      TopCountAmongBounds(commits, probe[1..], k - 1);
      assert probe[1..][k - 1] == probe[k];
    }
  }

  lemma {:induction false} TopCountAmongAttained(commits: seq<Commit>, probe: seq<Commit>)
    requires probe != []
    ensures exists k :: 0 <= k < |probe| && TopCountAmong(commits, probe) == Count(commits, AuthorKey(probe[k]))
  {
    var here := Count(commits, AuthorKey(probe[0]));
    if |probe| > 1 && here < TopCountAmong(commits, probe[1..]) {
      TopCountAmongAttained(commits, probe[1..]);
      var k :| 0 <= k < |probe| - 1 && TopCountAmong(commits, probe[1..]) == Count(commits, AuthorKey(probe[1..][k]));
      assert probe[1..][k] == probe[k + 1];
    }
  }

  /** `TopCount` is the largest per-author count, attained by some author when there are commits. */
  lemma TopCountIsMaximum(commits: seq<Commit>)
    ensures forall a :: Count(commits, a) <= TopCount(commits)
    ensures commits != [] ==> exists a :: Count(commits, a) == TopCount(commits)
    ensures commits == [] ==> TopCount(commits) == 0
  {
    forall a ensures Count(commits, a) <= TopCount(commits) {
      if Count(commits, a) > 0 {
        CountPositiveHasWitness(commits, a);
        var k :| 0 <= k < |commits| && AuthorKey(commits[k]) == a;
        TopCountAmongBounds(commits, commits, k);
      }
    }
    if commits != [] {
      TopCountAmongAttained(commits, commits);
    }
  }

  /**
   * The per-author dictionary, built by folding over the commits in sequence
   * order, as `reduce` does: every author with a commit has an entry holding
   * their count, and nobody else has one.
   */
  method ContributionsByAuthor(commits: seq<Commit>) returns (contrib: map<string, nat>)
    ensures forall a :: a in contrib ==> contrib[a] == Count(commits, a) && contrib[a] > 0
    ensures forall a :: a !in contrib ==> Count(commits, a) == 0
  {
    contrib := map[];
    var i := 0;
    while i < |commits|
      invariant 0 <= i <= |commits|
      invariant forall a :: a in contrib ==> contrib[a] == Count(commits[..i], a) && contrib[a] > 0
      invariant forall a :: a !in contrib ==> Count(commits[..i], a) == 0
    {
      var author := AuthorKey(commits[i]);
      assert commits[..i + 1][..i] == commits[..i];
      assert forall a :: Count(commits[..i + 1], a) == Count(commits[..i], a) + (if author == a then 1 else 0);
      contrib := contrib[author := (if author in contrib then contrib[author] else 0) + 1];
      i := i + 1;
    }
    assert commits[..i] == commits;
  }

  /**
   * The largest value of the dictionary, or 0 when it is empty (the source
   * sorts the values in descending order and takes the first, or 0).
   */
  method LargestValue(contrib: map<string, nat>) returns (top: nat)
    ensures forall a :: a in contrib ==> contrib[a] <= top
    ensures top == 0 || exists a :: a in contrib && contrib[a] == top
  {
    var keys := contrib.Keys;
    top := 0;
    while keys != {}
      invariant keys <= contrib.Keys
      invariant forall a :: a in contrib && a !in keys ==> contrib[a] <= top
      invariant top == 0 || exists a :: a in contrib && contrib[a] == top
      decreases |keys|
    {
      var a :| a in keys;
      if contrib[a] > top {
        top := contrib[a];
      }
      keys := keys - {a};
    }
  }

  /** The commit count of the most active author, 0 when there are no commits. */
  method TopContributorCount(commits: seq<Commit>) returns (top: nat)
    ensures top == TopCount(commits)
  {
    var contrib := ContributionsByAuthor(commits);
    top := LargestValue(contrib);
    TopCountIsMaximum(commits);
    assert top <= TopCount(commits);
    if commits != [] {
      var b :| Count(commits, b) == TopCount(commits);
      if TopCount(commits) > 0 {
        assert b in contrib;
      }
    }
  }

  /**
   * The engine as the source runs it: local variables assigned in sequence
   * and a flag list that grows by appending.
   */
  method CalculateHealthScore(m: Metrics, now: int) returns (r: Assessment)
    ensures r == Assess(m, now)
  {
    var commits := m.commits;
    var flags: seq<Flag> := [];
    var confidence := High;

    // Archival kill-switch.
    if m.isArchived {
      return Assessment(0, Critical, High, [Archived], None, ARCHIVED_TEXT);
    }

    var totalCommits := |commits|;
    var daysSinceLastCommit := if |commits| > 0
      then (now - commits[0].timestamp) as real / MILLISECONDS_PER_DAY as real
      else NO_COMMIT_SENTINEL_DAYS;

    assert daysSinceLastCommit == DaysSinceLastCommit(commits, now);

    // Data sufficiency.
    if totalCommits < MIN_DATA_POINTS {
      confidence := Low;
    } else if totalCommits < HIGH_CONFIDENCE_COMMITS {
      confidence := Medium;
    }

    assert confidence == ConfidenceFor(totalCommits);

    // Activity consistency.
    var uniqueDays := |set c | c in commits :: c.day|;
    var activityScore := (uniqueDays as real / 10.0) * 40.0;
    assert uniqueDays == UniqueDays(commits);
    if uniqueDays < 2 && totalCommits > 0 {
      flags := flags + [BurstActivity];
    }

    // Responsiveness.
    var responsivenessScore := 0.0;
    if m.avgResolutionDays > 0.0 {
      responsivenessScore := RealMax(0.0, 30.0 - m.avgResolutionDays * 3.0);
    } else if totalCommits > 0 {
      responsivenessScore := 10.0;
      flags := flags + [NoIssueData];
    }

    assert responsivenessScore == ResponsivenessScore(m.avgResolutionDays, totalCommits);

    // Maintenance drift: the second tier overwrites the first.
    var stagnationPenalty := 0;
    if daysSinceLastCommit > STAGNATION_THRESHOLD_DAYS {
      stagnationPenalty := 20;
      flags := flags + [StaleMaintenance];
    }
    if daysSinceLastCommit > CRITICAL_STAGNATION_DAYS {
      stagnationPenalty := 60;
      flags := flags + [Abandoned];
    }

    assert stagnationPenalty == StagnationPenalty(daysSinceLastCommit);

    // Maintainer concentration.
    var top := TopContributorCount(commits);
    var topShare := top as real / (if totalCommits == 0 then 1 else totalCommits) as real;
    assert topShare == TopShare(commits);
    var busFactorPenalty := if topShare > BUS_FACTOR_THRESHOLD then 15 else 0;
    assert busFactorPenalty == BusFactorPenalty(topShare);
    if busFactorPenalty > 0 {
      flags := flags + [HighBusFactor];
    }

    assert flags == DetectedFlags(uniqueDays, totalCommits, m.avgResolutionDays, daysSinceLastCommit, topShare);

    // Final calculation.
    var rawScore := Round(activityScore + responsivenessScore + 30.0
                          - stagnationPenalty as real - busFactorPenalty as real);
    var score := if rawScore > 100 then 100 else rawScore;
    score := if score < 0 then 0 else score;

    UnclampedFromParts(m, now, activityScore, responsivenessScore, stagnationPenalty, busFactorPenalty);
    assert score == Clamp(rawScore);

    // Severity mapping.
    var severity := Healthy;
    if score < 80 {
      severity := Warning;
    }
    if score < 50 || daysSinceLastCommit > CRITICAL_STAGNATION_DAYS {
      severity := Critical;
    }
    if confidence == Low && score > 50 {
      severity := Unknown;
    }

    assert severity == SeverityFor(score, daysSinceLastCommit, confidence);
    r := Assessment(score, severity, confidence, flags, Some(Round(topShare * 100.0)),
                    GenerateSummary(score, daysSinceLastCommit, topShare, flags));
    AssessFromParts(m, now, score, severity, confidence, flags, topShare, daysSinceLastCommit);
  }
}
