# Pulse Auditor — reliability scoring engine and comparison basket, in Dafny

This project models the two parts of Pulse Auditor that hold decision logic:

- **The reliability scoring engine** (`calculateHealthScore`, `generateSummary`,
  `getScoreSeverity`). It turns a repository's activity signals into an
  assessment. The inputs are its commits, most recent first, each with an
  authorship instant, a calendar day and an optional author login. It also
  takes the average issue-resolution time, the open-issue count and the
  archived bit. The assessment holds:
  - a score clamped to [0, 100];
  - a confidence tier (high, medium, low);
  - a severity (healthy, warning, critical, unknown);
  - the risk flags, in the order they were detected;
  - the top author's share of commits as a percentage (the risk ratio);
  - a verdict sentence.
- **The comparison basket**. This is the list of at most three repositories
  the user wants to compare side by side, keyed by full name. It supports add,
  remove and clear.

Layout:

- `wrappers.dfy`: module `Wrappers`, an `Option` type.
- `scoring_formula.dfy`: module `ScoringFormula`. It holds the thresholds,
  the data types, one function per step of the heuristic, and `Assess`, the
  reference definition of the engine. It also holds `CalculateHealthScore`,
  the engine written the way the source runs it: local variables reassigned
  in sequence, a flag list that grows by appending, and a per-author
  dictionary built in a loop. That method is proved to compute `Assess`.
- `scoring_properties.dfy`: module `ScoringProperties`, lemmas about `Assess`.
- `comparison_provider.dfy`: module `ComparisonProvider`. The basket is a
  class with a `seq` field and one method per operation. The invariant
  ("at most 3 items, full names distinct") is a predicate that every
  operation preserves.

Modelling choices:

- **Time.** The current instant `now` is a parameter. Instants are integer
  milliseconds since the epoch. Days since the last commit is the real number
  `(now - commits[0].timestamp) / 86400000`, or the sentinel 999 when there
  are no commits.
- **Calendar days.** Each commit carries an abstract integer `day` key, and
  the number of distinct days is the size of the set of these keys. That key
  stands for the source's local-time date string. The model does not tie it
  to the timestamp.
- **Numbers.** Scores and averages are exact reals. `Math.round(x)` is
  `Floor(x + 0.5)`. The final clamp is written out.
- **Author identity.** It is the commit's login, or `"unknown"` when the login
  is missing or empty. This matches the source's `||` fallback, so a real
  account named `unknown` is counted together with the unlinked commits.
- **Top author count.** The source sorts the dictionary's values in
  descending order and takes the first (or 0). The model takes the largest
  value in one scan.
- **Archived result.** The archived early return has no risk ratio, so
  `riskRatio` is an `Option` that is `None` there.
- **Basket operations.** They do not require the invariant, because the
  source does not: a basket restored from storage may hold anything. They
  guarantee that a basket which satisfied the invariant still does.

Facts about the code worth knowing:

- **Risk ratio.** The archived result carries no risk ratio. Every other
  result carries one in [0, 100].
- **Monotonicity in resolution time.** An average of 0 means "no sample" and
  earns a neutral 10 points when there are commits (0 when there are none),
  but any small positive average earns almost 30.
  So the score is monotone in the average resolution time only among positive
  averages (`ScoreNonIncreasingInResolutionTime`), and it jumps at 0
  (`ResolutionSampleOutscoresNoSample`).
- **Activity score cap.** Activity is `uniqueDays / 10 * 40` with no cap at
  40. Only the final clamp bounds the score.

## Model

| member | source | states |
|---|---|---|
| `ScoringFormula.Assess` | src/features/auditor/scoringFormula.js:11-91 | The reference definition of the engine. Its score is always in [0, 100]. The risk ratio is absent exactly for archived repositories. Unknown severity comes only with low confidence. The other properties of the engine are the ScoringProperties lemmas below. |
| `ScoringFormula.CalculateHealthScore` | src/features/auditor/scoringFormula.js:11-91 | The step-by-step engine (flags appended in order, penalties overwritten, dictionary folded over the commits) returns exactly the reference assessment `Assess(m, now)`. |
| `ScoringFormula.ContributionsByAuthor` | src/features/auditor/scoringFormula.js:63-67 | The dictionary built by folding over the commits has an entry for exactly the authors with a commit, and each entry holds that author's commit count. |
| `ScoringFormula.LargestValue` | src/features/auditor/scoringFormula.js:68-69 | The result bounds every value of the dictionary and is one of them, or 0 when the dictionary is empty. |
| `ScoringFormula.TopContributorCount` | src/features/auditor/scoringFormula.js:63-69 | Building the per-author dictionary and taking its largest value (0 with no commits) yields `TopCount`, the commit count of the most active author. |
| `ScoringFormula.TopCountIsMaximum` | src/features/auditor/scoringFormula.js:63-69 | No author has more commits than `TopCount`. Some author has exactly that many when there are commits. It is 0 when there are none. |
| `ScoringFormula.Count` | src/features/auditor/scoringFormula.js:63-67 | An author's commit count never exceeds the number of commits. |
| `ScoringFormula.AuthorKey` | src/features/auditor/scoringFormula.js:64 | A commit counts under its login when that login is present and non-empty, and under "unknown" when the login is missing or empty. The key is never empty. |
| `ScoringFormula.UniqueDays` | src/features/auditor/scoringFormula.js:38 | There are never more distinct commit days than commits, and there is at least one when there is a commit. |
| `ScoringFormula.ActivityScore` | src/features/auditor/scoringFormula.js:39 | Activity earns 4 points per distinct commit day. It is never negative and stays within its nominal 40 points exactly up to 10 days: it is not capped. |
| `ScoringFormula.RealMax` | src/features/auditor/scoringFormula.js:45 | `Math.max` returns one of its arguments and is at least both. |
| `ScoringFormula.TopShare` | src/features/auditor/scoringFormula.js:68-69 | The top share is in [0, 1], and it is 0 with no commits: the denominator is guarded against 0. |
| `ScoringFormula.DaysSinceLastCommit` | src/features/auditor/scoringFormula.js:29-30 | With no commits, the recency sentinel exceeds the 365-day abandonment threshold. |
| `ScoringFormula.Round` | src/features/auditor/scoringFormula.js:74 | `Math.round` returns the integer within half a point of its argument, rounding halves up. |
| `ScoringFormula.Clamp` | src/features/auditor/scoringFormula.js:75 | The score is always in [0, 100]. It is unchanged inside that range, 0 below it and 100 above it. |
| `ScoringFormula.ConfidenceFor` | src/features/auditor/scoringFormula.js:9-34 | Confidence is low exactly below 5 commits, medium exactly from 5 to 14, and high exactly from 15. |
| `ScoringFormula.ResponsivenessScore` | src/features/auditor/scoringFormula.js:43-49 | Responsiveness is in [0, 30]. It is 30 minus 3 per day of average resolution, floored at 0, when there is a positive average. It is 10 with no sample and some commits, and 0 with neither. |
| `ScoringFormula.StagnationPenalty` | src/features/auditor/scoringFormula.js:52-60 | The penalty is 0, 20 or 60. It is 60 exactly past 365 days and 20 exactly between 90 and 365: the higher tier replaces the lower one. |
| `ScoringFormula.BusFactorPenalty` | src/features/auditor/scoringFormula.js:70 | The penalty is 15 exactly when the top share exceeds 0.75, and 0 otherwise. |
| `ScoringFormula.DetectedFlags` | src/features/auditor/scoringFormula.js:40-71 | The five checks raise at most five flags. Which flags are raised is `ScoringProperties.DetectedFlagsMembership`. Their order is `ScoringProperties.DetectedFlagsInOrder`. |
| `ScoringFormula.UnclampedScore` | src/features/auditor/scoringFormula.js:74 | Before clamping, the score is at least -45 (both penalties, no points) and at most 4 per distinct day plus 60. Without commits it is never positive. |
| `ScoringFormula.SeverityFor` | src/features/auditor/scoringFormula.js:78-81 | Later rules override earlier ones. Unknown is given when confidence is low and the score is above 50. Otherwise critical is given below 50 or past 365 days. Warning is given exactly for 50 to 79 with no override, and healthy exactly for 80 or more with no override. |
| `ScoringFormula.GenerateSummary` | src/features/auditor/scoringFormula.js:93-98 | The verdict is one of five sentences, chosen by the first matching rule. The abandoned sentence is used exactly past 365 days. Otherwise the single-maintainer sentence is used exactly when the share exceeds 0.9. Otherwise the irregular sentence is used exactly when BURST_ACTIVITY is raised. Otherwise the healthy sentence is used exactly above 80, and the drift sentence in every other case. |
| `ScoringFormula.GetScoreSeverity` | src/features/auditor/scoringFormula.js:103-107 | The colour classifier is total and never returns unknown. It returns healthy exactly at 80 or more, warning exactly from 50 to 79, and critical exactly below 50. |
| `ScoringProperties.ArchivedShortCircuit` | src/features/auditor/scoringFormula.js:18-26 | An archived repository gets score 0, critical severity, high confidence, flags exactly [ARCHIVED], no risk ratio and the archived sentence. |
| `ScoringProperties.ArchivedIgnoresEverythingElse` | src/features/auditor/scoringFormula.js:18-26 | Any two archived repositories get the same assessment, whatever their commits, issues and `now`. |
| `ScoringProperties.ScoreAndRiskRatioBounds` | src/features/auditor/scoringFormula.js:69-88 | A non-archived repository has a score in [0, 100] and a risk ratio that is present and in [0, 100]. |
| `ScoringProperties.ConfidenceStepFunction` | src/features/auditor/scoringFormula.js:9-34 | The assessment's confidence is low below 5 commits, medium from 5 to 14 and high from 15, in both directions. |
| `ScoringProperties.ConfidenceDependsOnlyOnCommitCount` | src/features/auditor/scoringFormula.js:33-34 | Two non-archived repositories with the same number of commits get the same confidence. |
| `ScoringProperties.DetectedFlagsMembership` | src/features/auditor/scoringFormula.js:40-71 | Each flag is raised exactly when its check fires: BURST_ACTIVITY for fewer than 2 distinct days with commits, NO_ISSUE_DATA for no positive average with commits, STALE_MAINTENANCE past 90 days, ABANDONED past 365 days, HIGH_BUS_FACTOR above a 0.75 share. |
| `ScoringProperties.DetectedFlagsInOrder` | src/features/auditor/scoringFormula.js:40-71 | Detected flags follow the fixed order BURST_ACTIVITY, NO_ISSUE_DATA, STALE_MAINTENANCE, ABANDONED, HIGH_BUS_FACTOR. None repeats, and ARCHIVED is never among them. |
| `ScoringProperties.FlagsInDetectionOrder` | src/features/auditor/scoringFormula.js:14-71 | Every assessment's flags are in detection order and contain no duplicates. |
| `ScoringProperties.HighBusFactorExactly` | src/features/auditor/scoringFormula.js:69-71 | HIGH_BUS_FACTOR is raised if and only if the top author's share exceeds 0.75. |
| `ScoringProperties.BusFactorDeductsFifteen` | src/features/auditor/scoringFormula.js:70-74 | Take two inputs that agree on everything the score reads except the top share, one above 0.75 and one not. Before clamping, the first scores exactly 15 less, and only the first carries HIGH_BUS_FACTOR. |
| `ScoringProperties.StagnationTiers` | src/features/auditor/scoringFormula.js:52-60 | Up to 90 days: no penalty and neither flag. From 90 to 365 days: penalty 20 and STALE_MAINTENANCE without ABANDONED. Past 365 days: penalty 60, with STALE_MAINTENANCE directly followed by ABANDONED. |
| `ScoringProperties.StagnationPenaltyNotSummed` | src/features/auditor/scoringFormula.js:52-74 | Compare the same repository at three instants: at most 90 days, 90 to 365 days, and more than 365 days after its last commit. Before clamping, the second scores 20 less than the first and the third 60 less (not 80). |
| `ScoringProperties.AbandonedIsCritical` | src/features/auditor/scoringFormula.js:53-81 | Past 365 days the severity is critical. The low-confidence "unknown" override cannot apply, because fewer than 5 commits score at most 16. |
| `ScoringProperties.SeverityAgreesWithClassifier` | src/features/auditor/scoringFormula.js:78-107 | Without abandonment and without the low-confidence override, the engine's severity equals `getScoreSeverity` of the score. |
| `ScoringProperties.UnknownOnlyForThinSamples` | src/features/auditor/scoringFormula.js:33-81 | Unknown severity is given only to non-archived repositories with fewer than 5 commits and a score above 50. |
| `ScoringProperties.SummaryAgreesWithFlags` | src/features/auditor/scoringFormula.js:89-98 | The abandoned sentence appears exactly when ABANDONED is raised. The single-maintainer sentence implies HIGH_BUS_FACTOR. The irregular sentence implies BURST_ACTIVITY. The healthy sentence implies a score above 80 and a healthy severity: a low-confidence repository scores at most 76, so it never gets the healthy sentence. |
| `ScoringProperties.HealthyAtEightyIsDescribedAsDrift` | src/features/auditor/scoringFormula.js:78-107 | Take a score of exactly 80, confidence that is not low, no abandonment, a top share of at most 0.9 and no BURST_ACTIVITY. The engine's severity rules and the colour classifier both say healthy, but the sentence is the drift one. |
| `ScoringProperties.ScoreNonIncreasingOverTime` | src/features/auditor/scoringFormula.js:30-75 | With everything else fixed, a later `now` never raises the score. |
| `ScoringProperties.ScoreNonIncreasingInResolutionTime` | src/features/auditor/scoringFormula.js:44-75 | With everything else fixed, a longer positive average resolution time never raises the score. |
| `ScoringProperties.ResolutionSampleOutscoresNoSample` | src/features/auditor/scoringFormula.js:44-49 | With commits present, raising the average resolution time from 0 to 1 day adds 17 points before clamping, and NO_ISSUE_DATA disappears. |
| `ScoringProperties.NoCommitsScenario` | src/features/auditor/scoringFormula.js:28-94 | With no commits and not archived: low confidence, flags exactly [STALE_MAINTENANCE, ABANDONED], score 0, critical severity, risk ratio 0 and the abandoned sentence. |
| `ScoringProperties.SingleMaintainerScenario` | src/features/auditor/scoringFormula.js:28-97 | Twenty recent commits on 12 days by one author, with a 2-day average resolution: score 87, healthy, high confidence, flags [HIGH_BUS_FACTOR], risk ratio 100 and the single-maintainer sentence. |
| `ComparisonProvider.HasName` | src/context/ComparisonProvider.jsx:16 | Some item has the full name exactly when removing that name would shorten the list. |
| `ComparisonProvider.Without` | src/context/ComparisonProvider.jsx:22 | Removal by name keeps exactly the items with a different full name and never lengthens the list. |
| `ComparisonProvider.WithoutDistributes` | src/context/ComparisonProvider.jsx:22 | Filtering distributes over concatenation, so the kept items stay in their original order. |
| `ComparisonProvider.WithoutAbsentName` | src/context/ComparisonProvider.jsx:22 | Removing a name that no item has leaves the list unchanged. |
| `ComparisonProvider.WithoutRemovesName` | src/context/ComparisonProvider.jsx:22 | After removal, no item has the removed name. |
| `ComparisonProvider.WithoutKeepsInvariant` | src/context/ComparisonProvider.jsx:21-23 | Removal preserves "at most 3 items, full names distinct". |
| `ComparisonProvider.AppendKeepsInvariant` | src/context/ComparisonProvider.jsx:14-18 | Appending an item with a new name to a basket below capacity preserves the invariant. |
| `ComparisonProvider.Basket.constructor` | src/context/ComparisonProvider.jsx:5-8 | The basket starts from the saved list when there is one. Otherwise it starts empty, which satisfies the invariant. |
| `ComparisonProvider.Basket.AddToComparison` | src/context/ComparisonProvider.jsx:14-19 | An add succeeds exactly when there are fewer than 3 items and no item has the same full name. On success `repo` is appended and the earlier items stay in order. On refusal the basket is unchanged. The invariant is preserved. |
| `ComparisonProvider.Basket.RemoveFromComparison` | src/context/ComparisonProvider.jsx:21-23 | Remove drops every item with that full name and keeps the others in order. If no item had the name, the basket is unchanged. The invariant is preserved. |
| `ComparisonProvider.Basket.ClearComparison` | src/context/ComparisonProvider.jsx:25 | Clear leaves the basket empty, which satisfies the invariant. |

## Left out

- Fetching commits, issues and repository details from the GitHub API (`src/api/client.js`, `src/api/github.js`, `src/features/auditor/useRepoStats.js`, the fetch code in `src/pages/Home.jsx` and `src/pages/Compare.jsx`): asynchronous network I/O. The engine's inputs are parameters instead.
- Averaging issue-resolution times: floating-point date arithmetic done before the engine runs. `avgResolutionDays` is a given real.
- Parsing dates and taking local calendar dates (`new Date`, `toDateString`): replaced by integer instants, an explicit `now` and an abstract day key per commit. Unparseable dates (NaN) are not modelled.
- IEEE double rounding in the score and risk-ratio arithmetic: the model uses exact reals, so a value that lands within rounding error of a half-point may round differently in the source. This happens even for the risk ratio, which is computed from integer counts alone. With 23 of 40 commits by the top author, the source computes `Math.round(23/40*100)` = `Math.round(57.49999999999999)` = 57, while the model computes `Round(57.5)` = 58. The same happens at 46 of 80.
- Prototype-inherited keys of plain JavaScript objects: the source counts authors in a `{}` object, so a login such as `constructor` or `toString` would start from an inherited function instead of 0. The model's dictionary is a true map.
- The basket's `localStorage` load and save with JSON (`ComparisonProvider.jsx:5-12`): browser storage. The restored list is a constructor parameter. React's batching and stale closures around `setBasket` are not modelled either; each operation reads the basket's current value.
- Extracting `owner/name` from a GitHub URL (`getPath` in `src/pages/Home.jsx`): it depends on the browser's URL parser.
- Rendering, animation and routing (`Report.jsx`, `VitalityCard.jsx`, `ComparisonTable.jsx`, `App.jsx`, `Navbar.jsx`, `Button.jsx`): presentation only.
- The comparison page calls the engine with `commitsCount` instead of `commits`, so every compared repository is scored as if it had no commits (`NoCommitsScenario`). It also reads a `total` field that the result does not have (`src/pages/Compare.jsx:40,51`). This is wiring outside the engine and is not modelled.
- The open-issue count: the source destructures it but never uses it, so it has no effect in the model either.
- Repeatability for identical inputs is not stated as a lemma: every member is a function of its arguments and an explicit `now`, so it holds by construction.
