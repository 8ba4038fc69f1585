/**
 * The investor's analytics page: who may see it, which analyses it lists and in which order, the
 * summary figures over that list, and how a score or a recommendation is displayed.
 */
module Analytics {

  import opened Common
  import opened Records

  // ---------------------------------------------------------------------------------------------
  // What the page lists
  // ---------------------------------------------------------------------------------------------

  /** The `startups` columns joined to each analysis. */
  datatype StartupSummary = StartupSummary(name: string, logo: string, domain: string, stage: string, funding: string)

  /** An analysis row as the page's query returns it, with its startup when the join finds one. */
  datatype ListedAnalysis = ListedAnalysis(row: PitchAnalysis, startup: Option<StartupSummary>)

  predicate IsCompleted(a: ListedAnalysis) {
    a.row.status == COMPLETED
  }

  /** Newest upload first: `uploaded_at` never increases along the list. */
  predicate NewestFirst(s: seq<ListedAnalysis>) {
    forall i, j :: 0 <= i < j < |s| ==> s[i].row.uploadedAt >= s[j].row.uploadedAt
  }

  /** Places `x` before the first element that is not newer than it. */
  function InsertNewest(x: ListedAnalysis, s: seq<ListedAnalysis>): (r: seq<ListedAnalysis>)
    ensures multiset(r) == multiset(s) + multiset{x}
  {
    if s == [] then [x]
    else if x.row.uploadedAt >= s[0].row.uploadedAt then [x] + s
    else
      assert s == [s[0]] + s[1..];
      [s[0]] + InsertNewest(x, s[1..])
  }

  /** Inserting into a newest-first list keeps it newest first. */
  lemma {:induction false} InsertNewestKeepsOrder(x: ListedAnalysis, s: seq<ListedAnalysis>)
    requires NewestFirst(s)
    ensures NewestFirst(InsertNewest(x, s))
  {
    if s != [] && x.row.uploadedAt < s[0].row.uploadedAt {
      var rest := InsertNewest(x, s[1..]);
      InsertNewestKeepsOrder(x, s[1..]);
      forall k | 0 <= k < |rest| ensures s[0].row.uploadedAt >= rest[k].row.uploadedAt {
        assert rest[k] in multiset(s[1..]) + multiset{x} by {
          assert rest[k] in multiset(rest);
        }
        if rest[k] != x {
          var m :| 0 <= m < |s[1..]| && s[1..][m] == rest[k];
          assert s[1..][m] == s[m + 1];
        }
      }
      PrependNewest(s[0], rest);
    }
  }

  /** A row at least as new as every element of a newest-first list can go in front of it. */
  lemma PrependNewest(h: ListedAnalysis, rest: seq<ListedAnalysis>)
    requires NewestFirst(rest)
    requires forall k :: 0 <= k < |rest| ==> h.row.uploadedAt >= rest[k].row.uploadedAt
    ensures NewestFirst([h] + rest)
  {
    var r := [h] + rest;
    assert forall k :: 1 <= k < |r| ==> r[k] == rest[k - 1];
  }

  /** The rows ordered newest first; rows uploaded at the same time keep their relative order. */
  function SortNewestFirst(s: seq<ListedAnalysis>): (r: seq<ListedAnalysis>)
    ensures NewestFirst(r)
    ensures multiset(r) == multiset(s)
  {
    if s == [] then []
    else
      assert s == [s[0]] + s[1..];
      var sorted := SortNewestFirst(s[1..]);
      InsertNewestKeepsOrder(s[0], sorted);
      InsertNewest(s[0], sorted)
  }

  /** The page's query: the completed analyses, newest first. */
  function CompletedNewestFirst(rows: seq<ListedAnalysis>): (r: seq<ListedAnalysis>)
    ensures NewestFirst(r)
    ensures multiset(r) == multiset(Filter(rows, IsCompleted))
  {
    SortNewestFirst(Filter(rows, IsCompleted))
  }

  /** The list holds exactly the completed rows (each as often as in the table), newest first. */
  lemma CompletedNewestFirstIsCompletedRowsSorted(rows: seq<ListedAnalysis>)
    ensures var listed := CompletedNewestFirst(rows);
      && NewestFirst(listed)
      && (forall a :: a in listed ==> a in rows && IsCompleted(a))
      && (forall a :: a in rows && IsCompleted(a) ==> multiset(listed)[a] == multiset(rows)[a])
      && |listed| <= |rows|
  {
    var kept := Filter(rows, IsCompleted);
    var listed := SortNewestFirst(kept);
    FilterMultiset(rows, IsCompleted);
    assert multiset(listed) == multiset(kept);
    assert |listed| == |kept| by {
      assert |multiset(listed)| == |multiset(kept)|;
    }
    forall a | a in listed ensures a in rows && IsCompleted(a) {
      assert a in multiset(listed);
    }
  }

  /** The row selected after loading is a newest completed row. */
  lemma FirstIsNewest(rows: seq<ListedAnalysis>)
    requires CompletedNewestFirst(rows) != []
    ensures var first := CompletedNewestFirst(rows)[0];
      && IsCompleted(first) && first in rows
      && forall a :: a in rows && IsCompleted(a) ==> first.row.uploadedAt >= a.row.uploadedAt
  {
    var listed := CompletedNewestFirst(rows);
    CompletedNewestFirstIsCompletedRowsSorted(rows);
    assert listed[0] in listed;
    forall a | a in rows && IsCompleted(a) ensures listed[0].row.uploadedAt >= a.row.uploadedAt {
      assert a in multiset(listed);
      var k :| 0 <= k < |listed| && listed[k] == a;
      assert k == 0 || listed[0].row.uploadedAt >= listed[k].row.uploadedAt;
    }
  }

  // ---------------------------------------------------------------------------------------------
  // The summary figures
  // ---------------------------------------------------------------------------------------------

  /** `a.overall_score || 0`: a missing score counts as 0. */
  function OverallOrZero(a: ListedAnalysis): int {
    if a.row.report.overall.Some? then a.row.report.overall.value else 0
  }

  predicate HighPotential(a: ListedAnalysis) {
    OverallOrZero(a) >= 70
  }

  /** The "High Potential" badge: how many listed analyses score at least 70 overall. */
  function HighPotentialCount(list: seq<ListedAnalysis>): (n: nat)
    ensures n <= |list|
    ensures n == |list| <==> forall i :: 0 <= i < |list| ==> HighPotential(list[i])
    ensures n == 0 <==> forall i :: 0 <= i < |list| ==> !HighPotential(list[i])
  {
    CountBounds(list);
    |Filter(list, HighPotential)|
  }

  lemma {:induction false} CountBounds(list: seq<ListedAnalysis>)
    ensures |Filter(list, HighPotential)| == |list| <==> forall i :: 0 <= i < |list| ==> HighPotential(list[i])
    ensures |Filter(list, HighPotential)| == 0 <==> forall i :: 0 <= i < |list| ==> !HighPotential(list[i])
  {
    if list != [] {
      CountBounds(list[1..]);
      assert forall i :: 1 <= i < |list| ==> list[i] == list[1..][i - 1];
    }
  }

  /** The count adds up over a split of the list, one analysis at a time. */
  lemma HighPotentialCountSplits(a: seq<ListedAnalysis>, b: seq<ListedAnalysis>)
    ensures HighPotentialCount(a + b) == HighPotentialCount(a) + HighPotentialCount(b)
    ensures forall x :: HighPotentialCount([x]) == (if OverallOrZero(x) >= 70 then 1 else 0)
  {
    FilterConcat(a, b, HighPotential);
  }

  /** The sum of the overall scores, missing ones counting as 0. */
  function TotalScore(list: seq<ListedAnalysis>): (r: int)
    ensures (forall i :: 0 <= i < |list| ==> OverallOrZero(list[i]) >= 0) ==> r >= 0
  {
    if list == [] then 0 else TotalScore(list[..|list| - 1]) + OverallOrZero(list[|list| - 1])
  }

  /** The total adds up over any split of the list. */
  lemma {:induction false} TotalScoreSplits(a: seq<ListedAnalysis>, b: seq<ListedAnalysis>)
    ensures TotalScore(a + b) == TotalScore(a) + TotalScore(b)
    decreases |b|
  {
    if b != [] {
      var c := a + b;
      assert c[..|c| - 1] == a + b[..|b| - 1];
      TotalScoreSplits(a, b[..|b| - 1]);
    } else {
      assert a + b == a;
    }
  }

  /** `reduce` adds the scores from the front, starting at 0; the total is the same taken from the back. */
  lemma TotalScoreFromFront(list: seq<ListedAnalysis>)
    ensures TotalScore([]) == 0
    ensures list != [] ==> TotalScore(list) == OverallOrZero(list[0]) + TotalScore(list[1..])
  {
    if list != [] {
      assert list == [list[0]] + list[1..];
      TotalScoreSplits([list[0]], list[1..]);
      assert [list[0]][..0] == [];
    }
  }

  /** The "Average Score" figure, `Math.round(total / count)`, shown only for a non-empty list. The
      division is exact and `Math.round` rounds halves up, so the result is the integer nearest to
      the mean, the larger one on a tie. */
  function AverageScore(list: seq<ListedAnalysis>): (avg: int)
    requires |list| > 0
    ensures 2 * |list| * avg <= 2 * TotalScore(list) + |list| < 2 * |list| * (avg + 1)
  {
    (2 * TotalScore(list) + |list|) / (2 * |list|)
  }

  /** When every overall score lies in `lo..hi`, so does their total divided by the count. */
  lemma {:induction false} TotalScoreBounds(list: seq<ListedAnalysis>, lo: int, hi: int)
    requires forall i :: 0 <= i < |list| ==> lo <= OverallOrZero(list[i]) <= hi
    ensures lo * |list| <= TotalScore(list) <= hi * |list|
  {
    if list != [] {
      var init := list[..|list| - 1];
      assert forall i :: 0 <= i < |init| ==> init[i] == list[i];
      TotalScoreBounds(init, lo, hi);
      assert lo * |list| == lo * |init| + lo && hi * |list| == hi * |init| + hi by {
        ScaleStep(lo, |init|);
        ScaleStep(hi, |init|);
      }
    }
  }

  lemma ScaleStep(k: int, n: int)
    ensures k * (n + 1) == k * n + k
  {
  }

  /** Cancelling a positive factor keeps a strict inequality. */
  lemma CancelPositive(n: int, a: int, b: int)
    requires n > 0 && n * a < n * b
    ensures a < b
  {
  }

  /** Rounding `t / n` to the nearest integer stays within `lo..hi` when `t` does within `lo * n..hi * n`. */
  lemma RoundedMeanBounds(n: int, t: int, lo: int, hi: int)
    requires n > 0 && lo * n <= t <= hi * n
    ensures lo <= (2 * t + n) / (2 * n) <= hi
  {
    var q := (2 * t + n) / (2 * n);
    var m := 2 * n;
    assert m * q <= 2 * t + n < m * (q + 1);
    assert m * q < m * (hi + 1) by {
      ScaleStep(m, hi);
      assert 2 * t + n <= 2 * (hi * n) + n;
      assert 2 * (hi * n) == m * hi;
    }
    CancelPositive(m, q, hi + 1);
    assert m * (lo - 1) < m * q by {
      ScaleStep(m, lo - 1);
      assert 2 * (lo * n) == m * lo;
      assert m * lo <= 2 * t;
    }
    CancelPositive(m, lo - 1, q);
  }

  /** An average over scores in `lo..hi` lies in `lo..hi` too (0..100 for scores as the analysis
      function is asked to give them). */
  lemma AverageWithinScoreRange(list: seq<ListedAnalysis>, lo: int, hi: int)
    requires |list| > 0
    requires forall i :: 0 <= i < |list| ==> lo <= OverallOrZero(list[i]) <= hi
    ensures lo <= AverageScore(list) <= hi
  {
    TotalScoreBounds(list, lo, hi);
    RoundedMeanBounds(|list|, TotalScore(list), lo, hi);
  }

  /** `a.startups?.domain`: the startup's domain, or nothing when the join found no startup. */
  function DomainOf(a: ListedAnalysis): Option<string> {
    if a.startup.Some? then Some(a.startup.value.domain) else None
  }

  /** The distinct domains of the list; a missing startup contributes one "missing" value. */
  function Domains(list: seq<ListedAnalysis>): (ds: set<Option<string>>)
    ensures |ds| <= |list|
    ensures forall i :: 0 <= i < |list| ==> DomainOf(list[i]) in ds
  {
    if list == [] then {}
    else
      var init := list[..|list| - 1];
      var rest := Domains(init);
      assert forall i :: 0 <= i < |init| ==> init[i] == list[i];
      rest + {DomainOf(list[|list| - 1])}
  }

  /** Every counted domain is the domain of some listed analysis. */
  lemma {:induction false} DomainsAreListed(list: seq<ListedAnalysis>, d: Option<string>)
    requires d in Domains(list)
    ensures exists i :: 0 <= i < |list| && DomainOf(list[i]) == d
  {
    var last := |list| - 1;
    if d != DomainOf(list[last]) {
      var init := list[..last];
      DomainsAreListed(init, d);
      var i :| 0 <= i < |init| && DomainOf(init[i]) == d;
      assert list[i] == init[i];
    }
  }

  /** The "Industries" figure: how many distinct domains the list covers, between 1 and its length
      when it is not empty. */
  function IndustryCount(list: seq<ListedAnalysis>): (n: nat)
    ensures n <= |list|
    ensures |list| > 0 ==> n >= 1
  {
    assert |list| > 0 ==> DomainOf(list[0]) in Domains(list);
    |Domains(list)|
  }

  /** Another analysis raises the count exactly when its domain is new to the list. */
  lemma IndustryCountGrows(list: seq<ListedAnalysis>, a: ListedAnalysis)
    ensures DomainOf(a) in Domains(list) ==> IndustryCount(list + [a]) == IndustryCount(list)
    ensures DomainOf(a) !in Domains(list) ==> IndustryCount(list + [a]) == IndustryCount(list) + 1
  {
    var l := list + [a];
    assert l[..|l| - 1] == list && l[|l| - 1] == a;
    assert Domains(l) == Domains(list) + {DomainOf(a)};
    if DomainOf(a) in Domains(list) {
      assert Domains(l) == Domains(list);
    }
  }

  // ---------------------------------------------------------------------------------------------
  // Displaying a score and a recommendation
  // ---------------------------------------------------------------------------------------------

  /** `getScoreColor`: muted for a missing or zero score, then green from 75, yellow from 50, red below. */
  function ScoreColor(score: Option<int>): (c: TextColor)
    ensures c == MutedForeground <==> score.None? || score.value == 0
  {
    if score.None? || score.value == 0 then MutedForeground
    else if score.value >= 75 then Green500
    else if score.value >= 50 then Yellow500
    else Red500
  }

  /** The colours ranked from worst to best. */
  function ColorRank(c: TextColor): nat {
    match c
    case Red500 => 0
    case Yellow500 => 1
    case Green500 => 2
    case MutedForeground => 0
  }

  /** Among present, non-zero scores the colour never gets worse as the score grows, and the bands
      meet at 50 and 75. */
  lemma ScoreColorBands(a: int, b: int)
    requires a != 0 && b != 0 && a <= b
    ensures ColorRank(ScoreColor(Some(a))) <= ColorRank(ScoreColor(Some(b)))
    ensures ScoreColor(Some(a)) != MutedForeground
    ensures ScoreColor(Some(75)) == Green500 && ScoreColor(Some(74)) == Yellow500
    ensures ScoreColor(Some(50)) == Yellow500 && ScoreColor(Some(49)) == Red500
  {
  }

  /** What a score cell shows: the number, or "N/A". */
  datatype ScoreText = Shown(n: int) | NotAvailable

  /** `score || 'N/A'`. */
  function ScoreLabel(score: Option<int>): (t: ScoreText)
    ensures t.Shown? ==> score == Some(t.n)
  {
    if score.None? || score.value == 0 then NotAvailable else Shown(score.value)
  }

  /** `score || 0`, the value of the progress bar. */
  function ProgressValue(score: Option<int>): (v: int)
    ensures score.Some? ==> v == score.value
  {
    if score.None? then 0 else score.value
  }

  /** A score reads "N/A" exactly when it is shown muted, and then its bar is empty. */
  lemma NotAvailableIsMuted(score: Option<int>)
    ensures ScoreLabel(score) == NotAvailable <==> ScoreColor(score) == MutedForeground
    ensures ScoreLabel(score) == NotAvailable ==> ProgressValue(score) == 0
  {
  }

  datatype BadgeVariant = DefaultVariant | Secondary | Destructive

  /** The badge properties an entry of the recommendation table gives; an inherited member of
      `Object.prototype` has neither, which leaves both undefined. */
  datatype BadgeStyle = BadgeStyle(variant: Option<BadgeVariant>, className: Option<string>)

  /** A recommendation badge: its style and its text. */
  datatype Badge = Badge(style: BadgeStyle, text: string)

  const STRONG_BUY_STYLE: BadgeStyle := BadgeStyle(Some(DefaultVariant), Some("bg-green-500"))
  const BUY_STYLE: BadgeStyle := BadgeStyle(Some(Secondary), Some("bg-green-400"))
  const HOLD_STYLE: BadgeStyle := BadgeStyle(Some(Secondary), Some(""))
  const PASS_STYLE: BadgeStyle := BadgeStyle(Some(Destructive), Some(""))

  /** The own entries of the recommendation table. */
  function OwnEntry(key: string): Option<BadgeStyle> {
    if key == "Strong Buy" then Some(STRONG_BUY_STYLE)
    else if key == "Buy" then Some(BUY_STYLE)
    else if key == "Hold" then Some(HOLD_STYLE)
    else if key == "Pass" then Some(PASS_STYLE)
    else None
  }

  /** The names an object literal inherits from `Object.prototype`. */
  const OBJECT_PROTOTYPE_KEYS: set<string> := {
    "constructor", "__proto__", "toString", "toLocaleString", "valueOf", "hasOwnProperty",
    "isPrototypeOf", "propertyIsEnumerable", "__defineGetter__", "__defineSetter__",
    "__lookupGetter__", "__lookupSetter__"
  }

  /** `config[key]` on the object literal: an own entry, else an inherited (truthy) member, else nothing. */
  function ConfigEntryAsWritten(key: string): Option<BadgeStyle> {
    if OwnEntry(key).Some? then OwnEntry(key)
    else if key in OBJECT_PROTOTYPE_KEYS then Some(BadgeStyle(None, None))
    else None
  }

  /** `getRecommendationBadge` as written: `config[recommendation] || config["Hold"]`. */
  function RecommendationBadgeAsWritten(recommendation: Option<string>): (b: Option<Badge>)
    ensures b.None? <==> recommendation.None? || recommendation.value == ""
    ensures b.Some? ==> b.value.text == recommendation.value
  {
    if recommendation.None? || recommendation.value == "" then None
    else
      var entry := ConfigEntryAsWritten(recommendation.value);
      Some(Badge(if entry.Some? then entry.value else HOLD_STYLE, recommendation.value))
  }

  /** A label that names an inherited member of `Object.prototype` finds that member instead of
      falling back to "Hold": its badge has no variant and no class. */
  lemma PrototypeKeyMissesHoldStyle()
    ensures RecommendationBadgeAsWritten(Some("constructor")) == Some(Badge(BadgeStyle(None, None), "constructor"))
    ensures RecommendationBadgeAsWritten(Some("constructor")).value.style != HOLD_STYLE
  {
    assert OwnEntry("constructor") == None;
  }

  /** `getRecommendationBadge` as intended: only the table's own four entries are looked up, and any
      other label takes the "Hold" style while showing its own text. */
  function RecommendationBadge(recommendation: Option<string>): (b: Option<Badge>)
    ensures b.None? <==> recommendation.None? || recommendation.value == ""
    ensures b.Some? ==> b.value.text == recommendation.value
  {
    if recommendation.None? || recommendation.value == "" then None
    else
      var entry := OwnEntry(recommendation.value);
      Some(Badge(if entry.Some? then entry.value else HOLD_STYLE, recommendation.value))
  }

  /** The four known labels get their own styles; every other non-empty label gets the "Hold" style. */
  lemma RecommendationBadgeStyles(name: string)
    requires name != ""
    ensures RecommendationBadge(Some("Strong Buy")).value.style == STRONG_BUY_STYLE
    ensures RecommendationBadge(Some("Buy")).value.style == BUY_STYLE
    ensures RecommendationBadge(Some("Hold")).value.style == HOLD_STYLE
    ensures RecommendationBadge(Some("Pass")).value.style == PASS_STYLE
    ensures name !in {"Strong Buy", "Buy", "Hold", "Pass"} ==>
      RecommendationBadge(Some(name)) == Some(Badge(HOLD_STYLE, name))
  {
  }

  /** The written lookup and the intended one differ only on the inherited names. */
  lemma AsWrittenAgreesOffPrototype(recommendation: Option<string>)
    ensures recommendation.None? || recommendation.value !in OBJECT_PROTOTYPE_KEYS ==>
      RecommendationBadgeAsWritten(recommendation) == RecommendationBadge(recommendation)
    ensures recommendation.Some? && recommendation.value in OBJECT_PROTOTYPE_KEYS ==>
      RecommendationBadgeAsWritten(recommendation) != RecommendationBadge(recommendation)
  {
    if recommendation.Some? && recommendation.value in OBJECT_PROTOTYPE_KEYS {
      assert OwnEntry(recommendation.value) == None;
    }
  }

  // ---------------------------------------------------------------------------------------------
  // The page's state
  // ---------------------------------------------------------------------------------------------

  const LOGIN_PATH: string := "/login"
  const FOUNDER_DASHBOARD_PATH: string := "/dashboard/startup"

  /** The analytics page: the listed analyses, the loading flag, the selected analysis and where the
      page navigated to, if anywhere. */
  class AnalyticsPage {
    var analyses: seq<ListedAnalysis>
    var loading: bool
    var selected: Option<ListedAnalysis>
    var navigatedTo: Option<string>

    constructor ()
      ensures analyses == [] && loading && selected == None && navigatedTo == None
    {
      analyses := [];
      loading := true;
      selected := None;
      navigatedTo := None;
    }

    /** `fetchAnalyses`, given the outcome of the query over the table's rows: on success the page
        lists the completed rows newest first and selects the first of them, if any; on failure the
        list and the selection stay as they were. Loading ends either way. */
    method FetchAnalyses(query: Result<seq<ListedAnalysis>>)
      modifies this
      ensures !loading && navigatedTo == old(navigatedTo)
      ensures query.Err? ==> analyses == old(analyses) && selected == old(selected)
      ensures query.Ok? ==> analyses == CompletedNewestFirst(query.value)
      ensures query.Ok? && analyses != [] ==> selected == Some(analyses[0])
      ensures query.Ok? && analyses == [] ==> selected == old(selected)
    {
      if query.Ok? {
        var data := CompletedNewestFirst(query.value);
        analyses := data;
        if |data| > 0 {
          selected := Some(data[0]);
        }
      }
      loading := false;
    }

    /** `checkAccess`: without a user the page goes to the login page, and for a user whose role is
        not investor (or cannot be read) to the founder dashboard; only an investor's visit fetches.
        Returns whether the analyses were fetched. */
    method CheckAccess(userId: Option<string>, role: Option<AppRole>, query: Result<seq<ListedAnalysis>>)
      returns (fetched: bool)
      modifies this
      ensures fetched <==> userId.Some? && role == Some(Investor)
      ensures userId.None? ==> navigatedTo == Some(LOGIN_PATH)
      ensures userId.Some? && role != Some(Investor) ==> navigatedTo == Some(FOUNDER_DASHBOARD_PATH)
      ensures !fetched ==> analyses == old(analyses) && selected == old(selected) && loading == old(loading)
      ensures fetched ==> navigatedTo == old(navigatedTo) && !loading
      ensures fetched && query.Ok? ==> analyses == CompletedNewestFirst(query.value)
      ensures fetched && query.Err? ==> analyses == old(analyses) && selected == old(selected)
      ensures fetched && query.Ok? && analyses != [] ==> selected == Some(analyses[0])
      ensures fetched && query.Ok? && analyses == [] ==> selected == old(selected)
    {
      if userId.None? {
        navigatedTo := Some(LOGIN_PATH);
        return false;
      }
      if role != Some(Investor) {
        navigatedTo := Some(FOUNDER_DASHBOARD_PATH);
        return false;
      }
      FetchAnalyses(query);
      fetched := true;
    }

    /** Clicking a listed analysis selects it. */
    method Select(i: nat)
      requires i < |analyses|
      modifies this
      ensures analyses == old(analyses) && loading == old(loading) && navigatedTo == old(navigatedTo)
      ensures selected == Some(analyses[i])
    {
      selected := Some(analyses[i]);
    }
  }
}
