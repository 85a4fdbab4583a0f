/**
 * The moderation decision of the OpenAI moderation client: the per-category
 * threshold and punishment table, the inclusive comparison against a score
 * rounded to three decimals, and the two lookups over a moderation result
 * (a score by wire name, and the names of the categories flagged true).
 *
 * Scores are reals; after rounding they are whole thousandths, and the
 * thresholds are whole thousandths too.
 */
module Moderation {
  import opened Wrappers

  /** The eleven moderation categories, in declaration order. */
  datatype Category =
    | Harassment | HarassmentThreatening | Hate | HateThreatening
    | SelfHarm | SelfHarmInstructions | SelfHarmIntent
    | Sexual | SexualMinors | Violence | ViolenceGraphic

  const AllCategories: seq<Category> :=
    [Harassment, HarassmentThreatening, Hate, HateThreatening,
     SelfHarm, SelfHarmInstructions, SelfHarmIntent,
     Sexual, SexualMinors, Violence, ViolenceGraphic]

  /** The name a category has on the wire (the serde rename where there is one). */
  function WireName(c: Category): string {
    match c
    case Harassment => "harassment"
    case HarassmentThreatening => "harassment/threatening"
    case Hate => "hate"
    case HateThreatening => "hate/threatening"
    case SelfHarm => "self-harm"
    case SelfHarmInstructions => "self-harm/instructions"
    case SelfHarmIntent => "self-harm/intent"
    case Sexual => "sexual"
    case SexualMinors => "sexual/minors"
    case Violence => "violence"
    case ViolenceGraphic => "violence/graphic"
  }

  /** The category a wire name denotes, if any. */
  function CategoryNamed(name: string): (r: Option<Category>)
    ensures r.Some? ==> WireName(r.value) == name
    ensures r.None? ==> forall c: Category :: WireName(c) != name
  {
    if name == "harassment" then Some(Harassment)
    else if name == "harassment/threatening" then Some(HarassmentThreatening)
    else if name == "hate" then Some(Hate)
    else if name == "hate/threatening" then Some(HateThreatening)
    else if name == "self-harm" then Some(SelfHarm)
    else if name == "self-harm/instructions" then Some(SelfHarmInstructions)
    else if name == "self-harm/intent" then Some(SelfHarmIntent)
    else if name == "sexual" then Some(Sexual)
    else if name == "sexual/minors" then Some(SexualMinors)
    else if name == "violence" then Some(Violence)
    else if name == "violence/graphic" then Some(ViolenceGraphic)
    else None
  }

  /** Every category is found again under its wire name, so no two categories share a name. */
  lemma CategoryNamedWireName(c: Category)
    ensures CategoryNamed(WireName(c)) == Some(c)
  {
  }

  lemma WireNameInjective(c: Category, d: Category)
    ensures WireName(c) == WireName(d) ==> c == d
  {
    CategoryNamedWireName(c);
    CategoryNamedWireName(d);
  }

  // ----- the decision table

  /** `PunishmentAction`; `NoPunishment` is the variant the source calls `None`. */
  datatype PunishmentAction = Timeout(seconds: nat) | Ban | Delete | Warn | NoPunishment

  /** The default threshold of a category, in thousandths. */
  function Threshold(c: Category): int {
    match c
    case Harassment => 950
    case HarassmentThreatening => 970
    case Hate => 550
    case HateThreatening => 960
    case SelfHarm => 980
    case SelfHarmInstructions => 970
    case SelfHarmIntent => 950
    case Sexual => 880
    case SexualMinors => 500
    case Violence => 950
    case ViolenceGraphic => 990
  }

  function Punishment(c: Category): PunishmentAction {
    match c
    case Harassment => Warn
    case HarassmentThreatening => Ban
    case Hate => Timeout(60)
    case HateThreatening => Ban
    case SelfHarm => Delete
    case SelfHarmInstructions => Delete
    case SelfHarmIntent => Timeout(120)
    case Sexual => Delete
    case SexualMinors => Ban
    case Violence => Timeout(30)
    case ViolenceGraphic => Delete
  }

  /** The threshold (in thousandths) and punishment chosen for a category name; an unknown name gets 0 and no punishment. */
  function Rule(category: string): (rule: (int, PunishmentAction))
    ensures CategoryNamed(category).None? ==> rule == (0, NoPunishment)
    ensures CategoryNamed(category).Some? ==> 500 <= rule.0 <= 990 && rule.1 != NoPunishment
  {
    match CategoryNamed(category)
    case None => (0, NoPunishment)
    case Some(c) => (Threshold(c), Punishment(c))
  }

  /** The table, as it is keyed by wire name. */
  lemma RuleTableHarassmentHate()
    ensures Rule("harassment") == (950, Warn)
    ensures Rule("harassment/threatening") == (970, Ban)
    ensures Rule("hate") == (550, Timeout(60))
    ensures Rule("hate/threatening") == (960, Ban)
  {
  }

  lemma RuleTableSelfHarm()
    ensures Rule("self-harm") == (980, Delete)
    ensures Rule("self-harm/instructions") == (970, Delete)
    ensures Rule("self-harm/intent") == (950, Timeout(120))
  {
  }

  lemma RuleTableSexualViolence()
    ensures Rule("sexual") == (880, Delete)
    ensures Rule("sexual/minors") == (500, Ban)
    ensures Rule("violence") == (950, Timeout(30))
    ensures Rule("violence/graphic") == (990, Delete)
  {
  }

  // ----- rounding to three decimals

  /**
   * `round_to_decimal_places`: `v` rounded to the nearest thousandth, halves
   * away from zero (`f64::round`), given as a whole number of thousandths.
   */
  function RoundToThousandths(v: real): (n: int)
    ensures v >= 0.0 ==> n as real - 0.5 <= v * 1000.0 < n as real + 0.5
    ensures v < 0.0 ==> n as real - 0.5 < v * 1000.0 <= n as real + 0.5
  {
    var x := v * 1000.0;
    if x >= 0.0 then (x + 0.5).Floor else -((0.5 - x).Floor)
  }

  /** Rounding is monotone. */
  lemma RoundMonotone(u: real, v: real)
    requires u <= v
    ensures RoundToThousandths(u) <= RoundToThousandths(v)
  {
  }

  // ----- the decision

  datatype FlaggedMessage = FlaggedMessage(username: string, userId: string, text: string, category: string, score: real)

  /** What `moderate_input` reports: flagged with the punishment to issue, or not flagged; both carry the rounded score. */
  datatype Verdict = Flagged(rounded: int, punishment: PunishmentAction) | NotFlagged(rounded: int)

  function ModerateInput(m: FlaggedMessage): (v: Verdict)
    ensures v.rounded == RoundToThousandths(m.score)
    ensures v.Flagged? ==> v.punishment == Rule(m.category).1
  {
    var (threshold, punishment) := Rule(m.category);
    var rounded := RoundToThousandths(m.score);
    if rounded >= threshold then Flagged(rounded, punishment) else NotFlagged(rounded)
  }

  /**
   * For a known category, a message is flagged exactly when its raw score,
   * in thousandths, reaches the threshold less half a thousandth; the
   * punishment is the category's.
   */
  lemma FlaggedIffScoreReachesThreshold(m: FlaggedMessage, c: Category)
    requires CategoryNamed(m.category) == Some(c)
    ensures ModerateInput(m).Flagged? <==> m.score * 1000.0 + 0.5 >= Threshold(c) as real
    ensures ModerateInput(m).Flagged? ==> ModerateInput(m).punishment == Punishment(c)
  {
    var n := RoundToThousandths(m.score);
    assert Threshold(c) >= 500;
    if n >= Threshold(c) {
      assert m.score * 1000.0 >= n as real - 0.5;
    }
    if m.score * 1000.0 + 0.5 >= Threshold(c) as real {
      assert m.score * 1000.0 < n as real + 0.5;
    }
  }

  /** The comparison is inclusive: a score exactly at the threshold is flagged. */
  lemma ThresholdIsInclusive(username: string, userId: string, text: string, c: Category)
    ensures ModerateInput(FlaggedMessage(username, userId, text, WireName(c), Threshold(c) as real / 1000.0)) == Flagged(Threshold(c), Punishment(c))
  {
    CategoryNamedWireName(c);
    var m := FlaggedMessage(username, userId, text, WireName(c), Threshold(c) as real / 1000.0);
    assert m.score * 1000.0 == Threshold(c) as real;
    FlaggedIffScoreReachesThreshold(m, c);
  }

  /** An unknown category name is flagged, with no punishment, whenever the score rounds to a non-negative value. */
  lemma UnknownCategoryFlagged(m: FlaggedMessage)
    requires CategoryNamed(m.category).None?
    ensures ModerateInput(m).Flagged? <==> m.score * 1000.0 > -0.5
    ensures ModerateInput(m).Flagged? ==> ModerateInput(m).punishment == NoPunishment
  {
  }

  /** A higher score in the same category is flagged whenever a lower one is. */
  lemma FlaggingIsMonotone(m: FlaggedMessage, score: real)
    requires m.score <= score
    ensures ModerateInput(m).Flagged? ==> ModerateInput(m.(score := score)).Flagged?
  {
    RoundMonotone(m.score, score);
  }

  /** Only the category and the score decide; who wrote the message and what it says do not. */
  lemma VerdictIgnoresAuthorAndText(m: FlaggedMessage, username: string, userId: string, text: string)
    ensures ModerateInput(m.(username := username, userId := userId, text := text)) == ModerateInput(m)
  {
  }

  // ----- the moderation result and its two lookups

  datatype ModerationScores = ModerationScores(
    harassment: real, harassmentThreatening: real, hate: real, hateThreatening: real,
    selfHarm: real, selfHarmInstructions: real, selfHarmIntent: real,
    sexual: real, sexualMinors: real, violence: real, violenceGraphic: real)

  /** The field of `s` that holds the score of `c`. */
  function ScoreOf(s: ModerationScores, c: Category): real {
    match c
    case Harassment => s.harassment
    case HarassmentThreatening => s.harassmentThreatening
    case Hate => s.hate
    case HateThreatening => s.hateThreatening
    case SelfHarm => s.selfHarm
    case SelfHarmInstructions => s.selfHarmInstructions
    case SelfHarmIntent => s.selfHarmIntent
    case Sexual => s.sexual
    case SexualMinors => s.sexualMinors
    case Violence => s.violence
    case ViolenceGraphic => s.violenceGraphic
  }

  /** `get_score`: the score stored under a wire name, and 0.0 for any other string. */
  function GetScore(s: ModerationScores, field: string): (r: real)
    ensures CategoryNamed(field).Some? ==> r == ScoreOf(s, CategoryNamed(field).value)
    ensures CategoryNamed(field).None? ==> r == 0.0
  {
    if field == "harassment" then s.harassment
    else if field == "harassment/threatening" then s.harassmentThreatening
    else if field == "hate" then s.hate
    else if field == "hate/threatening" then s.hateThreatening
    else if field == "self-harm" then s.selfHarm
    else if field == "self-harm/instructions" then s.selfHarmInstructions
    else if field == "self-harm/intent" then s.selfHarmIntent
    else if field == "sexual" then s.sexual
    else if field == "sexual/minors" then s.sexualMinors
    else if field == "violence" then s.violence
    else if field == "violence/graphic" then s.violenceGraphic
    else 0.0
  }

  datatype ModerationCategories = ModerationCategories(
    harassment: bool, harassmentThreatening: bool, hate: bool, hateThreatening: bool,
    selfHarm: bool, selfHarmInstructions: bool, selfHarmIntent: bool,
    sexual: bool, sexualMinors: bool, violence: bool, violenceGraphic: bool)

  function FlagOf(f: ModerationCategories, c: Category): bool {
    match c
    case Harassment => f.harassment
    case HarassmentThreatening => f.harassmentThreatening
    case Hate => f.hate
    case HateThreatening => f.hateThreatening
    case SelfHarm => f.selfHarm
    case SelfHarmInstructions => f.selfHarmInstructions
    case SelfHarmIntent => f.selfHarmIntent
    case Sexual => f.sexual
    case SexualMinors => f.sexualMinors
    case Violence => f.violence
    case ViolenceGraphic => f.violenceGraphic
  }

  /**
   * The JSON object the categories serialize to, as its (key, value) entries in
   * iteration order. The map is ordered by key, and the wire names in
   * declaration order are already in ascending order, so this is declaration order.
   */
  function Serialized(f: ModerationCategories): (entries: seq<(string, bool)>)
    ensures |entries| == |AllCategories|
    ensures forall i :: 0 <= i < |entries| ==> entries[i] == (WireName(AllCategories[i]), FlagOf(f, AllCategories[i]))
  {
    seq(|AllCategories|, i requires 0 <= i < |AllCategories| => (WireName(AllCategories[i]), FlagOf(f, AllCategories[i])))
  }

  /** `a` and `b` agree on their first `k` characters, and there `a` ends or has the smaller character. */
  predicate LessAt(a: string, b: string, k: nat) {
    k <= |a| && k < |b| && a[..k] == b[..k] && (k == |a| || a[k] < b[k])
  }

  /** Strict lexicographic order on strings, the order of the keys of a JSON object map. */
  ghost predicate LexLess(a: string, b: string) {
    exists k: nat :: LessAt(a, b, k)
  }

  /**
   * The wire names in declaration order are in ascending key order, so the
   * serialized map iterates in declaration order.
   */
  lemma WireNamesAscending()
    ensures LexLess("harassment", "harassment/threatening")
    ensures LexLess("harassment/threatening", "hate")
    ensures LexLess("hate", "hate/threatening")
    ensures LexLess("hate/threatening", "self-harm")
    ensures LexLess("self-harm", "self-harm/instructions")
    ensures LexLess("self-harm/instructions", "self-harm/intent")
    ensures LexLess("self-harm/intent", "sexual")
    ensures LexLess("sexual", "sexual/minors")
    ensures LexLess("sexual/minors", "violence")
    ensures LexLess("violence", "violence/graphic")
  {
    assert LessAt("harassment", "harassment/threatening", 10);
    assert LessAt("harassment/threatening", "hate", 2);
    assert LessAt("hate", "hate/threatening", 4);
    assert LessAt("hate/threatening", "self-harm", 0);
    assert LessAt("self-harm", "self-harm/instructions", 9);
    assert LessAt("self-harm/instructions", "self-harm/intent", 12);
    assert LessAt("self-harm/intent", "sexual", 2);
    assert LessAt("sexual", "sexual/minors", 6);
    assert LessAt("sexual/minors", "violence", 0);
    assert LessAt("violence", "violence/graphic", 8);
  }

  /** The keys of the entries whose value is true, in entry order. */
  function TrueKeys(entries: seq<(string, bool)>): seq<string>
    decreases |entries|
  {
    if entries == [] then []
    else
      var last := entries[|entries| - 1];
      TrueKeys(entries[..|entries| - 1]) + if last.1 then [last.0] else []
  }

  lemma {:induction false} TrueKeysMembership(entries: seq<(string, bool)>, name: string)
    ensures name in TrueKeys(entries) <==> exists i :: 0 <= i < |entries| && entries[i] == (name, true)
    decreases |entries|
  {
    if entries != [] {
      var init := entries[..|entries| - 1];
      TrueKeysMembership(init, name);
      if exists i :: 0 <= i < |init| && init[i] == (name, true) {
        var i :| 0 <= i < |init| && init[i] == (name, true);
        assert entries[i] == (name, true);
      }
      if exists i :: 0 <= i < |entries| && entries[i] == (name, true) {
        var i :| 0 <= i < |entries| && entries[i] == (name, true);
        if i < |init| {
          assert init[i] == (name, true);
        }
      }
    }
  }

  /** Distinct keys give distinct true keys. */
  lemma {:induction false} TrueKeysDistinct(entries: seq<(string, bool)>)
    requires forall i, j :: 0 <= i < j < |entries| ==> entries[i].0 != entries[j].0
    ensures var keys := TrueKeys(entries);
            forall i, j :: 0 <= i < j < |keys| ==> keys[i] != keys[j]
    decreases |entries|
  {
    if entries != [] {
      var init := entries[..|entries| - 1];
      var last := entries[|entries| - 1];
      TrueKeysDistinct(init);
      if last.1 {
        TrueKeysMembership(init, last.0);
        assert last.0 !in TrueKeys(init) by {
          forall i | 0 <= i < |init| ensures init[i] != (last.0, true) {
            assert init[i].0 == entries[i].0;
          }
        }
      }
    }
  }

  /** Where a category sits in declaration order. */
  function IndexOf(c: Category): (k: nat)
    ensures k < |AllCategories| && AllCategories[k] == c
  {
    match c
    case Harassment => 0
    case HarassmentThreatening => 1
    case Hate => 2
    case HateThreatening => 3
    case SelfHarm => 4
    case SelfHarmInstructions => 5
    case SelfHarmIntent => 6
    case Sexual => 7
    case SexualMinors => 8
    case Violence => 9
    case ViolenceGraphic => 10
  }

  /** A name is a true key of the serialized categories exactly when it is the wire name of a category flagged true. */
  lemma SerializedTrueKeysMembership(f: ModerationCategories, name: string)
    ensures name in TrueKeys(Serialized(f)) <==> exists c :: WireName(c) == name && FlagOf(f, c)
  {
    var serialized := Serialized(f);
    TrueKeysMembership(serialized, name);
    if exists c :: WireName(c) == name && FlagOf(f, c) {
      var c :| WireName(c) == name && FlagOf(f, c);
      assert serialized[IndexOf(c)] == (name, true);
    }
  }

  /** No wire name appears twice among the true keys. */
  lemma SerializedTrueKeysDistinct(f: ModerationCategories)
    ensures var keys := TrueKeys(Serialized(f));
            forall i, j :: 0 <= i < j < |keys| ==> keys[i] != keys[j]
  {
    var serialized := Serialized(f);
    forall i, j | 0 <= i < j < |serialized| ensures serialized[i].0 != serialized[j].0 {
      WireNameInjective(AllCategories[i], AllCategories[j]);
    }
    TrueKeysDistinct(serialized);
  }

  /**
   * `iterate_and_filter_true`: the wire names of the categories flagged true,
   * each once, in serialization order, and nothing else.
   */
  method IterateAndFilterTrue(f: ModerationCategories) returns (trueFields: seq<string>)
    ensures trueFields == TrueKeys(Serialized(f))
    ensures forall name :: name in trueFields <==> exists c :: WireName(c) == name && FlagOf(f, c)
    ensures forall i, j :: 0 <= i < j < |trueFields| ==> trueFields[i] != trueFields[j]
  {
    var serialized := Serialized(f);
    trueFields := [];
    var i := 0;
    while i < |serialized|
      invariant 0 <= i <= |serialized|
      invariant trueFields == TrueKeys(serialized[..i])
    {
      var (key, value) := serialized[i];
      if value {
        trueFields := trueFields + [key];
      }
      assert serialized[..i + 1][..i] == serialized[..i];
      i := i + 1;
    }
    assert serialized[..i] == serialized;
    forall name ensures name in trueFields <==> exists c :: WireName(c) == name && FlagOf(f, c) {
      SerializedTrueKeysMembership(f, name);
    }
    SerializedTrueKeysDistinct(f);
  }

  // ----- the response of the moderation endpoint

  datatype OpenAiModRes = OpenAiModRes(flagged: bool, categories: ModerationCategories, categoryScores: ModerationScores)

  datatype ModerationResponse = ModerationResponse(id: string, model: string, results: seq<OpenAiModRes>)

  /** Why a moderation request failed; the I/O error's detail is not modelled. */
  datatype ModerationError = IoError | ApiError | ConnectionError
}
