/**
 * The two colour lookups of lib/utils.ts: an agent status or a risk level,
 * lower-cased first, is mapped to a pair of CSS class names.
 */
module Utils {

  // The class strings the lookups return.
  const SuccessColor: string := "text-success bg-success/10"
  const WarningColor: string := "text-warning bg-warning/10"
  const MutedColor: string := "text-muted-foreground bg-muted"
  const DestructiveColor: string := "text-destructive bg-destructive/10"
  const PrimaryColor: string := "text-defi-primary bg-defi-primary/10"

  /** Lower-cases one character; only the ASCII letters A-Z change. */
  function LowerChar(c: char): (r: char)
    ensures 'A' <= c <= 'Z' ==> r as int == c as int + 32
    ensures !('A' <= c <= 'Z') ==> r == c
    ensures !('A' <= r <= 'Z')
  {
    if 'A' <= c <= 'Z' then (c as int + 32) as char else c
  }

  /** `toLowerCase()` restricted to ASCII letters. */
  function Lower(s: string): (r: string)
    ensures |r| == |s|
    ensures forall i :: 0 <= i < |s| ==> r[i] == LowerChar(s[i])
  {
    seq(|s|, i requires 0 <= i < |s| => LowerChar(s[i]))
  }

  /** A string that lower-casing leaves alone. */
  predicate IsLower(s: string) {
    forall i :: 0 <= i < |s| ==> !('A' <= s[i] <= 'Z')
  }

  /** Lower-casing leaves no upper-case letter, and fixes lower-case strings. */
  lemma LowerFixesLower(s: string)
    ensures IsLower(Lower(s))
    ensures IsLower(s) ==> Lower(s) == s
  {
  }

  /** Lower-casing twice is lower-casing once. */
  lemma LowerIdempotent(s: string)
    ensures Lower(Lower(s)) == Lower(s)
  {
    LowerFixesLower(s);
    LowerFixesLower(Lower(s));
  }

  /** `getStatusColor`: switch on the lower-cased status. */
  function GetStatusColor(status: string): (r: string)
    ensures r in {SuccessColor, WarningColor, MutedColor, DestructiveColor, PrimaryColor}
    ensures r == MutedColor <==> Lower(status) == "stopped" || Lower(status) !in StatusColors
  {
    match Lower(status)
    case "active" => SuccessColor
    case "paused" => WarningColor
    case "stopped" => MutedColor
    case "error" => DestructiveColor
    case "created" => PrimaryColor
    case _ => MutedColor
  }

  /** `getRiskColor`: switch on the lower-cased risk level. */
  function GetRiskColor(risk: string): (r: string)
    ensures r in {SuccessColor, WarningColor, DestructiveColor, MutedColor}
    ensures r == MutedColor <==> Lower(risk) !in RiskColors
  {
    match Lower(risk)
    case "low" => SuccessColor
    case "medium" => WarningColor
    case "high" => DestructiveColor
    case _ => MutedColor
  }

  /** The status table as data: the five known statuses and their colours. */
  const StatusColors: map<string, string> := map[
    "active" := SuccessColor,
    "paused" := WarningColor,
    "stopped" := MutedColor,
    "error" := DestructiveColor,
    "created" := PrimaryColor]

  /** The risk table as data: the three known levels and their colours. */
  const RiskColors: map<string, string> := map[
    "low" := SuccessColor,
    "medium" := WarningColor,
    "high" := DestructiveColor]

  /**
   * `getStatusColor` is a lookup of the lower-cased status in the status
   * table, falling back to the muted colour.
   */
  lemma StatusColorIsTableLookup(status: string)
    ensures GetStatusColor(status)
      == if Lower(status) in StatusColors then StatusColors[Lower(status)] else MutedColor
  {
  }

  /** The same for `getRiskColor` and the risk table. */
  lemma RiskColorIsTableLookup(risk: string)
    ensures GetRiskColor(risk)
      == if Lower(risk) in RiskColors then RiskColors[Lower(risk)] else MutedColor
  {
  }

  /** Spellings with the same lower-case form get the same colours. */
  lemma ColorsIgnoreCase(s: string, t: string)
    requires Lower(s) == Lower(t)
    ensures GetStatusColor(s) == GetStatusColor(t)
    ensures GetRiskColor(s) == GetRiskColor(t)
  {
  }

  /** In particular a string and its lower-case form get the same colours. */
  lemma ColorsOfLowered(s: string)
    ensures GetStatusColor(Lower(s)) == GetStatusColor(s)
    ensures GetRiskColor(Lower(s)) == GetRiskColor(s)
  {
    LowerIdempotent(s);
    ColorsIgnoreCase(Lower(s), s);
  }

  /** An unknown status gets the same colour as `stopped`, the muted one. */
  lemma UnknownStatusIsMuted(status: string)
    requires Lower(status) !in StatusColors
    ensures GetStatusColor(status) == GetStatusColor("stopped") == MutedColor
  {
    StatusColorIsTableLookup(status);
    LowerFixesLower("stopped");
  }

  /** An unknown risk level gets the muted colour too. */
  lemma UnknownRiskIsMuted(risk: string)
    requires Lower(risk) !in RiskColors
    ensures GetRiskColor(risk) == MutedColor
  {
    RiskColorIsTableLookup(risk);
  }

  /** A word without upper-case letters is looked up as it is. */
  lemma ColorsOfLowerWord(w: string)
    requires IsLower(w)
    ensures GetStatusColor(w) == if w in StatusColors then StatusColors[w] else MutedColor
    ensures GetRiskColor(w) == if w in RiskColors then RiskColors[w] else MutedColor
  {
    LowerFixesLower(w);
    StatusColorIsTableLookup(w);
    RiskColorIsTableLookup(w);
  }

  /** Matching risk and status colours are the same strings. */
  lemma RiskColorsMatchStatusColors()
    ensures GetRiskColor("low") == GetStatusColor("active") == SuccessColor
    ensures GetRiskColor("medium") == GetStatusColor("paused") == WarningColor
    ensures GetRiskColor("high") == GetStatusColor("error") == DestructiveColor
  {
    ColorsOfLowerWord("low");
    ColorsOfLowerWord("active");
    ColorsOfLowerWord("medium");
    ColorsOfLowerWord("paused");
    ColorsOfLowerWord("high");
    ColorsOfLowerWord("error");
  }

  /** An upper-case spelling is looked up like the lower-case one. */
  lemma UpperCaseSpelling()
    ensures GetRiskColor("HIGH") == GetStatusColor("Error") == DestructiveColor
  {
    assert Lower("HIGH") == "high";
    assert Lower("Error") == "error";
    RiskColorsMatchStatusColors();
    ColorsIgnoreCase("HIGH", "high");
    ColorsIgnoreCase("Error", "error");
  }
}
