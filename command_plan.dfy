/**
  `CoreAIAgent.process_request`: a command line is lower-cased and matched against a fixed,
  ordered list of command prefixes; the first prefix that matches gives the one-step plan.
*/
module CommandPlan {
  import opened Wrappers
  import opened Text

  datatype Step = Step(tool: string, action: string)

  datatype Command = Command(prefix: string, step: Step)

  /** The prefix branches of `process_request`, in the order they are tried. */
  const Commands: seq<Command> := [
    Command("audit document", Step("DocAuditAgent", "audit_document")),
    Command("send reminder", Step("ClientCommAgent", "send_reminder")),
    Command("bookbotagent categorize", Step("BookBotAgent", "categorize")),
    Command("bookbotagent pnl", Step("BookBotAgent", "pnl")),
    Command("bookbotagent journalize", Step("BookBotAgent", "journalize")),
    Command("compliance run_checks", Step("ComplianceCheckAgent", "run_checks")),
    Command("gstagent anomalies", Step("GSTAgent", "detect_anomalies")),
    Command("gstagent query", Step("GSTAgent", "query")),
    Command("gstagent summarize", Step("GSTAgent", "summarize")),
    Command("insight summarize_period", Step("InsightBotAgent", "summarize_period")),
    Command("insight top_customers", Step("InsightBotAgent", "top_customers")),
    Command("insight anomaly_scan", Step("InsightBotAgent", "anomaly_scan")),
    Command("insight ai_summary", Step("InsightBotAgent", "ai_summary")),
    Command("insight ai_explain_anomalies", Step("InsightBotAgent", "ai_explain_anomalies")),
    Command("insight ai_forecast", Step("InsightBotAgent", "ai_forecast")),
    Command("insight ai_query", Step("InsightBotAgent", "ai_query")),
    Command("taxbot extract", Step("TaxBot", "extract")),
    Command("taxbot calculate", Step("TaxBot", "calculate")),
    Command("taxbot autofill", Step("TaxBot", "autofill")),
    Command("taxbot remind", Step("TaxBot", "remind")),
    Command("taxbot ai-summarize", Step("TaxBot", "ai-summarize")),
    Command("taxbot ai-categorize", Step("TaxBot", "ai-categorize")),
    Command("taxbot ai-check-deductions", Step("TaxBot", "ai-check-deductions"))
  ]

  /** The tools a plan can name. */
  const Tools: set<string> := {"DocAuditAgent", "ClientCommAgent", "BookBotAgent", "ComplianceCheckAgent",
                               "GSTAgent", "InsightBotAgent", "TaxBot"}

  /** The index of the first command of `cs` from `from` on whose prefix starts `line`. */
  function FirstCommand(line: string, cs: seq<Command>, from: nat): (r: Option<nat>)
    requires from <= |cs|
    ensures r.Some? ==>
      && from <= r.value < |cs|
      && StartsWith(line, cs[r.value].prefix)
      && (forall j :: from <= j < r.value ==> !StartsWith(line, cs[j].prefix))
    ensures r.None? ==> forall j :: from <= j < |cs| ==> !StartsWith(line, cs[j].prefix)
    decreases |cs| - from
  {
    if from == |cs| then None
    else if StartsWith(line, cs[from].prefix) then Some(from)
    else FirstCommand(line, cs, from + 1)
  }

  /** Command `i` is the first whose prefix starts `line`. */
  predicate FirstMatch(line: string, i: int) {
    && 0 <= i < |Commands|
    && StartsWith(line, Commands[i].prefix)
    && (forall j :: 0 <= j < i ==> !StartsWith(line, Commands[j].prefix))
  }

  /** `process_request`: the step of the first matching prefix, or the empty plan. */
  function ProcessRequest(input: string): (plan: seq<Step>)
    ensures |plan| <= 1
    ensures plan == [] <==> forall j :: 0 <= j < |Commands| ==> !StartsWith(Lower(input), Commands[j].prefix)
    ensures plan != [] ==> exists i :: FirstMatch(Lower(input), i) && plan[0] == Commands[i].step
  {
    match FirstCommand(Lower(input), Commands, 0)
    case Some(i) => [Commands[i].step]
    case None => []
  }

  /** Every plan step names one of the seven tools. */
  lemma PlanTools(input: string)
    ensures forall s :: s in ProcessRequest(input) ==> s.tool in Tools
  {
    assert forall i :: 0 <= i < |Commands| ==> Commands[i].step.tool in Tools;
  }

  /** Matching ignores letter case. */
  lemma CaseInsensitive(input: string)
    ensures ProcessRequest(Lower(input)) == ProcessRequest(input)
  {
    LowerIdempotent(input);
  }

  /** Text already in lower case is its own lower-casing. */
  lemma LowerUnchanged(s: string)
    requires forall i :: 0 <= i < |s| ==> !IsUpper(s[i])
    ensures Lower(s) == s
  {
  }

  /** The letters a command can start with. */
  const Initials: set<char> := {'a', 's', 'b', 'c', 'g', 'i', 't'}

  /** A line whose first letter starts no command gets the empty plan, which the caller
      reports as an unknown command. */
  lemma UnknownInitialNoPlan(input: string)
    requires input != [] && LowerChar(input[0]) !in Initials
    ensures ProcessRequest(input) == []
  {
    var line := Lower(input);
    assert line[0] == LowerChar(input[0]);
    forall j | 0 <= j < |Commands|
      ensures !StartsWith(line, Commands[j].prefix)
    {
      CommandInitial(j);
    }
  }

  /** Every command prefix starts with one of the initials. */
  lemma CommandInitial(j: nat)
    requires j < |Commands|
    ensures Commands[j].prefix != [] && Commands[j].prefix[0] in Initials
  {
  }

  /** "please audit document" is not a command: matching is by prefix, not by occurrence. */
  lemma PrefixNotOccurrence()
    ensures ProcessRequest("please audit document") == []
  {
    UnknownInitialNoPlan("please audit document");
  }

  /** Commands that do not match are skipped. */
  lemma {:induction false} SkipUnmatched(line: string, cs: seq<Command>, from: nat, to: nat)
    requires from <= to <= |cs|
    requires forall j :: from <= j < to ==> !StartsWith(line, cs[j].prefix)
    ensures FirstCommand(line, cs, from) == FirstCommand(line, cs, to)
    decreases (to as int) - (from as int)
  {
    if from < to {
      SkipUnmatched(line, cs, from + 1, to);
    }
  }

  /** "gstagent anomalies ..." plans GSTAgent's detect_anomalies. */
  lemma GstAnomalies(rest: string)
    requires forall i :: 0 <= i < |rest| ==> !IsUpper(rest[i])
    ensures ProcessRequest("gstagent anomalies" + rest) == [Step("GSTAgent", "detect_anomalies")]
  {
    var line := "gstagent anomalies" + rest;
    LowerUnchanged(line);
    PrefixOfAppend("gstagent anomalies", rest);
    MatchesSeventh(line);
    CommandSix();
  }

  lemma PrefixOfAppend(p: string, rest: string)
    ensures StartsWith(p + rest, p)
  {
    assert (p + rest)[..|p|] == p;
  }

  /** A line that starts with "gstagent anomalies" matches the seventh command first. */
  lemma MatchesSeventh(line: string)
    requires StartsWith(line, "gstagent anomalies")
    ensures FirstCommand(line, Commands, 0) == Some(6)
  {
    assert line[0] == line[..18][0] == 'g';
    forall j | 0 <= j < 6
      ensures !StartsWith(line, Commands[j].prefix)
    {
      EarlyInitials(j);
    }
    SkipUnmatched(line, Commands, 0, 6);
    CommandSix();
  }

  /** The six commands before the GST agent's do not start with 'g'. */
  lemma EarlyInitials(j: nat)
    requires j < 6
    ensures Commands[j].prefix != [] && Commands[j].prefix[0] != 'g'
  {
  }

  /** The seventh command is the anomalies command of the GST agent. */
  lemma CommandSix()
    ensures Commands[6] == Command("gstagent anomalies", Step("GSTAgent", "detect_anomalies"))
  {
  }
}
