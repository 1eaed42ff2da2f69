/**
  `PlanningAndReasoningEngine.create_plan`: a goal is lower-cased and searched for three key
  phrases in a fixed priority order; the first phrase found gives the one-step plan.
*/
module GoalPlan {
  import opened Text

  /** A plan step; `params` is always the empty dictionary. */
  datatype Step = Step(tool: string, action: string, params: map<string, string>)

  /** One entry of the context list the caller passes in. */
  type ContextEntry = map<string, string>

  /** `create_plan`; `context` is accepted and never consulted. */
  function CreatePlan(goal: string, context: seq<ContextEntry>): (plan: seq<Step>)
    ensures |plan| <= 1
    ensures forall s :: s in plan ==> s.params == map[]
    ensures plan == [] <==>
      !Contains(Lower(goal), "calculate taxes") && !Contains(Lower(goal), "gst return") && !Contains(Lower(goal), "audit document")
  {
    var g := Lower(goal);
    if Contains(g, "calculate taxes") then [Step("TaxBotAgent", "calculate_taxes", map[])]
    else if Contains(g, "gst return") then [Step("GSTAgent", "prepare_gst_return", map[])]
    else if Contains(g, "audit document") then [Step("DocAuditAgent", "audit_document", map[])]
    else []
  }

  /** Priority: "calculate taxes" wins over the other phrases, "gst return" over "audit document";
      each phrase plans its own tool and action. */
  lemma Priority(goal: string, context: seq<ContextEntry>)
    ensures Contains(Lower(goal), "calculate taxes") ==>
      CreatePlan(goal, context) == [Step("TaxBotAgent", "calculate_taxes", map[])]
    ensures !Contains(Lower(goal), "calculate taxes") && Contains(Lower(goal), "gst return") ==>
      CreatePlan(goal, context) == [Step("GSTAgent", "prepare_gst_return", map[])]
    ensures !Contains(Lower(goal), "calculate taxes") && !Contains(Lower(goal), "gst return") && Contains(Lower(goal), "audit document") ==>
      CreatePlan(goal, context) == [Step("DocAuditAgent", "audit_document", map[])]
  {
  }

  /** A phrase anywhere in the goal, in any letter case, is found: matching is by occurrence. */
  lemma PhraseAnywhere(before: string, after: string, context: seq<ContextEntry>)
    ensures CreatePlan(before + "Calculate Taxes" + after, context) == [Step("TaxBotAgent", "calculate_taxes", map[])]
  {
    var goal := before + "Calculate Taxes" + after;
    var g := Lower(goal);
    assert g == Lower(before) + Lower("Calculate Taxes") + Lower(after);
    assert Lower("Calculate Taxes") == "calculate taxes";
    assert StartsWith("calculate taxes", "calculate taxes");
    ContainsExtend("calculate taxes", "calculate taxes", Lower(before), Lower(after));
  }

  /** The context never changes the plan. */
  lemma ContextIgnored(goal: string, c1: seq<ContextEntry>, c2: seq<ContextEntry>)
    ensures CreatePlan(goal, c1) == CreatePlan(goal, c2)
  {
  }
}
