/**
 * The lead form's state: the cursor into the current plan, the answers, the
 * chosen bill file and the error banner, and the handlers that change them.
 * Each handler is one atomic update of that state.
 */
module LeadAgentState {
  import opened Wrappers
  import opened StepPlanner
  import opened Uploads
  import Form = FormAnswers
  import PlanProperties
  import Submission

  class LeadAgent {
    /** Index of the question on screen within the current plan. */
    var step: nat
    var answers: Form.Answers
    var billFile: Option<BillFile>
    var error: string

    constructor()
      ensures step == 0 && answers == Form.Initial && billFile == None && error == ""
    {
      step := 0;
      answers := Form.Initial;
      billFile := None;
      error := "";
    }

    /**
     * The question the cursor points at. Nothing keeps the cursor inside the
     * plan when an answer shortens it, so there may be none.
     */
    function CurrentStep(): (q: Option<Question>)
      reads this
      ensures q.Some? <==> step < |Plan(answers)|
      ensures q.Some? ==> q.value == Plan(answers)[step]
    {
      if step < |Plan(answers)| then Some(Plan(answers)[step]) else None
    }

    /** The cursor lies within the current plan. */
    predicate InPlan()
      reads this
    {
      step < |Plan(answers)|
    }

    /** Moves to the next question unless the cursor is already on the last one or beyond. */
    method HandleNext()
      modifies this
      ensures answers == old(answers) && billFile == old(billFile)
      ensures old(step) < |Plan(answers)| - 1 ==> step == old(step) + 1 && error == ""
      ensures old(step) >= |Plan(answers)| - 1 ==> step == old(step) && error == old(error)
      ensures old(InPlan()) ==> InPlan()
    {
      var visibleSteps := GetVisibleSteps(answers);
      if step < |visibleSteps| - 1 {
        step := step + 1;
        error := "";
      }
    }

    /** Moves back one question unless the cursor is on the first. */
    method HandlePrevious()
      modifies this
      ensures answers == old(answers) && billFile == old(billFile)
      ensures old(step) > 0 ==> step == old(step) - 1 && error == ""
      ensures old(step) == 0 ==> step == 0 && error == old(error)
      ensures old(InPlan()) ==> InPlan()
    {
      if step > 0 {
        step := step - 1;
        error := "";
      }
    }

    /** Records one answer; the cursor stays where it was. */
    method HandleInputChange(f: Form.Field, v: string)
      modifies this
      ensures answers == Form.With(old(answers), f, v)
      ensures Form.Get(answers, f) == Some(v)
      ensures forall g :: g != f ==> Form.Get(answers, g) == Form.Get(old(answers), g)
      ensures step == old(step) && billFile == old(billFile) && error == old(error)
      ensures !PlanProperties.Steers(f) ==> CurrentStep() == old(CurrentStep())
    {
      if !PlanProperties.Steers(f) {
        PlanProperties.TextInputKeepsPlan(answers, f, v);
      }
      answers := Form.With(answers, f, v);
    }

    /** Keeps the file picked, if one was; cancelling the picker changes nothing. */
    method HandleFileChange(picked: Option<BillFile>)
      modifies this
      ensures billFile == if picked.Some? then picked else old(billFile)
      ensures step == old(step) && answers == old(answers) && error == old(error)
    {
      if picked.Some? {
        billFile := picked;
      }
    }

    /** The request body the submit handler sends for the current state. */
    method FormDataToSend() returns (entries: seq<Submission.Entry>)
      ensures entries == Submission.Submitted(answers, billFile)
    {
      entries := Submission.FormDataToSend(answers, billFile);
    }
  }

  /**
   * Answering the electricity meter question moves the display on by itself:
   * the cursor stays put and now points at the follow-up question.
   */
  method AnswerMeterQuestion(agent: LeadAgent, v: string)
    requires agent.answers.serviceType == Some("Electricity") && agent.answers.meterNumber == None
    requires agent.CurrentStep() == Some(MeterNumberQuestion)
    modifies agent
    ensures agent.step == old(agent.step)
    ensures agent.CurrentStep() == Some(if v == "yes" then FullMeterNumber else PropertyAddress)
  {
    PlanProperties.MeterAnswerShowsFollowUp(agent.answers, agent.step, v);
    agent.HandleInputChange(Form.MeterNumber, v);
  }
}
