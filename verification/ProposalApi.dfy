/** The entry points of the proposal services: every request reaches one service method, and the
    row then holds the record that the rules give. */
module ProposalApi {
  import opened Common
  import opened Bookings
  import opened Proposals
  import opened ProposalStore
  import Ed = EditingRules
  import W = WorkflowRules
  import EditingService
  import WorkflowService

  method Edit(row: ProposalRow, op: Ed.EditingOp, others: seq<Booking>) returns (r: Reply)
    modifies row
    ensures r == Ed.Apply(old(row.Value()), op, others).Reply()
    ensures row.Value() == After(old(row.Value()), Ed.Apply(old(row.Value()), op, others))
    ensures old(Sound(row.Value())) ==> Sound(row.Value())
  {
    ghost var before := row.Value();
    match op {
      case UpdateDraftOp(actor, expected, patch) => r := EditingService.UpdateDraft(row, actor, expected, patch);
      case CreateVenueOp(actor, slot, audience, hall, now) =>
        r := EditingService.CreateVenueRequest(row, actor, slot, audience, hall, now, others);
      case UpdateVenueOp(actor, venue, hall) =>
        r := EditingService.UpdateVenueRequest(row, actor, venue, hall, others);
      case DeleteVenueOp(actor) => r := EditingService.DeleteVenueRequest(row, actor);
      case CreateBudgetOp(actor, income, contribution, items) =>
        r := EditingService.CreateBudgetProposal(row, actor, income, contribution, items);
      case EditBudgetOp(actor, edit) => r := EditingService.EditBudget(row, actor, edit);
      case DeleteBudgetOp(actor) => r := EditingService.DeleteBudgetProposal(row, actor);
      case VerifyBudgetOp(mark) => r := EditingService.VerifyBudget(row, mark);
    }
    if Sound(before) {
      Ed.EditKeepsSound(before, op, others);
    }
  }

  method Review(row: ProposalRow, op: W.WorkflowOp, others: seq<Booking>) returns (r: Reply)
    modifies row
    ensures r == W.Apply(old(row.Value()), op, others).Reply()
    ensures row.Value() == After(old(row.Value()), W.Apply(old(row.Value()), op, others))
    ensures old(Sound(row.Value())) ==> Sound(row.Value())
  {
    ghost var before := row.Value();
    match op {
      case SubmitProposalOp(actor, template) => r := WorkflowService.SubmitProposal(row, actor, template);
      case ApproveStepOp(inst, order, actor) => r := WorkflowService.ApproveStep(row, inst, order, actor, others);
      case RejectStepOp(inst, order, actor, reason) =>
        r := WorkflowService.RejectStep(row, inst, order, actor, reason);
      case RequestRevisionOp(inst, order, actor, reason) =>
        r := WorkflowService.RequestRevision(row, inst, order, actor, reason);
      case CancelProposalOp(actor) => r := WorkflowService.CancelProposal(row, actor);
    }
    if Sound(before) {
      W.StepKeepsSound(before, op, others);
    }
  }
}
