/** The mutable row of one proposal, with its venue request, budget, versions, instances and
    booking. */
module ProposalStore {
  import opened Common
  import opened Bookings
  import opened Proposals
  import Budgets

  class ProposalRow {
    const owner: nat
    var status: ProposalStatus
    var content: Content
    var currentVersion: nat
    var versionLock: nat
    var venue: Option<VenueRequest>
    var budget: Option<Budgets.Budget>
    var versions: seq<Version>
    var instances: seq<Instance>
    var workflow: Option<nat>
    var booking: Option<Booking>
    var confirmed: Option<Confirmed>

    constructor (owner: nat, content: Content)
      ensures Value() == NewDraft(owner, content)
    {
      this.owner, this.content, status := owner, content, Draft;
      currentVersion, versionLock := 0, 0;
      venue, budget, versions, instances := None, None, [], [];
      workflow, booking, confirmed := None, None, None;
    }

    function Value(): Proposal
      reads this
    {
      Proposal(owner, status, content, currentVersion, versionLock, venue, budget, versions, instances,
               workflow, booking, confirmed)
    }
  }
}
