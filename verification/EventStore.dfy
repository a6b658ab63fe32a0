/** The mutable rows of one confirmed event. The settlement and the cash advance are rows
    updated in place; the ledgers, payments and histories are lists reassigned by the services. */
module EventStore {
  import opened Common
  import opened Ledger
  import opened Fingerprint
  import opened EventFiles

  class AdvanceRow {
    var requested: int
    var approved: Option<int>
    var disbursed: int
    var status: AdvanceStatus
    const recipient: nat

    constructor (requested: int, recipient: nat)
      ensures Value() == Advance(requested, None, 0, Requested, recipient)
    {
      this.requested, this.approved, this.disbursed := requested, None, 0;
      this.status, this.recipient := Requested, recipient;
    }

    function Value(): Advance
      reads this
    {
      Advance(requested, approved, disbursed, status, recipient)
    }
  }

  /** The sanctioned snapshot and the computed figures are only ever replaced as a whole, when
      the settlement is prepared; status and auditor move on their own. */
  class SettlementRow {
    var sanction: Sanction
    var figures: Figures
    var status: SettlementStatus
    var preparedBy: nat
    var auditedBy: Option<nat>
    var fingerprint: Canonical

    constructor (sanction: Sanction, figures: Figures, preparedBy: nat, fingerprint: Canonical)
      ensures Value() == Settlement(sanction, figures, Drafted, preparedBy, None, fingerprint)
    {
      this.sanction, this.figures := sanction, figures;
      status, this.preparedBy, auditedBy, this.fingerprint := Drafted, preparedBy, None, fingerprint;
    }

    /** Preparing a reopened settlement again renews everything but the last auditor. */
    method Recompile(sanction: Sanction, figures: Figures, preparedBy: nat, fingerprint: Canonical)
      modifies this
      ensures Value() == Settlement(sanction, figures, Drafted, preparedBy, old(auditedBy), fingerprint)
    {
      this.sanction := sanction;
      this.figures := figures;
      status := Drafted;
      this.preparedBy := preparedBy;
      this.fingerprint := fingerprint;
    }

    function Value(): Settlement
      reads this
    {
      Settlement(sanction, figures, status, preparedBy, auditedBy, fingerprint)
    }
  }

  class Store {
    const startTime: int
    const sanction: Option<Sanction>
    var status: EventStatus
    var report: Option<Report>
    var expenses: seq<Expense>
    var incomes: seq<Income>
    var advance: AdvanceRow?
    var settlement: SettlementRow?
    var payments: seq<Payment>
    var revisions: seq<SettlementRevision>
    var closure: Option<Closure>
    var closureRevisions: seq<ClosureRevision>

    constructor (startTime: int, sanction: Option<Sanction>)
      ensures File() == Opened(startTime, sanction)
      ensures fresh(Rows())
    {
      this.startTime, this.sanction := startTime, sanction;
      status, report, expenses, incomes := Scheduled, None, [], [];
      advance, settlement := null, null;
      payments, revisions, closure, closureRevisions := [], [], None, [];
    }

    ghost function Rows(): set<object>
      reads this
    {
      {this} + (if advance == null then {} else {advance}) + (if settlement == null then {} else {settlement})
    }

    /** The record these rows hold. */
    function File(): EventFile
      reads this, advance, settlement
    {
      EventFile(startTime, sanction, status, report, expenses, incomes,
                if advance == null then None else Some(advance.Value()),
                if settlement == null then None else Some(settlement.Value()),
                payments, revisions, closure, closureRevisions)
    }
  }
}
