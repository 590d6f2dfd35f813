/** The tables the request protocol reads and writes, and the repository statements over them as functions. */
module Tables {
  import opened Workflow

  type Id = nat
  type Time = int

  datatype InstanceStatus = InProgress | AwaitingApproval | Completed | Rejected | Cancelled | Failed {
    predicate Terminal() {
      Completed? || Rejected? || Cancelled? || Failed?
    }
  }

  datatype CatalogItem = CatalogItem(active: bool, definitionId: Id)

  datatype Instance = Instance(
    definitionId: Id,
    requester: Id,
    status: InstanceStatus,
    stepId: StepId,
    answers: Answers,
    completedAt: Option<Time>)

  datatype ApprovalStatus = Pending | Approved | Rejected | Expired

  datatype Approval = Approval(
    instanceId: Id,
    stepId: StepId,
    approver: Id,
    status: ApprovalStatus,
    comment: Option<string>,
    decidedAt: Option<Time>,
    expiresAt: Option<Time>)

  /** `stepId` is the `SubmitTicket` step being served; the stored row does not keep it. */
  datatype Ticket = Ticket(instanceId: Id, stepId: StepId, sent: bool)

  datatype Tables = Tables(
    items: map<Id, CatalogItem>,
    definitions: map<Id, Graph>,
    instances: map<Id, Instance>,
    approvals: map<Id, Approval>,
    tickets: seq<Ticket>)

  function InsertInstance(t: Tables, id: Id, definitionId: Id, requester: Id, stepId: StepId): Tables {
    t.(instances := t.instances[id :=
      Instance(definitionId, requester, InstanceStatus.InProgress, stepId, map[], None)])
  }

  /** An unguarded UPDATE: it touches nothing when the row is missing. */
  function UpdateProgress(t: Tables, id: Id, stepId: StepId, answers: Answers, status: InstanceStatus, now: Time): Tables {
    if id !in t.instances then t
    else
      var row := t.instances[id];
      t.(instances := t.instances[id := row.(
        stepId := stepId,
        answers := answers,
        status := status,
        completedAt := if status.Terminal() then Some(now) else row.completedAt)])
  }

  function InsertApproval(t: Tables, id: Id, instanceId: Id, stepId: StepId, approver: Id, expiresAt: Option<Time>): Tables {
    t.(approvals := t.approvals[id := Approval(instanceId, stepId, approver, Pending, None, None, expiresAt)])
  }

  predicate IsPending(t: Tables, id: Id) {
    id in t.approvals && t.approvals[id].status.Pending?
  }

  /** The compare-and-set: only a pending row changes. */
  function FlipApproval(t: Tables, id: Id, status: ApprovalStatus, comment: Option<string>, now: Time): Tables {
    if IsPending(t, id)
    then t.(approvals := t.approvals[id := t.approvals[id].(status := status, comment := comment, decidedAt := Some(now))])
    else t
  }

  predicate HasExpired(a: Approval, now: Time) {
    a.status.Pending? && a.expiresAt.Some? && a.expiresAt.value <= now
  }

  function ExpiredIds(t: Tables, now: Time): set<Id> {
    set id | id in t.approvals && HasExpired(t.approvals[id], now)
  }

  /** An answer to the expiry query: each matching row once, in whatever order the database chose. */
  ghost predicate IsListing(t: Tables, now: Time, listing: seq<Id>) {
    && (forall id :: id in listing <==> id in ExpiredIds(t, now))
    && (forall i, j :: 0 <= i < j < |listing| ==> listing[i] != listing[j])
  }

  /** The database handle the server passes around. */
  class Database {
    var items: map<Id, CatalogItem>
    var definitions: map<Id, Graph>
    var instances: map<Id, Instance>
    var approvals: map<Id, Approval>
    var tickets: seq<Ticket>

    ghost function Contents(): Tables
      reads this
    {
      Tables(items, definitions, instances, approvals, tickets)
    }

    constructor (items: map<Id, CatalogItem>, definitions: map<Id, Graph>)
      ensures Contents() == Tables(items, definitions, map[], map[], [])
    {
      this.items := items;
      this.definitions := definitions;
      instances := map[];
      approvals := map[];
      tickets := [];
    }

    method CreateInstance(id: Id, definitionId: Id, requester: Id, entryStepId: StepId)
      requires id !in instances
      modifies this`instances
      ensures Contents() == InsertInstance(old(Contents()), id, definitionId, requester, entryStepId)
    {
      instances := instances[id := Instance(definitionId, requester, InstanceStatus.InProgress, entryStepId, map[], None)];
    }

    method SaveProgress(id: Id, stepId: StepId, answers: Answers, status: InstanceStatus, now: Time)
      returns (row: Option<Instance>)
      modifies this`instances
      ensures Contents() == UpdateProgress(old(Contents()), id, stepId, answers, status, now)
      ensures row == if id in instances then Some(instances[id]) else None
    {
      var isTerminal := status.Completed? || status.Rejected? || status.Cancelled? || status.Failed?;
      if id in instances {
        var completedAt := if isTerminal then Some(now) else instances[id].completedAt;
        instances := instances[id :=
          instances[id].(stepId := stepId, answers := answers, status := status, completedAt := completedAt)];
        row := Some(instances[id]);
      } else {
        row := None;
      }
    }

    method CreateApproval(id: Id, instanceId: Id, stepId: StepId, approver: Id, expiresAt: Option<Time>)
      requires id !in approvals
      modifies this`approvals
      ensures Contents() == InsertApproval(old(Contents()), id, instanceId, stepId, approver, expiresAt)
    {
      approvals := approvals[id := Approval(instanceId, stepId, approver, Pending, None, None, expiresAt)];
    }

    method Decide(id: Id, status: ApprovalStatus, comment: Option<string>, now: Time) returns (flipped: bool)
      modifies this`approvals
      ensures Contents() == FlipApproval(old(Contents()), id, status, comment, now)
      ensures flipped == (id in old(approvals) && old(approvals)[id].status.Pending?)
      ensures flipped ==> approvals == old(approvals)[id :=
                            old(approvals)[id].(status := status, comment := comment, decidedAt := Some(now))]
      ensures !flipped ==> approvals == old(approvals)
    {
      flipped := id in approvals && approvals[id].status.Pending?;
      if flipped {
        approvals := approvals[id := approvals[id].(status := status, comment := comment, decidedAt := Some(now))];
      }
    }

    method ListExpired(now: Time) returns (listing: seq<Id>)
      ensures IsListing(Contents(), now, listing)
      ensures forall id :: id in listing <==>
                && id in approvals && approvals[id].status == ApprovalStatus.Pending
                && approvals[id].expiresAt.Some? && approvals[id].expiresAt.value <= now
    {
      listing := [];
      var rest := set id | id in approvals && HasExpired(approvals[id], now);
      ghost var all := ExpiredIds(Contents(), now);
      while rest != {}
        invariant rest <= all
        invariant forall id :: id in listing <==> id in all && id !in rest
        invariant forall i, j :: 0 <= i < j < |listing| ==> listing[i] != listing[j]
        decreases rest
      {
        var id :| id in rest;
        ghost var before := listing;
        listing := listing + [id];
        rest := rest - {id};
        assert forall k :: k in listing <==> k in before || k == id;
      }
    }

    method AddTicket(ticket: Ticket)
      modifies this`tickets
      ensures tickets == old(tickets) + [ticket]
    {
      tickets := tickets + [ticket];
    }
  }
}
