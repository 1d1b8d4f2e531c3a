/** The bridge's `SQLiteStore` as an object: deliveries and task mappings, rewritten in place. */
module BridgeStore {
  import opened Text
  import opened Tables
  import opened Naming
  import opened Mappings
  import D = Deliveries
  import PR = PullRequests
  import W = Webhook

  class SQLiteStore {
    const lease: real
    const retention: nat
    var deliveries: D.Queue<W.Payload>
    var mappings: MappingTable
    var pulls: map<string, PR.Change>   // the pull-request columns, by branch

    constructor (lease: real, retention: nat, mappings: MappingTable)
      ensures this.lease == lease && this.retention == retention && this.mappings == mappings
      ensures deliveries == map[] && pulls == map[]
    {
      this.lease, this.retention, this.mappings := lease, retention, mappings;
      deliveries, pulls := map[], map[];
    }

    // ----- task mappings -----

    /** `_next_task_id`: collects the numbers of all recorded IDs. */
    method NextTaskId() returns (id: string)
      ensures id == NextId(mappings)
    {
      hide Number, Numbered;
      var highest: nat := 0;
      var rows := mappings.Keys;
      ghost var seen: set<string> := {};
      while rows != {}
        invariant rows <= mappings.Keys
        invariant seen == set row | row in mappings && row !in rows :: mappings[row].taskId
        invariant IsHighest(seen, highest)
        decreases |rows|
      {
        var row :| row in rows;
        var taskId := mappings[row].taskId;
        OneMoreId(mappings, rows, row);
        if Number(taskId).Some? && highest < Number(taskId).value { highest := Number(taskId).value; }
        seen := seen + {taskId};
        rows := rows - {row};
      }
      assert seen == TaskIds(mappings);
      HighestIsUnique(seen, highest, Highest(seen));
      id := Numbered(highest + 1);
    }

    method GetOrAllocate(row: string, existing: Option<string>) returns (r: Result<Mapping>)
      modifies this`mappings
      ensures (mappings, r) == Mappings.GetOrAllocate(old(mappings), row, existing)
    {
      hide Numbered, Highest;
      if row in mappings {
        if Given(existing) && mappings[row].taskId != existing.value { return Failure(InvalidValue); }
        return Success(mappings[row]);
      }
      var id;
      if Given(existing) { id := existing.value; } else { id := NextTaskId(); }
      if id in TaskIds(mappings) { return Failure(IntegrityFailure); }
      mappings := mappings[row := Mapping(id, None, None, None, None)];
      r := Success(mappings[row]);
    }

    method ReserveBranch(row: string, branch: string, project: string) returns (r: Result<Mapping>)
      modifies this`mappings
      ensures (mappings, r) == Mappings.ReserveBranch(old(mappings), row, branch, project)
    {
      if row !in mappings { return Failure(Missing); }
      if mappings[row].branch.None? {
        if BranchUsed(mappings, row, branch) { return Failure(IntegrityFailure); }
        mappings := mappings[row := mappings[row].(branch := Some(branch), project := Some(project))];
      } else if mappings[row].project.None? {
        mappings := mappings[row := mappings[row].(project := Some(project))];
      }
      r := Success(mappings[row]);
    }

    method RecordStarter(row: string, starter: string) returns (r: Result<Mapping>)
      modifies this`mappings
      ensures (mappings, r) == Mappings.RecordStarter(old(mappings), row, starter)
    {
      hide IsCommit;
      if !IsCommit(starter) { return Failure(InvalidValue); }
      if row !in mappings { return Failure(Missing); }
      if mappings[row].starter.Some? && mappings[row].starter.value != starter { return Failure(InputChanged); }
      mappings := mappings[row := mappings[row].(starter := Some(starter))];
      r := Success(mappings[row]);
    }

    method RecordBranch(row: string, branch: string, url: string) returns (r: Result<Mapping>)
      modifies this`mappings
      ensures (mappings, r) == Mappings.RecordBranch(old(mappings), row, branch, url)
    {
      if row !in mappings { return Failure(Missing); }
      if BranchUsed(mappings, row, branch) { return Failure(IntegrityFailure); }
      mappings := mappings[row := mappings[row].(branch := Some(branch), url := Some(url))];
      r := Success(mappings[row]);
    }

    method FindByBranch(branch: string) returns (m: Option<Mapping>)
      requires WellFormed(mappings)
      ensures m == MappingOf(mappings, branch)
      ensures m.Some? <==> exists row :: row in mappings && mappings[row].branch == Some(branch)
    {
      var left := mappings.Keys;
      while left != {}
        invariant left <= mappings.Keys
        invariant forall row | row in mappings.Keys - left :: mappings[row].branch != Some(branch)
        decreases |left|
      {
        var row :| row in left;
        if mappings[row].branch == Some(branch) { return Some(mappings[row]); }
        left := left - {row};
      }
      m := None;
    }

    // ----- deliveries -----

    method ClaimDelivery(now: real, token: string, rowid: nat, id: string, event: Option<string>,
        payload: Option<W.Payload>)
      returns (claim: D.Claim)
      modifies this`deliveries
      ensures (deliveries, claim) == D.ClaimDelivery(old(deliveries), now, lease, token, rowid, id, event, payload)
    {
      if id !in deliveries {
        deliveries := deliveries[id :=
          D.Delivery(D.Processing, event, payload, Some(now + lease), Some(token), 0.0, now, None, rowid)];
        return D.Claimed(token);
      }
      var row := deliveries[id];
      if event.Some? && row.event.Some? && row.event != event { return D.Changed; }
      if payload.Some? && row.payload.Some? && row.payload != payload { return D.Changed; }
      if row.status == D.Completed { return D.AlreadyCompleted; }
      if row.expiresAt.Some? && now < row.expiresAt.value { return D.Busy; }
      var kept := row.(event := if row.event.Some? then row.event else event,
                       payload := if row.payload.Some? then row.payload else payload);
      deliveries := deliveries[id := kept.(
        status := D.Processing, expiresAt := Some(now + lease), token := Some(token), completedAt := None)];
      claim := D.Claimed(token);
    }

    /** The due delivery that comes before every other due one, if any is due. */
    method NextDue(now: real) returns (next: Option<string>)
      requires D.DistinctRows(deliveries)
      ensures next.Some? ==> D.IsNext(deliveries, now, next.value)
      ensures next.None? ==> forall id | id in deliveries :: !D.Due(deliveries[id], now)
    {
      hide D.Due, D.Before;
      var left := deliveries.Keys;
      next := None;
      while left != {}
        invariant left <= deliveries.Keys
        invariant next.Some? ==>
          && next.value in deliveries.Keys - left && D.Due(deliveries[next.value], now)
          && forall o | o in deliveries.Keys - left && o != next.value ::
               D.Due(deliveries[o], now) ==> D.Before(deliveries[next.value], deliveries[o])
        invariant next.None? ==> forall o | o in deliveries.Keys - left :: !D.Due(deliveries[o], now)
        decreases |left|
      {
        var id :| id in left;
        left := left - {id};
        if D.Due(deliveries[id], now) {
          if next.None? {
            next := Some(id);
          } else {
            var best := next.value;
            D.BeforeOrder(deliveries[id], deliveries[best], deliveries[id]);
            if D.Before(deliveries[id], deliveries[best]) {
              forall o | o in deliveries.Keys - left && o != id && D.Due(deliveries[o], now)
                ensures D.Before(deliveries[id], deliveries[o])
              {
                D.BeforeOrder(deliveries[id], deliveries[best], deliveries[o]);
              }
              next := Some(id);
            }
          }
        }
      }
    }

    method ClaimNextDelivery(now: real, token: string) returns (next: Option<string>)
      requires D.DistinctRows(deliveries)
      modifies this`deliveries
      ensures deliveries == D.ClaimNextDelivery(old(deliveries), now, lease, token, next)
      ensures next.Some? ==> D.IsNext(old(deliveries), now, next.value)
      ensures next.None? ==> forall id | id in old(deliveries) :: !D.Due(old(deliveries)[id], now)
    {
      hide D.Due, D.Before;
      next := NextDue(now);
      if next.Some? {
        var id := next.value;
        deliveries := deliveries[id := deliveries[id].(status := D.Processing, expiresAt := Some(now + lease), token := Some(token))];
      }
    }

    method CompleteDelivery(id: string, token: string, now: real) returns (completed: bool)
      modifies this`deliveries
      ensures (deliveries, completed) == D.CompleteDelivery(old(deliveries), id, token, now, retention)
    {
      hide D.Pruned;
      completed := D.Holds(deliveries, id, token);
      if !completed { return; }
      deliveries := deliveries[id := deliveries[id].(
        status := D.Completed, event := None, payload := None, expiresAt := None, token := None, completedAt := Some(now))];
      deliveries := D.Pruned(deliveries, retention);
    }

    method ReleaseDelivery(id: string, token: string, delay: real, now: real) returns (released: bool)
      modifies this`deliveries
      ensures (deliveries, released) == D.ReleaseDelivery(old(deliveries), id, token, delay, now)
    {
      released := D.Holds(deliveries, id, token);
      if released {
        deliveries := deliveries[id := deliveries[id].(
          status := D.Pending, expiresAt := None, token := None, nextAttemptAt := now + delay)];
      }
    }

    method RecordPullRequest(branch: string, change: PR.Change)
      modifies this`pulls
      ensures pulls == old(pulls)[branch := change]
    {
      pulls := pulls[branch := change];
    }
  }

  lemma OneMoreId(t: MappingTable, rows: set<string>, row: string)
    requires row in rows && rows <= t.Keys
    ensures
      (set o | o in t && o !in rows - {row} :: t[o].taskId) ==
      (set o | o in t && o !in rows :: t[o].taskId) + {t[row].taskId}
  {}
}
