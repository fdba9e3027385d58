/** The HTTP handlers that read a job, decide, and write it back. */
module Server {
  import opened Jobs
  import opened Store

  datatype Response = Created(row: Row) | Success | BadRequest | NotFound | InternalError

  datatype JobRequest = JobRequest(projectID: string, operation: string, moduleName: string, hooks: Hooks)

  class ApiServer {
    const store: JobStore

    constructor (store: JobStore)
      ensures this.store == store
    {
      this.store := store;
    }

    // `meanwhile` is whatever other actors do to the table between this handler's read and its write; `readable` says
    // whether the read itself succeeds.
    method HandleApproveJob(id: JobId, readable: bool, meanwhile: Table -> Table, fate: Fate)
        returns (response: Response)
      modifies store
      ensures response == NotFound <==> !readable || id !in old(store.table)
      ensures response == BadRequest <==>
                && readable && id in old(store.table)
                && old(store.table)[id].status != Planned
      ensures response == Success <==>
                && readable && id in old(store.table) && fate.Done?
                && old(store.table)[id].status == Planned
      ensures response == InternalError <==>
                && readable && id in old(store.table) && !fate.Done?
                && old(store.table)[id].status == Planned
      ensures var later := meanwhile(old(store.table));
              store.table == if response == NotFound || response == BadRequest then old(store.table)
                             else if fate.Lost? || id !in later then later
                             else later[id := later[id].(status := Approved)]
    {
      var found := store.GetJob(id);
      if !readable || found.Err? {
        return NotFound;
      }
      if found.value.status != Planned {
        return BadRequest;
      }
      store.table := meanwhile(store.table);
      var ok := store.UpdateJobStatus(id, Approved, fate);
      response := if ok then Success else InternalError;
    }

    method HandleDiscardJob(id: JobId, readable: bool, meanwhile: Table -> Table, fate: Fate)
        returns (response: Response)
      modifies store
      ensures response == NotFound <==> !readable || id !in old(store.table)
      ensures response == BadRequest <==>
                && readable && id in old(store.table)
                && old(store.table)[id].status in {Applying, Applied, Failed, Cancelled}
      ensures response == Success <==>
                && readable && id in old(store.table) && fate.Done?
                && old(store.table)[id].status !in {Applying, Applied, Failed, Cancelled}
      ensures response == InternalError <==>
                && readable && id in old(store.table) && !fate.Done?
                && old(store.table)[id].status !in {Applying, Applied, Failed, Cancelled}
      ensures var later := meanwhile(old(store.table));
              store.table == if response == NotFound || response == BadRequest then old(store.table)
                             else if fate.Lost? || id !in later then later
                             else later[id := later[id].(status := Cancelled)]
    {
      var found := store.GetJob(id);
      if !readable || found.Err? {
        return NotFound;
      }
      match found.value.status {
        case Applying => return BadRequest;
        case Applied => return BadRequest;
        case Failed => return BadRequest;
        case Cancelled => return BadRequest;
        case _ =>
      }
      store.table := meanwhile(store.table);
      var ok := store.UpdateJobStatus(id, Cancelled, fate);
      response := if ok then Success else InternalError;
    }

    // The new job is QUEUED iff the project was active when it was read. `id` is the id the database generates.
    method HandleCreateJob(req: JobRequest, id: JobId, now: Time, readable: bool, meanwhile: Table -> Table, fate: Fate)
      returns (response: Response)
      requires id !in meanwhile(store.table)
      modifies store
      ensures response == BadRequest <==> req.projectID == "" || req.operation == "" || req.moduleName == ""
      ensures response == BadRequest || !readable ==> store.table == old(store.table)
      ensures response.Created? <==> response != BadRequest && readable && req.projectID in store.projects && fate.Done?
      ensures response.Created? ==> id in store.table && response.row == Row(id, store.table[id])
      ensures response != NotFound && response != Success
      ensures response != BadRequest && readable ==>
                var t, inserted := meanwhile(old(store.table)), req.projectID in store.projects && !fate.Lost?;
                if !inserted then store.table == t
                else
                  && id in store.table && store.table == t[id := store.table[id]]
                  && store.table[id].project == req.projectID
                  && (store.table[id].operation == Plan <==> req.operation == "plan")
                  && (store.table[id].operation == Apply <==> req.operation == "apply")
                  && (store.table[id].operation == Destroy <==> req.operation == "destroy")
                  && (store.table[id].operation.Unknown? ==> store.table[id].operation == Unknown(req.operation))
                  && store.table[id].hooks == req.hooks && store.table[id].createdAt == now
                  && store.table[id].planPath.None? && store.table[id].planSummary.None?
                  && store.table[id].status ==
                     if exists j :: j in old(store.table) && old(store.table)[j].project == req.projectID
                                    && old(store.table)[j].status !in {Applied, Destroyed, Failed, Cancelled}
                     then Queued else PendingPlan
    {
      if req.projectID == "" || req.operation == "" || req.moduleName == "" {
        return BadRequest;
      }
      var isActive := store.IsProjectActive(req.projectID);
      if !readable {
        return InternalError;
      }
      var status := PendingPlan;
      if isActive {
        status := Queued;
      }
      store.table := meanwhile(store.table);
      var r := store.CreateJob(req.projectID, status, OperationOf(req.operation), req.hooks, id, now, fate);
      response := if r.Ok? then Created(r.value) else InternalError;
    }
  }
}
