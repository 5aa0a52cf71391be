/** The table of job contexts and its limit on active jobs (src/context/manager.rs). */
module ContextManager {
  import opened Wrappers
  import opened JobState

  type JobId = nat

  type Contexts = map<JobId, Job>

  datatype ContextError = MaxJobsExceeded(max: nat) | NotFound(id: JobId)

  function Active(c: Contexts): set<JobId> {
    set id | id in c && IsActive(c[id].state)
  }

  /** The table after `op` ran on the context of `id`, if there is one. */
  function Updated(c: Contexts, id: JobId, op: JobOp): Contexts {
    if id in c then c[id := Apply(c[id], op)] else c
  }

  /** A terminal job never becomes active again, so an update adds no active job. */
  lemma UpdateAddsNoActive(c: Contexts, id: JobId, op: JobOp)
    ensures Active(Updated(c, id, op)) <= Active(c)
    ensures |Active(Updated(c, id, op))| <= |Active(c)|
  {
    SubsetSize(Active(Updated(c, id, op)), Active(c));
  }

  lemma RemoveAddsNoActive(c: Contexts, id: JobId)
    ensures Active(c - {id}) <= Active(c)
    ensures |Active(c - {id})| <= |Active(c)|
  {
    SubsetSize(Active(c - {id}), Active(c));
  }

  lemma CreateAddsOne(c: Contexts, id: JobId)
    requires id !in c
    ensures |Active(c[id := NewJob()])| == |Active(c)| + 1
  {
    assert Active(c[id := NewJob()]) == Active(c) + {id};
  }

  lemma {:induction false} SubsetSize<T>(a: set<T>, b: set<T>)
    requires a <= b
    ensures |a| <= |b|
  {
    if a != {} {
      var x :| x in a;
      SubsetSize(a - {x}, b - {x});
    }
  }

  class Manager {
    var contexts: Contexts
    var nextId: JobId
    const maxJobs: nat

    ghost predicate Valid()
      reads this
    {
      && (forall id :: id in contexts ==> id < nextId)
      && |Active(contexts)| <= maxJobs
    }

    constructor (maxJobs: nat)
      ensures Valid() && contexts == map[] && this.maxJobs == maxJobs
    {
      contexts, nextId, this.maxJobs := map[], 0, maxJobs;
    }

    method CreateJobForUser() returns (r: Result<JobId, ContextError>)
      requires Valid()
      modifies this
      ensures Valid()
      ensures r.Ok? <==> |Active(old(contexts))| < maxJobs
      ensures r.Ok? ==> r.value !in old(contexts) && contexts == old(contexts)[r.value := NewJob()]
      ensures r.Err? ==> r.error == MaxJobsExceeded(maxJobs) && contexts == old(contexts)
    {
      var activeCount := |Active(contexts)|;
      if activeCount >= maxJobs {
        return Err(MaxJobsExceeded(maxJobs));
      }
      var jobId := nextId;
      CreateAddsOne(contexts, jobId);
      nextId := nextId + 1;
      contexts := contexts[jobId := NewJob()];
      return Ok(jobId);
    }

    method UpdateContext(id: JobId, op: JobOp) returns (r: Result<Job, ContextError>)
      requires Valid()
      modifies this
      ensures Valid()
      ensures contexts == Updated(old(contexts), id, op)
      ensures r == if id in old(contexts) then Ok(Apply(old(contexts)[id], op)) else Err(NotFound(id))
    {
      if id !in contexts {
        return Err(NotFound(id));
      }
      UpdateAddsNoActive(contexts, id, op);
      var context := Apply(contexts[id], op);
      contexts := contexts[id := context];
      return Ok(context);
    }

    method RemoveJob(id: JobId) returns (r: Result<Job, ContextError>)
      requires Valid()
      modifies this
      ensures Valid()
      ensures contexts == old(contexts) - {id}
      ensures r == if id in old(contexts) then Ok(old(contexts)[id]) else Err(NotFound(id))
    {
      if id !in contexts {
        return Err(NotFound(id));
      }
      RemoveAddsNoActive(contexts, id);
      r := Ok(contexts[id]);
      contexts := contexts - {id};
    }
  }
}
