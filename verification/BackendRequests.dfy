/** The requests the backend hands to the scheduler use each prefix key with one length. */
module BackendRequests {
  import opened KvInvariant
  import opened PrefixKey
  import opened Scheduler
  import opened SchedulerCache
  import opened SchedulerTheorems
  import opened SchedulerTrace

  /** A prompt as the backend submits it to the scheduler. */
  datatype Job = Job(id: string, tokens: seq<int>)

  function ToRequest(job: Job, maxTokens: int, prefixTokens: int): Request {
    var key := KeyOf(job.tokens, prefixTokens);
    Request(job.id, |job.tokens|, maxTokens, 0, key, if key == "" then -1 else prefixTokens)
  }

  function ToRequests(jobs: seq<Job>, maxTokens: int, prefixTokens: int): (r: seq<Request>)
    ensures |r| == |jobs|
  {
    seq(|jobs|, i requires 0 <= i < |jobs| => ToRequest(jobs[i], maxTokens, prefixTokens))
  }

  /** The backend's own batches use every prefix key with one length. */
  lemma BackendKeysAgree(jobs: seq<Job>, maxTokens: int, prefixTokens: int)
    ensures RequestKeysAgree(ToRequests(jobs, maxTokens, prefixTokens))
  {
    var requests := ToRequests(jobs, maxTokens, prefixTokens);
    forall i | 0 <= i < |requests|
      ensures SharedTokens(requests[i]) > 0 ==> SharedTokens(requests[i]) == prefixTokens
    {
    }
  }

  /** So after a backend's run, however it ends, the occupied blocks are exactly those of cached prefixes. */
  lemma BackendLeaksNothing(jobs: seq<Job>, maxTokens: int, prefixTokens: int, config: Config, cancelled: nat -> bool)
    ensures var kv := FullRun(config, ToRequests(jobs, maxTokens, prefixTokens), cancelled).0.kv;
            && kv.sequences == map[]
            && forall b: nat | b < |kv.blocks| :: kv.blocks[b].occupied <==> b in CachedBlocks(kv)
  {
    hide *;
    BackendKeysAgree(jobs, maxTokens, prefixTokens);
    ResourceReturnTheorem(config, ToRequests(jobs, maxTokens, prefixTokens), cancelled);
  }
}
