/** The job registry `scheduledJobs` (src/services/cron.ts:8, and its older
    copy at src/cron.ts:7): a dictionary from `"reminder-" + id` to a started
    job that can be stopped. Every started job gets a fresh timer number;
    `running` holds the timers that are neither stopped nor fired. */
module Jobs {
  import opened Types

  /** The registry key of the reminder with id `id`. */
  function JobKey(id: string): (k: string)
    ensures |k| == 9 + |id| && k[9..] == id
  {
    "reminder-" + id
  }

  /** Different reminders never share a key. */
  lemma JobKeyInjective(a: string, b: string)
    requires JobKey(a) == JobKey(b)
    ensures a == b
  {
    assert a == JobKey(a)[9..] == JobKey(b)[9..] == b;
  }

  /** A started job: its timer, the reminder its callback was built with, and
      the delay (milliseconds from arming to firing) it was started with. */
  datatype Job = Job(timer: nat, reminder: Reminder, delay: int)

  datatype Registry = Registry(jobs: map<string, Job>, running: set<nat>, created: nat) {
    /** Timers are numbered below `created`, and no two keys share one. */
    ghost predicate Valid() {
      && (forall k :: k in jobs ==> jobs[k].timer < created)
      && (forall t :: t in running ==> t < created)
      && (forall k1, k2 :: k1 in jobs && k2 in jobs && k1 != k2 ==> jobs[k1].timer != jobs[k2].timer)
    }

    /** `t` belongs to no key: the registry can no longer reach it. */
    ghost predicate Unreachable(t: nat) {
      forall k :: k in jobs ==> jobs[k].timer != t
    }
  }

  const Empty := Registry(map[], {}, 0)

  /** `scheduledJobs[key] = job` for a new, started job. An earlier job under
      `key` is overwritten and NOT stopped. */
  function ArmJob(reg: Registry, key: string, r: Reminder, delay: int): (reg': Registry)
    ensures key in reg'.jobs
    ensures reg.Valid() ==> reg'.jobs[key].timer !in reg.running && reg.Unreachable(reg'.jobs[key].timer)
    ensures reg'.jobs[key].timer in reg'.running
    ensures reg'.jobs[key].reminder == r && reg'.jobs[key].delay == delay
    ensures reg.running <= reg'.running
    ensures reg'.jobs.Keys == reg.jobs.Keys + {key}
    ensures forall k :: k in reg.jobs && k != key ==> reg'.jobs[k] == reg.jobs[k]
    ensures reg.Valid() ==> reg'.Valid()
  {
    Registry(reg.jobs[key := Job(reg.created, r, delay)], reg.running + {reg.created}, reg.created + 1)
  }

  /** `scheduledJobs[key].stop(); delete scheduledJobs[key]`. */
  function StopJob(reg: Registry, key: string): (reg': Registry)
    requires key in reg.jobs
    ensures reg'.jobs == reg.jobs - {key}
    ensures reg'.running == reg.running - {reg.jobs[key].timer}
    ensures reg.Valid() ==> reg'.Valid()
  {
    Registry(reg.jobs - {key}, reg.running - {reg.jobs[key].timer}, reg.created)
  }

  /** `delete scheduledJobs[key]`: the job is forgotten but keeps running. */
  function ForgetJob(reg: Registry, key: string): (reg': Registry)
    ensures reg'.jobs == reg.jobs - {key} && reg'.running == reg.running
    ensures reg.Valid() ==> reg'.Valid()
  {
    reg.(jobs := reg.jobs - {key})
  }

  /** A timer fires: a one-shot job runs once and is then finished. */
  function CompleteJob(reg: Registry, t: nat): (reg': Registry)
    ensures reg'.jobs == reg.jobs && reg'.running == reg.running - {t}
    ensures reg.Valid() ==> reg'.Valid()
  {
    reg.(running := reg.running - {t})
  }

  /** Re-arming a key whose job is still running leaves that job running with
      no key left to stop it through. */
  lemma ReArmOrphansRunningJob(reg: Registry, key: string, r: Reminder, delay: int)
    requires reg.Valid() && key in reg.jobs && reg.jobs[key].timer in reg.running
    ensures reg.jobs[key].timer in ArmJob(reg, key, r, delay).running
    ensures ArmJob(reg, key, r, delay).Unreachable(reg.jobs[key].timer)
    ensures ArmJob(reg, key, r, delay).jobs[key].timer != reg.jobs[key].timer
  {
  }

  /** The registry object; `scheduledJobs` is module-level mutable state in
      the source. */
  class JobRegistry {
    var jobs: map<string, Job>
    var running: set<nat>
    var created: nat

    function State(): Registry
      reads this
    {
      Registry(jobs, running, created)
    }

    constructor ()
      ensures State() == Empty
    {
      jobs, running, created := map[], {}, 0;
    }

    method Arm(key: string, r: Reminder, delay: int)
      modifies this
      ensures State() == ArmJob(old(State()), key, r, delay)
    {
      jobs := jobs[key := Job(created, r, delay)];
      running := running + {created};
      created := created + 1;
    }

    method StopAndDelete(key: string)
      requires key in jobs
      modifies this
      ensures State() == StopJob(old(State()), key)
    {
      running := running - {jobs[key].timer};
      jobs := jobs - {key};
    }

    method Delete(key: string)
      modifies this
      ensures State() == ForgetJob(old(State()), key)
    {
      jobs := jobs - {key};
    }

    method Complete(t: nat)
      modifies this
      ensures State() == CompleteJob(old(State()), t)
    {
      running := running - {t};
    }
  }
}
