// Pipeline definitions and their validation (definition/pipelines.go).
module Definitions {
  import opened Basics

  datatype TaskDef = TaskDef(
    script: seq<string>,
    dependsOn: seq<string>,
    allowFailure: bool,
    env: map<string, string>)

  datatype QueueStrategy = Append | Replace | PartitionedReplace

  datatype PipelineDef = PipelineDef(
    concurrency: int,
    queueLimit: Option<int>,
    queuePartitionLimit: Option<int>,
    queueStrategy: QueueStrategy,
    startDelay: int,
    continueRunningTasksAfterFailure: bool,
    retentionPeriod: int,
    retentionCount: int,
    tasks: map<string, TaskDef>,
    env: map<string, string>)

  type PipelinesMap = map<string, PipelineDef>

  datatype DefError =
    | Concurrency
    | NegativeQueueLimit
    | NegativeStartDelay
    | DelayWithoutQueue
    | QueueLimitWithPartitions
    | PartitionLimit
    | PartitionLimitWithoutPartitions
    | MissingTask(task: string)

  /** Every dependency names a task of the same pipeline. */
  ghost predicate TasksClosed(tasks: map<string, TaskDef>) {
    forall t, d | t in tasks && d in tasks[t].dependsOn :: d in tasks
  }

  ghost predicate Accepted(d: PipelineDef) {
    && d.concurrency > 0
    && (d.queueLimit.Some? ==> d.queueLimit.value >= 0)
    && d.startDelay >= 0
    && (d.startDelay > 0 ==> d.queueLimit != Some(0))
    && (if d.queueStrategy.PartitionedReplace?
        then d.queueLimit.None? && d.queuePartitionLimit.Some? && d.queuePartitionLimit.value >= 1
        else d.queuePartitionLimit.None?)
    && TasksClosed(d.tasks)
  }

  /** What is wrong with a definition, each fault on its own. */
  ghost predicate Faulty(d: PipelineDef, e: DefError) {
    match e
    case Concurrency => d.concurrency <= 0
    case NegativeQueueLimit => d.queueLimit.Some? && d.queueLimit.value < 0
    case NegativeStartDelay => d.startDelay < 0
    case DelayWithoutQueue => d.startDelay > 0 && d.queueLimit == Some(0)
    case QueueLimitWithPartitions => d.queueStrategy.PartitionedReplace? && d.queueLimit.Some?
    case PartitionLimit =>
      d.queueStrategy.PartitionedReplace? && (d.queuePartitionLimit.None? || d.queuePartitionLimit.value < 1)
    case PartitionLimitWithoutPartitions => !d.queueStrategy.PartitionedReplace? && d.queuePartitionLimit.Some?
    case MissingTask(task) => task !in d.tasks && exists t | t in d.tasks :: task in d.tasks[t].dependsOn
  }

  /** The order in which the faults are looked for. */
  function Turn(e: DefError): nat {
    match e
    case Concurrency => 0
    case NegativeQueueLimit => 1
    case NegativeStartDelay => 2
    case DelayWithoutQueue => 3
    case QueueLimitWithPartitions => 4
    case PartitionLimit => 5
    case PartitionLimitWithoutPartitions => 6
    case MissingTask(_) => 7
  }

  /** Exactly the acceptable definitions pass, and of several faults the first one is reported. */
  method Validate(d: PipelineDef) returns (err: Option<DefError>)
    ensures err.None? <==> Accepted(d)
    ensures err.Some? ==> Faulty(d, err.value) && forall e | Turn(e) < Turn(err.value) :: !Faulty(d, e)
  {
    if d.concurrency <= 0 { return Some(Concurrency); }
    if d.queueLimit.Some? && d.queueLimit.value < 0 { return Some(NegativeQueueLimit); }
    if d.startDelay < 0 { return Some(NegativeStartDelay); }
    if d.startDelay > 0 && d.queueLimit == Some(0) { return Some(DelayWithoutQueue); }
    if d.queueStrategy.PartitionedReplace? {
      if d.queueLimit.Some? { return Some(QueueLimitWithPartitions); }
      if d.queuePartitionLimit.None? || d.queuePartitionLimit.value < 1 { return Some(PartitionLimit); }
    } else if d.queuePartitionLimit.Some? {
      return Some(PartitionLimitWithoutPartitions);
    }
    var todo := d.tasks.Keys;
    while todo != {}
      invariant todo <= d.tasks.Keys
      invariant forall t, x | t in d.tasks && t !in todo && x in d.tasks[t].dependsOn :: x in d.tasks
    {
      var t :| t in todo;
      var deps := d.tasks[t].dependsOn;
      for i := 0 to |deps|
        invariant forall k | 0 <= k < i :: deps[k] in d.tasks
      {
        if deps[i] !in d.tasks { return Some(MissingTask(deps[i])); }
      }
      todo := todo - {t};
    }
    return None;
  }

  /** setDefaults: a concurrency of 0 means 1. */
  method SetDefaults(defs: PipelinesMap) returns (r: PipelinesMap)
    ensures r.Keys == defs.Keys
    ensures forall p | p in defs ::
      r[p] == defs[p].(concurrency := if defs[p].concurrency == 0 then 1 else defs[p].concurrency)
  {
    r := defs;
    var todo := defs.Keys;
    while todo != {}
      invariant todo <= defs.Keys == r.Keys
      invariant forall p | p in defs && p in todo :: r[p] == defs[p]
      invariant forall p | p in defs && p !in todo ::
        r[p] == defs[p].(concurrency := if defs[p].concurrency == 0 then 1 else defs[p].concurrency)
    {
      var p :| p in todo;
      if r[p].concurrency == 0 {
        r := r[p := r[p].(concurrency := 1)];
      }
      todo := todo - {p};
    }
  }

  /** What the queue strategies rely on beyond validation: replace reads queue_limit. */
  ghost predicate Usable(d: PipelineDef) {
    Accepted(d) && (d.queueStrategy.Replace? ==> d.queueLimit.Some?)
  }
}
