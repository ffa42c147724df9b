/**
 * The job entity as the storage adapter and the machine see it. Job.java, JobName.java and the
 * Machine, Person, TimeStamp and Tag classes a job refers to are not part of this model: a job
 * is a value holding those fields, and the referenced entities are opaque values.
 */
module Jobs {
  import NameConstraint

  datatype Priority = NORMAL | URGENT

  datatype Status = QUEUED | ONGOING | FINISHED | CANCELLED

  datatype Tag = Tag(tagName: string)

  datatype TimeStamp = TimeStamp(time: string)

  /** The machine a job is assigned to, identified by value. */
  datatype MachineRef = MachineRef(machineName: string)

  /** The person who owns a job, identified by value. */
  datatype PersonRef = PersonRef(personName: string)

  /** A JobName holds a string of the common name format. */
  type JobName = s: string | NameConstraint.MatchesNameRegex(s) witness "job"

  /** The fields in the order of the Job constructor that storage calls. */
  datatype Job = Job(
    name: JobName,
    machine: MachineRef,
    owner: PersonRef,
    addedTime: string,
    startTime: TimeStamp,
    priority: Priority,
    status: Status,
    duration: real,
    note: string,
    tags: set<Tag>)

  /** A job counts towards a machine's workload while it is queued or running. */
  predicate IsActive(s: Status) {
    s == ONGOING || s == QUEUED
  }
}
