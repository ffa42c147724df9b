/**
 * A lab machine: its name, its ENABLED/DISABLED status, the ordered list of jobs assigned to
 * it and its tags, with the three notions of sameness the class defines and the workload query.
 * MachineName is a class here because the machine compares names with Java's `==`, which is
 * reference identity; the name's text is its `fullName`.
 */
module Machines {
  import opened Wrappers
  import opened Jobs
  import NameConstraint

  datatype MachineStatus = ENABLED | DISABLED

  datatype MachineError = InvalidMachineStatus

  /** The outcome of a call that may throw: `Fail` is the thrown exception. */
  datatype Outcome = Pass | Fail(error: MachineError)

  /** A status argument is valid when it is not `null`. */
  predicate IsValidMachineStatus(s: Option<MachineStatus>) {
    s.Some?
  }

  class MachineName {
    const fullName: string

    constructor (name: string)
      ensures fullName == name
    {
      fullName := name;
    }
  }

  /** What one job adds to its machine's workload. */
  function Contribution(job: Job): real {
    if IsActive(job.status) then job.duration else 0.0
  }

  /** The workload of a job list, accumulated front to back as the machine's loop does. */
  function ActiveDuration(jobs: seq<Job>): real
    decreases |jobs|
  {
    if jobs == [] then 0.0
    else ActiveDuration(jobs[..|jobs| - 1]) + Contribution(jobs[|jobs| - 1])
  }

  /** The jobs of a list that are queued or running, in order. */
  function ActiveJobs(jobs: seq<Job>): (r: seq<Job>)
    ensures |r| <= |jobs|
    ensures forall j :: j in r <==> j in jobs && IsActive(j.status)
  {
    if jobs == [] then []
    else if IsActive(jobs[0].status) then [jobs[0]] + ActiveJobs(jobs[1..])
    else ActiveJobs(jobs[1..])
  }

  /** Each queued or running job occurs in the filtered list as often as in the list; no other job does. */
  lemma {:induction false} ActiveJobsCounts(jobs: seq<Job>, j: Job)
    ensures multiset(ActiveJobs(jobs))[j] == if IsActive(j.status) then multiset(jobs)[j] else 0
    decreases |jobs|
  {
    if jobs != [] {
      assert jobs == [jobs[0]] + jobs[1..];
      ActiveJobsCounts(jobs[1..], j);
    }
  }

  /** Filtering a concatenation filters each part and keeps them in order. */
  lemma {:induction false} ActiveJobsAppend(a: seq<Job>, b: seq<Job>)
    ensures ActiveJobs(a + b) == ActiveJobs(a) + ActiveJobs(b)
    decreases |a|
  {
    if a == [] {
      assert a + b == b;
    } else {
      assert (a + b)[0] == a[0] && (a + b)[1..] == a[1..] + b;
      ActiveJobsAppend(a[1..], b);
    }
  }

  function SumOfDurations(jobs: seq<Job>): real {
    if jobs == [] then 0.0 else jobs[0].duration + SumOfDurations(jobs[1..])
  }

  lemma {:induction false} ActiveDurationAppend(a: seq<Job>, b: seq<Job>)
    ensures ActiveDuration(a + b) == ActiveDuration(a) + ActiveDuration(b)
    decreases |b|
  {
    if b == [] {
      assert a + b == a;
    } else {
      var last := |b| - 1;
      assert (a + b)[..|a + b| - 1] == a + b[..last];
      ActiveDurationAppend(a, b[..last]);
    }
  }

  /** The workload is the sum of the durations of exactly the queued and running jobs. */
  lemma {:induction false} ActiveDurationIsSumOfActiveJobs(jobs: seq<Job>)
    ensures ActiveDuration(jobs) == SumOfDurations(ActiveJobs(jobs))
    decreases |jobs|
  {
    if jobs != [] {
      ActiveDurationIsSumOfActiveJobs(jobs[1..]);
      ActiveDurationAppend([jobs[0]], jobs[1..]);
      assert [jobs[0]] + jobs[1..] == jobs;
      assert ActiveDuration([jobs[0]]) == Contribution(jobs[0]);
    }
  }

  /** A finished or cancelled job, wherever it stands in the list, adds nothing. */
  lemma InactiveJobAddsNothing(before: seq<Job>, job: Job, after: seq<Job>)
    requires !IsActive(job.status)
    ensures ActiveDuration(before + [job] + after) == ActiveDuration(before + after)
  {
    ActiveDurationAppend(before + [job], after);
    ActiveDurationAppend(before, after);
    assert (before + [job])[..|before|] == before;
  }

  /** A list with no queued or running job has no workload, in particular the empty list. */
  lemma {:induction false} NoActiveJobsNoWorkload(jobs: seq<Job>)
    requires forall i :: 0 <= i < |jobs| ==> !IsActive(jobs[i].status)
    ensures ActiveDuration(jobs) == 0.0
    decreases |jobs|
  {
    if jobs != [] {
      NoActiveJobsNoWorkload(jobs[..|jobs| - 1]);
    }
  }

  lemma {:induction false} ActiveDurationNonNegative(jobs: seq<Job>)
    requires forall i :: 0 <= i < |jobs| ==> jobs[i].duration >= 0.0
    ensures ActiveDuration(jobs) >= 0.0
    decreases |jobs|
  {
    if jobs != [] {
      ActiveDurationNonNegative(jobs[..|jobs| - 1]);
    }
  }

  function SampleJob(duration: real, status: Status): Job {
    Job("print", MachineRef("ULTIMAKER"), PersonRef("Amy"), "3/10 13:19:20", TimeStamp(""),
        NORMAL, status, duration, "", {})
  }

  /** Durations 5, 10, 3 with statuses QUEUED, FINISHED, ONGOING give a workload of 8. */
  lemma WorkloadExample()
    ensures ActiveDuration([SampleJob(5.0, QUEUED), SampleJob(10.0, FINISHED), SampleJob(3.0, ONGOING)]) == 8.0
  {
    var jobs := [SampleJob(5.0, QUEUED), SampleJob(10.0, FINISHED), SampleJob(3.0, ONGOING)];
    var first := [SampleJob(5.0, QUEUED)];
    assert first[..0] == [];
    assert ActiveDuration(first) == 5.0;
    var firstTwo := first + [SampleJob(10.0, FINISHED)];
    assert firstTwo[..1] == first;
    assert ActiveDuration(firstTwo) == 5.0;
    assert jobs[..2] == firstTwo;
  }

  class Machine {
    var name: MachineName
    var status: MachineStatus
    var jobs: seq<Job>
    var tags: set<Tag>

    /** The full constructor stores exactly what it is given. */
    constructor (name: MachineName, jobs: seq<Job>, tags: set<Tag>, status: MachineStatus)
      ensures this.name == name && this.jobs == jobs && this.tags == tags && this.status == status
    {
      this.name := name;
      this.jobs := jobs;
      this.tags := tags;
      this.status := status;
    }

    /** A new machine of that name: enabled, without jobs and without tags. */
    constructor FromName(machineName: string)
      ensures fresh(name) && name.fullName == machineName
      ensures status == ENABLED && jobs == [] && tags == {}
    {
      var n := new MachineName(machineName);
      name := n;
      status := ENABLED;
      jobs := [];
      tags := {};
    }

    static function IsValidName(test: string): (r: bool)
      ensures r <==> NameConstraint.WellFormedName(test)
    {
      NameConstraint.NameRegexCharacterisation(test);
      NameConstraint.MatchesNameRegex(test)
    }

    /** The same test as IsValidName, under a second name. */
    static function IsValidMachine(test: string): (r: bool)
      ensures r == IsValidName(test)
    {
      NameConstraint.MatchesNameRegex(test)
    }

    function HasJob(job: Job): (r: bool)
      reads this
      ensures r <==> exists i :: 0 <= i < |jobs| && jobs[i] == job
    {
      job in jobs
    }

    /** Appends the job; nothing else about the machine changes. */
    method AddJob(job: Job)
      modifies this
      ensures jobs == old(jobs) + [job]
      ensures HasJob(job)
      ensures forall k :: k in old(jobs) ==> k in jobs
      ensures name == old(name) && status == old(status) && tags == old(tags)
    {
      jobs := jobs + [job];
    }

    /** The weakest sameness: the very same name object. */
    function IsSameNamedMachine(other: Machine): (r: bool)
      reads this, other
      ensures r ==> other.name.fullName == name.fullName
      ensures other == this ==> r
    {
      other.name == name
    }

    /** Sameness used for duplicate checks: the same name object, or equal names and equal job lists. */
    function IsSameMachine(other: Machine): (r: bool)
      reads this, other
      ensures r ==> other.name.fullName == name.fullName
      ensures r ==> other.name == name || other.jobs == jobs
      ensures other.name.fullName == name.fullName && other.jobs == jobs ==> r
      ensures other == this ==> r
    {
      if other.name == name then true
      else other.name.fullName == name.fullName && other.jobs == jobs
    }

    /** Full equality: same object, or equal name, status, job list and tag set. */
    function Equals(other: Machine?): (r: bool)
      reads this, other
      ensures r <==> other != null && other.name.fullName == name.fullName && other.status == status
                     && other.jobs == jobs && other.tags == tags
      ensures other == this ==> r
    {
      if other == this then true
      else other != null && other.name.fullName == name.fullName && other.status == status
           && other.jobs == jobs && other.tags == tags
    }

    /** Value comparison of names: what IsSameNamedMachine is documented to be. */
    function HasSameName(other: Machine): (r: bool)
      reads this, other
      ensures IsSameNamedMachine(other) ==> r
      ensures IsSameMachine(other) ==> r
      ensures Equals(other) ==> r
    {
      other.name.fullName == name.fullName
    }

    /** Stores a valid status and then throws anyway, as the code is written. */
    method SetMachineStatus(machineStatus: Option<MachineStatus>) returns (outcome: Outcome)
      modifies this`status
      ensures outcome == Fail(InvalidMachineStatus)
      ensures status == if IsValidMachineStatus(machineStatus) then machineStatus.value else old(status)
    {
      if IsValidMachineStatus(machineStatus) {
        status := machineStatus.value;
      }
      outcome := Fail(InvalidMachineStatus);
    }

    /** The evidently intended setter: throws only on an invalid status, and then changes nothing. */
    method SetMachineStatusChecked(machineStatus: Option<MachineStatus>) returns (outcome: Outcome)
      modifies this`status
      ensures outcome == if IsValidMachineStatus(machineStatus) then Pass else Fail(InvalidMachineStatus)
      ensures status == if IsValidMachineStatus(machineStatus) then machineStatus.value else old(status)
    {
      if IsValidMachineStatus(machineStatus) {
        status := machineStatus.value;
        outcome := Pass;
      } else {
        outcome := Fail(InvalidMachineStatus);
      }
    }

    /** Sum of the durations of the queued and running jobs. */
    method GetTotalDuration() returns (duration: real)
      ensures duration == ActiveDuration(jobs)
      ensures duration == SumOfDurations(ActiveJobs(jobs))
    {
      duration := 0.0;
      for i := 0 to |jobs|
        invariant duration == ActiveDuration(jobs[..i])
      {
        var job := jobs[i];
        if job.status == ONGOING || job.status == QUEUED {
          duration := duration + job.duration;
        }
        assert jobs[..i + 1][..i] == jobs[..i];
      }
      assert jobs[..|jobs|] == jobs;
      ActiveDurationIsSumOfActiveJobs(jobs);
    }
  }

  /** Equal machines are the same machine. */
  lemma EqualsImpliesSameMachine(a: Machine, b: Machine)
    requires a.Equals(b)
    ensures a.IsSameMachine(b) && b.IsSameMachine(a)
  {
  }

  lemma EqualsIsSymmetric(a: Machine, b: Machine)
    ensures a.Equals(b) == b.Equals(a)
  {
  }

  /** Two machines sharing one name object are the same machine whatever their jobs. */
  lemma SharedNameIgnoresJobs(a: Machine, b: Machine)
    requires a.name == b.name
    ensures a.IsSameMachine(b)
  {
  }

  /** Adding a job changes the workload by that job's contribution only. */
  lemma AddJobWorkload(jobs: seq<Job>, job: Job)
    ensures ActiveDuration(jobs + [job]) == ActiveDuration(jobs) + Contribution(job)
  {
    assert (jobs + [job])[..|jobs|] == jobs;
  }

  /**
   * Two machines made from the same name string are equal and the same machine,
   * but not the same-named machine: their names are distinct objects.
   */
  method SeparatelyNamedMachines() returns (a: Machine, b: Machine)
    ensures a.Equals(b) && a.IsSameMachine(b)
    ensures !a.IsSameNamedMachine(b) && a.HasSameName(b)
  {
    a := new Machine.FromName("ULTIMAKER");
    b := new Machine.FromName("ULTIMAKER");
  }

  /** Disabling an enabled machine stores DISABLED and still reports the exception. */
  method DisablingReportsFailure() returns (m: Machine, outcome: Outcome)
    ensures m.status == DISABLED && outcome == Fail(InvalidMachineStatus)
  {
    m := new Machine.FromName("ULTIMAKER");
    outcome := m.SetMachineStatus(Some(DISABLED));
  }
}
