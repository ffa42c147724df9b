# Lab machines and jobs: a Dafny model

This project models three parts of a lab-management application that tracks shared
machines (3D printers and the like) and the print jobs queued on them:

- **Machine** (`machine.dfy`, module `Machines`). A class whose state is a name, an
  ENABLED/DISABLED status, an ordered job list and a tag set. The model covers name
  validation, the two constructors, `addJob`/`hasJob`, the status setter, the three notions
  of sameness (`isSameNamedMachine`, `isSameMachine`, `equals`) and the workload query
  `getTotalDuration`. `getTotalDuration` sums the durations of queued and running jobs.
  The machine name is a class `MachineName` because the code compares names with Java's `==`,
  and `==` on objects is reference identity.
- **XmlAdaptedJob** (`xml_adapted_job.dfy`, module `XmlAdaptedJobs`). The flat, persisted form
  of a job. It has two constructors, one field-wise and one from a model `Job`. Its
  `toModelType` loads a record back into a `Job` and fails on an invalid name.
- **JobNameContainsKeywordsPredicate** (`job_name_predicate.dfy`, module `JobNamePredicates`).
  This is the job-search filter. A job passes when some keyword is a whole word of the job's
  name, ignoring case.

Supporting modules:

- `name_constraint.dfy` holds the name format `[\p{Alnum}][\p{Alnum} ]*`. It is written as the
  two-state automaton the regex denotes, and a quantified formula characterises it. Java's
  `\p{Alnum}` is ASCII-only by default.
- `string_util.dfy` holds ASCII case folding and the split of a string into words.
  `StringUtil.containsWordIgnoreCase` is modelled as: split the name on spaces into maximal
  non-empty words, then compare each word with the keyword after ASCII lower-casing.
- `job.dfy` holds the `Job` value and its enums.
- `wrappers.dfy` holds `Option` (Java `null`) and `Result` (a thrown exception).

Where the code differs from its own comments, the model follows the code:

- Loading does not validate the duration (the TODO at XmlAdaptedJob.java:121). A negative
  stored duration reaches the model job.
- `isSameNamedMachine` compares name objects, not name text, although its comment at
  Machine.java:112-115 calls it the weakest notion of equality (see Findings).

Word matching in the model is ASCII-only, splits on spaces and does not trim the keyword.
That is a simplification of StringUtil, not the code's behaviour (see "## Left out").

## Model

| member | source | states |
|---|---|---|
| NameConstraint.NameRegexCharacterisation | src/main/java/seedu/address/model/machine/Machine.java:24-28 | The regex accepts a string iff it is non-empty, starts with an ASCII letter or digit, and continues with only ASCII letters, digits and spaces. |
| NameConstraint.TailMatches | src/main/java/seedu/address/model/machine/Machine.java:28 | The repeated part `[\p{Alnum} ]*` accepts exactly the strings made of alphanumerics and spaces. |
| NameConstraint.RejectedNames | src/test/java/seedu/address/logic/commands/CommandTestUtil.java:80-96 | The format rejects `ultimaker&` (line 80) and `James&` (line 96, a person-name fixture). It also rejects the empty string, which the constraint message at Machine.java:29-30 forbids ("should not be blank"), and the blank and leading-space strings that the comment at Machine.java:24-27 is about. |
| NameConstraint.AcceptedNames | src/test/java/seedu/address/logic/commands/CommandTestUtil.java:35-47 | The format accepts `ULTIMAKER` and `ENDER` (lines 46-47) and `Amy Bee` (line 35, a person-name fixture). It also accepts `a `, the regex's own case of a space after the first character, which no fixture covers. |
| Machines.Machine.IsValidName | src/main/java/seedu/address/model/machine/Machine.java:184-186 | `isValidName` holds iff the string is a well-formed name, in the sense stated above. |
| Machines.Machine.IsValidMachine | src/main/java/seedu/address/model/machine/Machine.java:63-65 | `isValidMachine` gives the same answer as `isValidName` on every string. |
| Machines.Machine.constructor | src/main/java/seedu/address/model/machine/Machine.java:47-53 | The full constructor stores exactly the given name object, jobs, tags and status. |
| Machines.Machine.FromName | src/main/java/seedu/address/model/machine/Machine.java:55-58 | The string constructor makes a fresh name object holding the string, sets status ENABLED, and starts with no jobs and no tags. |
| Machines.Machine.HasJob | src/main/java/seedu/address/model/machine/Machine.java:99-101 | `hasJob` holds iff some position of the job list holds that job. |
| Machines.Machine.AddJob | src/main/java/seedu/address/model/machine/Machine.java:107-109 | After `addJob(j)` the list is the old list followed by `j`. Afterwards `hasJob(j)` holds, every earlier job is still there, and name, status and tags are unchanged. |
| Machines.Machine.IsSameNamedMachine | src/main/java/seedu/address/model/machine/Machine.java:112-118 | Same-named machines have equal name text, and every machine is same-named with itself. |
| Machines.Machine.IsSameMachine | src/main/java/seedu/address/model/machine/Machine.java:120-131 | Same machines have equal name text, and they share the name object or have equal job lists. Equal name text with equal job lists makes machines the same. The relation is reflexive. |
| Machines.Machine.Equals | src/main/java/seedu/address/model/machine/Machine.java:142-159 | `equals` holds iff the other machine is non-null and has equal name text, status, job list and tag set. It is reflexive. |
| Machines.Machine.HasSameName | src/main/java/seedu/address/model/machine/Machine.java:112-118 | Comparing name text is implied by each of the three source relations (corrected form of `isSameNamedMachine`). |
| Machines.EqualsImpliesSameMachine | src/main/java/seedu/address/model/machine/Machine.java:124-158 | Equal machines are the same machine, in both directions. |
| Machines.EqualsIsSymmetric | src/main/java/seedu/address/model/machine/Machine.java:146-159 | `equals` is symmetric. |
| Machines.SharedNameIgnoresJobs | src/main/java/seedu/address/model/machine/Machine.java:124-127 | Two machines that share one name object are the same machine, whatever their job lists are. |
| Machines.SeparatelyNamedMachines | src/main/java/seedu/address/model/machine/Machine.java:116-118 | Two machines built from the same name string are equal and are the same machine, yet are not same-named. |
| Machines.Machine.SetMachineStatus | src/main/java/seedu/address/model/machine/Machine.java:133-140 | The setter always reports InvalidMachineStatus. It stores a valid (non-null) status before that, and leaves the status unchanged otherwise. |
| Machines.Machine.SetMachineStatusChecked | src/main/java/seedu/address/model/machine/Machine.java:133-140 | Corrected setter: it succeeds and stores the status when the status is valid. It fails and changes nothing otherwise. |
| Machines.DisablingReportsFailure | src/main/java/seedu/address/model/machine/Machine.java:133-140 | Disabling a new machine stores DISABLED and still reports the exception. |
| Machines.Machine.GetTotalDuration | src/main/java/seedu/address/model/machine/Machine.java:192-202 | The loop returns the workload of the job list. The workload is the sum of the durations of exactly its QUEUED and ONGOING jobs. |
| Machines.ActiveJobs | src/main/java/seedu/address/model/machine/Machine.java:196-198 | The filtered list is no longer than the job list, and it holds exactly the job list's QUEUED and ONGOING jobs. |
| Machines.ActiveJobsCounts | src/main/java/seedu/address/model/machine/Machine.java:196-198 | Each QUEUED or ONGOING job occurs in the filtered list exactly as often as in the job list, and no other job occurs in it. |
| Machines.ActiveJobsAppend | src/main/java/seedu/address/model/machine/Machine.java:195-199 | Filtering a concatenation gives the filtered parts in their order, so the filter keeps the list order. |
| Machines.ActiveDurationIsSumOfActiveJobs | src/main/java/seedu/address/model/machine/Machine.java:195-199 | The front-to-back accumulation equals the sum over the filtered list of queued and running jobs. |
| Machines.ActiveDurationAppend | src/main/java/seedu/address/model/machine/Machine.java:195-199 | The workload of a concatenation is the sum of the two workloads. |
| Machines.InactiveJobAddsNothing | src/main/java/seedu/address/model/machine/Machine.java:196-198 | A FINISHED or CANCELLED job adds nothing to the workload, wherever it stands in the list. |
| Machines.NoActiveJobsNoWorkload | src/main/java/seedu/address/model/machine/Machine.java:192-202 | A list without queued or running jobs has workload 0. This includes the empty list. |
| Machines.ActiveDurationNonNegative | src/main/java/seedu/address/model/machine/Machine.java:192-202 | The workload is non-negative when every duration is. |
| Machines.AddJobWorkload | src/main/java/seedu/address/model/machine/Machine.java:107-109 | Adding a job raises the workload by that job's duration if the job is active, and by 0 otherwise. |
| Machines.WorkloadExample | src/main/java/seedu/address/model/machine/Machine.java:192-202 | Durations 5, 10 and 3 with statuses QUEUED, FINISHED and ONGOING give a workload of 8. |
| XmlAdaptedJobs.FromFields | src/main/java/seedu/address/storage/job/XmlAdaptedJob.java:69-84 | The field-wise constructor stores each argument unchanged. A null tag list gives an empty list. `requestDeletion` stays unset. |
| XmlAdaptedJobs.Enumerate | src/main/java/seedu/address/storage/job/XmlAdaptedJob.java:100-102 | A HashSet iterates its tags as a duplicate-free sequence holding exactly its elements. |
| XmlAdaptedJobs.AdaptTags | src/main/java/seedu/address/storage/job/XmlAdaptedJob.java:100-102 | The stream map makes one adapted tag per tag of the set, with no duplicates and no others. |
| XmlAdaptedJobs.FromJob | src/main/java/seedu/address/storage/job/XmlAdaptedJob.java:91-104 | The from-Job constructor copies name, added time, priority, duration, status and note verbatim. It wraps machine, owner and start time, copies the tags one-to-one into the list, and leaves `requestDeletion` unset. |
| XmlAdaptedJobs.LoadedTagsMembers | src/main/java/seedu/address/storage/job/XmlAdaptedJob.java:124-127 | The loaded tag set holds exactly the tags in the stored list. |
| XmlAdaptedJobs.DuplicateTagCollapses | src/main/java/seedu/address/storage/job/XmlAdaptedJob.java:124-127 | Storing a tag a second time does not change the loaded set. |
| XmlAdaptedJobs.LoadedTagsAtMostStored | src/main/java/seedu/address/storage/job/XmlAdaptedJob.java:124-127 | The loaded set never has more tags than the stored list has entries. |
| XmlAdaptedJobs.DuplicateTagsExample | src/main/java/seedu/address/storage/job/XmlAdaptedJob.java:124-127 | Two stored `friend` tags load as the single tag `friend`. |
| XmlAdaptedJobs.LoadedJob | src/main/java/seedu/address/storage/job/XmlAdaptedJob.java:106-143 | Loading fails iff the stored name breaks the name format, and then no Job is produced. Otherwise each field lands in its own Job field, status and duration included despite their swapped order. Duration and status are not validated. The tag set is the set of the stored tags. |
| XmlAdaptedJobs.ToModelType | src/main/java/seedu/address/storage/job/XmlAdaptedJob.java:111-143 | The loop-based loader returns exactly the specified load result. |
| XmlAdaptedJobs.RoundTrip | src/main/java/seedu/address/storage/job/XmlAdaptedJob.java:91-143 | Storing a job and loading it back gives a job equal to the original, tag set included. |
| XmlAdaptedJobs.NegativeDurationLoads | src/main/java/seedu/address/storage/job/XmlAdaptedJob.java:120-123 | A record with a valid name and a negative duration loads, and the negative duration is kept. |
| StringUtil.WholeWordMatch | src/main/java/seedu/address/model/job/JobNameContainsKeywordsPredicate.java:21 | Word containment holds iff some whole word (a space-bounded run without spaces) of the sentence equals the keyword up to case. |
| StringUtil.ContainsWordIgnoresCase | src/main/java/seedu/address/model/job/JobNameContainsKeywordsPredicate.java:21 | Changing the case of the sentence or of the keyword never changes word containment. |
| JobNamePredicates.AnyKeywordMatches | src/main/java/seedu/address/model/job/JobNameContainsKeywordsPredicate.java:20-21 | `anyMatch` holds iff some keyword in the list is contained as a word in the name. |
| JobNamePredicates.Test | src/main/java/seedu/address/model/job/JobNameContainsKeywordsPredicate.java:18-22 | `test(job)` holds iff some keyword is contained as a word in the job's name. It is false when there are no keywords. |
| JobNamePredicates.Equals | src/main/java/seedu/address/model/job/JobNameContainsKeywordsPredicate.java:24-29 | Two predicates are equal iff their keyword lists are equal, order included. The relation is reflexive. |
| JobNamePredicates.TestDependsOnlyOnName | src/main/java/seedu/address/model/job/JobNameContainsKeywordsPredicate.java:21 | Jobs with the same name get the same answer, whatever their other fields are. |
| JobNamePredicates.MoreKeywordsKeepMatch | src/main/java/seedu/address/model/job/JobNameContainsKeywordsPredicate.java:20-21 | Appending keywords never turns a match into a miss. |
| JobNamePredicates.TestIgnoresCase | src/main/java/seedu/address/model/job/JobNameContainsKeywordsPredicate.java:21 | Changing the case of the job name or of any keyword never changes the answer. |
| JobNamePredicates.TestIsWholeWordMatch | src/main/java/seedu/address/model/job/JobNameContainsKeywordsPredicate.java:8-22 | A job passes iff some keyword equals, up to case, a whole word of its name. |
| JobNamePredicates.KeywordOrderMattersOnlyForEquality | src/main/java/seedu/address/model/job/JobNameContainsKeywordsPredicate.java:18-29 | Keywords `a, b` and `b, a` filter every job alike, but the two predicates are not equal. |
| JobNamePredicates.WholeWordExample | src/main/java/seedu/address/model/job/JobNameContainsKeywordsPredicate.java:21 | The keyword `max` matches a job named `Max Print` but not one named `Maximum Print`. |

## Left out

- Getters (`getName`, `getJobs`, `getTags`, `getStatus`, `getJobsAsObeservableList`) are plain reads of the modelled fields. The unmodifiable and observable list wrappers have no counterpart.
- `hashCode` and `toString` only format and hash. `hashCode` also omits the status.
- UniqueJobList is not part of this model. Its duplicate rejection in `add` and `setJobs` is left out, and so are its exception and its change notifications. The job list is a plain sequence.
- Machines.Machine.AddJob: appends unconditionally, because the duplicate check of UniqueJobList is not part of this model. Containment after the call holds either way.
- Machines.Machine.constructor: does not reject duplicate jobs, for the same reason.
- Machines.Machine.HasJob: tests membership by full value equality (`job in jobs`). `hasJob` calls `UniqueJobList.contains`, which is not part of this model. If that list finds jobs by a looser identity (name, machine, owner and duration), `hasJob` also holds for a job that differs from a stored one only in status, note, tags or times, and the model says false for it.
- MachineName is not part of this model, so `Machine(String)` stores the string without validating it.
- `MachineStatus.isValidMachineStatus` is not part of this model. A status argument counts as valid unless it is `null` (`None`).
- `requireAllNonNull` and null arguments are not modelled. The model works with non-null objects. The one exception is the argument of `Machine.equals`, which may be null.
- `Machine.equals` with an argument that is not a Machine (the `instanceof` test) is not modelled.
- JobNamePredicates.Equals: takes a predicate argument. Its `instanceof` test, which makes `equals` false for `null` and for objects that are not keyword predicates (JobNameContainsKeywordsPredicate.java:27), is not modelled. Its constructor stores the caller's keyword list without copying it (line 15), so later changes to that list through the caller would change the predicate. The model has no such aliasing, because sequences are values.
- The `otherMachine != null` test in `isSameMachine` cannot be reached, because `getName()` dereferences the argument first. The model takes a non-null argument.
- Durations are `real`. Java `float` rounding and accumulation order are out of scope.
- XmlAdaptedMachine, XmlAdaptedPerson, XmlAdaptedTimeStamp and XmlAdaptedTag are not part of this model. Each adapted value wraps the model value and gives it back unchanged, so these adapters round-trip by construction. Because of this, their own load failures are not modelled.
- JobName and JobNote are not part of this model. A job name is taken to obey the same format as a machine name, and a note is its string.
- XmlAdaptedJobs.FromJob: the order of the stored tag list is some enumeration of the tag set, because a HashSet's iteration order is not specified.
- JAXB plumbing is left out: the no-arg constructor, the annotations, the logger, and reading and writing files. Record fields other than `tagged` are never `null` here.
- The model has no list aliasing. The field-wise constructor's defensive copy of `tagged` is therefore implicit, because sequences are values.
- StringUtil is not part of this model. `containsWordIgnoreCase` rejects empty and multi-word keywords with an exception, and the model does not. The model splits on spaces only, not on other whitespace, and folds case for ASCII only. The keyword is not trimmed before comparison: a keyword with a surrounding space, such as `max `, matches nothing in the model.
- The `other == this` short-circuit in the predicate's `equals` is absorbed: datatypes have no identity apart from their value.
- The job status state machine, the machine/job back-references, the AddressBook, undo/redo and the rest of the storage layer are not part of this model.

## Findings

| source | as written | input that shows it | evidently intended | confidence | as-written member | corrected member |
|---|---|---|---|---|---|---|
| src/main/java/seedu/address/model/machine/Machine.java:116-118 | `isSameNamedMachine` compares the two MachineName objects with `==` (reference identity) | two machines built with `new Machine("ULTIMAKER")`: they are `equals` and `isSameMachine`, but not `isSameNamedMachine` | compare the name text, making it the weakest of the three relations (as its comment says) | high; not executed | Machines.SeparatelyNamedMachines | Machines.Machine.HasSameName |
| src/main/java/seedu/address/model/machine/Machine.java:133-140 | `setMachineStatus` throws InvalidMachineStatusException on every call, after storing a valid status | `setMachineStatus(DISABLED)` on any machine | throw only when the status is invalid | high; not executed | Machines.DisablingReportsFailure | Machines.Machine.SetMachineStatusChecked |
