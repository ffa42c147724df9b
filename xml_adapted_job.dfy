/**
 * The persisted form of a job and its conversions. XmlAdaptedMachine, XmlAdaptedPerson,
 * XmlAdaptedTimeStamp and XmlAdaptedTag are not part of this model: each adapted value here
 * wraps the model value it was made from and gives it back unchanged, which is the
 * round-trip those adapters are taken to have.
 */
module XmlAdaptedJobs {
  import opened Wrappers
  import opened Jobs
  import NameConstraint

  datatype AdaptedMachine = AdaptedMachine(machine: MachineRef)

  datatype AdaptedPerson = AdaptedPerson(person: PersonRef)

  datatype AdaptedTimeStamp = AdaptedTimeStamp(time: TimeStamp)

  datatype AdaptedTag = AdaptedTag(tag: Tag)

  function MachineToModel(a: AdaptedMachine): MachineRef { a.machine }

  function PersonToModel(a: AdaptedPerson): PersonRef { a.person }

  function TimeStampToModel(a: AdaptedTimeStamp): TimeStamp { a.time }

  function TagToModel(a: AdaptedTag): Tag { a.tag }

  /** The stored record, in the adapter's own field order (duration before status). */
  datatype AdaptedJob = AdaptedJob(
    name: string,
    machine: AdaptedMachine,
    owner: AdaptedPerson,
    addedTime: string,
    startTime: AdaptedTimeStamp,
    priority: Priority,
    duration: real,
    status: Status,
    tagged: seq<AdaptedTag>,
    note: string,
    requestDeletion: Option<bool>)

  /** Why loading fails: the stored name is not a valid job name. */
  datatype LoadError = InvalidJobName(name: string)

  /** The field-wise constructor; a `null` tag list leaves the record's list empty. */
  function FromFields(name: string, machine: AdaptedMachine, owner: AdaptedPerson, addedTime: string,
                      startTime: AdaptedTimeStamp, priority: Priority, duration: real, status: Status,
                      tagged: Option<seq<AdaptedTag>>, note: string): (r: AdaptedJob)
    ensures r.name == name && r.machine == machine && r.owner == owner && r.addedTime == addedTime
    ensures r.startTime == startTime && r.priority == priority && r.duration == duration
    ensures r.status == status && r.note == note
    ensures tagged.None? ==> r.tagged == []
    ensures tagged.Some? ==> r.tagged == tagged.value
    ensures r.requestDeletion.None?
  {
    AdaptedJob(name, machine, owner, addedTime, startTime, priority, duration, status,
               if tagged.Some? then tagged.value else [], note, None)
  }

  /** The tags of a set in some order: the iteration order of a HashSet is not specified. */
  ghost function Enumerate(tags: set<Tag>): (r: seq<Tag>)
    ensures |r| == |tags|
    ensures forall t :: t in r <==> t in tags
    ensures forall i, j :: 0 <= i < j < |r| ==> r[i] != r[j]
    decreases |tags|
  {
    if tags == {} then []
    else
      var t :| t in tags;
      [t] + Enumerate(tags - {t})
  }

  /** `source.getTags().stream().map(XmlAdaptedTag::new).collect(toList())`. */
  ghost function AdaptTags(tags: set<Tag>): (r: seq<AdaptedTag>)
    ensures |r| == |tags|
    ensures forall t :: AdaptedTag(t) in r <==> t in tags
    ensures forall i, j :: 0 <= i < j < |r| ==> r[i] != r[j]
  {
    var order := Enumerate(tags);
    var r := seq(|order|, i requires 0 <= i < |order| => AdaptedTag(order[i]));
    assert forall t :: AdaptedTag(t) in r ==> t in order;
    assert forall t :: t in order ==> AdaptedTag(t) in r by {
      forall t | t in order ensures AdaptedTag(t) in r {
        var i :| 0 <= i < |order| && order[i] == t;
        assert r[i] == AdaptedTag(t);
      }
    }
    r
  }

  /** The constructor from a model Job: every field copied, `requestDeletion` left unset. */
  ghost function FromJob(source: Job): (r: AdaptedJob)
    ensures r.name == source.name && r.addedTime == source.addedTime && r.priority == source.priority
    ensures r.duration == source.duration && r.status == source.status && r.note == source.note
    ensures MachineToModel(r.machine) == source.machine && PersonToModel(r.owner) == source.owner
    ensures TimeStampToModel(r.startTime) == source.startTime
    ensures |r.tagged| == |source.tags|
    ensures forall t :: AdaptedTag(t) in r.tagged <==> t in source.tags
    ensures forall i, j :: 0 <= i < j < |r.tagged| ==> r.tagged[i] != r.tagged[j]
    ensures r.requestDeletion.None?
  {
    AdaptedJob(source.name, AdaptedMachine(source.machine), AdaptedPerson(source.owner),
               source.addedTime, AdaptedTimeStamp(source.startTime), source.priority,
               source.duration, source.status, AdaptTags(source.tags), source.note, None)
  }

  /** The tag set built by adding the stored tags one after another. */
  function LoadedTags(tagged: seq<AdaptedTag>): set<Tag>
    decreases |tagged|
  {
    if tagged == [] then {}
    else LoadedTags(tagged[..|tagged| - 1]) + {TagToModel(tagged[|tagged| - 1])}
  }

  /** The loaded tag set holds exactly the tags of the stored list. */
  lemma {:induction false} LoadedTagsMembers(tagged: seq<AdaptedTag>, t: Tag)
    ensures t in LoadedTags(tagged) <==> AdaptedTag(t) in tagged
    decreases |tagged|
  {
    if tagged != [] {
      var init := tagged[..|tagged| - 1];
      LoadedTagsMembers(init, t);
      assert tagged == init + [tagged[|tagged| - 1]];
    }
  }

  /** A tag stored twice loads as one. */
  lemma DuplicateTagCollapses(tagged: seq<AdaptedTag>, x: AdaptedTag)
    requires x in tagged
    ensures LoadedTags(tagged + [x]) == LoadedTags(tagged)
  {
    assert (tagged + [x])[..|tagged|] == tagged;
    LoadedTagsMembers(tagged, x.tag);
  }

  lemma {:induction false} LoadedTagsAtMostStored(tagged: seq<AdaptedTag>)
    ensures |LoadedTags(tagged)| <= |tagged|
    decreases |tagged|
  {
    if tagged != [] {
      LoadedTagsAtMostStored(tagged[..|tagged| - 1]);
    }
  }

  /** `toModelType` as a function: fails on an invalid name, otherwise copies every field. */
  function LoadedJob(a: AdaptedJob): (r: Result<Job, LoadError>)
    ensures r.Failure? <==> !NameConstraint.MatchesNameRegex(a.name)
    ensures r.Failure? ==> r.error == InvalidJobName(a.name)
    ensures r.Success? ==> && r.value.name == a.name
                           && r.value.machine == MachineToModel(a.machine)
                           && r.value.owner == PersonToModel(a.owner)
                           && r.value.addedTime == a.addedTime
                           && r.value.startTime == TimeStampToModel(a.startTime)
                           && r.value.priority == a.priority
                           && r.value.status == a.status
                           && r.value.duration == a.duration
                           && r.value.note == a.note
                           && (forall t :: t in r.value.tags <==> AdaptedTag(t) in a.tagged)
  {
    if !NameConstraint.MatchesNameRegex(a.name) then Failure(InvalidJobName(a.name))
    else
      var tags := LoadedTags(a.tagged);
      assert forall t :: t in tags <==> AdaptedTag(t) in a.tagged by {
        forall t ensures t in tags <==> AdaptedTag(t) in a.tagged {
          LoadedTagsMembers(a.tagged, t);
        }
      }
      Success(Job(a.name, MachineToModel(a.machine), PersonToModel(a.owner), a.addedTime,
                  TimeStampToModel(a.startTime), a.priority, a.status, a.duration, a.note, tags))
  }

  /** `toModelType`: builds the tag set with a loop, as the adapter does. */
  method ToModelType(a: AdaptedJob) returns (r: Result<Job, LoadError>)
    ensures r == LoadedJob(a)
  {
    if !NameConstraint.MatchesNameRegex(a.name) {
      return Failure(InvalidJobName(a.name));
    }
    var modelJobName: JobName := a.name;
    var modelTags: set<Tag> := {};
    for i := 0 to |a.tagged|
      invariant modelTags == LoadedTags(a.tagged[..i])
    {
      modelTags := modelTags + {TagToModel(a.tagged[i])};
      assert a.tagged[..i + 1][..i] == a.tagged[..i];
    }
    assert a.tagged[..|a.tagged|] == a.tagged;
    r := Success(Job(modelJobName, MachineToModel(a.machine), PersonToModel(a.owner), a.addedTime,
                     TimeStampToModel(a.startTime), a.priority, a.status, a.duration, a.note,
                     modelTags));
  }

  /** Storing a job and loading it back gives the same job. */
  lemma RoundTrip(j: Job)
    ensures LoadedJob(FromJob(j)) == Success(j)
  {
    var a := FromJob(j);
    var r := LoadedJob(a);
    assert r.Success?;
    assert r.value.tags == j.tags;
  }

  /** Duration is loaded unchecked: a negative stored duration reaches the model job. */
  lemma NegativeDurationLoads(a: AdaptedJob)
    requires NameConstraint.MatchesNameRegex(a.name) && a.duration < 0.0
    ensures LoadedJob(a).Success? && LoadedJob(a).value.duration < 0.0
  {
  }

  /** Two stored copies of one tag load as a single tag. */
  lemma DuplicateTagsExample()
    ensures LoadedTags([AdaptedTag(Tag("friend")), AdaptedTag(Tag("friend"))]) == {Tag("friend")}
  {
    var one := [AdaptedTag(Tag("friend"))];
    assert one[..0] == [];
    DuplicateTagCollapses(one, AdaptedTag(Tag("friend")));
  }
}
