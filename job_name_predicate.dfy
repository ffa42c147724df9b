/**
 * The job-search predicate: a job passes when some keyword is a whole word of its name,
 * ignoring case.
 */
module JobNamePredicates {
  import opened Jobs
  import opened StringUtil

  /** The keyword list is set once, on construction. */
  datatype JobNameContainsKeywordsPredicate = JobNameContainsKeywordsPredicate(keywords: seq<string>)

  /** `keywords.stream().anyMatch(k -> containsWordIgnoreCase(name, k))`. */
  function AnyKeywordMatches(keywords: seq<string>, name: string): (r: bool)
    ensures r <==> exists i :: 0 <= i < |keywords| && ContainsWordIgnoreCase(name, keywords[i])
  {
    if keywords == [] then false
    else ContainsWordIgnoreCase(name, keywords[0]) || AnyKeywordMatches(keywords[1..], name)
  }

  function Test(p: JobNameContainsKeywordsPredicate, job: Job): (r: bool)
    ensures r <==> exists i :: 0 <= i < |p.keywords| && ContainsWordIgnoreCase(job.name, p.keywords[i])
    ensures p.keywords == [] ==> !r
  {
    AnyKeywordMatches(p.keywords, job.name)
  }

  /** Equal predicates hold the same keywords in the same order. */
  function Equals(p: JobNameContainsKeywordsPredicate, other: JobNameContainsKeywordsPredicate): (r: bool)
    ensures r <==> p.keywords == other.keywords
    ensures p == other ==> r
  {
    p == other || p.keywords == other.keywords
  }

  /** The predicate only looks at the job's name. */
  lemma TestDependsOnlyOnName(p: JobNameContainsKeywordsPredicate, j1: Job, j2: Job)
    requires j1.name == j2.name
    ensures Test(p, j1) == Test(p, j2)
  {
  }

  /** More keywords never turn a match into a miss. */
  lemma MoreKeywordsKeepMatch(p: JobNameContainsKeywordsPredicate, more: seq<string>, job: Job)
    requires Test(p, job)
    ensures Test(JobNameContainsKeywordsPredicate(p.keywords + more), job)
  {
    var i :| 0 <= i < |p.keywords| && ContainsWordIgnoreCase(job.name, p.keywords[i]);
    assert (p.keywords + more)[i] == p.keywords[i];
  }

  /** Changing the case of the name or of the keywords never changes the answer. */
  lemma TestIgnoresCase(p: JobNameContainsKeywordsPredicate, q: JobNameContainsKeywordsPredicate, j1: Job, j2: Job)
    requires ToLower(j1.name) == ToLower(j2.name)
    requires |p.keywords| == |q.keywords|
    requires forall i :: 0 <= i < |p.keywords| ==> ToLower(p.keywords[i]) == ToLower(q.keywords[i])
    ensures Test(p, j1) == Test(q, j2)
  {
    forall i | 0 <= i < |p.keywords|
      ensures ContainsWordIgnoreCase(j1.name, p.keywords[i]) == ContainsWordIgnoreCase(j2.name, q.keywords[i])
    {
      ContainsWordIgnoresCase(j1.name, j2.name, p.keywords[i], q.keywords[i]);
    }
  }

  /** A job passes exactly when some keyword equals, up to case, a whole word of its name. */
  lemma TestIsWholeWordMatch(p: JobNameContainsKeywordsPredicate, job: Job)
    ensures Test(p, job) <==>
            exists k, i, j :: 0 <= k < |p.keywords| && IsWordAt(job.name, i, j)
                              && EqualsIgnoreCase(job.name[i..j], p.keywords[k])
  {
    forall k | 0 <= k < |p.keywords| {
      WholeWordMatch(job.name, p.keywords[k]);
    }
  }

  /** Keyword order does not affect which jobs pass, yet it does affect equality. */
  lemma KeywordOrderMattersOnlyForEquality(job: Job)
    ensures Test(JobNameContainsKeywordsPredicate(["a", "b"]), job) == Test(JobNameContainsKeywordsPredicate(["b", "a"]), job)
    ensures !Equals(JobNameContainsKeywordsPredicate(["a", "b"]), JobNameContainsKeywordsPredicate(["b", "a"]))
  {
    var ab, ba := JobNameContainsKeywordsPredicate(["a", "b"]), JobNameContainsKeywordsPredicate(["b", "a"]);
    assert ab.keywords[0] == ba.keywords[1] && ab.keywords[1] == ba.keywords[0];
  }

  /** "max" is a whole word of "Max Print", up to case. */
  lemma MaxInMaxPrint()
    ensures ContainsWordIgnoreCase("Max Print", "max")
  {
    var hit := "Max Print";
    assert IsWordAt(hit, 0, 3);
    assert hit[0..3] == "Max";
    assert ToLower("Max") == "max";
    WholeWordsAreWords(hit, 0, 3);
  }

  /** The only 'x' of "Maximum Print", up to case, is its third character. */
  lemma OnlyXOfMaximumPrint(miss: string)
    requires miss == "Maximum Print"
    ensures |miss| == 13 && miss[3] != ' '
    ensures forall k :: 0 <= k < |miss| && k != 2 ==> ToLowerChar(miss[k]) != 'x'
  {
  }

  /** No whole word of "Maximum Print" equals "max" up to case: its one 'x' lies inside "Maximum". */
  lemma NoMaxWordInMaximumPrint(miss: string, i: int, j: int)
    requires miss == "Maximum Print" && IsWordAt(miss, i, j)
    ensures !EqualsIgnoreCase(miss[i..j], "max")
  {
    OnlyXOfMaximumPrint(miss);
  }

  lemma MaxNotInMaximumPrint(miss: string)
    requires miss == "Maximum Print"
    ensures !ContainsWordIgnoreCase(miss, "max")
  {
    forall i, j | IsWordAt(miss, i, j) ensures !EqualsIgnoreCase(miss[i..j], "max") {
      NoMaxWordInMaximumPrint(miss, i, j);
    }
    WholeWordMatch(miss, "max");
  }

  /** The keyword "max" matches a job named "Max Print" but not one named "Maximum Print". */
  lemma WholeWordExample(hit: Job, miss: Job)
    requires hit.name == "Max Print" && miss.name == "Maximum Print"
    ensures Test(JobNameContainsKeywordsPredicate(["max"]), hit)
    ensures !Test(JobNameContainsKeywordsPredicate(["max"]), miss)
  {
    MaxInMaxPrint();
    MaxNotInMaximumPrint(miss.name);
    var p := JobNameContainsKeywordsPredicate(["max"]);
    assert p.keywords[0] == "max";
  }
}
