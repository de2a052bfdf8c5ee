/** De-duplication of Prometheus job names by a hash of the job. */
module ScrapeDedupe {
  import opened Text

  /** A scrape job: its name and the serialized text of everything else. */
  datatype Job = Job(name: string, body: string)

  type Hash = Job -> string

  /** SHA-256 in hexadecimal, taken as injective. */
  ghost predicate GoodHash(hash: Hash) {
    (forall j, k :: hash(j) == hash(k) ==> j == k) && (forall j :: '_' !in hash(j))
  }

  function Rename(hash: Hash, j: Job): Job { j.(name := j.name + ['_'] + hash(j)) }

  /** Renaming appends an underscore and the hash to the name, and changes nothing else. */
  lemma RenameOutcome(hash: Hash, j: Job)
    ensures Rename(hash, j).body == j.body && Rename(hash, j).name == j.name + "_" + hash(j)
  {}

  // ---- Specification --------------------------------------------------------------------

  function Members(jobs: seq<Job>, name: string): seq<Job> {
    if jobs == [] then []
    else
      var n := |jobs| - 1;
      Members(jobs[..n], name) + if jobs[n].name == name then [jobs[n]] else []
  }

  /** The names in the order of first occurrence, as the keys of a dictionary. */
  function Keys(jobs: seq<Job>): seq<string> {
    if jobs == [] then []
    else
      var n := |jobs| - 1;
      var before := Keys(jobs[..n]);
      if jobs[n].name in before then before else before + [jobs[n].name]
  }

  function RenameAll(hash: Hash, group: seq<Job>): (r: seq<Job>)
    ensures |r| == |group| && forall i :: 0 <= i < |r| ==> r[i] == Rename(hash, group[i])
  {
    if group == [] then [] else [Rename(hash, group[0])] + RenameAll(hash, group[1..])
  }

  /** The jobs of one name: renamed as soon as there are several. */
  function Group(hash: Hash, jobs: seq<Job>, name: string): seq<Job> {
    var group := Members(jobs, name);
    if |group| > 1 then RenameAll(hash, group) else group
  }

  function Groups(hash: Hash, jobs: seq<Job>, names: seq<string>): seq<Job> {
    if names == [] then []
    else Groups(hash, jobs, names[..|names| - 1]) + Group(hash, jobs, names[|names| - 1])
  }

  /** The first occurrence of every job. */
  function Unique(jobs: seq<Job>): seq<Job> {
    if jobs == [] then []
    else
      var n := |jobs| - 1;
      var before := Unique(jobs[..n]);
      if jobs[n] in before then before else before + [jobs[n]]
  }

  function Dedupe(hash: Hash, jobs: seq<Job>): seq<Job> { Unique(Groups(hash, jobs, Keys(jobs))) }

  /** What becomes of one job of the input. */
  function Image(hash: Hash, jobs: seq<Job>, j: Job): Job {
    if |Members(jobs, j.name)| > 1 then Rename(hash, j) else j
  }

  // ---- The algorithm --------------------------------------------------------------------

  lemma GroupsSnoc(hash: Hash, jobs: seq<Job>, names: seq<string>, name: string)
    ensures Groups(hash, jobs, names + [name]) == Groups(hash, jobs, names) + Group(hash, jobs, name)
  {
    var all := names + [name];
    assert all[..|all| - 1] == names && all[|all| - 1] == name;
  }

  method CollectKeys(jobs: seq<Job>) returns (names: seq<string>)
    ensures names == Keys(jobs)
  {
    names := [];
    for i := 0 to |jobs|
      invariant names == Keys(jobs[..i])
    {
      assert jobs[..i + 1][..i] == jobs[..i];
      if jobs[i].name !in names {
        names := names + [jobs[i].name];
      }
    }
    assert jobs[..|jobs|] == jobs;
  }

  method CollectMembers(jobs: seq<Job>, name: string) returns (group: seq<Job>)
    ensures group == Members(jobs, name)
  {
    group := [];
    for i := 0 to |jobs|
      invariant group == Members(jobs[..i], name)
    {
      assert jobs[..i + 1][..i] == jobs[..i];
      if jobs[i].name == name {
        group := group + [jobs[i]];
      }
    }
    assert jobs[..|jobs|] == jobs;
  }

  method CollectGroups(hash: Hash, jobs: seq<Job>, names: seq<string>) returns (all: seq<Job>)
    ensures all == Groups(hash, jobs, names)
  {
    all := [];
    for i := 0 to |names|
      invariant all == Groups(hash, jobs, names[..i])
    {
      var group := CollectMembers(jobs, names[i]);
      if |group| > 1 {
        group := RenameAll(hash, group);
      }
      assert group == Group(hash, jobs, names[i]);
      all := all + group;
      GroupsSnoc(hash, jobs, names[..i], names[i]);
      PrefixSnoc(names, i);
    }
    assert names[..|names|] == names;
  }

  lemma PrefixSnoc<T>(s: seq<T>, i: nat)
    requires i < |s|
    ensures s[..i + 1] == s[..i] + [s[i]]
  {}

  /** Jobs whose hash was seen before are left out. */
  method DropDuplicates(hash: Hash, jobs: seq<Job>) returns (kept: seq<Job>)
    requires GoodHash(hash)
    ensures kept == Unique(jobs)
  {
    kept := [];
    var seen: seq<string> := [];
    for i := 0 to |jobs|
      invariant kept == Unique(jobs[..i])
      invariant |seen| == |kept| && forall k :: 0 <= k < |seen| ==> seen[k] == hash(kept[k])
    {
      assert jobs[..i + 1][..i] == jobs[..i];
      assert hash(jobs[i]) in seen <==> jobs[i] in kept;
      if hash(jobs[i]) !in seen {
        seen := seen + [hash(jobs[i])];
        kept := kept + [jobs[i]];
      }
    }
    assert jobs[..|jobs|] == jobs;
  }

  method DedupeJobNames(hash: Hash, jobs: seq<Job>) returns (out: seq<Job>)
    requires GoodHash(hash)
    ensures out == Dedupe(hash, jobs)
  {
    var names := CollectKeys(jobs);
    var all := CollectGroups(hash, jobs, names);
    out := DropDuplicates(hash, all);
  }

  // ---- What it achieves -----------------------------------------------------------------

  lemma {:induction false} MembersOutcome(jobs: seq<Job>, name: string)
    ensures forall j :: j in Members(jobs, name) <==> j in jobs && j.name == name
    ensures |Members(jobs, name)| <= 1 ==> forall i, k :: 0 <= i < k < |jobs| ==>
        jobs[i].name != name || jobs[k].name != name
  {
    if jobs != [] {
      var n := |jobs| - 1;
      MembersOutcome(jobs[..n], name);
      assert jobs == jobs[..n] + [jobs[n]];
      forall i, k | 0 <= i < k < |jobs| && jobs[i].name == name && jobs[k].name == name
          ensures |Members(jobs, name)| > 1 {
        if k == n {
          assert jobs[i] in jobs[..n];
          assert jobs[i] in Members(jobs[..n], name);
        } else {
          assert jobs[..n][i].name == name && jobs[..n][k].name == name;
        }
      }
    }
  }

  lemma {:induction false} KeysOutcome(jobs: seq<Job>)
    ensures forall i :: 0 <= i < |jobs| ==> jobs[i].name in Keys(jobs)
    ensures forall name :: name in Keys(jobs) ==> exists i :: 0 <= i < |jobs| && jobs[i].name == name
  {
    if jobs != [] {
      var n := |jobs| - 1;
      KeysOutcome(jobs[..n]);
      forall i | 0 <= i < |jobs| ensures jobs[i].name in Keys(jobs) {
        assert i < n ==> jobs[..n][i] == jobs[i];
      }
      forall name | name in Keys(jobs) ensures exists i :: 0 <= i < |jobs| && jobs[i].name == name {
        if name in Keys(jobs[..n]) {
          var i :| 0 <= i < n && jobs[..n][i].name == name;
          assert jobs[i].name == name;
        } else {
          assert jobs[n].name == name;
        }
      }
    }
  }

  /** The jobs of one group are the images of the jobs with that name. */
  lemma GroupOutcome(hash: Hash, jobs: seq<Job>, name: string, x: Job)
    ensures x in Group(hash, jobs, name) <==> exists j :: j in jobs && j.name == name && x == Image(hash, jobs, j)
  {
    var group := Members(jobs, name);
    MembersOutcome(jobs, name);
    if x in Group(hash, jobs, name) {
      var i :| 0 <= i < |group| && x == Group(hash, jobs, name)[i];
      assert group[i] in jobs && x == Image(hash, jobs, group[i]);
    }
    if j :| j in jobs && j.name == name && x == Image(hash, jobs, j) {
      var i :| 0 <= i < |group| && group[i] == j;
      assert Group(hash, jobs, name)[i] == x;
    }
  }

  ghost predicate Arises(hash: Hash, jobs: seq<Job>, names: seq<string>, x: Job) {
    exists j :: j in jobs && j.name in names && x == Image(hash, jobs, j)
  }

  lemma InGroups(hash: Hash, jobs: seq<Job>, names: seq<string>, name: string, x: Job)
    ensures Arises(hash, jobs, names + [name], x)
      <==> Arises(hash, jobs, names, x) || exists j :: j in jobs && j.name == name && x == Image(hash, jobs, j)
  {}

  lemma {:induction false} GroupsOutcome(hash: Hash, jobs: seq<Job>, names: seq<string>, x: Job)
    ensures x in Groups(hash, jobs, names) <==> Arises(hash, jobs, names, x)
  {
    if names != [] {
      var n := |names| - 1;
      var front, last := names[..n], names[n];
      assert names == front + [last];
      GroupsOutcome(hash, jobs, front, x);
      GroupOutcome(hash, jobs, last, x);
      GroupsSnoc(hash, jobs, front, last);
      InGroups(hash, jobs, front, last, x);
    }
  }

  lemma {:induction false} UniqueOutcome(jobs: seq<Job>)
    ensures forall x :: x in Unique(jobs) <==> x in jobs
    ensures forall i, k :: 0 <= i < k < |Unique(jobs)| ==> Unique(jobs)[i] != Unique(jobs)[k]
  {
    if jobs != [] {
      var n := |jobs| - 1;
      UniqueOutcome(jobs[..n]);
      assert jobs == jobs[..n] + [jobs[n]];
    }
  }

  /** The output consists of the images of the input jobs: none is lost, none is invented. */
  lemma DedupeKeepsAll(hash: Hash, jobs: seq<Job>, x: Job)
    ensures x in Dedupe(hash, jobs) <==> exists j :: j in jobs && x == Image(hash, jobs, j)
  {
    GroupsOutcome(hash, jobs, Keys(jobs), x);
    UniqueOutcome(Groups(hash, jobs, Keys(jobs)));
    KeysOutcome(jobs);
    if j :| j in jobs && x == Image(hash, jobs, j) {
      assert j.name in Keys(jobs);
    }
  }

  /** Two jobs, of which the first is renamed and the second keeps its name. */
  ghost predicate RenamedAndKept(jobs: seq<Job>, j: Job, k: Job) {
    j in jobs && k in jobs && |Members(jobs, j.name)| > 1 && |Members(jobs, k.name)| <= 1
  }

  /** No renamed job takes the name of one that keeps its name. */
  ghost predicate NoClash(hash: Hash, jobs: seq<Job>) {
    forall j, k :: RenamedAndKept(jobs, j, k) ==> Rename(hash, j).name != k.name
  }

  /** A renamed job may take the name of a kept one only by becoming that very job. */
  ghost predicate Compatible(hash: Hash, jobs: seq<Job>) {
    forall j, k :: RenamedAndKept(jobs, j, k) && Rename(hash, j).name == k.name ==> Rename(hash, j) == k
  }

  ghost predicate NamesDistinct(jobs: seq<Job>) {
    forall i, k :: 0 <= i < k < |jobs| ==> jobs[i].name != jobs[k].name
  }

  /** Two jobs that end up under one name were equal, or one of them took the other's name. */
  lemma SameImageName(hash: Hash, jobs: seq<Job>, j: Job, k: Job)
    requires GoodHash(hash) && j in jobs && k in jobs && Image(hash, jobs, j).name == Image(hash, jobs, k).name
    ensures j == k
      || (RenamedAndKept(jobs, j, k) && Rename(hash, j).name == k.name)
      || (RenamedAndKept(jobs, k, j) && Rename(hash, k).name == j.name)
  {
    MembersOutcome(jobs, j.name);
    if |Members(jobs, j.name)| > 1 && |Members(jobs, k.name)| > 1 {
      SplitLast('_', j.name, hash(j), k.name, hash(k));
    }
  }

  /** Only byte-identical jobs end up under one name, exactly when no renamed job takes a kept name. */
  lemma OnlyIdenticalMerge(hash: Hash, jobs: seq<Job>)
    requires GoodHash(hash)
    ensures NoClash(hash, jobs)
      <==> forall j, k :: j in jobs && k in jobs && Image(hash, jobs, j).name == Image(hash, jobs, k).name ==> j == k
  {
    forall j, k | NoClash(hash, jobs) && j in jobs && k in jobs
        && Image(hash, jobs, j).name == Image(hash, jobs, k).name
      ensures j == k
    {
      SameImageName(hash, jobs, j, k);
    }
    if j, k :| RenamedAndKept(jobs, j, k) && Rename(hash, j).name == k.name {
      assert Image(hash, jobs, j).name == Image(hash, jobs, k).name && j != k;
    }
  }

  /** The names come out pairwise distinct, exactly when the input is compatible. */
  lemma DedupeNamesDistinct(hash: Hash, jobs: seq<Job>)
    requires GoodHash(hash)
    ensures NamesDistinct(Dedupe(hash, jobs)) <==> Compatible(hash, jobs)
  {
    if Compatible(hash, jobs) {
      CompatibleDistinct(hash, jobs);
    } else {
      var j, k :| RenamedAndKept(jobs, j, k) && Rename(hash, j).name == k.name && Rename(hash, j) != k;
      var out := Dedupe(hash, jobs);
      DedupeKeepsAll(hash, jobs, Rename(hash, j));
      DedupeKeepsAll(hash, jobs, k);
      assert Image(hash, jobs, j) == Rename(hash, j) && Image(hash, jobs, k) == k;
      var x :| 0 <= x < |out| && out[x] == Rename(hash, j);
      var y :| 0 <= y < |out| && out[y] == k;
      assert x != y && out[x].name == out[y].name;
    }
  }

  lemma CompatibleDistinct(hash: Hash, jobs: seq<Job>)
    requires GoodHash(hash) && Compatible(hash, jobs)
    ensures NamesDistinct(Dedupe(hash, jobs))
  {
    var out := Dedupe(hash, jobs);
    UniqueOutcome(Groups(hash, jobs, Keys(jobs)));
    forall i, k | 0 <= i < k < |out| ensures out[i].name != out[k].name {
      DedupeKeepsAll(hash, jobs, out[i]);
      DedupeKeepsAll(hash, jobs, out[k]);
      var x :| x in jobs && out[i] == Image(hash, jobs, x);
      var y :| y in jobs && out[k] == Image(hash, jobs, y);
      if out[i].name == out[k].name {
        SameImageName(hash, jobs, x, y);
      }
    }
  }

  lemma {:induction false} NoMembers(jobs: seq<Job>, name: string)
    requires forall i :: 0 <= i < |jobs| ==> jobs[i].name != name
    ensures Members(jobs, name) == []
  {
    if jobs != [] {
      NoMembers(jobs[..|jobs| - 1], name);
    }
  }

  lemma {:induction false} SingleMembers(jobs: seq<Job>, n: nat, m: nat)
    requires NamesDistinct(jobs) && n < m <= |jobs|
    ensures Members(jobs[..m], jobs[n].name) == [jobs[n]]
    decreases m
  {
    assert jobs[..m][..m - 1] == jobs[..m - 1];
    if m == n + 1 {
      NoMembers(jobs[..n], jobs[n].name);
    } else {
      SingleMembers(jobs, n, m - 1);
    }
  }

  lemma {:induction false} DistinctKeys(jobs: seq<Job>, n: nat)
    requires NamesDistinct(jobs) && n <= |jobs|
    ensures |Keys(jobs[..n])| == n && forall i :: 0 <= i < n ==> Keys(jobs[..n])[i] == jobs[i].name
  {
    if n > 0 {
      DistinctKeys(jobs, n - 1);
      assert jobs[..n][..n - 1] == jobs[..n - 1];
    }
  }

  lemma DistinctKeysStep(jobs: seq<Job>, n: nat)
    requires NamesDistinct(jobs) && n < |jobs|
    ensures Keys(jobs[..n + 1]) == Keys(jobs[..n]) + [jobs[n].name]
  {
    DistinctKeys(jobs, n);
    DistinctKeys(jobs, n + 1);
  }

  lemma SingleGroup(hash: Hash, jobs: seq<Job>, n: nat)
    requires NamesDistinct(jobs) && n < |jobs|
    ensures Group(hash, jobs, jobs[n].name) == [jobs[n]]
  {
    SingleMembers(jobs, n, |jobs|);
    assert jobs[..|jobs|] == jobs;
  }

  lemma {:induction false} DistinctGroups(hash: Hash, jobs: seq<Job>, n: nat)
    requires NamesDistinct(jobs) && n <= |jobs|
    ensures Groups(hash, jobs, Keys(jobs[..n])) == jobs[..n]
  {
    if n > 0 {
      DistinctGroups(hash, jobs, n - 1);
      DistinctKeysStep(jobs, n - 1);
      GroupsSnoc(hash, jobs, Keys(jobs[..n - 1]), jobs[n - 1].name);
      SingleGroup(hash, jobs, n - 1);
      PrefixSnoc(jobs, n - 1);
    }
  }

  lemma {:induction false} DistinctUnique(jobs: seq<Job>, n: nat)
    requires NamesDistinct(jobs) && n <= |jobs|
    ensures Unique(jobs[..n]) == jobs[..n]
  {
    if n > 0 {
      DistinctUnique(jobs, n - 1);
      assert jobs[..n][..n - 1] == jobs[..n - 1];
      assert jobs[..n] == jobs[..n - 1] + [jobs[n - 1]];
    }
  }

  /**
   * In a list that comes out unchanged no name is shared: a job of a shared name is the renamed
   * form of a job with a shorter shared name.
   */
  lemma {:induction false} FixedDistinct(hash: Hash, jobs: seq<Job>, x: Job)
    requires Dedupe(hash, jobs) == jobs && x in jobs
    ensures |Members(jobs, x.name)| <= 1
    decreases |x.name|
  {
    DedupeKeepsAll(hash, jobs, x);
    var j :| j in jobs && x == Image(hash, jobs, j);
    if |Members(jobs, j.name)| > 1 {
      FixedDistinct(hash, jobs, j);
    }
  }

  /** The lists it leaves alone, order included, are those with distinct names. */
  lemma DedupeFixedPoints(hash: Hash, jobs: seq<Job>)
    ensures Dedupe(hash, jobs) == jobs <==> NamesDistinct(jobs)
  {
    if NamesDistinct(jobs) {
      DistinctGroups(hash, jobs, |jobs|);
      DistinctUnique(jobs, |jobs|);
      assert jobs[..|jobs|] == jobs;
    }
    if Dedupe(hash, jobs) == jobs {
      forall i, k | 0 <= i < k < |jobs| ensures jobs[i].name != jobs[k].name {
        FixedDistinct(hash, jobs, jobs[i]);
        MembersOutcome(jobs, jobs[i].name);
      }
    }
  }

  /** Applying it twice, as the charm library does, is applying it once, exactly for compatible input. */
  lemma DedupeIdempotent(hash: Hash, jobs: seq<Job>)
    requires GoodHash(hash)
    ensures Dedupe(hash, Dedupe(hash, jobs)) == Dedupe(hash, jobs) <==> Compatible(hash, jobs)
  {
    DedupeNamesDistinct(hash, jobs);
    DedupeFixedPoints(hash, Dedupe(hash, jobs));
  }

  // ---- The two passes of the library ----------------------------------------------------

  /** A list of one relation as it is collected: de-duplicated, and only if it validates. */
  function Accepted(hash: Hash, valid: seq<Job> -> bool, jobs: seq<Job>): seq<Job> {
    if valid(Dedupe(hash, jobs)) then Dedupe(hash, jobs) else []
  }

  function Collected(hash: Hash, valid: seq<Job> -> bool, lists: seq<seq<Job>>): seq<Job> {
    if lists == [] then []
    else
      var n := |lists| - 1;
      Collected(hash, valid, lists[..n]) + Accepted(hash, valid, lists[n])
  }

  /** The scrape jobs of all relations: each list de-duplicated, then all of them together. */
  method ScrapeJobs(hash: Hash, valid: seq<Job> -> bool, lists: seq<seq<Job>>) returns (out: seq<Job>)
    requires GoodHash(hash)
    ensures out == Dedupe(hash, Collected(hash, valid, lists))
  {
    var all: seq<Job> := [];
    for i := 0 to |lists|
      invariant all == Collected(hash, valid, lists[..i])
    {
      assert lists[..i + 1][..i] == lists[..i];
      if lists[i] != [] {
        var jobs := DedupeJobNames(hash, lists[i]);
        if valid(jobs) {
          all := all + jobs;
        }
      } else {
        DedupeFixedPoints(hash, lists[i]);
      }
    }
    assert lists[..|lists|] == lists;
    out := DedupeJobNames(hash, all);
  }

  /** Job `j` is what the first pass makes of a job of list `a`. */
  ghost predicate Arrives(hash: Hash, valid: seq<Job> -> bool, lists: seq<seq<Job>>, a: nat, j: Job) {
    a < |lists| && valid(Dedupe(hash, lists[a])) && exists x :: x in lists[a] && j == Image(hash, lists[a], x)
  }

  /** Two jobs arrive under the name, from different lists or different in themselves. */
  ghost predicate Shared(hash: Hash, valid: seq<Job> -> bool, lists: seq<seq<Job>>, name: string) {
    exists a: nat, j, b: nat, k ::
      && Arrives(hash, valid, lists, a, j) && Arrives(hash, valid, lists, b, k)
      && j.name == name && k.name == name && (a != b || j != k)
  }

  /** No job that is renamed in the second pass takes the name of another that is not. */
  ghost predicate CompatibleLists(hash: Hash, valid: seq<Job> -> bool, lists: seq<seq<Job>>) {
    forall a: nat, j: Job, b: nat, k: Job ::
      (&& Arrives(hash, valid, lists, a, j) && Arrives(hash, valid, lists, b, k)
       && Shared(hash, valid, lists, j.name) && !Shared(hash, valid, lists, k.name)
       && Rename(hash, j).name == k.name)
      ==> Rename(hash, j) == k
  }

  lemma {:induction false} MembersAppend(a: seq<Job>, b: seq<Job>, name: string)
    ensures Members(a + b, name) == Members(a, name) + Members(b, name)
    decreases |b|
  {
    if b == [] {
      assert a + b == a;
    } else {
      var n := |b| - 1;
      MembersAppend(a, b[..n], name);
      assert (a + b)[..|a + b| - 1] == a + b[..n];
    }
  }

  ghost predicate NoRepeats(jobs: seq<Job>) { forall i, k :: 0 <= i < k < |jobs| ==> jobs[i] != jobs[k] }

  lemma {:induction false} MembersDistinct(jobs: seq<Job>, name: string)
    requires NoRepeats(jobs)
    ensures NoRepeats(Members(jobs, name))
  {
    if jobs != [] {
      var n := |jobs| - 1;
      var before := Members(jobs[..n], name);
      MembersDistinct(jobs[..n], name);
      MembersOutcome(jobs[..n], name);
      assert jobs[n] !in jobs[..n];
      assert jobs[n] !in before;
      assert NoRepeats(before + [jobs[n]]);
    }
  }

  /** One accepted list: how many of its jobs have the name. */
  lemma AcceptedCount(hash: Hash, valid: seq<Job> -> bool, jobs: seq<Job>, name: string)
    ensures var group := Members(Accepted(hash, valid, jobs), name);
      && (forall j :: j in group <==> j.name == name && Arrives(hash, valid, [jobs], 0, j))
      && NoRepeats(group)
  {
    var accepted := Accepted(hash, valid, jobs);
    UniqueOutcome(Groups(hash, jobs, Keys(jobs)));
    MembersDistinct(accepted, name);
    MembersOutcome(accepted, name);
    forall j ensures j in accepted <==> Arrives(hash, valid, [jobs], 0, j) {
      DedupeKeepsAll(hash, jobs, j);
    }
  }

  /** An arrival in the longer list is one from the last list or one of those before. */
  lemma ArrivesLast(hash: Hash, valid: seq<Job> -> bool, lists: seq<seq<Job>>, last: seq<Job>, a: nat, j: Job)
    ensures Arrives(hash, valid, lists + [last], a, j) <==>
      if a == |lists| then Arrives(hash, valid, [last], 0, j) else Arrives(hash, valid, lists, a, j)
  {
    if a < |lists| {
      assert (lists + [last])[a] == lists[a];
    }
  }

  lemma {:induction false} CollectedCount(hash: Hash, valid: seq<Job> -> bool, lists: seq<seq<Job>>, name: string)
    ensures var group := Members(Collected(hash, valid, lists), name);
      && (forall j :: j in group <==> j.name == name && exists a: nat :: Arrives(hash, valid, lists, a, j))
      && (|group| > 1 <==> Shared(hash, valid, lists, name))
  {
    if lists != [] {
      var n := |lists| - 1;
      var before, last := lists[..n], lists[n];
      assert lists == before + [last];
      CollectedCount(hash, valid, before, name);
      CollectedStep(hash, valid, before, last, name);
    }
  }

  lemma CollectedStep(hash: Hash, valid: seq<Job> -> bool, before: seq<seq<Job>>, last: seq<Job>, name: string)
    requires var group := Members(Collected(hash, valid, before), name);
      && (forall j :: j in group <==> j.name == name && exists a: nat :: Arrives(hash, valid, before, a, j))
      && (|group| > 1 <==> Shared(hash, valid, before, name))
    ensures var group := Members(Collected(hash, valid, before + [last]), name);
      && (forall j :: j in group <==> j.name == name && exists a: nat :: Arrives(hash, valid, before + [last], a, j))
      && (|group| > 1 <==> Shared(hash, valid, before + [last], name))
  {
    var lists := before + [last];
    assert lists[..|lists| - 1] == before && lists[|lists| - 1] == last;
    var earlier, later := Members(Collected(hash, valid, before), name), Members(Accepted(hash, valid, last), name);
    MembersAppend(Collected(hash, valid, before), Accepted(hash, valid, last), name);
    AcceptedCount(hash, valid, last, name);
    forall a: nat, j ensures Arrives(hash, valid, lists, a, j) <==>
      if a == |before| then Arrives(hash, valid, [last], 0, j) else Arrives(hash, valid, before, a, j)
    {
      ArrivesLast(hash, valid, before, last, a, j);
    }
    forall j: Job ensures j in earlier + later <==>
        j.name == name && exists a: nat :: Arrives(hash, valid, lists, a, j) {
      if j in later {
        assert Arrives(hash, valid, lists, |before|, j);
      }
    }
    if |earlier + later| > 1 {
      SharedIfTwo(hash, valid, before, last, name, earlier, later);
    }
    if Shared(hash, valid, lists, name) {
      TwoIfShared(hash, valid, before, last, name, earlier, later);
    }
  }

  lemma SharedIfTwo(hash: Hash, valid: seq<Job> -> bool, before: seq<seq<Job>>, last: seq<Job>, name: string,
      earlier: seq<Job>, later: seq<Job>)
    requires forall j :: j in earlier <==> j.name == name && exists a: nat :: Arrives(hash, valid, before, a, j)
    requires |earlier| > 1 <==> Shared(hash, valid, before, name)
    requires forall j :: j in later <==> j.name == name && Arrives(hash, valid, [last], 0, j)
    requires NoRepeats(later)
    requires forall a: nat, j :: Arrives(hash, valid, before + [last], a, j) <==>
      if a == |before| then Arrives(hash, valid, [last], 0, j) else Arrives(hash, valid, before, a, j)
    requires |earlier| + |later| > 1
    ensures Shared(hash, valid, before + [last], name)
  {
    var lists := before + [last];
    if |earlier| > 1 {
      var a: nat, j, b: nat, k :|
        && Arrives(hash, valid, before, a, j) && Arrives(hash, valid, before, b, k)
        && j.name == name && k.name == name && (a != b || j != k);
      assert Arrives(hash, valid, lists, a, j) && Arrives(hash, valid, lists, b, k);
    } else if |later| > 1 {
      assert later[0] in later && later[1] in later && later[0] != later[1];
      assert Arrives(hash, valid, lists, |before|, later[0]) && Arrives(hash, valid, lists, |before|, later[1]);
    } else {
      assert earlier[0] in earlier && later[0] in later;
      var a: nat :| Arrives(hash, valid, before, a, earlier[0]);
      assert Arrives(hash, valid, lists, a, earlier[0]) && Arrives(hash, valid, lists, |before|, later[0]);
    }
  }

  lemma TwoIfShared(hash: Hash, valid: seq<Job> -> bool, before: seq<seq<Job>>, last: seq<Job>, name: string,
      earlier: seq<Job>, later: seq<Job>)
    requires forall j :: j in earlier <==> j.name == name && exists a: nat :: Arrives(hash, valid, before, a, j)
    requires |earlier| > 1 <==> Shared(hash, valid, before, name)
    requires forall j :: j in later <==> j.name == name && Arrives(hash, valid, [last], 0, j)
    requires Shared(hash, valid, before + [last], name)
    ensures |earlier| + |later| > 1
  {
    var lists := before + [last];
    var a: nat, j, b: nat, k :|
      && Arrives(hash, valid, lists, a, j) && Arrives(hash, valid, lists, b, k)
      && j.name == name && k.name == name && (a != b || j != k);
    ArrivesLast(hash, valid, before, last, a, j);
    ArrivesLast(hash, valid, before, last, b, k);
    if a == |before| && b == |before| {
      TwoElements(later, j, k);
    } else if a == |before| {
      assert j in later && k in earlier;
    } else if b == |before| {
      assert k in later && j in earlier;
    } else {
      assert Shared(hash, valid, before, name);
    }
  }

  lemma TwoElements(s: seq<Job>, x: Job, y: Job)
    requires x in s && y in s && x != y
    ensures |s| > 1
  {}

  /**
   What the two passes together achieve: over the lists of all relations the names come out
   pairwise distinct if and only if the lists are compatible.
   */
  lemma TwoPassesDistinct(hash: Hash, valid: seq<Job> -> bool, lists: seq<seq<Job>>)
    requires GoodHash(hash)
    ensures NamesDistinct(Dedupe(hash, Collected(hash, valid, lists))) <==> CompatibleLists(hash, valid, lists)
  {
    var all := Collected(hash, valid, lists);
    DedupeNamesDistinct(hash, all);
    forall j: Job, k: Job
      ensures RenamedAndKept(all, j, k) <==>
        && (exists a: nat :: Arrives(hash, valid, lists, a, j)) && (exists b: nat :: Arrives(hash, valid, lists, b, k))
        && Shared(hash, valid, lists, j.name) && !Shared(hash, valid, lists, k.name)
    {
      CollectedCount(hash, valid, lists, j.name);
      CollectedCount(hash, valid, lists, k.name);
      MembersOutcome(all, j.name);
      MembersOutcome(all, k.name);
    }
    if Compatible(hash, all) {
      forall a: nat, j: Job, b: nat, k: Job |
        && Arrives(hash, valid, lists, a, j) && Arrives(hash, valid, lists, b, k)
        && Shared(hash, valid, lists, j.name) && !Shared(hash, valid, lists, k.name)
        && Rename(hash, j).name == k.name
        ensures Rename(hash, j) == k
      {
        assert RenamedAndKept(all, j, k);
      }
    }
  }

  /** Incompatible input exists for every hash: a plain name that imitates a renamed one. */
  lemma IncompatibleInput(hash: Hash)
    requires GoodHash(hash)
    ensures
      var j, other := Job("a", "x"), Job("a", "y");
      !Compatible(hash, [j, other, Job("a_" + hash(j), "z")])
  {
    var j, other := Job("a", "x"), Job("a", "y");
    var k := Job("a_" + hash(j), "z");
    var jobs := [j, other, k];
    assert jobs[0] == j && jobs[1] == other && jobs[2] == k;
    MembersOutcome(jobs, "a");
    assert |k.name| == 2 + |hash(j)| && k.name != "a";
    assert jobs[..2] == [j, other] && jobs[..2][..1] == [j];
    NoMembers(jobs[..2], k.name);
    assert |Members(jobs, k.name)| == 1;
    assert RenamedAndKept(jobs, j, k);
    assert Rename(hash, j).name == k.name;
  }
}
