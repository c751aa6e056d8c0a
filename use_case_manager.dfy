/**
 * The in-memory catalog of use cases: the filter chain of `getAll`, lookup by
 * key, create/update/delete with the rollback the remote backend triggers,
 * the sorted distinct categories and tags, and the frequency tables of `getStats`.
 */
module Catalog {
  import opened Results
  import opened Json
  import opened UseCases
  import opened Seqs
  import Text

  /** Where the catalog persists: the local JSON file, or the remote table store. */
  datatype Backend = LocalFile | RemoteTable

  /** How the backend answered a write: for the local file the failure is swallowed, for the remote table it is thrown. */
  datatype Outcome = Succeeded | Failed(error: Failure)

  // ---------------------------------------------------------------- getAll

  /** The query of `getAll`; a filter that is absent or empty restricts nothing. */
  datatype Filters = Filters(
    status: Option<string>,
    category: Option<string>,
    priority: Option<string>,
    tag: Option<string>,
    implementation: Option<string>,
    implementationStatus: Option<string>,
    search: Option<string>)

  /** The filter is truthy. */
  predicate Active(f: Option<string>) {
    f.Some? && f.value != ""
  }

  predicate NoFilter(f: Filters) {
    && !Active(f.status) && !Active(f.category) && !Active(f.priority) && !Active(f.tag)
    && !Active(f.implementation) && !Active(f.implementationStatus) && !Active(f.search)
  }

  /** The search term occurs, ignoring ASCII case, in the title, the description or some tag. */
  predicate Mentions(x: UseCase, term: string) {
    var t := Text.Lower(term);
    || Text.Contains(Text.Lower(x.title), t)
    || Text.Contains(Text.Lower(x.description), t)
    || exists i :: 0 <= i < |x.tags| && Text.Contains(Text.Lower(x.tags[i]), t)
  }

  /** The search ignores the ASCII case of the term. */
  lemma SearchIgnoresCase(x: UseCase, term: string)
    ensures Mentions(x, Text.Lower(term)) == Mentions(x, term)
  {
    Text.LowerIdempotent(term);
  }

  /** The record passes every active filter. */
  predicate Matches(f: Filters, x: UseCase) {
    && (Active(f.status) ==> x.status == f.status.value)
    && (Active(f.category) ==> x.category == f.category.value)
    && (Active(f.priority) ==> x.priority == f.priority.value)
    && (Active(f.tag) ==> f.tag.value in x.tags)
    && (Active(f.implementation) ==> x.implementationStatus == f.implementation.value)
    && (Active(f.implementationStatus) ==> x.implementationStatus == f.implementationStatus.value)
    && (Active(f.search) ==> Mentions(x, f.search.value))
  }

  /** The records of `s` that match `f`, in their order: the reference meaning of `getAll`. */
  function Select(s: seq<UseCase>, f: Filters): seq<UseCase> {
    if s == [] then []
    else (if Matches(f, s[0]) then [s[0]] else []) + Select(s[1..], f)
  }

  /** `Select` keeps the order of the records it keeps. */
  lemma {:induction false} SelectIsSubsequence(s: seq<UseCase>, f: Filters)
    ensures IsSubsequence(Select(s, f), s)
  {
    if s != [] {
      SelectIsSubsequence(s[1..], f);
      if Matches(f, s[0]) {
        assert Select(s, f)[1..] == Select(s[1..], f);
      } else {
        assert Select(s, f) == Select(s[1..], f);
        SkipHead(Select(s, f), s);
      }
    }
  }

  lemma SkipHead(sub: seq<UseCase>, s: seq<UseCase>)
    requires s != [] && IsSubsequence(sub, s[1..])
    ensures IsSubsequence(sub, s)
    decreases |s|, 0
  {
    if sub != [] && sub[0] == s[0] {
      DropHead(sub, s[1..]);
    }
  }

  lemma DropHead(sub: seq<UseCase>, s: seq<UseCase>)
    requires sub != [] && IsSubsequence(sub, s)
    ensures IsSubsequence(sub[1..], s)
    decreases |s|, 1
  {
    if sub[0] == s[0] {
      SkipHead(sub[1..], s);
    } else {
      DropHead(sub, s[1..]);
      SkipHead(sub[1..], s);
    }
  }

  /** `Select` keeps exactly the matching records. */
  lemma {:induction false} SelectMembers(s: seq<UseCase>, f: Filters)
    ensures forall x :: x in Select(s, f) <==> x in s && Matches(f, x)
  {
    if s != [] {
      SelectMembers(s[1..], f);
      assert s == [s[0]] + s[1..];
    }
  }

  /** One stage of the filter chain. */
  datatype Criterion =
    | StatusIs(status: string)
    | CategoryIs(category: string)
    | PriorityIs(priority: string)
    | TagIs(tag: string)
    | ImplementationIs(implementation: string)
    | MentionsTerm(term: string)

  predicate Holds(c: Criterion, x: UseCase) {
    match c
    case StatusIs(v) => x.status == v
    case CategoryIs(v) => x.category == v
    case PriorityIs(v) => x.priority == v
    case TagIs(v) => v in x.tags
    case ImplementationIs(v) => x.implementationStatus == v
    case MentionsTerm(t) => Mentions(x, t)
  }

  /** The seven stages of `getAll`, in the order of its `if` statements; `None` where the filter is inactive. */
  function Stages(f: Filters): seq<Option<Criterion>> {
    [ if Active(f.status) then Some(StatusIs(f.status.value)) else None,
      if Active(f.category) then Some(CategoryIs(f.category.value)) else None,
      if Active(f.priority) then Some(PriorityIs(f.priority.value)) else None,
      if Active(f.tag) then Some(TagIs(f.tag.value)) else None,
      if Active(f.implementation) then Some(ImplementationIs(f.implementation.value)) else None,
      if Active(f.implementationStatus) then Some(ImplementationIs(f.implementationStatus.value)) else None,
      if Active(f.search) then Some(MentionsTerm(f.search.value)) else None ]
  }

  /** A skipped stage lets every record through. */
  predicate Passes(stage: Option<Criterion>, x: UseCase) {
    stage.None? || Holds(stage.value, x)
  }

  /** `s.filter(...)` for one stage. */
  function Keep(s: seq<UseCase>, stage: Option<Criterion>): seq<UseCase> {
    if s == [] then []
    else (if Passes(stage, s[0]) then [s[0]] else []) + Keep(s[1..], stage)
  }

  /** The stages applied one after another, each to the previous one's result. */
  function Chain(s: seq<UseCase>, stages: seq<Option<Criterion>>): seq<UseCase>
    decreases |stages|
  {
    if stages == [] then s else Chain(Keep(s, stages[0]), stages[1..])
  }

  predicate AllHold(stages: seq<Option<Criterion>>, x: UseCase) {
    forall i :: 0 <= i < |stages| ==> Passes(stages[i], x)
  }

  function SelectAll(s: seq<UseCase>, stages: seq<Option<Criterion>>): seq<UseCase> {
    if s == [] then []
    else (if AllHold(stages, s[0]) then [s[0]] else []) + SelectAll(s[1..], stages)
  }

  lemma AllHoldCons(c: Option<Criterion>, cs: seq<Option<Criterion>>, x: UseCase)
    ensures AllHold([c] + cs, x) <==> Passes(c, x) && AllHold(cs, x)
  {
    var all := [c] + cs;
    assert all[0] == c;
    assert forall i :: 0 <= i < |cs| ==> all[i + 1] == cs[i];
    if Passes(c, x) && AllHold(cs, x) {
      forall i | 0 <= i < |all| ensures Passes(all[i], x) {
        if i > 0 {
          assert all[i] == cs[i - 1];
        }
      }
    }
  }

  lemma {:induction false} KeepThenSelect(s: seq<UseCase>, c: Option<Criterion>, cs: seq<Option<Criterion>>)
    ensures SelectAll(Keep(s, c), cs) == SelectAll(s, [c] + cs)
  {
    if s != [] {
      KeepThenSelect(s[1..], c, cs);
      AllHoldCons(c, cs, s[0]);
      var k := Keep(s, c);
      if Passes(c, s[0]) {
        assert k[0] == s[0] && k[1..] == Keep(s[1..], c);
      } else {
        assert k == Keep(s[1..], c);
      }
    }
  }

  lemma {:induction false} ChainIsSelectAll(s: seq<UseCase>, cs: seq<Option<Criterion>>)
    ensures Chain(s, cs) == SelectAll(s, cs)
    decreases |cs|
  {
    if cs == [] {
      SelectAllNothing(s);
    } else {
      ChainIsSelectAll(Keep(s, cs[0]), cs[1..]);
      KeepThenSelect(s, cs[0], cs[1..]);
      assert [cs[0]] + cs[1..] == cs;
    }
  }

  lemma {:induction false} SelectAllNothing(s: seq<UseCase>)
    ensures SelectAll(s, []) == s
  {
    if s != [] {
      SelectAllNothing(s[1..]);
      assert s == [s[0]] + s[1..];
    }
  }

  /** A record passes all stages of `f` exactly when it matches `f`. */
  lemma StagesMeaning(f: Filters, x: UseCase)
    ensures AllHold(Stages(f), x) <==> Matches(f, x)
  {
    var cs := Stages(f);
    if Matches(f, x) {
      forall i | 0 <= i < |cs| ensures Passes(cs[i], x) {
      }
    } else if !Passes(cs[0], x) {
    } else if !Passes(cs[1], x) {
    } else if !Passes(cs[2], x) {
    } else if !Passes(cs[3], x) {
    } else if !Passes(cs[4], x) {
    } else if !Passes(cs[5], x) {
    } else {
      assert !Passes(cs[6], x);
    }
  }

  lemma {:induction false} SelectAllStages(s: seq<UseCase>, f: Filters)
    ensures SelectAll(s, Stages(f)) == Select(s, f)
  {
    if s != [] {
      StagesMeaning(f, s[0]);
      SelectAllStages(s[1..], f);
    }
  }

  /** Running the filter chain is selecting the records that pass every active filter. */
  lemma ChainIsSelect(s: seq<UseCase>, f: Filters)
    ensures Chain(s, Stages(f)) == Select(s, f)
  {
    ChainIsSelectAll(s, Stages(f));
    SelectAllStages(s, f);
  }

  /** When every record of `s` matches, the query returns `s` whole. */
  lemma {:induction false} SelectEverything(s: seq<UseCase>, f: Filters)
    requires forall x :: x in s ==> Matches(f, x)
    ensures Select(s, f) == s
  {
    if s != [] {
      assert s == [s[0]] + s[1..];
      SelectEverything(s[1..], f);
    }
  }

  // ---------------------------------------------------------------- getById

  /** `findIndex(uc => uc.case_id === k)`. */
  function IndexOf(s: seq<UseCase>, k: string): (r: Option<nat>)
    ensures r.None? <==> forall j :: 0 <= j < |s| ==> s[j].caseId != k
    ensures r.Some? ==> r.value < |s| && s[r.value].caseId == k && forall j :: 0 <= j < r.value ==> s[j].caseId != k
  {
    FirstIndex(s, (x: UseCase) => x.caseId == k)
  }

  // ---------------------------------------------------------------- categories and tags

  function CategoriesOf(s: seq<UseCase>): (r: seq<string>)
    ensures forall c :: c in r <==> exists i :: 0 <= i < |s| && s[i].category == c
  {
    var r := seq(|s|, i requires 0 <= i < |s| => s[i].category);
    assert forall i :: 0 <= i < |s| ==> r[i] == s[i].category;
    r
  }

  /** The tags of all records, concatenated in order. */
  function TagsOf(s: seq<UseCase>): (r: seq<string>)
    ensures forall t :: t in r <==> exists i :: 0 <= i < |s| && t in s[i].tags
  {
    if s == [] then []
    else
      var front := s[..|s| - 1];
      var r := TagsOf(front) + s[|s| - 1].tags;
      assert forall i :: 0 <= i < |front| ==> front[i] == s[i];
      assert forall t :: t in r <==> (exists i :: 0 <= i < |front| && t in front[i].tags) || t in s[|s| - 1].tags;
      r
  }

  // ---------------------------------------------------------------- stats

  /** The three fields `getStats` counts by. */
  datatype Dimension = ByStatus | ByCategory | ByPriority

  function ValueOf(x: UseCase, d: Dimension): string {
    match d
    case ByStatus => x.status
    case ByCategory => x.category
    case ByPriority => x.priority
  }

  /** `table[k] = (table[k] || 0) + 1`. */
  function Bump(m: map<string, nat>, k: string): map<string, nat> {
    m[k := (if k in m then m[k] else 0) + 1]
  }

  /** The frequency table the loop of `getStats` builds over `s`. */
  function Tally(s: seq<UseCase>, d: Dimension): map<string, nat> {
    if s == [] then map[] else Bump(Tally(s[..|s| - 1], d), ValueOf(s[|s| - 1], d))
  }

  /** The number of records of `s` whose field `d` is `v`. */
  function Count(s: seq<UseCase>, d: Dimension, v: string): nat {
    if s == [] then 0
    else Count(s[..|s| - 1], d, v) + (if ValueOf(s[|s| - 1], d) == v then 1 else 0)
  }

  /** The table maps each value present to the number of records holding it, and nothing else. */
  lemma {:induction false} TallyCounts(s: seq<UseCase>, d: Dimension)
    ensures forall v :: v in Tally(s, d) <==> Count(s, d, v) > 0
    ensures forall v :: v in Tally(s, d) ==> Tally(s, d)[v] == Count(s, d, v)
  {
    if s != [] {
      TallyCounts(s[..|s| - 1], d);
    }
  }

  /** The sum of a table's counts. */
  ghost function Total(m: map<string, nat>): nat
    decreases |m|
  {
    if m == map[] then 0
    else
      var k :| k in m;
      assert |m - {k}| < |m| by {
        assert (m - {k}).Keys == m.Keys - {k};
      }
      m[k] + Total(m - {k})
  }

  lemma {:induction false} TotalRemove(m: map<string, nat>, k: string)
    requires k in m
    ensures Total(m) == m[k] + Total(m - {k})
    decreases |m|
  {
    var j :| j in m && Total(m) == m[j] + Total(m - {j});
    if j != k {
      assert (m - {j}).Keys == m.Keys - {j};
      TotalRemove(m - {j}, k);
      assert (m - {k}).Keys == m.Keys - {k};
      TotalRemove(m - {k}, j);
      assert m - {j} - {k} == m - {k} - {j};
    }
  }

  lemma {:induction false} TotalBump(m: map<string, nat>, k: string)
    ensures Total(Bump(m, k)) == Total(m) + 1
  {
    var b := Bump(m, k);
    TotalRemove(b, k);
    if k in m {
      TotalRemove(m, k);
      assert b - {k} == m - {k};
    } else {
      assert b - {k} == m;
    }
  }

  /** The counts of each table add up to the number of records. */
  lemma {:induction false} TallyTotal(s: seq<UseCase>, d: Dimension)
    ensures Total(Tally(s, d)) == |s|
  {
    if s != [] {
      TallyTotal(s[..|s| - 1], d);
      TotalBump(Tally(s[..|s| - 1], d), ValueOf(s[|s| - 1], d));
    }
  }

  datatype Stats = Stats(
    total: nat,
    byStatus: map<string, nat>,
    byCategory: map<string, nat>,
    byPriority: map<string, nat>)

  // ---------------------------------------------------------------- persistence

  /** What `saveUseCases` writes: every record's `toJSON()`, in order. */
  function Serialize(s: seq<UseCase>): (r: seq<Object>)
    ensures |r| == |s|
  {
    seq(|s|, i requires 0 <= i < |s| => ToJSON(s[i]))
  }

  /** `data.map(item => UseCase.fromJSON(item))`, the `i`th item drawing `random(i)`. */
  function Revive(items: seq<Object>, now: string, millis: nat, random: nat -> string): (r: seq<UseCase>)
    ensures |r| == |items|
  {
    seq(|items|, i requires 0 <= i < |items| => FromJSON(items[i], now, millis, random(i)))
  }

  /** Loading what was saved gives back the catalog, when its records are well formed. */
  lemma SaveThenLoad(s: seq<UseCase>, now: string, millis: nat, random: nat -> string)
    requires now != ""
    requires forall i :: 0 <= i < |s| ==> WellFormed(s[i])
    ensures Revive(Serialize(s), now, millis, random) == s
  {
    forall i | 0 <= i < |s| ensures Revive(Serialize(s), now, millis, random)[i] == s[i] {
      RoundTrip(s[i], now, millis, random(i));
    }
  }

  // ---------------------------------------------------------------- the manager

  class UseCaseManager {
    const backend: Backend
    /** The records, in insertion order. */
    var useCases: seq<UseCase>
    /** The local JSON file's records; `None` when it is missing or unreadable. */
    var file: Option<seq<Object>>

    /** `new UseCaseManager(useNocoDB)`; the un-awaited initial load is a separate call here. */
    constructor(useNocoDB: bool, file: Option<seq<Object>>)
      ensures backend == (if useNocoDB then RemoteTable else LocalFile)
      ensures useCases == [] && this.file == file
    {
      backend := if useNocoDB then RemoteTable else LocalFile;
      useCases := [];
      this.file := file;
    }

    /**
     * `loadUseCases()`: a full replace from the backend. The local file reads
     * as empty when unreadable; `remote` is what the remote store's `loadData`
     * gives, `None` when it throws.
     */
    method LoadUseCases(remote: Option<seq<Object>>, now: string, millis: nat, random: nat -> string)
      modifies this`useCases
      ensures backend == LocalFile ==> useCases == Revive(file.GetOr([]), now, millis, random)
      ensures backend == RemoteTable ==> useCases == Revive(remote.GetOr([]), now, millis, random)
    {
      var data: seq<Object>;
      if backend == LocalFile {
        data := file.GetOr([]);
      } else if remote.Some? {
        data := remote.value;
      } else {
        useCases := [];
        return;
      }
      useCases := Revive(data, now, millis, random);
    }

    /** `saveUseCases()`: the local file is rewritten with every record when the write succeeds. */
    method SaveUseCases(write: Outcome) returns (ok: bool)
      modifies this`file
      ensures ok == write.Succeeded?
      ensures file == if backend == LocalFile && write.Succeeded? then Some(Serialize(useCases)) else old(file)
    {
      if backend == LocalFile && write.Succeeded? {
        file := Some(Serialize(useCases));
      }
      ok := write.Succeeded?;
    }

    /**
     * `create(data)`: the new record is appended; when the remote store
     * fails it is popped again and the failure propagates.
     */
    method Create(data: Object, now: string, millis: nat, random: string, write: Outcome)
      returns (r: Result<UseCase>)
      modifies this`useCases, this`file
      ensures backend == RemoteTable && write.Failed? ==>
        r == Err(write.error) && useCases == old(useCases) && file == old(file)
      ensures backend == LocalFile || write.Succeeded? ==>
        r == Ok(New(data, now, millis, random)) && useCases == old(useCases) + [r.value]
      ensures backend == LocalFile && write.Succeeded? ==> file == Some(Serialize(useCases))
      ensures backend == RemoteTable || write.Failed? ==> file == old(file)
    {
      var useCase := New(data, now, millis, random);
      useCases := useCases + [useCase];
      if backend == RemoteTable {
        if write.Failed? {
          useCases := useCases[..|useCases| - 1];
          return Err(write.error);
        }
      } else {
        var _ := SaveUseCases(write);
      }
      r := Ok(useCase);
    }

    /** `getAll(filters)`: the records passing every active filter, in their order. */
    function GetAll(f: Filters): (r: seq<UseCase>)
      reads this
      ensures r == Select(useCases, f)
      ensures IsSubsequence(r, useCases)
      ensures forall x :: x in r <==> x in useCases && Matches(f, x)
      ensures NoFilter(f) ==> r == useCases
      ensures (forall x :: x in useCases ==> Matches(f, x)) ==> r == useCases
      ensures (Active(f.implementation) && Active(f.implementationStatus) &&
               f.implementation.value != f.implementationStatus.value) ==> r == []
    {
      ChainIsSelect(useCases, f);
      SelectIsSubsequence(useCases, f);
      SelectMembers(useCases, f);
      var r := Chain(useCases, Stages(f));
      if forall x :: x in useCases ==> Matches(f, x) then
        SelectEverything(useCases, f);
        r
      else if r != [] then
        assert r[0] in r;
        r
      else
        r
    }

    /** `getById(k)`: the first record with key `k`. */
    function GetById(k: string): (r: Option<UseCase>)
      reads this
      ensures r.None? <==> forall x :: x in useCases ==> x.caseId != k
      ensures r.Some? ==> exists i :: 0 <= i < |useCases| && r.value == useCases[i] && r.value.caseId == k &&
                            forall j :: 0 <= j < i ==> useCases[j].caseId != k
    {
      match IndexOf(useCases, k)
      case None => None
      case Some(i) => Some(useCases[i])
    }

    /**
     * `update(k, patch)`: the first record with key `k` is merged with the
     * patch in place; a remote failure propagates without rolling it back.
     */
    method Update(k: string, patch: Object, now: string, write: Outcome)
      returns (r: Result<Option<UseCase>>)
      modifies this`useCases, this`file
      ensures IndexOf(old(useCases), k).None? ==>
        r == Ok(None) && useCases == old(useCases) && file == old(file)
      ensures IndexOf(old(useCases), k).Some? ==>
        var i := IndexOf(old(useCases), k).value;
        var updated := UseCases.Update(old(useCases)[i], patch, now);
        && useCases == old(useCases)[i := updated]
        && r == (if backend == RemoteTable && write.Failed? then Err(write.error) else Ok(Some(updated)))
        && file == (if backend == LocalFile && write.Succeeded? then Some(Serialize(useCases)) else old(file))
    {
      var index := IndexOf(useCases, k);
      if index.None? {
        return Ok(None);
      }
      var i := index.value;
      var updated := UseCases.Update(useCases[i], patch, now);
      useCases := useCases[i := updated];
      if backend == RemoteTable {
        if write.Failed? {
          return Err(write.error);
        }
      } else {
        var _ := SaveUseCases(write);
      }
      r := Ok(Some(updated));
    }

    /**
     * `delete(k)`: the first record with key `k` is spliced out and returned;
     * when the remote store fails it is spliced back at the same index.
     */
    method Delete(k: string, write: Outcome) returns (r: Result<Option<UseCase>>)
      modifies this`useCases, this`file
      ensures IndexOf(old(useCases), k).None? ==>
        r == Ok(None) && useCases == old(useCases) && file == old(file)
      ensures IndexOf(old(useCases), k).Some? && backend == RemoteTable && write.Failed? ==>
        r == Err(write.error) && useCases == old(useCases) && file == old(file)
      ensures IndexOf(old(useCases), k).Some? && (backend == LocalFile || write.Succeeded?) ==>
        var i := IndexOf(old(useCases), k).value;
        && r == Ok(Some(old(useCases)[i]))
        && useCases == RemoveAt(old(useCases), i)
        && file == (if backend == LocalFile && write.Succeeded? then Some(Serialize(useCases)) else old(file))
    {
      var index := IndexOf(useCases, k);
      if index.None? {
        return Ok(None);
      }
      var i := index.value;
      var deleted := useCases[i];
      useCases := RemoveAt(useCases, i);
      if backend == RemoteTable {
        if write.Failed? {
          SpliceBack(old(useCases), i);
          useCases := InsertAt(useCases, i, deleted);
          return Err(write.error);
        }
      } else {
        var _ := SaveUseCases(write);
      }
      r := Ok(Some(deleted));
    }

    /** `getCategories()`: the distinct categories in ascending order. */
    function GetCategories(): (r: seq<string>)
      reads this
      ensures Text.StrictlySorted(r)
      ensures forall c :: c in r <==> exists i :: 0 <= i < |useCases| && useCases[i].category == c
    {
      Text.SortDistinct(CategoriesOf(useCases))
    }

    /** `getTags()`: every tag collected into a set, then sorted. */
    method GetTags() returns (tags: seq<string>)
      ensures Text.StrictlySorted(tags)
      ensures forall t :: t in tags <==> exists i :: 0 <= i < |useCases| && t in useCases[i].tags
      ensures tags == Text.SortDistinct(TagsOf(useCases))
    {
      var seen: seq<string> := [];
      var i := 0;
      while i < |useCases|
        invariant 0 <= i <= |useCases|
        invariant forall t :: t in seen <==> exists m :: 0 <= m < i && t in useCases[m].tags
      {
        var ts := useCases[i].tags;
        var j := 0;
        while j < |ts|
          invariant 0 <= j <= |ts|
          invariant forall t :: t in seen <==> (exists m :: 0 <= m < i && t in useCases[m].tags) || t in ts[..j]
        {
          if ts[j] !in seen {
            seen := seen + [ts[j]];
          }
          assert ts[..j + 1] == ts[..j] + [ts[j]];
          j := j + 1;
        }
        assert ts[..j] == ts;
        i := i + 1;
      }
      tags := Text.SortDistinct(seen);
      Text.SortedUnique(tags, Text.SortDistinct(TagsOf(useCases)));
    }

    /** `getStats()`: the record count and, per status, category and priority, how many records hold each value. */
    method GetStats() returns (stats: Stats)
      ensures stats.total == |useCases|
      ensures stats.byStatus == Tally(useCases, ByStatus)
      ensures stats.byCategory == Tally(useCases, ByCategory)
      ensures stats.byPriority == Tally(useCases, ByPriority)
      ensures Total(stats.byStatus) == Total(stats.byCategory) == Total(stats.byPriority) == stats.total
    {
      var byStatus: map<string, nat> := map[];
      var byCategory: map<string, nat> := map[];
      var byPriority: map<string, nat> := map[];
      var i := 0;
      while i < |useCases|
        invariant 0 <= i <= |useCases|
        invariant byStatus == Tally(useCases[..i], ByStatus)
        invariant byCategory == Tally(useCases[..i], ByCategory)
        invariant byPriority == Tally(useCases[..i], ByPriority)
      {
        var uc := useCases[i];
        assert useCases[..i + 1][..i] == useCases[..i];
        byStatus := Bump(byStatus, uc.status);
        byCategory := Bump(byCategory, uc.category);
        byPriority := Bump(byPriority, uc.priority);
        i := i + 1;
      }
      assert useCases[..i] == useCases;
      TallyTotal(useCases, ByStatus);
      TallyTotal(useCases, ByCategory);
      TallyTotal(useCases, ByPriority);
      stats := Stats(|useCases|, byStatus, byCategory, byPriority);
    }
  }
}
