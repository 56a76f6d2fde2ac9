/**
 * Merging one editorial answer into the stored material of a problem (`mergeEditorialMaterial` of
 * src/application/import-service.ts). Ids are numbers that stand for the order of the stored strings.
 */
module EditorialMerge {
  import opened Prelude

  datatype Source = Source(id: nat, found: bool, body: nat)
  datatype Solution = Solution(source: nat, ordinal: int, id: nat, body: nat)
  datatype Material = Material(sources: seq<Source>, solutions: seq<Solution>)

  /** `check` is the id derived from the checked target; a non-found answer records its note under it. */
  datatype Answer =
    | Undeclared
    | Found(check: nat, sources: seq<Source>, solutions: seq<Solution>)
    | NotFound(check: nat, note: nat)

  predicate SourceBefore(left: Source, right: Source) {
    left.id < right.id
  }

  predicate SolutionBefore(left: Solution, right: Solution) {
    || left.source < right.source
    || (left.source == right.source && left.ordinal < right.ordinal)
    || (left.source == right.source && left.ordinal == right.ordinal && left.id < right.id)
  }

  // ---- Stable sorting ------------------------------------------------------------------------

  /** Inserts after every element it does not precede. */
  function Insert<T(!new)>(sorted: seq<T>, item: T, before: (T, T) -> bool): (result: seq<T>)
    ensures |result| == |sorted| + 1
    ensures forall x :: x in result <==> x in sorted || x == item
  {
    if sorted == [] then [item]
    else
      var last := sorted[|sorted| - 1];
      assert forall x :: x in sorted <==> x in sorted[..|sorted| - 1] || x == last;
      if before(item, last) then Insert(sorted[..|sorted| - 1], item, before) + [last] else sorted + [item]
  }

  function Sort<T(!new)>(items: seq<T>, before: (T, T) -> bool): (result: seq<T>)
    ensures |result| == |items|
    ensures forall x :: x in result <==> x in items
  {
    if items == [] then []
    else
      assert forall x :: x in items <==> x in items[..|items| - 1] || x == items[|items| - 1];
      Insert(Sort(items[..|items| - 1], before), items[|items| - 1], before)
  }

  /** A strict order by key. */
  ghost predicate Strict<T(!new)>(before: (T, T) -> bool) {
    && (forall x :: !before(x, x))
    && (forall x, y, z :: before(x, y) && before(y, z) ==> before(x, z))
  }

  /** No two positions carry the same key. */
  ghost predicate Keyed<T(!new)>(items: seq<T>, before: (T, T) -> bool) {
    forall i, j | 0 <= i < j < |items| :: before(items[i], items[j]) || before(items[j], items[i])
  }

  ghost predicate Ascending<T(!new)>(items: seq<T>, before: (T, T) -> bool) {
    forall i, j | 0 <= i < j < |items| :: before(items[i], items[j])
  }

  lemma {:induction false} InsertAscends<T(!new)>(sorted: seq<T>, item: T, before: (T, T) -> bool)
    requires Strict(before) && Ascending(sorted, before)
    requires forall x | x in sorted :: before(x, item) || before(item, x)
    ensures Ascending(Insert(sorted, item, before), before)
  {
    if sorted != [] {
      var front, last := sorted[..|sorted| - 1], sorted[|sorted| - 1];
      if before(item, last) {
        InsertAscends(front, item, before);
        assert forall x | x in front :: before(x, last);
      } else {
        assert forall x | x in sorted :: x == last || before(x, last);
      }
    }
  }

  lemma {:induction false} SortAscends<T(!new)>(items: seq<T>, before: (T, T) -> bool)
    requires Strict(before) && Keyed(items, before)
    ensures Ascending(Sort(items, before), before)
  {
    if items != [] {
      var front := items[..|items| - 1];
      SortAscends(front, before);
      forall x | x in Sort(front, before) ensures before(x, items[|items| - 1]) || before(items[|items| - 1], x) {
        var i :| 0 <= i < |front| && front[i] == x;
        assert items[i] == x;
      }
      InsertAscends(Sort(front, before), items[|items| - 1], before);
    }
  }

  /** Ascending sequences are determined by their elements. */
  lemma {:induction false} AscendingIsUnique<T(!new)>(left: seq<T>, right: seq<T>, before: (T, T) -> bool)
    requires Strict(before) && Ascending(left, before) && Ascending(right, before)
    requires forall x :: x in left <==> x in right
    ensures left == right
  {
    if left == [] {
      assert forall i | 0 <= i < |right| :: right[i] in right;
      assert right == [];
    } else {
      assert left[|left| - 1] in right;
      var n, m := |left| - 1, |right| - 1;
      assert right[m] in left;
      var x, y := left[n], right[m];
      assert x == y by {
        var i :| 0 <= i < |left| && left[i] == y;
        var j :| 0 <= j < |right| && right[j] == x;
        assert i < n ==> before(y, x);
        assert j < m ==> before(x, y);
      }
      forall e ensures e in left[..n] <==> e in right[..m] {
        if e in left[..n] {
          var i :| 0 <= i < n && left[i] == e;
          assert before(left[i], x) && e in right;
        }
        if e in right[..m] {
          var i :| 0 <= i < m && right[i] == e;
          assert before(right[i], y) && e in left;
        }
      }
      AscendingIsUnique(left[..n], right[..m], before);
      assert left == left[..n] + [left[n]] && right == right[..m] + [right[m]];
    }
  }

  lemma OrdersAreStrict()
    ensures Strict(SourceBefore) && Strict(SolutionBefore)
  {
  }

  /** Sorting keyed items forgets the order they came in. */
  lemma SortIgnoresOrder<T(!new)>(left: seq<T>, right: seq<T>, before: (T, T) -> bool)
    requires Strict(before) && Keyed(left, before) && Keyed(right, before)
    requires forall x :: x in left <==> x in right
    ensures Sort(left, before) == Sort(right, before)
  {
    SortAscends(left, before);
    SortAscends(right, before);
    AscendingIsUnique(Sort(left, before), Sort(right, before), before);
  }

  // ---- The merge -----------------------------------------------------------------------------

  function SourceIds(sources: seq<Source>): (ids: set<nat>)
    ensures forall s | s in sources :: s.id in ids
    ensures forall id | id in ids :: exists s :: s in sources && s.id == id
  {
    set i | 0 <= i < |sources| :: sources[i].id
  }

  predicate Kept(source: Source, named: set<nat>, check: nat) {
    source.id !in named && !(source.id == check && !source.found)
  }

  function KeptSources(sources: seq<Source>, named: set<nat>, check: nat): (kept: seq<Source>)
    ensures forall s :: s in kept <==> s in sources && Kept(s, named, check)
  {
    if sources == [] then []
    else
      var front, last := sources[..|sources| - 1], sources[|sources| - 1];
      assert forall s :: s in sources <==> s in front || s == last;
      var rest := KeptSources(front, named, check);
      if Kept(last, named, check) then rest + [last] else rest
  }

  function SolutionsOf(solutions: seq<Solution>, ids: set<nat>): (kept: seq<Solution>)
    ensures forall s :: s in kept <==> s in solutions && s.source in ids
  {
    if solutions == [] then []
    else
      var front, last := solutions[..|solutions| - 1], solutions[|solutions| - 1];
      assert forall s :: s in solutions <==> s in front || s == last;
      var rest := SolutionsOf(front, ids);
      if last.source in ids then rest + [last] else rest
  }

  lemma {:induction false} KeptStaysKeyed(sources: seq<Source>, named: set<nat>, check: nat)
    requires Keyed(sources, SourceBefore)
    ensures Keyed(KeptSources(sources, named, check), SourceBefore)
  {
    if sources != [] {
      KeptStaysKeyed(sources[..|sources| - 1], named, check);
      assert forall s | s in sources[..|sources| - 1] :: s.id != sources[|sources| - 1].id;
    }
  }

  lemma {:induction false} SolutionsStayKeyed(solutions: seq<Solution>, ids: set<nat>)
    requires Keyed(solutions, SolutionBefore)
    ensures Keyed(SolutionsOf(solutions, ids), SolutionBefore)
  {
    if solutions != [] {
      var front, last := solutions[..|solutions| - 1], solutions[|solutions| - 1];
      SolutionsStayKeyed(front, ids);
      assert forall s | s in front :: SolutionBefore(s, last) || SolutionBefore(last, s);
    }
  }

  function MergeFound(previous: Material, answer: Answer): Material
    requires answer.Found?
  {
    var kept := KeptSources(previous.sources, SourceIds(answer.sources), answer.check);
    Material(Sort(kept + answer.sources, SourceBefore),
             Sort(SolutionsOf(previous.solutions, SourceIds(kept)) + answer.solutions, SolutionBefore))
  }

  /** A check that found nothing never replaces material of its id that was found. */
  predicate Preserves(previous: Material, check: nat) {
    exists s | s in previous.sources :: s.id == check && s.found
  }

  function RecordCheck(previous: Material, answer: Answer): Material
    requires answer.NotFound?
  {
    var others := KeptSources(previous.sources, {answer.check}, answer.check);
    Material(Sort(others + [Source(answer.check, false, answer.note)], SourceBefore),
             Sort(SolutionsOf(previous.solutions, OtherIds(previous.solutions, answer.check)), SolutionBefore))
  }

  function OtherIds(solutions: seq<Solution>, check: nat): set<nat> {
    set i | 0 <= i < |solutions| && solutions[i].source != check :: solutions[i].source
  }

  datatype Outcome = Ignored(material: Material) | Applied(material: Material) | Preserved(material: Material)
    | Malformed

  function Merge(previous: Material, answer: Answer): Outcome {
    match answer
    case Undeclared => Ignored(previous)
    case Found(_, sources, _) => if sources == [] then Malformed else Applied(MergeFound(previous, answer))
    case NotFound(check, _) => if Preserves(previous, check) then Preserved(previous)
      else Applied(RecordCheck(previous, answer))
  }

  // ---- Well-formed material ------------------------------------------------------------------

  /** Unique source ids, unique solution keys, and every solution's source present. */
  ghost predicate WellFormed(material: Material) {
    && Keyed(material.sources, SourceBefore)
    && Keyed(material.solutions, SolutionBefore)
    && Anchored(material.solutions, material.sources)
  }

  ghost predicate Anchored(solutions: seq<Solution>, sources: seq<Source>) {
    forall s | s in solutions :: s.source in SourceIds(sources)
  }

  lemma KeyedAppend<T(!new)>(left: seq<T>, right: seq<T>, before: (T, T) -> bool)
    requires Keyed(left, before) && Keyed(right, before)
    requires forall x, y | x in left && y in right :: before(x, y) || before(y, x)
    ensures Keyed(left + right, before)
  {
    var all := left + right;
    forall i, j | 0 <= i < j < |all| ensures before(all[i], all[j]) || before(all[j], all[i]) {
      if i < |left| <= j {
        assert all[i] in left && all[j] in right;
      }
    }
  }

  lemma AscendingIsKeyed<T(!new)>(items: seq<T>, before: (T, T) -> bool)
    requires Ascending(items, before)
    ensures Keyed(items, before)
  {
  }

  /** Both lists of a found merge are keyed before they are sorted. */
  lemma FoundIsKeyed(previous: Material, answer: Answer)
    requires answer.Found? && WellFormed(previous) && WellFormed(Material(answer.sources, answer.solutions))
    ensures var kept := KeptSources(previous.sources, SourceIds(answer.sources), answer.check);
            && Keyed(kept + answer.sources, SourceBefore)
            && Keyed(SolutionsOf(previous.solutions, SourceIds(kept)) + answer.solutions, SolutionBefore)
            && SourceIds(kept) !! SourceIds(answer.sources)
  {
    var kept := KeptSources(previous.sources, SourceIds(answer.sources), answer.check);
    KeptStaysKeyed(previous.sources, SourceIds(answer.sources), answer.check);
    KeyedAppend(kept, answer.sources, SourceBefore);
    SolutionsStayKeyed(previous.solutions, SourceIds(kept));
    var solutions := SolutionsOf(previous.solutions, SourceIds(kept));
    forall x, y | x in solutions && y in answer.solutions ensures SolutionBefore(x, y) || SolutionBefore(y, x) {
      assert x.source in SourceIds(kept) && y.source in SourceIds(answer.sources);
      assert x.source != y.source;
    }
    KeyedAppend(solutions, answer.solutions, SolutionBefore);
  }

  /** A found merge of well-formed material and a well-formed answer is well-formed and ordered by stable id. */
  lemma FoundStaysWellFormed(previous: Material, answer: Answer)
    requires answer.Found? && WellFormed(previous) && WellFormed(Material(answer.sources, answer.solutions))
    ensures WellFormed(MergeFound(previous, answer))
    ensures Ascending(MergeFound(previous, answer).sources, SourceBefore)
    ensures Ascending(MergeFound(previous, answer).solutions, SolutionBefore)
  {
    var kept := KeptSources(previous.sources, SourceIds(answer.sources), answer.check);
    var merged := MergeFound(previous, answer);
    OrdersAreStrict();
    FoundIsKeyed(previous, answer);
    SortAscends(kept + answer.sources, SourceBefore);
    SortAscends(SolutionsOf(previous.solutions, SourceIds(kept)) + answer.solutions, SolutionBefore);
    AscendingIsKeyed(merged.sources, SourceBefore);
    AscendingIsKeyed(merged.solutions, SolutionBefore);
    forall s | s in merged.solutions ensures s.source in SourceIds(merged.sources) {
      if s in answer.solutions {
        var o :| o in answer.sources && o.id == s.source;
        assert o in merged.sources;
      } else {
        var o :| o in kept && o.id == s.source;
        assert o in merged.sources;
      }
    }
  }

  lemma CheckIsKeyed(previous: Material, answer: Answer)
    requires answer.NotFound? && WellFormed(previous)
    ensures Keyed(KeptSources(previous.sources, {answer.check}, answer.check)
                  + [Source(answer.check, false, answer.note)], SourceBefore)
    ensures Keyed(SolutionsOf(previous.solutions, OtherIds(previous.solutions, answer.check)), SolutionBefore)
  {
    KeptStaysKeyed(previous.sources, {answer.check}, answer.check);
    SolutionsStayKeyed(previous.solutions, OtherIds(previous.solutions, answer.check));
    KeyedAppend(KeptSources(previous.sources, {answer.check}, answer.check),
                [Source(answer.check, false, answer.note)], SourceBefore);
  }

  lemma CheckStaysWellFormed(previous: Material, answer: Answer)
    requires answer.NotFound? && WellFormed(previous)
    ensures WellFormed(RecordCheck(previous, answer))
    ensures Ascending(RecordCheck(previous, answer).sources, SourceBefore)
    ensures Ascending(RecordCheck(previous, answer).solutions, SolutionBefore)
  {
    var merged := RecordCheck(previous, answer);
    OrdersAreStrict();
    CheckIsKeyed(previous, answer);
    SortAscends(KeptSources(previous.sources, {answer.check}, answer.check)
                + [Source(answer.check, false, answer.note)], SourceBefore);
    SortAscends(SolutionsOf(previous.solutions, OtherIds(previous.solutions, answer.check)), SolutionBefore);
    AscendingIsKeyed(merged.sources, SourceBefore);
    AscendingIsKeyed(merged.solutions, SolutionBefore);
    forall s | s in merged.solutions ensures s.source in SourceIds(merged.sources) {
      var o :| o in previous.sources && o.id == s.source;
      assert o in merged.sources;
    }
  }

  /** Whatever is answered, stored material stays well-formed. */
  lemma MergeStaysWellFormed(previous: Material, answer: Answer)
    requires WellFormed(previous) && (answer.Found? ==> WellFormed(Material(answer.sources, answer.solutions)))
    ensures !Merge(previous, answer).Malformed? ==> WellFormed(Merge(previous, answer).material)
  {
    match answer
    case Undeclared =>
    case Found(_, _, _) => FoundStaysWellFormed(previous, answer);
    case NotFound(_, _) => CheckStaysWellFormed(previous, answer);
  }

  // ---- Laws ----------------------------------------------------------------------------------

  /** No answer removes found material it does not name, nor the solutions of that material. */
  lemma FoundMaterialSurvives(previous: Material, answer: Answer, source: Source)
    requires WellFormed(previous) && source in previous.sources && source.found
    requires answer.Found? ==> source.id !in SourceIds(answer.sources)
    requires !Merge(previous, answer).Malformed?
    ensures var merged := Merge(previous, answer).material;
            && source in merged.sources
            && forall s | s in previous.solutions && s.source == source.id :: s in merged.solutions
  {
    if answer.Found? {
      var kept := KeptSources(previous.sources, SourceIds(answer.sources), answer.check);
      assert source in kept;
    } else if answer.NotFound? && !Preserves(previous, answer.check) {
      forall s | s in previous.solutions && s.source == source.id
        ensures s.source in OtherIds(previous.solutions, answer.check) {
        var i :| 0 <= i < |previous.solutions| && previous.solutions[i] == s;
        assert previous.solutions[i].source != answer.check;
      }
    }
  }

  /** The elements of a found merge. */
  lemma FoundElements(previous: Material, answer: Answer)
    requires answer.Found?
    ensures var merged, ids := MergeFound(previous, answer), SourceIds(answer.sources);
            && (forall s :: s in merged.sources <==>
                (s in previous.sources && Kept(s, ids, answer.check)) || s in answer.sources)
            && (forall s :: s in merged.solutions <==>
                  || (s in previous.solutions && exists o ::
                      o in previous.sources && Kept(o, ids, answer.check) && o.id == s.source)
                  || s in answer.solutions)
  {
    var ids := SourceIds(answer.sources);
    var kept := KeptSources(previous.sources, ids, answer.check);
    forall s: Solution ensures s.source in SourceIds(kept) <==> exists o ::
      o in previous.sources && Kept(o, ids, answer.check) && o.id == s.source {
      if s.source in SourceIds(kept) {
        var o :| o in kept && o.id == s.source;
        assert o in previous.sources && Kept(o, ids, answer.check);
      }
    }
  }

  /** Merging the same answer twice is merging it once. */
  lemma MergeIsIdempotent(previous: Material, answer: Answer)
    requires WellFormed(previous) && (answer.Found? ==> WellFormed(Material(answer.sources, answer.solutions)))
    requires !Merge(previous, answer).Malformed?
    ensures Merge(Merge(previous, answer).material, answer).material == Merge(previous, answer).material
  {
    OrdersAreStrict();
    if answer.Found? {
      FoundTwice(previous, answer);
    } else if answer.NotFound? && !Preserves(previous, answer.check) {
      CheckTwice(previous, answer);
    }
  }

  lemma FoundTwice(previous: Material, answer: Answer)
    requires answer.Found? && WellFormed(previous) && WellFormed(Material(answer.sources, answer.solutions))
    ensures MergeFound(MergeFound(previous, answer), answer) == MergeFound(previous, answer)
  {
    var once, ids := MergeFound(previous, answer), SourceIds(answer.sources);
    var twice := MergeFound(once, answer);
    OrdersAreStrict();
    FoundStaysWellFormed(previous, answer);
    FoundStaysWellFormed(once, answer);
    FoundElements(previous, answer);
    FoundElements(once, answer);
    AscendingIsUnique(once.sources, twice.sources, SourceBefore);
    forall s ensures s in once.solutions <==> s in twice.solutions {
      if s in once.solutions && s !in answer.solutions {
        var o :| o in previous.sources && Kept(o, ids, answer.check) && o.id == s.source;
        assert o in once.sources;
      }
    }
    AscendingIsUnique(once.solutions, twice.solutions, SolutionBefore);
  }

  lemma CheckTwice(previous: Material, answer: Answer)
    requires answer.NotFound? && WellFormed(previous) && !Preserves(previous, answer.check)
    ensures !Preserves(RecordCheck(previous, answer), answer.check)
    ensures RecordCheck(RecordCheck(previous, answer), answer) == RecordCheck(previous, answer)
  {
    var once := RecordCheck(previous, answer);
    var twice := RecordCheck(once, answer);
    OrdersAreStrict();
    CheckStaysWellFormed(previous, answer);
    CheckStaysWellFormed(once, answer);
    AscendingIsUnique(once.sources, twice.sources, SourceBefore);
    forall s ensures s in once.solutions <==> s in twice.solutions {
      if s in once.solutions {
        var i :| 0 <= i < |once.solutions| && once.solutions[i] == s;
        assert s.source in OtherIds(previous.solutions, answer.check);
        assert once.solutions[i].source in OtherIds(once.solutions, answer.check);
      }
    }
    AscendingIsUnique(once.solutions, twice.solutions, SolutionBefore);
  }

  /** The order in which an answer lists its sources and solutions does not matter. */
  lemma AnswerOrderIsIrrelevant(previous: Material, answer: Answer, other: Answer)
    requires answer.Found? && other.Found? && other.check == answer.check
    requires WellFormed(previous)
    requires WellFormed(Material(answer.sources, answer.solutions))
      && WellFormed(Material(other.sources, other.solutions))
    requires multiset(other.sources) == multiset(answer.sources)
      && multiset(other.solutions) == multiset(answer.solutions)
    ensures Merge(previous, other) == Merge(previous, answer)
  {
    forall s ensures s in other.sources <==> s in answer.sources {
      assert s in multiset(other.sources) <==> s in multiset(answer.sources);
    }
    forall s ensures s in other.solutions <==> s in answer.solutions {
      assert s in multiset(other.solutions) <==> s in multiset(answer.solutions);
    }
    assert |multiset(other.sources)| == |multiset(answer.sources)|;
    SameIds(answer.sources, other.sources);
    FoundIsKeyed(previous, answer);
    FoundIsKeyed(previous, other);
    OrdersAreStrict();
    var kept := KeptSources(previous.sources, SourceIds(answer.sources), answer.check);
    SortIgnoresOrder(kept + other.sources, kept + answer.sources, SourceBefore);
    var solutions := SolutionsOf(previous.solutions, SourceIds(kept));
    SortIgnoresOrder(solutions + other.solutions, solutions + answer.solutions, SolutionBefore);
  }

  lemma SameIds(left: seq<Source>, right: seq<Source>)
    requires forall s :: s in left <==> s in right
    ensures SourceIds(left) == SourceIds(right)
  {
    forall id ensures id in SourceIds(left) <==> id in SourceIds(right) {
      if id in SourceIds(left) { var s :| s in left && s.id == id; assert s in right; }
      if id in SourceIds(right) { var s :| s in right && s.id == id; assert s in left; }
    }
  }

  /** Answers that neither name nor check what the other names. */
  ghost predicate Independent(a: Answer, b: Answer)
    requires a.Found? && b.Found?
  {
    && SourceIds(a.sources) !! SourceIds(b.sources)
    && a.check !in SourceIds(b.sources) && b.check !in SourceIds(a.sources)
  }

  /** Independent found answers may be merged in either order. */
  lemma IndependentAnswersCommute(previous: Material, a: Answer, b: Answer)
    requires a.Found? && b.Found? && WellFormed(previous) && Independent(a, b)
    requires WellFormed(Material(a.sources, a.solutions)) && WellFormed(Material(b.sources, b.solutions))
    ensures MergeFound(MergeFound(previous, a), b) == MergeFound(MergeFound(previous, b), a)
  {
    var left, right := MergeFound(MergeFound(previous, a), b), MergeFound(MergeFound(previous, b), a);
    OrdersAreStrict();
    FoundStaysWellFormed(previous, a);
    FoundStaysWellFormed(previous, b);
    FoundStaysWellFormed(MergeFound(previous, a), b);
    FoundStaysWellFormed(MergeFound(previous, b), a);
    forall s ensures s in left.sources <==> s in right.sources {
      BothSources(previous, a, b, s);
      BothSources(previous, b, a, s);
    }
    AscendingIsUnique(left.sources, right.sources, SourceBefore);
    forall s ensures s in left.solutions <==> s in right.solutions {
      BothSolutions(previous, a, b, s);
      BothSolutions(previous, b, a, s);
    }
    AscendingIsUnique(left.solutions, right.solutions, SolutionBefore);
  }

  ghost predicate KeptByBoth(source: Source, a: Answer, b: Answer)
    requires a.Found? && b.Found?
  {
    Kept(source, SourceIds(a.sources), a.check) && Kept(source, SourceIds(b.sources), b.check)
  }

  lemma BothSources(previous: Material, a: Answer, b: Answer, s: Source)
    requires a.Found? && b.Found? && Independent(a, b)
    ensures s in MergeFound(MergeFound(previous, a), b).sources <==>
      (s in previous.sources && KeptByBoth(s, a, b)) || s in a.sources || s in b.sources
  {
    FoundElements(previous, a);
    FoundElements(MergeFound(previous, a), b);
  }

  lemma BothSolutions(previous: Material, a: Answer, b: Answer, s: Solution)
    requires a.Found? && b.Found? && Independent(a, b) && WellFormed(previous)
    requires WellFormed(Material(a.sources, a.solutions)) && WellFormed(Material(b.sources, b.solutions))
    ensures s in MergeFound(MergeFound(previous, a), b).solutions <==>
      || (s in previous.solutions && exists o :: o in previous.sources && KeptByBoth(o, a, b) && o.id == s.source)
      || s in a.solutions || s in b.solutions
  {
    var once := MergeFound(previous, a);
    FoundElements(previous, a);
    FoundElements(once, b);
    FoundStaysWellFormed(previous, a);
    if s in a.solutions {
      var o :| o in a.sources && o.id == s.source;
      assert o in once.sources && Kept(o, SourceIds(b.sources), b.check);
    }
    if s in previous.solutions && exists o :: o in previous.sources && KeptByBoth(o, a, b) && o.id == s.source {
      var o :| o in previous.sources && KeptByBoth(o, a, b) && o.id == s.source;
      assert o in once.sources;
    }
    if s in once.solutions && s !in a.solutions && s in MergeFound(once, b).solutions && s !in b.solutions {
      var o :| o in previous.sources && Kept(o, SourceIds(a.sources), a.check) && o.id == s.source;
      var p :| p in once.sources && Kept(p, SourceIds(b.sources), b.check) && p.id == s.source;
      assert o in once.sources;
      SameSource(once.sources, o, p);
    }
  }

  lemma SameSource(sources: seq<Source>, o: Source, p: Source)
    requires Keyed(sources, SourceBefore) && o in sources && p in sources && o.id == p.id
    ensures o == p
  {
    var i :| 0 <= i < |sources| && sources[i] == o;
    var j :| 0 <= j < |sources| && sources[j] == p;
  }

  /**
   * Merging a found answer twice changes nothing exactly when its solutions belong to its own sources:
   * one that belongs to a source kept from before appears once more in every merge.
   */
  lemma FoundMergeIsIdempotentExactlyWhen(previous: Material, answer: Answer)
    requires answer.Found? && WellFormed(previous)
    requires Keyed(answer.sources, SourceBefore) && Keyed(answer.solutions, SolutionBefore)
    requires Anchored(answer.solutions,
                      KeptSources(previous.sources, SourceIds(answer.sources), answer.check) + answer.sources)
    ensures MergeFound(MergeFound(previous, answer), answer) == MergeFound(previous, answer)
        <==> Anchored(answer.solutions, answer.sources)
  {
    if Anchored(answer.solutions, answer.sources) {
      FoundTwice(previous, answer);
    }
    if MergeFound(MergeFound(previous, answer), answer) == MergeFound(previous, answer) {
      StrayedSolutionsRepeat(previous, answer);
    }
  }

  lemma StrayedSolutionsRepeat(previous: Material, answer: Answer)
    requires answer.Found? && WellFormed(previous) && Keyed(answer.sources, SourceBefore)
    requires Anchored(answer.solutions,
                      KeptSources(previous.sources, SourceIds(answer.sources), answer.check) + answer.sources)
    requires MergeFound(MergeFound(previous, answer), answer) == MergeFound(previous, answer)
    ensures Anchored(answer.solutions, answer.sources)
  {
    var ids := SourceIds(answer.sources);
    var kept := KeptSources(previous.sources, ids, answer.check);
    var once := MergeFound(previous, answer);
    var keptAgain := KeptSources(once.sources, ids, answer.check);
    forall s ensures s in kept <==> s in keptAgain {
    }
    SameIds(kept, keptAgain);
    var before := SolutionsOf(previous.solutions, SourceIds(kept));
    AllOf(before, SourceIds(kept));
    SolutionsOfAppend(before, answer.solutions, SourceIds(kept));
    SortedCount(before + answer.solutions, SourceIds(kept));
    assert |SolutionsOf(answer.solutions, SourceIds(kept))| == 0;
    forall s | s in answer.solutions ensures s.source in ids {
      assert s !in SolutionsOf(answer.solutions, SourceIds(kept));
      var o :| o in kept + answer.sources && o.id == s.source;
    }
  }

  lemma {:induction false} AllOf(solutions: seq<Solution>, ids: set<nat>)
    requires forall s | s in solutions :: s.source in ids
    ensures SolutionsOf(solutions, ids) == solutions
  {
    if solutions != [] { AllOf(solutions[..|solutions| - 1], ids); }
  }

  lemma {:induction false} SolutionsOfAppend(left: seq<Solution>, right: seq<Solution>, ids: set<nat>)
    ensures SolutionsOf(left + right, ids) == SolutionsOf(left, ids) + SolutionsOf(right, ids)
  {
    if right == [] {
      assert left + right == left;
    } else {
      assert (left + right)[..|left + right| - 1] == left + right[..|right| - 1];
      SolutionsOfAppend(left, right[..|right| - 1], ids);
    }
  }

  /** Sorting keeps how many solutions belong to the given sources. */
  lemma {:induction false} SortedCount(solutions: seq<Solution>, ids: set<nat>)
    ensures |SolutionsOf(Sort(solutions, SolutionBefore), ids)| == |SolutionsOf(solutions, ids)|
  {
    if solutions != [] {
      SortedCount(solutions[..|solutions| - 1], ids);
      InsertedCount(Sort(solutions[..|solutions| - 1], SolutionBefore), solutions[|solutions| - 1], ids);
    }
  }

  lemma {:induction false} InsertedCount(sorted: seq<Solution>, item: Solution, ids: set<nat>)
    ensures |SolutionsOf(Insert(sorted, item, SolutionBefore), ids)| == |SolutionsOf(sorted, ids)|
      + if item.source in ids then 1 else 0
  {
    if sorted != [] && SolutionBefore(item, sorted[|sorted| - 1]) {
      InsertedCount(sorted[..|sorted| - 1], item, ids);
      assert (Insert(sorted[..|sorted| - 1], item, SolutionBefore) + [sorted[|sorted| - 1]])[..|sorted|]
          == Insert(sorted[..|sorted| - 1], item, SolutionBefore);
    } else {
      assert (sorted + [item])[..|sorted|] == sorted;
    }
  }

  // ---- What the snapshot accepts ---------------------------------------------------------------

  predicate UniqueIds(solutions: seq<Solution>) {
    forall i, j | 0 <= i < j < |solutions| :: solutions[i].id != solutions[j].id
  }

  function IdsOf(solutions: seq<Solution>): set<nat> {
    set s | s in solutions :: s.id
  }

  /** `validateEditorial`: unique source ids, unique solution ids, every solution's source present. */
  ghost predicate Acceptable(material: Material) {
    && Keyed(material.sources, SourceBefore)
    && UniqueIds(material.solutions)
    && Anchored(material.solutions, material.sources)
  }

  lemma AcceptableIsWellFormed(material: Material)
    requires Acceptable(material)
    ensures WellFormed(material)
  {
  }

  lemma UniqueAppend(left: seq<Solution>, right: seq<Solution>)
    ensures UniqueIds(left + right) <==> UniqueIds(left) && UniqueIds(right) && IdsOf(left) !! IdsOf(right)
  {
    var all := left + right;
    if UniqueIds(all) {
      forall i, j | 0 <= i < j < |left|
        ensures left[i].id != left[j].id { assert all[i] == left[i] && all[j] == left[j]; }
      forall i, j | 0 <= i < j < |right| ensures right[i].id != right[j].id {
        assert all[|left| + i] == right[i] && all[|left| + j] == right[j];
      }
      forall id | id in IdsOf(left) ensures id !in IdsOf(right) {
        var i :| 0 <= i < |left| && left[i].id == id;
        forall j | 0 <= j < |right|
          ensures right[j].id != id { assert all[i] == left[i] && all[|left| + j] == right[j]; }
      }
    }
    if UniqueIds(left) && UniqueIds(right) && IdsOf(left) !! IdsOf(right) {
      forall i, j | 0 <= i < j < |all| ensures all[i].id != all[j].id {
        if i < |left| <= j { assert all[i].id in IdsOf(left) && all[j].id in IdsOf(right); }
      }
    }
  }

  lemma {:induction false} FilteredUnique(solutions: seq<Solution>, ids: set<nat>)
    requires UniqueIds(solutions)
    ensures UniqueIds(SolutionsOf(solutions, ids))
  {
    if solutions != [] {
      var front, last := solutions[..|solutions| - 1], solutions[|solutions| - 1];
      FilteredUnique(front, ids);
      assert forall s | s in SolutionsOf(front, ids) :: s.id != last.id;
    }
  }

  lemma {:induction false} InsertedUnique(sorted: seq<Solution>, item: Solution)
    ensures UniqueIds(Insert(sorted, item, SolutionBefore)) <==> UniqueIds(sorted) && item.id !in IdsOf(sorted)
  {
    if sorted == [] {
    } else {
      var front, last := sorted[..|sorted| - 1], sorted[|sorted| - 1];
      assert sorted == front + [last];
      UniqueAppend(front, [last]);
      UniqueAppend(sorted, [item]);
      if SolutionBefore(item, last) {
        var inserted := Insert(front, item, SolutionBefore);
        InsertedUnique(front, item);
        UniqueAppend(inserted, [last]);
        assert IdsOf(inserted) == IdsOf(front) + {item.id} && IdsOf(sorted) == IdsOf(front) + {last.id};
      }
    }
  }

  lemma {:induction false} SortedUnique(solutions: seq<Solution>)
    ensures UniqueIds(Sort(solutions, SolutionBefore)) <==> UniqueIds(solutions)
  {
    if solutions != [] {
      var front, last := solutions[..|solutions| - 1], solutions[|solutions| - 1];
      SortedUnique(front);
      InsertedUnique(Sort(front, SolutionBefore), last);
      UniqueAppend(front, [last]);
      assert solutions == front + [last];
      assert IdsOf(Sort(front, SolutionBefore)) == IdsOf(front);
    }
  }

  /** The solutions of earlier material that a found answer keeps. */
  function KeptSolutions(previous: Material, answer: Answer): seq<Solution>
    requires answer.Found?
  {
    SolutionsOf(previous.solutions, SourceIds(KeptSources(previous.sources, SourceIds(answer.sources), answer.check)))
  }

  /** A found merge keeps solution ids unique exactly when the answer's are and none of them is still in use. */
  lemma SolutionIdsStayUniqueExactlyWhen(previous: Material, answer: Answer)
    requires answer.Found? && UniqueIds(previous.solutions)
    ensures UniqueIds(MergeFound(previous, answer).solutions)
       <==> UniqueIds(answer.solutions) && IdsOf(KeptSolutions(previous, answer)) !! IdsOf(answer.solutions)
  {
    var kept := KeptSources(previous.sources, SourceIds(answer.sources), answer.check);
    FilteredUnique(previous.solutions, SourceIds(kept));
    UniqueAppend(KeptSolutions(previous, answer), answer.solutions);
    SortedUnique(KeptSolutions(previous, answer) + answer.solutions);
  }

  /**
   * Once a found answer was stored, the same answer is accepted again exactly when its solutions belong
   * to its own sources, and then it changes nothing: a solution of a source kept from before would
   * repeat its id, so the snapshot refuses the whole second answer.
   */
  lemma RepeatedAnswerIsAcceptedExactlyWhen(previous: Material, answer: Answer)
    requires answer.Found? && answer.sources != [] && Acceptable(previous)
    requires Keyed(answer.sources, SourceBefore) && Acceptable(MergeFound(previous, answer))
    ensures Acceptable(MergeFound(MergeFound(previous, answer), answer)) <==> Anchored(answer.solutions, answer.sources)
    ensures Anchored(answer.solutions, answer.sources) ==>
      MergeFound(MergeFound(previous, answer), answer) == MergeFound(previous, answer)
  {
    var once := MergeFound(previous, answer);
    AcceptableIsWellFormed(previous);
    SolutionIdsStayUniqueExactlyWhen(previous, answer);
    SolutionIdsStayUniqueExactlyWhen(once, answer);
    if Anchored(answer.solutions, answer.sources) {
      AcceptableIsWellFormed(Material(answer.sources, answer.solutions));
      FoundTwice(previous, answer);
    } else {
      var s :| s in answer.solutions && s.source !in SourceIds(answer.sources);
      StrayIsKept(previous, answer, s);
      assert s.id in IdsOf(KeptSolutions(once, answer)) && s.id in IdsOf(answer.solutions);
    }
  }

  /** A solution of the answer that belongs to no source of it is kept by the next merge of the answer. */
  lemma StrayIsKept(previous: Material, answer: Answer, s: Solution)
    requires answer.Found? && s in answer.solutions && s.source !in SourceIds(answer.sources)
    requires Anchored(MergeFound(previous, answer).solutions, MergeFound(previous, answer).sources)
    ensures s in KeptSolutions(MergeFound(previous, answer), answer)
  {
    var once, ids := MergeFound(previous, answer), SourceIds(answer.sources);
    var o :| o in once.sources && o.id == s.source;
    assert o in KeptSources(once.sources, ids, answer.check);
  }

  const PAGE := Source(1, true, 0)
  const OTHER := Source(2, true, 0)
  const STRAY := Solution(1, 0, 5, 0)
  const FIRST_ANSWER := Found(9, [PAGE], [])
  const STRAY_ANSWER := Found(9, [OTHER], [STRAY])

  lemma FirstAnswerStored()
    ensures MergeFound(Material([], []), FIRST_ANSWER) == Material([PAGE], [])
  {
    var none: seq<Solution> := [];
    assert [] + [PAGE] == [PAGE] && [PAGE][..0] == [] && none + none == none;
    assert Sort([PAGE], SourceBefore) == [PAGE];
  }

  lemma StrayAnswerStored()
    ensures MergeFound(Material([PAGE], []), STRAY_ANSWER) == Material([PAGE, OTHER], [STRAY])
  {
    var none: seq<Solution> := [];
    assert SourceIds([OTHER]) == {2} by { assert [OTHER][0].id == 2; }
    assert KeptSources([PAGE], {2}, 9) == [PAGE] by { assert [PAGE][..0] == []; }
    assert [PAGE] + [OTHER] == [PAGE, OTHER] && [PAGE, OTHER][..1] == [PAGE] && [PAGE][..0] == [];
    assert Sort([PAGE], SourceBefore) == [PAGE] && Sort([PAGE, OTHER], SourceBefore) == [PAGE, OTHER];
    assert none + [STRAY] == [STRAY] && [STRAY][..0] == none && Sort([STRAY], SolutionBefore) == [STRAY];
  }

  /** An answer that names one page and a solution of another: stored once, refused the second time. */
  lemma StrayAnswerIsRefusedTheSecondTime()
    ensures var first := MergeFound(Material([], []), FIRST_ANSWER);
            && Acceptable(first) && Acceptable(MergeFound(first, STRAY_ANSWER))
            && MergeFound(MergeFound(first, STRAY_ANSWER), STRAY_ANSWER) != MergeFound(first, STRAY_ANSWER)
            && !Acceptable(MergeFound(MergeFound(first, STRAY_ANSWER), STRAY_ANSWER))
  {
    FirstAnswerStored();
    StrayAnswerStored();
    hide MergeFound, Sort, KeptSources;
    var once := Material([PAGE, OTHER], [STRAY]);
    assert SourceIds([OTHER]) == {2} by { assert [OTHER][0].id == 2; }
    assert [PAGE, OTHER][0].id == 1 && [PAGE, OTHER][1].id == 2;
    assert Acceptable(once) && STRAY.source !in SourceIds(STRAY_ANSWER.sources);
    assert STRAY in STRAY_ANSWER.solutions;
    RepeatedAnswerIsAcceptedExactlyWhen(Material([PAGE], []), STRAY_ANSWER);
  }
}
