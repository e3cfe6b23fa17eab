/** The classpath cache of CachingGeneratorProvider seen as values: the
    sequence of file sets of its entries, most recently used first, and what
    one lookup does to that sequence. The class model in GeneratorCache is
    proved to follow these functions. */
module CacheOrder {
  import opened Wrappers
  import opened Paths

  /** The set of files a requested classpath collection denotes
      (new HashSet<>(files): order and duplicates dropped). */
  function AsSet(files: seq<File>): (r: set<File>)
    ensures forall f :: f in r <==> f in files
  {
    set f | f in files
  }

  /** No value occurs twice. */
  predicate Distinct<T(==)>(s: seq<T>) {
    forall i, j | 0 <= i < j < |s| :: s[i] != s[j]
  }

  /** The position of the first entry whose file set contains every
      requested file (getFiles().containsAll(files)), if there is one. */
  function FirstSuperset(sets: seq<set<File>>, req: set<File>): (r: Option<nat>)
    ensures r.Some? ==> r.value < |sets| && req <= sets[r.value]
    ensures r.Some? ==> forall j | 0 <= j < r.value :: !(req <= sets[j])
    ensures r.None? <==> forall j | 0 <= j < |sets| :: !(req <= sets[j])
  {
    if |sets| == 0 then None
    else if req <= sets[0] then Some(0)
    else match FirstSuperset(sets[1..], req)
      case None => None
      case Some(k) => Some(k + 1)
  }

  /** The position of the first element of `s` that lies in `xs`, if any. */
  function FirstIn<T(==)>(s: seq<T>, xs: set<T>): (r: Option<nat>)
    ensures r.Some? ==> r.value < |s| && s[r.value] in xs
    ensures r.Some? ==> forall j | 0 <= j < r.value :: s[j] !in xs
    ensures r.None? <==> forall j | 0 <= j < |s| :: s[j] !in xs
  {
    if |s| == 0 then None
    else if s[0] in xs then Some(0)
    else match FirstIn(s[1..], xs)
      case None => None
      case Some(k) => Some(k + 1)
  }

  /** iterator.remove() followed by addFirst: the element at `k` moves to
      the front; the elements before it shift back by one, those after it
      keep their places, and nothing is lost or added. */
  function MoveToFront<T>(s: seq<T>, k: nat): (r: seq<T>)
    requires k < |s|
    ensures |r| == |s| && r[0] == s[k]
    ensures forall i | 0 <= i < k :: r[i + 1] == s[i]
    ensures forall i | k < i < |s| :: r[i] == s[i]
    ensures multiset(r) == multiset(s)
  {
    assert s == s[..k] + [s[k]] + s[k + 1..];
    [s[k]] + s[..k] + s[k + 1..]
  }

  /** addFirst followed by removeLast when the size then exceeds `cap`: the
      result is a prefix of `[x] + s` that drops at most the one last
      element, and drops it exactly when the grown list would exceed `cap`. */
  function Admit<T>(s: seq<T>, x: T, cap: nat): (r: seq<T>)
    ensures |r| <= |s| + 1 && r == ([x] + s)[..|r|]
    ensures |r| == |s| + 1 <==> |s| + 1 <= cap
    ensures |r| == |s| <==> |s| + 1 > cap
  {
    var grown := [x] + s;
    if |grown| > cap then grown[..|grown| - 1] else grown
  }

  /** One lookup of `req` in the cache whose entries have the file sets
      `sets`: a hit moves the first superset to the front, a miss admits a
      new entry scoped exactly to `req`. */
  function Lookup(sets: seq<set<File>>, req: set<File>, cap: nat): seq<set<File>> {
    match FirstSuperset(sets, req)
    case Some(k) => MoveToFront(sets, k)
    case None => Admit(sets, req, cap)
  }

  /** The state of the cache after a series of lookups, first to last. */
  function Replay(sets: seq<set<File>>, reqs: seq<set<File>>, cap: nat): seq<set<File>>
    decreases |reqs|
  {
    if |reqs| == 0 then sets else Replay(Lookup(sets, reqs[0], cap), reqs[1..], cap)
  }

  /** The cache invariant: within its bound, no file set cached twice. */
  predicate Bounded(sets: seq<set<File>>, cap: nat) {
    |sets| <= cap && Distinct(sets)
  }

  lemma DistinctMoveToFront<T>(s: seq<T>, k: nat)
    requires k < |s| && Distinct(s)
    ensures Distinct(MoveToFront(s, k))
  {
    var r := MoveToFront(s, k);
    forall i, j | 0 <= i < j < |r| ensures r[i] != r[j] {
      var i' := if i == 0 then k else if i <= k then i - 1 else i;
      var j' := if j == 0 then k else if j <= k then j - 1 else j;
      assert r[i] == s[i'] && r[j] == s[j'] && i' != j';
    }
  }

  lemma DistinctAdmit<T>(s: seq<T>, x: T, cap: nat)
    requires Distinct(s) && forall i | 0 <= i < |s| :: s[i] != x
    ensures Distinct(Admit(s, x, cap))
  {
    var r := Admit(s, x, cap);
    var grown := [x] + s;
    forall i, j | 0 <= i < j < |r| ensures r[i] != r[j] {
      assert r[i] == grown[i] && r[j] == grown[j];
      assert grown[j] == s[j - 1];
      if i > 0 { assert grown[i] == s[i - 1]; }
    }
  }

  /** One lookup keeps the cache invariant: the list never grows past
      `cap`, and neither a hit nor a miss puts a file set in twice. */
  lemma LookupKeepsBounded(sets: seq<set<File>>, req: set<File>, cap: nat)
    requires Bounded(sets, cap)
    ensures Bounded(Lookup(sets, req, cap), cap)
  {
    match FirstSuperset(sets, req)
    case Some(k) =>
      DistinctMoveToFront(sets, k);
    case None =>
      forall i | 0 <= i < |sets| ensures sets[i] != req {
        assert !(req <= sets[i]);
      }
      DistinctAdmit(sets, req, cap);
  }

  /** Any series of lookups keeps the cache invariant. */
  lemma {:induction false} ReplayKeepsBounded(sets: seq<set<File>>, reqs: seq<set<File>>, cap: nat)
    requires Bounded(sets, cap)
    ensures Bounded(Replay(sets, reqs, cap), cap)
    decreases |reqs|
  {
    if |reqs| > 0 {
      LookupKeepsBounded(sets, reqs[0], cap);
      ReplayKeepsBounded(Lookup(sets, reqs[0], cap), reqs[1..], cap);
    }
  }

  /** A hit creates no entry: the list keeps its length, the front-most
      superset comes first, and the others keep their relative order. */
  lemma LookupHit(sets: seq<set<File>>, req: set<File>, cap: nat, j: nat)
    requires j < |sets| && req <= sets[j]
    ensures FirstSuperset(sets, req).Some?
    ensures var k := FirstSuperset(sets, req).value;
      var r := Lookup(sets, req, cap);
      && k <= j && |r| == |sets| && r[0] == sets[k] && req <= r[0]
      && r[1..] == sets[..k] + sets[k + 1..]
  {
    var k := FirstSuperset(sets, req).value;
    var r := Lookup(sets, req, cap);
    assert r == MoveToFront(sets, k);
    assert r[1..] == sets[..k] + sets[k + 1..];
  }

  /** A miss puts an entry for exactly the requested set at the front, whose
      set is no subset of any entry cached before, and removes exactly the
      last entry when the list would exceed `cap`. With `cap` zero the new
      entry is not kept at all. */
  lemma LookupMiss(sets: seq<set<File>>, req: set<File>, cap: nat)
    requires |sets| <= cap
    requires forall j | 0 <= j < |sets| :: !(req <= sets[j])
    ensures var r := Lookup(sets, req, cap);
      && (cap == 0 ==> r == [])
      && (0 < cap ==> r[0] == req && forall j | 1 <= j < |r| :: !(req <= r[j]))
      && (|sets| < cap ==> r == [req] + sets)
      && (0 < |sets| == cap ==> r == [req] + sets[..|sets| - 1])
  {
    var r := Lookup(sets, req, cap);
    assert r == Admit(sets, req, cap);
    if 0 < cap {
      forall j | 1 <= j < |r| ensures !(req <= r[j]) {
        assert r[j] == ([req] + sets)[j] == sets[j - 1];
      }
    }
    if 0 < |sets| == cap {
      assert r == ([req] + sets)[..|sets|];
    }
  }

  /** Asking again for the same files, or for a subset of them, right after a
      lookup is a hit on the front entry and changes nothing. */
  lemma LookupAgain(sets: seq<set<File>>, req: set<File>, sub: set<File>, cap: nat)
    requires |sets| <= cap && sub <= req
    ensures Lookup(Lookup(sets, req, cap), sub, cap) == Lookup(sets, req, cap)
  {
    var r := Lookup(sets, req, cap);
    if |r| == 0 {
      assert FirstSuperset(sets, req).None?;
      assert cap == 0;
    } else {
      assert req <= r[0];
      assert FirstSuperset(r, sub) == Some(0);
      assert MoveToFront(r, 0) == r;
    }
  }

  /** The least recently used entry is the one dropped: with room for two
      entries, asking for A, B, C (no one contained in another) keeps C and
      B, and asking for A again then rebuilds A and drops B. */
  lemma EvictionScenario(a: set<File>, b: set<File>, c: set<File>)
    requires !(a <= b) && !(a <= c) && !(b <= a) && !(b <= c) && !(c <= a) && !(c <= b)
    ensures Replay([], [a, b, c], 2) == [c, b]
    ensures Lookup([c, b], a, 2) == [a, c]
  {
    assert Lookup([], a, 2) == [a];
    assert FirstSuperset([a], b) == None;
    assert Lookup([a], b, 2) == [b, a];
    assert FirstSuperset([b, a], c) == None;
    assert Lookup([b, a], c, 2) == [c, b];
    assert [a, b, c][1..] == [b, c] && [b, c][1..] == [c] && [c][1..] == [];
    assert Replay([b, a], [c], 2) == Replay([c, b], [], 2) == [c, b];
    assert Replay([a], [b, c], 2) == Replay([b, a], [c], 2);
    assert Replay([], [a, b, c], 2) == Replay([a], [b, c], 2);
    assert FirstSuperset([c, b], a) == None;
  }

  /** A cached entry can be shadowed: after asking for A and then for a
      strict superset B, both entries are cached, yet the next request for A
      is served by the newer B entry at the front, and the A entry is not
      used again while B stays before it. */
  lemma SupersetShadowsEntry(a: set<File>, b: set<File>, cap: nat)
    requires a < b && cap >= 2
    ensures Replay([], [a, b], cap) == [b, a]
    ensures FirstSuperset([b, a], a) == Some(0)
    ensures Lookup([b, a], a, cap) == [b, a]
  {
    assert Lookup([], a, cap) == [a];
    assert FirstSuperset([a], b) == None;
    assert Lookup([a], b, cap) == [b, a];
    assert Replay([a], [b], cap) == Replay([b, a], [], cap);
    assert Replay([], [a, b], cap) == Replay([a], [b], cap);
    assert MoveToFront([b, a], 0) == [b, a];
  }
}
