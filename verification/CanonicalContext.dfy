/** `canonicalizeContext`: which contexts are accepted, and what the text says of them.
    A context is a graph of objects; `seen` is threaded through the recursion. */
module CanonicalContext {
  import opened Collections
  import opened ContextKeys
  import opened CanonicalText
  import opened CodeUnits
  import opened NumberText
  import opened Options

  type Id = nat

  datatype Val =
    | Undefined
    | Null
    | Bool(b: bool)
    | Number(x: Numeral)
    | NegativeZero
    | NotFinite     // NaN and the infinities
    | Str(s: Text)
    | Unsupported   // function, symbol, bigint, Date, RegExp, Map, Set
    | Ref(id: Id)

  datatype Prop = Prop(key: Text, value: Val)

  datatype Node = ArrayNode(items: seq<Val>) | ObjectNode(props: seq<Prop>)

  type Heap = map<Id, Node>

  // ---- sorted keys ----------------------------------------------------------------------------

  /** The order of `Array.prototype.sort` on strings: by code units. */
  predicate Before(a: Text, b: Text) {
    b != [] && (a == [] || a[0] < b[0] || (a[0] == b[0] && Before(a[1..], b[1..])))
  }

  lemma {:induction false} BeforeIsStrict(a: Text, b: Text)
    ensures !(Before(a, b) && Before(b, a)) && (a == b ==> !Before(a, b))
  {
    if a != [] && b != [] {
      BeforeIsStrict(a[1..], b[1..]);
    }
  }

  /** `b` goes on where `a` ends, or has the greater code unit where they first differ. */
  ghost predicate DiffersUpwards(a: Text, b: Text, i: nat) {
    i <= |a| && i < |b| && a[..i] == b[..i] && (i < |a| ==> a[i] < b[i])
  }

  lemma AgreeAtFirst(a: Text, b: Text, i: nat)
    requires i > 0 && DiffersUpwards(a, b, i)
    ensures a != [] && a[0] == b[0]
  {
    assert a[..i][0] == b[..i][0];
  }

  lemma {:induction false} BeforeIff(a: Text, b: Text)
    ensures Before(a, b) <==> exists i: nat :: DiffersUpwards(a, b, i)
  {
    if a != [] && b != [] && a[0] == b[0] {
      BeforeIff(a[1..], b[1..]);
      if i: nat :| DiffersUpwards(a[1..], b[1..], i) {
        assert a[..i + 1] == [a[0]] + a[1..][..i] && b[..i + 1] == [b[0]] + b[1..][..i];
        assert DiffersUpwards(a, b, i + 1);
      }
      if i: nat :| DiffersUpwards(a, b, i) {
        assert i > 0;
        assert a[1..][..i - 1] == a[..i][1..] && b[1..][..i - 1] == b[..i][1..];
        assert DiffersUpwards(a[1..], b[1..], i - 1);
      }
    } else {
      if Before(a, b) {
        assert DiffersUpwards(a, b, 0);
      }
      if i: nat :| DiffersUpwards(a, b, i) {
        if i > 0 {
          AgreeAtFirst(a, b, i);
          assert false;
        }
      }
    }
  }

  lemma {:induction false} BeforeIsTotal(a: Text, b: Text)
    ensures a == b || Before(a, b) || Before(b, a)
  {
    if a != [] && b != [] && a[0] == b[0] {
      BeforeIsTotal(a[1..], b[1..]);
      assert a == [a[0]] + a[1..] && b == [b[0]] + b[1..];
    }
  }

  lemma {:induction false} BeforeIsTransitive(a: Text, b: Text, c: Text)
    requires Before(a, b) && Before(b, c)
    ensures Before(a, c)
  {
    if a != [] && a[0] == b[0] && b[0] == c[0] {
      BeforeIsTransitive(a[1..], b[1..], c[1..]);
    }
  }

  function Insert(k: Text, sorted: seq<Text>): seq<Text> {
    if sorted == [] || Before(k, sorted[0]) then [k] + sorted else [sorted[0]] + Insert(k, sorted[1..])
  }

  function Sort(keys: seq<Text>): seq<Text> {
    if keys == [] then [] else Insert(keys[0], Sort(keys[1..]))
  }

  ghost predicate Increasing(keys: seq<Text>) {
    forall i, k :: 0 <= i < k < |keys| ==> Before(keys[i], keys[k])
  }

  lemma {:induction false} InsertHas(k: Text, sorted: seq<Text>, x: Text)
    ensures x in Insert(k, sorted) <==> x == k || x in sorted
  {
    if sorted != [] && !Before(k, sorted[0]) {
      InsertHas(k, sorted[1..], x);
    }
  }

  lemma {:induction false} InsertSorts(k: Text, sorted: seq<Text>)
    requires Increasing(sorted) && k !in sorted
    ensures Increasing(Insert(k, sorted))
  {
    if sorted != [] {
      if Before(k, sorted[0]) {
        forall i | 0 <= i < |sorted| ensures Before(k, sorted[i]) {
          if i > 0 {
            BeforeIsTransitive(k, sorted[0], sorted[i]);
          }
        }
      } else {
        BeforeIsTotal(k, sorted[0]);
        var rest := Insert(k, sorted[1..]);
        InsertSorts(k, sorted[1..]);
        forall i | 0 <= i < |rest| ensures Before(sorted[0], rest[i]) {
          InsertHas(k, sorted[1..], rest[i]);
        }
      }
    }
  }

  lemma {:induction false} SortHas(keys: seq<Text>, x: Text)
    ensures x in Sort(keys) <==> x in keys
  {
    if keys != [] {
      SortHas(keys[1..], x);
      InsertHas(keys[0], Sort(keys[1..]), x);
    }
  }

  lemma {:induction false} SortSorts(keys: seq<Text>)
    requires Distinct(keys)
    ensures Increasing(Sort(keys))
  {
    if keys != [] {
      SortSorts(keys[1..]);
      SortHas(keys[1..], keys[0]);
      InsertSorts(keys[0], Sort(keys[1..]));
    }
  }

  /** An increasing list is determined by its elements. */
  lemma {:induction false} IncreasingIsUnique(a: seq<Text>, b: seq<Text>)
    requires Increasing(a) && Increasing(b) && forall x :: x in a <==> x in b
    ensures a == b
  {
    if b != [] {
      assert b[0] in b && b[0] in a;
    }
    if a != [] {
      assert a[0] in a && a[0] in b;
      HeadIsLeast(a, b);
      HeadIsLeast(b, a);
      BeforeIsStrict(a[0], b[0]);
      forall x ensures x in a[1..] <==> x in b[1..] {
        TailHas(a, x);
        TailHas(b, x);
      }
      IncreasingIsUnique(a[1..], b[1..]);
    }
  }

  lemma HeadIsLeast(a: seq<Text>, b: seq<Text>)
    requires Increasing(a) && a != [] && b != [] && b[0] in a
    ensures a[0] == b[0] || Before(a[0], b[0])
  {
  }

  lemma TailHas(a: seq<Text>, x: Text)
    requires Increasing(a) && a != []
    ensures x in a[1..] <==> x in a && x != a[0]
  {
    assert a == [a[0]] + a[1..];
    if x in a[1..] {
      var i :| 0 <= i < |a[1..]| && a[1..][i] == x;
      assert Before(a[0], a[i + 1]);
      BeforeIsStrict(a[0], x);
    }
  }

  // ---- children ---------------------------------------------------------------------------------

  function Keys(props: seq<Prop>): (keys: seq<Text>)
    ensures |keys| == |props|
  {
    seq(|props|, i requires 0 <= i < |props| => props[i].key)
  }

  /** `obj[k]`. */
  function Lookup(props: seq<Prop>, k: Text): Val {
    if props == [] then Undefined else if props[0].key == k then props[0].value else Lookup(props[1..], k)
  }

  function SortedKeys(node: Node): seq<Text> {
    if node.ObjectNode? then Sort(Keys(node.props)) else []
  }

  /** The values under a node in the order they are printed. */
  function Kids(node: Node): seq<Val> {
    match node
    case ArrayNode(items) => items
    case ObjectNode(props) =>
      var keys := Sort(Keys(props));
      seq(|keys|, i requires 0 <= i < |keys| => Lookup(props, keys[i]))
  }

  function Assemble(node: Node, trees: seq<Tree>): Tree
    requires |trees| == |Kids(node)|
  {
    match node
    case ArrayNode(_) => JArray(trees)
    case ObjectNode(_) => JObject(seq(|trees|, i requires 0 <= i < |trees| => Field(SortedKeys(node)[i], trees[i])))
  }

  // ---- the recursion ------------------------------------------------------------------------------

  datatype Result = Rejected | Accepted(tree: Tree, seen: set<Id>)

  datatype Results = AnyRejected | AllAccepted(trees: seq<Tree>, seen: set<Id>)

  /** `stringify`, up to the printing of what it accepted. */
  function Resolve(h: Heap, v: Val, seen: set<Id>): (r: Result)
    ensures r.Accepted? ==> seen <= r.seen
    decreases h.Keys - seen, 0, 0
  {
    match v
    case Undefined => Accepted(JNull, seen)
    case Null => Accepted(JNull, seen)
    case Bool(b) => Accepted(JBool(b), seen)
    case Number(x) => Accepted(JNumber(x), seen)
    case NegativeZero => Accepted(JNumber(Zero), seen)
    case NotFinite => Accepted(JNull, seen)
    case Str(s) => Accepted(JString(s), seen)
    case Unsupported => Rejected
    case Ref(id) =>
      if id !in h || id in seen then Rejected
      else
        var rs := ResolveUpTo(h, Kids(h[id]), seen + {id}, |Kids(h[id])|);
        if rs.AnyRejected? then Rejected else Accepted(Assemble(h[id], rs.trees), rs.seen)
  }

  function ResolveUpTo(h: Heap, vs: seq<Val>, seen: set<Id>, n: nat): (rs: Results)
    requires n <= |vs|
    ensures rs.AllAccepted? ==> |rs.trees| == n && seen <= rs.seen
    decreases h.Keys - seen, 1, n
  {
    if n == 0 then AllAccepted([], seen)
    else
      var before := ResolveUpTo(h, vs, seen, n - 1);
      if before.AnyRejected? then AnyRejected
      else
        var r := Resolve(h, vs[n - 1], before.seen);
        if r.Rejected? then AnyRejected else AllAccepted(before.trees + [r.tree], r.seen)
  }

  datatype Printed = Throws | Prints(text: Text)

  /** The inner `stringify` of a whole value. */
  function Stringify(h: Heap, v: Val): Printed {
    var r := Resolve(h, v, {});
    if r.Accepted? then Prints(Show(r.tree)) else Throws
  }

  function Indices(n: nat): (keys: seq<Text>)
    ensures |keys| == n
  {
    seq(n, i requires 0 <= i < n => Digits(i))
  }

  /** `Object.keys`, which throws for undefined and null, and has no key for the other
      primitive values but strings. */
  function TopKeys(h: Heap, v: Val): Option<seq<Text>> {
    match v
    case Undefined => None
    case Null => None
    case Str(s) => Some(Indices(|s|))
    case Ref(id) =>
      if id !in h then Some([])
      else if h[id].ArrayNode? then Some(Indices(|h[id].items|))
      else Some(Keys(h[id].props))
    case _ => Some([])
  }

  /** The keys of the context can be the names of constants. */
  predicate KeysAreValid(h: Heap, v: Val) {
    TopKeys(h, v).Some? && forall i :: 0 <= i < |TopKeys(h, v).value| ==> ValidKey(TopKeys(h, v).value[i])
  }

  /** `canonicalizeContext`. */
  function Canonicalize(h: Heap, v: Val): Printed {
    if KeysAreValid(h, v) then Stringify(h, v) else Throws
  }

  // ---- what is accepted ---------------------------------------------------------------------------

  type Path = seq<nat>

  datatype Place = Nowhere | At(value: Val)

  /** The value reached by going down the given positions. */
  function Follow(h: Heap, v: Val, p: Path): Place
    decreases |p|
  {
    if p == [] then At(v)
    else if v.Ref? && v.id in h && p[0] < |Kids(h[v.id])| then Follow(h, Kids(h[v.id])[p[0]], p[1..])
    else Nowhere
  }

  predicate Reaches(h: Heap, v: Val, p: Path, id: Id) {
    Follow(h, v, p) == At(Ref(id))
  }

  predicate Breaks(h: Heap, v: Val, p: Path) {
    || Follow(h, v, p) == At(Unsupported)
    || (Follow(h, v, p).At? && Follow(h, v, p).value.Ref? && Follow(h, v, p).value.id !in h)
  }

  /** Everything below is supported, avoids `seen`, and is reached in one way only. */
  ghost predicate Treelike(h: Heap, v: Val, seen: set<Id>) {
    && (forall p :: !Breaks(h, v, p))
    && (forall p, id :: Reaches(h, v, p, id) ==> id !in seen)
    && (forall p, q, id :: Reaches(h, v, p, id) && Reaches(h, v, q, id) ==> p == q)
  }

  /** The ids met on the way are exactly those reached. */
  ghost predicate SeenIsReached(h: Heap, v: Val, seen: set<Id>, seen': set<Id>) {
    forall id :: id in seen' <==> id in seen || exists p :: Reaches(h, v, p, id)
  }

  ghost predicate KidReaches(h: Heap, vs: seq<Val>, n: nat, i: nat, p: Path, id: Id)
    requires n <= |vs|
  {
    i < n && Reaches(h, vs[i], p, id)
  }

  /** The same, for the first `n` of a list of values. */
  ghost predicate TreelikeUpTo(h: Heap, vs: seq<Val>, n: nat, seen: set<Id>)
    requires n <= |vs|
  {
    && (forall i, p :: 0 <= i < n ==> !Breaks(h, vs[i], p))
    && (forall i: nat, p, id :: KidReaches(h, vs, n, i, p, id) ==> id !in seen)
    && (forall i: nat, p, k: nat, q, id ::
          KidReaches(h, vs, n, i, p, id) && KidReaches(h, vs, n, k, q, id) ==> i == k && p == q)
  }

  ghost predicate SeenUpTo(h: Heap, vs: seq<Val>, n: nat, seen: set<Id>, seen': set<Id>)
    requires n <= |vs|
  {
    forall id :: id in seen' <==> id in seen || exists i: nat, p :: KidReaches(h, vs, n, i, p, id)
  }

  lemma FollowDown(h: Heap, v: Val, i: nat, p: Path)
    requires v.Ref? && v.id in h && i < |Kids(h[v.id])|
    ensures Follow(h, v, [i] + p) == Follow(h, Kids(h[v.id])[i], p)
  {
    assert ([i] + p)[1..] == p;
  }

  lemma ScalarIsTreelike(h: Heap, v: Val, seen: set<Id>)
    requires !v.Ref? && !v.Unsupported?
    ensures Treelike(h, v, seen) && SeenIsReached(h, v, seen, seen)
  {
  }

  lemma NodeIsTreelike(h: Heap, v: Val, seen: set<Id>, seen': set<Id>)
    requires v.Ref? && v.id in h && v.id !in seen
    requires var vs := Kids(h[v.id]);
             TreelikeUpTo(h, vs, |vs|, seen + {v.id}) && SeenUpTo(h, vs, |vs|, seen + {v.id}, seen')
    ensures Treelike(h, v, seen) && SeenIsReached(h, v, seen, seen')
  {
    var vs := Kids(h[v.id]);
    forall p ensures !Breaks(h, v, p) {
      assert p != [] && p[0] < |vs| ==> !Breaks(h, vs[p[0]], p[1..]);
    }
    forall p, id | Reaches(h, v, p, id)
      ensures if p == [] then id == v.id else KidReaches(h, vs, |vs|, p[0], p[1..], id)
    {
    }
    forall p, q, id | Reaches(h, v, p, id) && Reaches(h, v, q, id) ensures p == q {
      if p != [] && q != [] {
        assert KidReaches(h, vs, |vs|, p[0], p[1..], id) && KidReaches(h, vs, |vs|, q[0], q[1..], id);
        assert p == [p[0]] + p[1..] && q == [q[0]] + q[1..];
      }
    }
    assert Reaches(h, v, [], v.id);
    forall i: nat, p, id | KidReaches(h, vs, |vs|, i, p, id) ensures Reaches(h, v, [i] + p, id) {
      FollowDown(h, v, i, p);
    }
  }

  lemma OneMoreIsTreelike(h: Heap, vs: seq<Val>, n: nat, seen: set<Id>, mid: set<Id>, seen': set<Id>)
    requires 0 < n <= |vs|
    requires TreelikeUpTo(h, vs, n - 1, seen) && SeenUpTo(h, vs, n - 1, seen, mid)
    requires Treelike(h, vs[n - 1], mid) && SeenIsReached(h, vs[n - 1], mid, seen')
    ensures TreelikeUpTo(h, vs, n, seen) && SeenUpTo(h, vs, n, seen, seen')
  {
    var m, last: nat := vs[n - 1], n - 1;
    forall i: nat, p, id | KidReaches(h, vs, n, i, p, id)
      ensures i < last ==> KidReaches(h, vs, last, i, p, id) && id in mid
      ensures i == last ==> Reaches(h, m, p, id) && id !in mid
    {
      assert i < last ==> KidReaches(h, vs, last, i, p, id);
    }
    forall i: nat, p, id | KidReaches(h, vs, last, i, p, id) ensures KidReaches(h, vs, n, i, p, id) {
    }
    forall p, id | Reaches(h, m, p, id) ensures KidReaches(h, vs, n, last, p, id) {
    }
    forall id ensures id in seen' <==> id in seen || exists i: nat, p :: KidReaches(h, vs, n, i, p, id) {
      if i: nat, p :| KidReaches(h, vs, n, i, p, id) {
        assert i < last || Reaches(h, m, p, id);
      }
    }
  }

  /** What is accepted is tree-like, and `seen` grows by what is reached. */
  lemma {:induction false} AcceptedIsTreelike(h: Heap, v: Val, seen: set<Id>)
    requires Resolve(h, v, seen).Accepted?
    ensures Treelike(h, v, seen) && SeenIsReached(h, v, seen, Resolve(h, v, seen).seen)
    decreases h.Keys - seen, 0, 0
  {
    if v.Ref? {
      var vs := Kids(h[v.id]);
      AllAcceptedAreTreelike(h, vs, seen + {v.id}, |vs|);
      NodeIsTreelike(h, v, seen, Resolve(h, v, seen).seen);
    } else {
      ScalarIsTreelike(h, v, seen);
    }
  }

  lemma {:induction false} AllAcceptedAreTreelike(h: Heap, vs: seq<Val>, seen: set<Id>, n: nat)
    requires n <= |vs| && ResolveUpTo(h, vs, seen, n).AllAccepted?
    ensures TreelikeUpTo(h, vs, n, seen) && SeenUpTo(h, vs, n, seen, ResolveUpTo(h, vs, seen, n).seen)
    decreases h.Keys - seen, 1, n
  {
    if n == 0 {
      NoneIsTreelike(h, vs, seen);
    } else {
      var mid := ResolveUpTo(h, vs, seen, n - 1).seen;
      AllAcceptedAreTreelike(h, vs, seen, n - 1);
      AcceptedIsTreelike(h, vs[n - 1], mid);
      OneMoreIsTreelike(h, vs, n, seen, mid, Resolve(h, vs[n - 1], mid).seen);
      assert ResolveUpTo(h, vs, seen, n).seen == Resolve(h, vs[n - 1], mid).seen;
    }
  }

  lemma NoneIsTreelike(h: Heap, vs: seq<Val>, seen: set<Id>)
    ensures TreelikeUpTo(h, vs, 0, seen) && SeenUpTo(h, vs, 0, seen, seen)
  {
  }

  lemma KidsAreTreelike(h: Heap, v: Val, seen: set<Id>)
    requires v.Ref? && v.id in h && Treelike(h, v, seen)
    ensures TreelikeUpTo(h, Kids(h[v.id]), |Kids(h[v.id])|, seen + {v.id})
  {
    var vs := Kids(h[v.id]);
    assert Reaches(h, v, [], v.id);
    forall i, p | 0 <= i < |vs| ensures !Breaks(h, vs[i], p) {
      FollowDown(h, v, i, p);
      assert !Breaks(h, v, [i] + p);
    }
    forall i: nat, p, id | KidReaches(h, vs, |vs|, i, p, id)
      ensures Reaches(h, v, [i] + p, id) && id !in seen + {v.id}
    {
      FollowDown(h, v, i, p);
      assert Reaches(h, v, [i] + p, id);
    }
    forall i: nat, p, k: nat, q, id | KidReaches(h, vs, |vs|, i, p, id) && KidReaches(h, vs, |vs|, k, q, id)
      ensures i == k && p == q
    {
      assert Reaches(h, v, [i] + p, id) && Reaches(h, v, [k] + q, id);
      assert ([i] + p)[0] == i && ([k] + q)[0] == k && ([i] + p)[1..] == p && ([k] + q)[1..] == q;
    }
  }

  lemma LastIsTreelike(h: Heap, vs: seq<Val>, n: nat, seen: set<Id>, mid: set<Id>)
    requires 0 < n <= |vs| && TreelikeUpTo(h, vs, n, seen) && SeenUpTo(h, vs, n - 1, seen, mid)
    ensures Treelike(h, vs[n - 1], mid)
  {
    var m, last: nat := vs[n - 1], n - 1;
    forall p, id | Reaches(h, m, p, id) ensures KidReaches(h, vs, n, last, p, id) {
    }
    forall i: nat, q, id | KidReaches(h, vs, last, i, q, id) ensures KidReaches(h, vs, n, i, q, id) && i != last {
    }
    forall p, id | Reaches(h, m, p, id) ensures id !in mid {
      assert KidReaches(h, vs, n, last, p, id);
    }
  }

  lemma FewerAreTreelike(h: Heap, vs: seq<Val>, n: nat, seen: set<Id>)
    requires 0 < n <= |vs| && TreelikeUpTo(h, vs, n, seen)
    ensures TreelikeUpTo(h, vs, n - 1, seen)
  {
    var m: nat := n - 1;
    forall i: nat, p, id | KidReaches(h, vs, m, i, p, id) ensures KidReaches(h, vs, n, i, p, id) {
    }
  }

  /** What is tree-like is accepted. */
  lemma {:induction false} TreelikeIsAccepted(h: Heap, v: Val, seen: set<Id>)
    requires Treelike(h, v, seen)
    ensures Resolve(h, v, seen).Accepted?
    decreases h.Keys - seen, 0, 0
  {
    assert !Breaks(h, v, []);
    if v.Ref? {
      assert Reaches(h, v, [], v.id);
      KidsAreTreelike(h, v, seen);
      AllTreelikeAreAccepted(h, Kids(h[v.id]), seen + {v.id}, |Kids(h[v.id])|);
    }
  }

  lemma {:induction false} AllTreelikeAreAccepted(h: Heap, vs: seq<Val>, seen: set<Id>, n: nat)
    requires n <= |vs| && TreelikeUpTo(h, vs, n, seen)
    ensures ResolveUpTo(h, vs, seen, n).AllAccepted?
    decreases h.Keys - seen, 1, n
  {
    if n > 0 {
      FewerAreTreelike(h, vs, n, seen);
      AllTreelikeAreAccepted(h, vs, seen, n - 1);
      AllAcceptedAreTreelike(h, vs, seen, n - 1);
      LastIsTreelike(h, vs, n, seen, ResolveUpTo(h, vs, seen, n - 1).seen);
      TreelikeIsAccepted(h, vs[n - 1], ResolveUpTo(h, vs, seen, n - 1).seen);
    }
  }

  /** A value is printed exactly when it holds supported values only and no object is
      reached in two ways: sharing is rejected like a cycle. */
  lemma PrintedIff(h: Heap, v: Val)
    ensures Stringify(h, v).Prints? <==> Treelike(h, v, {})
  {
    if Resolve(h, v, {}).Accepted? {
      AcceptedIsTreelike(h, v, {});
    }
    if Treelike(h, v, {}) {
      TreelikeIsAccepted(h, v, {});
    }
  }

  /** A context is accepted exactly when its own keys, but not those further down, are
      identifiers that are neither reserved nor prefixed, and it can be printed. */
  lemma AcceptedIff(h: Heap, v: Val)
    ensures Canonicalize(h, v).Prints? <==> KeysAreValid(h, v) && Treelike(h, v, {})
  {
    PrintedIff(h, v);
  }

  /** An array or a string is no context unless it is empty: its keys are numbers. */
  lemma IndexedContextsAreEmpty(h: Heap, v: Val)
    requires v.Str? || (v.Ref? && v.id in h && h[v.id].ArrayNode?)
    ensures KeysAreValid(h, v) <==> if v.Str? then v.s == [] else h[v.id].items == []
  {
    var keys := TopKeys(h, v).value;
    if keys != [] {
      IndexIsNoKey(0);
      assert !ValidKey(keys[0]);
    }
  }

  /** Undefined, null and strings that are not empty are no contexts, the other primitive values
      are contexts without keys, and what is not supported is none. */
  lemma PrimitiveContextsIff(h: Heap, v: Val)
    requires !v.Ref?
    ensures Canonicalize(h, v).Prints? <==>
              v.Bool? || v.Number? || v == NegativeZero || v == NotFinite || v == Str([])
  {
    if v.Str? {
      IndexedContextsAreEmpty(h, v);
    }
  }

  // ---- what the text says -------------------------------------------------------------------------

  function ChildCount(t: Tree): nat {
    match t
    case JArray(items) => |items|
    case JObject(fields) => |fields|
    case _ => 0
  }

  function Child(t: Tree, i: nat): (c: Tree)
    requires i < ChildCount(t)
    ensures c < t
  {
    if t.JArray? then t.items[i] else t.fields[i].value
  }

  /** The tree is what the value says: undefined and not-finite numbers count as null, the
      two zeros as one, objects by their keys whatever the order. */
  ghost predicate Denotes(h: Heap, v: Val, t: Tree)
    decreases t
  {
    match v
    case Undefined => t == JNull
    case Null => t == JNull
    case NotFinite => t == JNull
    case Bool(b) => t == JBool(b)
    case Number(x) => t == JNumber(x)
    case NegativeZero => t == JNumber(Zero)
    case Str(s) => t == JString(s)
    case Unsupported => false
    case Ref(id) =>
      && id in h
      && (if h[id].ArrayNode? then t.JArray?
          else t.JObject? && Fields(t) == SortedKeys(h[id]))
      && ChildCount(t) == |Kids(h[id])|
      && forall i :: 0 <= i < ChildCount(t) ==> Denotes(h, Kids(h[id])[i], Child(t, i))
  }

  function Fields(t: Tree): seq<Text>
    requires t.JObject?
  {
    seq(|t.fields|, i requires 0 <= i < |t.fields| => t.fields[i].key)
  }

  lemma AssembleDenotes(h: Heap, id: Id, trees: seq<Tree>)
    requires id in h && |trees| == |Kids(h[id])|
    requires forall i :: 0 <= i < |trees| ==> Denotes(h, Kids(h[id])[i], trees[i])
    ensures Denotes(h, Ref(id), Assemble(h[id], trees))
  {
    var t := Assemble(h[id], trees);
    forall i | 0 <= i < ChildCount(t) ensures Child(t, i) == trees[i] {
    }
    if t.JObject? {
      assert Fields(t) == SortedKeys(h[id]);
    }
  }

  lemma {:induction false} ResolvedIsDenoted(h: Heap, v: Val, seen: set<Id>)
    requires Resolve(h, v, seen).Accepted?
    ensures Denotes(h, v, Resolve(h, v, seen).tree)
    decreases h.Keys - seen, 0, 0
  {
    if v.Ref? {
      var vs := Kids(h[v.id]);
      AllResolvedAreDenoted(h, vs, seen + {v.id}, |vs|);
      AssembleDenotes(h, v.id, ResolveUpTo(h, vs, seen + {v.id}, |vs|).trees);
    }
  }

  lemma {:induction false} AllResolvedAreDenoted(h: Heap, vs: seq<Val>, seen: set<Id>, n: nat)
    requires n <= |vs| && ResolveUpTo(h, vs, seen, n).AllAccepted?
    ensures forall i :: 0 <= i < n ==> Denotes(h, vs[i], ResolveUpTo(h, vs, seen, n).trees[i])
    decreases h.Keys - seen, 1, n
  {
    if n > 0 {
      AllResolvedAreDenoted(h, vs, seen, n - 1);
      ResolvedIsDenoted(h, vs[n - 1], ResolveUpTo(h, vs, seen, n - 1).seen);
    }
  }

  lemma {:induction false} DenotedIsUnique(h: Heap, v: Val, t: Tree, u: Tree)
    requires Denotes(h, v, t) && Denotes(h, v, u)
    ensures t == u
    decreases t
  {
    if v.Ref? {
      forall i | 0 <= i < ChildCount(t) ensures Child(t, i) == Child(u, i) {
        DenotedIsUnique(h, Kids(h[v.id])[i], Child(t, i), Child(u, i));
      }
      if t.JArray? {
        forall i | 0 <= i < |t.items| ensures t.items[i] == u.items[i] {
          assert Child(t, i) == Child(u, i);
        }
        assert t.items == u.items;
      } else {
        forall i | 0 <= i < |t.fields| ensures t.fields[i] == u.fields[i] {
          assert Fields(t)[i] == Fields(u)[i] && Child(t, i) == Child(u, i);
        }
        assert t.fields == u.fields;
      }
    }
  }

  /** Two accepted contexts print the same text exactly when they say the same. */
  lemma SameTextIff(h: Heap, v: Val, g: Heap, w: Val)
    requires Canonicalize(h, v).Prints? && Canonicalize(g, w).Prints?
    ensures Canonicalize(h, v) == Canonicalize(g, w) <==> exists t :: Denotes(h, v, t) && Denotes(g, w, t)
  {
    var t, u := Resolve(h, v, {}).tree, Resolve(g, w, {}).tree;
    ResolvedIsDenoted(h, v, {});
    ResolvedIsDenoted(g, w, {});
    if Show(t) == Show(u) {
      ShowIsInjective(t, u);
      assert Denotes(h, v, t) && Denotes(g, w, t);
    }
    if x :| Denotes(h, v, x) && Denotes(g, w, x) {
      DenotedIsUnique(h, v, t, x);
      DenotedIsUnique(g, w, u, x);
    }
  }

  // ---- key order ------------------------------------------------------------------------------------

  /** The same objects with the properties in any order. */
  ghost predicate SameButOrder(a: Node, b: Node) {
    match a
    case ArrayNode(_) => a == b
    case ObjectNode(props) =>
      && b.ObjectNode? && Distinct(Keys(props)) && Distinct(Keys(b.props))
      && forall x :: x in props <==> x in b.props
  }

  lemma {:induction false} LookupFinds(props: seq<Prop>, x: Prop)
    requires Distinct(Keys(props)) && x in props
    ensures Lookup(props, x.key) == x.value
  {
    if props[0] != x {
      var i :| 0 <= i < |props| && props[i] == x;
      assert Keys(props)[i] == x.key && Keys(props)[0] == props[0].key;
      assert Keys(props[1..]) == Keys(props)[1..];
      assert props == [props[0]] + props[1..];
      LookupFinds(props[1..], x);
    }
  }

  lemma KeyOfProp(props: seq<Prop>, k: Text)
    ensures k in Keys(props) <==> exists x :: x in props && x.key == k
  {
    if k in Keys(props) {
      var i :| 0 <= i < |props| && Keys(props)[i] == k;
      assert props[i] in props && props[i].key == k;
    }
    if x :| x in props && x.key == k {
      var i :| 0 <= i < |props| && props[i] == x;
      assert Keys(props)[i] == k;
    }
  }

  lemma SameButOrderHasSameKids(a: Node, b: Node)
    requires SameButOrder(a, b)
    ensures SortedKeys(a) == SortedKeys(b) && Kids(a) == Kids(b)
  {
    if a.ObjectNode? {
      forall k ensures k in SortedKeys(a) <==> k in SortedKeys(b) {
        SortHas(Keys(a.props), k);
        SortHas(Keys(b.props), k);
        KeyOfProp(a.props, k);
        KeyOfProp(b.props, k);
      }
      SortSorts(Keys(a.props));
      SortSorts(Keys(b.props));
      IncreasingIsUnique(SortedKeys(a), SortedKeys(b));
      forall i | 0 <= i < |SortedKeys(a)| ensures Kids(a)[i] == Kids(b)[i] {
        var k := SortedKeys(a)[i];
        SortHas(Keys(a.props), k);
        KeyOfProp(a.props, k);
        var x :| x in a.props && x.key == k;
        LookupFinds(a.props, x);
        LookupFinds(b.props, x);
      }
    }
  }

  ghost predicate SameHeapButOrder(h: Heap, g: Heap) {
    h.Keys == g.Keys && forall id :: id in h ==> SameButOrder(h[id], g[id])
  }

  lemma {:induction false} ResolveIgnoresOrder(h: Heap, g: Heap, v: Val, seen: set<Id>)
    requires SameHeapButOrder(h, g)
    ensures Resolve(h, v, seen) == Resolve(g, v, seen)
    decreases h.Keys - seen, 0, 0
  {
    if v.Ref? && v.id in h && v.id !in seen {
      assert SameButOrder(h[v.id], g[v.id]);
      SameButOrderHasSameKids(h[v.id], g[v.id]);
      AllIgnoreOrder(h, g, Kids(h[v.id]), seen + {v.id}, |Kids(h[v.id])|);
    }
  }

  lemma {:induction false} AllIgnoreOrder(h: Heap, g: Heap, vs: seq<Val>, seen: set<Id>, n: nat)
    requires SameHeapButOrder(h, g) && n <= |vs|
    ensures ResolveUpTo(h, vs, seen, n) == ResolveUpTo(g, vs, seen, n)
    decreases h.Keys - seen, 1, n
  {
    if n > 0 {
      AllIgnoreOrder(h, g, vs, seen, n - 1);
      var before := ResolveUpTo(h, vs, seen, n - 1);
      if before.AllAccepted? {
        ResolveIgnoresOrder(h, g, vs[n - 1], before.seen);
      }
    }
  }

  lemma SameButOrderHasSameKeys(a: Node, b: Node, k: Text)
    requires SameButOrder(a, b) && a.ObjectNode?
    ensures k in Keys(a.props) <==> k in Keys(b.props)
  {
    KeyOfProp(a.props, k);
    KeyOfProp(b.props, k);
  }

  lemma KeysIgnoreOrder(h: Heap, g: Heap, v: Val)
    requires SameHeapButOrder(h, g) && KeysAreValid(h, v)
    ensures KeysAreValid(g, v)
  {
    if v.Ref? && v.id in h {
      var a, b := h[v.id], g[v.id];
      assert SameButOrder(a, b);
      if a.ObjectNode? {
        forall i | 0 <= i < |Keys(b.props)| ensures ValidKey(Keys(b.props)[i]) {
          SameButOrderHasSameKeys(a, b, Keys(b.props)[i]);
        }
      }
    }
  }

  lemma SameHeapIsSymmetric(h: Heap, g: Heap)
    requires SameHeapButOrder(h, g)
    ensures SameHeapButOrder(g, h)
  {
    forall id | id in g ensures SameButOrder(g[id], h[id]) {
      assert SameButOrder(h[id], g[id]);
    }
  }

  /** The order of the keys, at any depth, makes no difference. */
  lemma KeyOrderIsImmaterial(h: Heap, g: Heap, v: Val)
    requires SameHeapButOrder(h, g)
    ensures Canonicalize(h, v) == Canonicalize(g, v)
  {
    ResolveIgnoresOrder(h, g, v, {});
    SameHeapIsSymmetric(h, g);
    if KeysAreValid(h, v) {
      KeysIgnoreOrder(h, g, v);
    } else if KeysAreValid(g, v) {
      KeysIgnoreOrder(g, h, v);
    }
  }

  // ---- embedding ------------------------------------------------------------------------------------

  const KEY_V: Text := [118]

  /** `{ v: value }`, as the code generator wraps each value. */
  function Wrapped(h: Heap, id: Id, value: Val): Heap {
    h[id := ObjectNode([Prop(KEY_V, value)])]
  }

  lemma {:induction false} NewIdIsUnseen(h: Heap, id: Id, node: Node, v: Val, seen: set<Id>)
    requires id !in h && v != Ref(id) && forall k :: k in h ==> Ref(id) !in Kids(h[k])
    ensures Resolve(h, v, seen + {id}).Rejected? <==> Resolve(h[id := node], v, seen + {id}).Rejected?
    ensures Resolve(h, v, seen + {id}).Accepted? ==>
              Resolve(h, v, seen + {id}) == Resolve(h[id := node], v, seen + {id})
    decreases h.Keys - seen, 0, 0
  {
    var g := h[id := node];
    if v.Ref? && v.id in h && v.id !in seen {
      assert seen + {id} + {v.id} == seen + {v.id} + {id};
      AllNewIdIsUnseen(h, id, node, Kids(h[v.id]), seen + {v.id}, |Kids(h[v.id])|);
    }
  }

  lemma {:induction false} AllNewIdIsUnseen(h: Heap, id: Id, node: Node, vs: seq<Val>, seen: set<Id>, n: nat)
    requires id !in h && n <= |vs| && Ref(id) !in vs && forall k :: k in h ==> Ref(id) !in Kids(h[k])
    ensures ResolveUpTo(h, vs, seen + {id}, n) == ResolveUpTo(h[id := node], vs, seen + {id}, n)
    decreases h.Keys - seen, 1, n
  {
    if n > 0 {
      AllNewIdIsUnseen(h, id, node, vs, seen, n - 1);
      var before := ResolveUpTo(h, vs, seen + {id}, n - 1);
      if before.AllAccepted? {
        assert vs[n - 1] in vs;
        assert before.seen == before.seen + {id};
        NewIdIsUnseen(h, id, node, vs[n - 1], before.seen);
      }
    }
  }

  /** An id that is not in the heap makes no difference to what is accepted. */
  lemma FreshIdIsHarmless(h: Heap, v: Val, id: Id)
    requires id !in h
    ensures Resolve(h, v, {}).Accepted? <==> Resolve(h, v, {id}).Accepted?
    ensures Resolve(h, v, {}).Accepted? ==> Resolve(h, v, {}).tree == Resolve(h, v, {id}).tree
  {
    if Resolve(h, v, {id}).Accepted? {
      AcceptedIsTreelike(h, v, {id});
      TreelikeIsAccepted(h, v, {});
    }
    if Resolve(h, v, {}).Accepted? {
      AcceptedIsTreelike(h, v, {});
      forall p ensures !Reaches(h, v, p, id) {
        assert !Breaks(h, v, p);
      }
      TreelikeIsAccepted(h, v, {id});
      ResolvedIsDenoted(h, v, {});
      ResolvedIsDenoted(h, v, {id});
      DenotedIsUnique(h, v, Resolve(h, v, {}).tree, Resolve(h, v, {id}).tree);
    }
  }

  /** What `slice(5, -1)` takes out of the text of a value wrapped in a new object is
      exactly the text of the value, and the wrapping throws when the value does. */
  lemma SliceIsTheValue(h: Heap, id: Id, value: Val)
    requires id !in h && value != Ref(id) && forall k :: k in h ==> Ref(id) !in Kids(h[k])
    ensures var whole := Canonicalize(Wrapped(h, id, value), Ref(id));
            && (whole.Prints? <==> Stringify(h, value).Prints?)
            && (whole.Prints? ==> |whole.text| >= 6 && whole.text[5..|whole.text| - 1] == Stringify(h, value).text)
  {
    WrapperKeys(h, id, value);
    SliceOfWrapper(h, id, value);
  }

  lemma WrapperKeys(h: Heap, id: Id, value: Val)
    ensures KeysAreValid(Wrapped(h, id, value), Ref(id))
  {
    LetterIsKey(KEY_V[0]);
    assert KEY_V == [KEY_V[0]];
  }

  lemma SliceOfWrapper(h: Heap, id: Id, value: Val)
    requires id !in h && value != Ref(id) && forall k :: k in h ==> Ref(id) !in Kids(h[k])
    ensures var whole := Stringify(Wrapped(h, id, value), Ref(id));
            && (whole.Prints? <==> Stringify(h, value).Prints?)
            && (whole.Prints? ==> |whole.text| >= 6 && whole.text[5..|whole.text| - 1] == Stringify(h, value).text)
  {
    var g, node := Wrapped(h, id, value), ObjectNode([Prop(KEY_V, value)]);
    var r := Resolve(h, value, {id});
    assert {} + {id} == {id};
    FreshIdIsHarmless(h, value, id);
    NewIdIsUnseen(h, id, node, value, {});
    WrapperNode(value);
    assert ResolveUpTo(g, [value], {id}, 0) == AllAccepted([], {id});
    if r.Accepted? {
      var rs := ResolveUpTo(g, [value], {id}, 1);
      assert rs.trees == [r.tree];
      WrapperTree(value, r.tree);
      WrapperText(r.tree);
    } else {
      assert ResolveUpTo(g, [value], {id}, 1).AnyRejected?;
    }
  }

  lemma WrapperNode(value: Val)
    ensures var node := ObjectNode([Prop(KEY_V, value)]);
            SortedKeys(node) == [KEY_V] && Kids(node) == [value]
  {
    var node := ObjectNode([Prop(KEY_V, value)]);
    assert Keys(node.props) == [KEY_V];
    assert Sort([KEY_V]) == Insert(KEY_V, Sort([KEY_V][1..])) && [KEY_V][1..] == [];
    assert Lookup(node.props, KEY_V) == value;
  }

  lemma WrapperTree(value: Val, t: Tree)
    requires |Kids(ObjectNode([Prop(KEY_V, value)]))| == 1
    ensures Assemble(ObjectNode([Prop(KEY_V, value)]), [t]) == JObject([Field(KEY_V, t)])
  {
    WrapperNode(value);
    var whole := Assemble(ObjectNode([Prop(KEY_V, value)]), [t]);
    assert whole.fields == [Field(KEY_V, t)];
  }

  lemma WrapperText(t: Tree)
    ensures Show(JObject([Field(KEY_V, t)])) == [OPEN_BRACE, QUOTE, 118, QUOTE, COLON] + Show(t) + [CLOSE_BRACE]
  {
    var whole := JObject([Field(KEY_V, t)]);
    WrapperKey();
    assert FieldsFrom(whole, 0) == Separator(0) + ShowString(KEY_V) + [COLON] + Show(t) + FieldsFrom(whole, 1);
    WrapperParts(ShowString(KEY_V), Show(t), FieldsFrom(whole, 1));
  }

  lemma WrapperKey()
    ensures ShowString(KEY_V) == [QUOTE, 118, QUOTE]
  {
    assert StringFrom(KEY_V, 1) == [QUOTE];
  }

  lemma WrapperParts(key: Text, shown: Text, rest: Text)
    requires key == [QUOTE, 118, QUOTE] && rest == [CLOSE_BRACE]
    ensures [OPEN_BRACE] + ([] + key + [COLON] + shown + rest) ==
            [OPEN_BRACE, QUOTE, 118, QUOTE, COLON] + shown + [CLOSE_BRACE]
  {
  }

  lemma KidIsTreelike(h: Heap, root: Id, i: nat)
    requires root in h && i < |Kids(h[root])| && Treelike(h, Ref(root), {})
    ensures Treelike(h, Kids(h[root])[i], {})
  {
    var kid := Kids(h[root])[i];
    forall p: Path ensures Follow(h, kid, p) == Follow(h, Ref(root), [i] + p) {
      assert ([i] + p)[1..] == p;
    }
    forall p ensures !Breaks(h, kid, p) {
      assert !Breaks(h, Ref(root), [i] + p);
    }
    forall p, q, id | Reaches(h, kid, p, id) && Reaches(h, kid, q, id) ensures p == q {
      assert Reaches(h, Ref(root), [i] + p, id) && Reaches(h, Ref(root), [i] + q, id);
      assert p == ([i] + p)[1..] && q == ([i] + q)[1..];
    }
  }

  /** Every value of an accepted context can be embedded by itself. */
  lemma AcceptedContextsEmbed(h: Heap, root: Id, i: nat, id: Id)
    requires root in h && i < |Kids(h[root])| && Canonicalize(h, Ref(root)).Prints?
    requires id !in h && forall k :: k in h ==> Ref(id) !in Kids(h[k])
    ensures Canonicalize(Wrapped(h, id, Kids(h[root])[i]), Ref(id)).Prints?
  {
    var kid := Kids(h[root])[i];
    AcceptedIff(h, Ref(root));
    KidIsTreelike(h, root, i);
    PrintedIff(h, kid);
    assert kid in Kids(h[root]);
    SliceIsTheValue(h, id, kid);
  }
}
