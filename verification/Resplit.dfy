/** Splitting a frozen dataset into dev and test without leaking question templates
    (scripts/resplit_frozen_dataset.py:28-69, 85-91). */
module Resplit {
  import opened Common

  /** A text, of which only equality and order matter. */
  type Name = int

  /** A question without its split; `template` is its normalised text. */
  datatype Item = Item(caseKey: Name, template: Name, intent: Name, questionId: int)

  datatype Split = Dev | Test

  datatype Question = Question(item: Item, split: Split)

  function Items(qs: seq<Question>): (items: seq<Item>)
    ensures |items| == |qs| && forall i :: 0 <= i < |qs| ==> items[i] == qs[i].item
  {
    seq(|qs|, i requires 0 <= i < |qs| => qs[i].item)
  }

  // ---------------------------------------------------------------- template groups

  /** The unit of allocation: case and template. */
  datatype Key = Key(caseKey: Name, template: Name)

  function KeyOf(item: Item): Key {
    Key(item.caseKey, item.template)
  }

  /** The first n questions that have the key, in order. */
  function Group(items: seq<Item>, key: Key, n: nat): (g: seq<nat>)
    requires n <= |items|
    ensures forall i :: i in g <==> 0 <= i < n && KeyOf(items[i]) == key
    ensures |g| <= n
    decreases n
  {
    if n == 0 then []
    else if KeyOf(items[n - 1]) == key then Group(items, key, n - 1) + [n - 1]
    else Group(items, key, n - 1)
  }

  function WholeGroup(items: seq<Item>, key: Key): seq<nat> {
    Group(items, key, |items|)
  }

  /** Keys by first occurrence. */
  function Keys(items: seq<Item>, n: nat): (keys: seq<Key>)
    requires n <= |items|
    ensures forall key :: key in keys <==> exists i :: 0 <= i < n && KeyOf(items[i]) == key
    ensures NoDuplicates(keys)
    decreases n
  {
    if n == 0 then []
    else
      var front, key := Keys(items, n - 1), KeyOf(items[n - 1]);
      if key in front then front else front + [key]
  }

  /** A group has the intent of its first question. */
  function IntentOf(items: seq<Item>, key: Key): Name {
    var g := WholeGroup(items, key);
    if g == [] then 0 else assert g[0] in g; items[g[0]].intent
  }

  /** What is balanced on its own: a case and an intent. */
  datatype Bucket = Bucket(caseKey: Name, intent: Name)

  function BucketOf(items: seq<Item>, key: Key): Bucket {
    Bucket(key.caseKey, IntentOf(items, key))
  }

  /** The groups of a bucket among the given keys, in order. */
  function InBucket(items: seq<Item>, keys: seq<Key>, b: Bucket): (r: seq<Key>)
    ensures forall key :: key in r <==> key in keys && BucketOf(items, key) == b
  {
    if keys == [] then []
    else
      var front, last := keys[..|keys| - 1], keys[|keys| - 1];
      assert keys == front + [last];
      InBucket(items, front, b) + if BucketOf(items, last) == b then [last] else []
  }

  function SizeOf(items: seq<Item>, key: Key): nat {
    |WholeGroup(items, key)|
  }

  function TotalSize(items: seq<Item>, keys: seq<Key>): nat {
    if keys == [] then 0 else TotalSize(items, keys[..|keys| - 1]) + SizeOf(items, keys[|keys| - 1])
  }

  // ---------------------------------------------------------------- order of picking

  function FirstId(items: seq<Item>, key: Key): int {
    var g := WholeGroup(items, key);
    if g == [] then 0 else assert g[0] in g; items[g[0]].questionId
  }

  /** Larger groups first, then by the id of their first question. */
  predicate NotAfter(items: seq<Item>, a: Key, b: Key) {
    || SizeOf(items, a) > SizeOf(items, b)
    || (SizeOf(items, a) == SizeOf(items, b) && FirstId(items, a) <= FirstId(items, b))
  }

  function Insert(items: seq<Item>, keys: seq<Key>, key: Key): (r: seq<Key>)
    ensures multiset(r) == multiset(keys) + multiset{key}
  {
    if keys == [] || NotAfter(items, keys[|keys| - 1], key) then keys + [key]
    else
      assert keys == keys[..|keys| - 1] + [keys[|keys| - 1]];
      Insert(items, keys[..|keys| - 1], key) + [keys[|keys| - 1]]
  }

  /** sorted(groups, key=(-len, id)), stable. */
  function Sorted(items: seq<Item>, keys: seq<Key>): (r: seq<Key>)
    ensures multiset(r) == multiset(keys)
  {
    if keys == [] then []
    else
      assert keys == keys[..|keys| - 1] + [keys[|keys| - 1]];
      Insert(items, Sorted(items, keys[..|keys| - 1]), keys[|keys| - 1])
  }

  predicate InOrder(items: seq<Item>, keys: seq<Key>) {
    forall i, j :: 0 <= i < j < |keys| ==> NotAfter(items, keys[i], keys[j])
  }

  lemma {:induction false} InsertKeepsOrder(items: seq<Item>, keys: seq<Key>, key: Key)
    requires InOrder(items, keys)
    ensures InOrder(items, Insert(items, keys, key))
  {
    if keys != [] && !NotAfter(items, keys[|keys| - 1], key) {
      var front, last := keys[..|keys| - 1], keys[|keys| - 1];
      InsertKeepsOrder(items, front, key);
      forall x | x in Insert(items, front, key) ensures NotAfter(items, x, last) {
        assert x in multiset(Insert(items, front, key)) && x in multiset(front) + multiset{key};
      }
    }
  }

  lemma {:induction false} SortedKeepsOrder(items: seq<Item>, keys: seq<Key>)
    ensures InOrder(items, Sorted(items, keys))
  {
    if keys != [] {
      SortedKeepsOrder(items, keys[..|keys| - 1]);
      InsertKeepsOrder(items, Sorted(items, keys[..|keys| - 1]), keys[|keys| - 1]);
    }
  }

  /** The first question of a case with a template. */
  predicate Leads(items: seq<Item>, key: Key, first: nat) {
    && first < |items| && items[first].caseKey == key.caseKey && items[first].template == key.template
    && forall i :: 0 <= i < first ==> items[i].caseKey != key.caseKey || items[i].template != key.template
  }

  lemma {:induction false} GroupStartsAt(items: seq<Item>, key: Key, first: nat, n: nat)
    requires Leads(items, key, first) && first < n <= |items|
    ensures Group(items, key, n) != [] && Group(items, key, n)[0] == first
  {
    if n == first + 1 {
      assert Group(items, key, first) == [] by {
        if Group(items, key, first) != [] { assert Group(items, key, first)[0] in Group(items, key, first); }
      }
    } else {
      GroupStartsAt(items, key, first, n - 1);
    }
  }

  /** The questions of a group, by their fields. */
  function SharingWith(items: seq<Item>, key: Key): set<nat> {
    set i: nat | i < |items| && items[i].caseKey == key.caseKey && items[i].template == key.template
  }

  /** A group is balanced in the case and the intent of its first question, and is as large as the questions sharing
      its case and template are many. */
  lemma {:induction false} GroupIsLedByItsFirst(items: seq<Item>, key: Key, first: nat)
    requires Leads(items, key, first)
    ensures BucketOf(items, key) == Bucket(items[first].caseKey, items[first].intent)
    ensures FirstId(items, key) == items[first].questionId
    ensures SizeOf(items, key) == |SharingWith(items, key)| >= 1
  {
    GroupStartsAt(items, key, first, |items|);
    GroupCount(items, key, |items|);
    assert Elements(WholeGroup(items, key)) == SharingWith(items, key);
  }

  /** a is no later than b, by the questions: a larger group first, then the smaller id of the first question. */
  ghost predicate LedInOrder(items: seq<Item>, a: Key, b: Key) {
    || |SharingWith(items, a)| > |SharingWith(items, b)|
    || (|SharingWith(items, a)| == |SharingWith(items, b)|
       && forall f: nat, g: nat :: Leads(items, a, f) && Leads(items, b, g)
                                   ==> items[f].questionId <= items[g].questionId)
  }

  lemma {:induction false} OrderByFields(items: seq<Item>, a: Key, b: Key, f: nat, g: nat)
    requires NotAfter(items, a, b) && Leads(items, a, f) && Leads(items, b, g)
    ensures LedInOrder(items, a, b)
  {
    GroupIsLedByItsFirst(items, a, f);
    GroupIsLedByItsFirst(items, b, g);
    forall f': nat, g': nat | Leads(items, a, f') && Leads(items, b, g')
      ensures items[f'].questionId <= items[g'].questionId || SizeOf(items, a) > SizeOf(items, b)
    {
      GroupIsLedByItsFirst(items, a, f');
      GroupIsLedByItsFirst(items, b, g');
    }
  }

  lemma {:induction false} SomeoneLeads(items: seq<Item>, key: Key, n: nat) returns (first: nat)
    requires n <= |items| && key in Keys(items, n)
    ensures Leads(items, key, first)
    decreases n
  {
    if key in Keys(items, n - 1) { first := SomeoneLeads(items, key, n - 1); } else { first := n - 1; }
  }

  /** The result is ordered: larger groups first, then by the id of their first question. */
  lemma {:induction false} SortedInOrder(items: seq<Item>, keys: seq<Key>)
    requires forall key :: key in keys ==> key in Keys(items, |items|)
    ensures var sorted := Sorted(items, keys);
            && multiset(sorted) == multiset(keys)
            && forall i, j :: 0 <= i < j < |sorted| ==> LedInOrder(items, sorted[i], sorted[j])
  {
    SortedKeepsOrder(items, keys);
    var sorted := Sorted(items, keys);
    forall i, j | 0 <= i < j < |sorted| ensures LedInOrder(items, sorted[i], sorted[j]) {
      assert sorted[i] in multiset(sorted) && sorted[j] in multiset(sorted);
      var f := SomeoneLeads(items, sorted[i], |items|);
      var g := SomeoneLeads(items, sorted[j], |items|);
      OrderByFields(items, sorted[i], sorted[j], f, g);
    }
  }

  /** round(total * 0.6): 3n/5 is never halfway between two integers. */
  function Target(total: nat): nat {
    (6 * total + 5) / 10
  }

  /** How many of the groups are picked: the shortest beginning that reaches the target. */
  function PickCount(items: seq<Item>, keys: seq<Key>, target: nat): (n: nat)
    ensures n <= |keys|
  {
    if keys == [] || TotalSize(items, keys[..|keys| - 1]) < target then |keys|
    else PickCount(items, keys[..|keys| - 1], target)
  }

  function Ordered(items: seq<Item>, b: Bucket): seq<Key> {
    Sorted(items, InBucket(items, Keys(items, |items|), b))
  }

  function Picked(items: seq<Item>, b: Bucket): seq<Key> {
    var keys := Ordered(items, b);
    keys[..PickCount(items, keys, Target(TotalSize(items, keys)))]
  }

  /** A question goes to test exactly if its group is picked in its bucket. */
  predicate InTest(items: seq<Item>, i: nat)
    requires i < |items|
  {
    KeyOf(items[i]) in Picked(items, BucketOf(items, KeyOf(items[i])))
  }

  // ---------------------------------------------------------------- the script's loops

  function GroupMap(items: seq<Item>, n: nat): map<Key, seq<nat>>
    requires n <= |items|
  {
    map key | key in Keys(items, n) :: Group(items, key, n)
  }

  lemma {:induction false} OneItemMore(items: seq<Item>, i: nat)
    requires i < |items|
    ensures var key := KeyOf(items[i]);
            GroupMap(items, i + 1)
                == GroupMap(items, i)[key := (if key in Keys(items, i) then Group(items, key, i) else []) + [i]]
  {
    var key := KeyOf(items[i]);
    NoneYet(items, key, i);
    var after := GroupMap(items, i)[key := (if key in Keys(items, i) then Group(items, key, i) else []) + [i]];
    assert GroupMap(items, i + 1).Keys == after.Keys;
  }

  /** groups[template].append(index), over all cases. */
  method CollectGroups(questions: array<Question>) returns (keys: seq<Key>, groups: map<Key, seq<nat>>)
    ensures keys == Keys(Items(questions[..]), questions.Length)
            && groups == GroupMap(Items(questions[..]), questions.Length)
  {
    keys, groups := [], map[];
    ghost var items := Items(questions[..]);
    for i := 0 to questions.Length
      invariant keys == Keys(items, i) && groups == GroupMap(items, i)
    {
      var key := KeyOf(questions[i].item);
      OneItemMore(items, i);
      groups := groups[key := (if key in groups then groups[key] else []) + [i]];
      if key !in keys { keys := keys + [key]; }
    }
  }

  lemma {:induction false} NoneYet(items: seq<Item>, key: Key, n: nat)
    requires n <= |items|
    ensures key !in Keys(items, n) <==> Group(items, key, n) == []
  {
    var g := Group(items, key, n);
    assert g != [] ==> g[0] in g;
    if i :| 0 <= i < n && KeyOf(items[i]) == key { assert i in g; }
  }

  function Elements(s: seq<nat>): set<nat> {
    set x | x in s
  }

  lemma {:induction false} OneGroupMore(items: seq<Item>, keys: seq<Key>, key: Key)
    ensures Members(items, keys + [key]) == Members(items, keys) + Elements(WholeGroup(items, key))
  {
  }

  /** The picking loop of one bucket. */
  method PickGroups(items: seq<Item>, groups: map<Key, seq<nat>>, keys: seq<Key>, target: nat)
    returns (test: set<nat>, picked: nat)
    requires forall key :: key in keys ==> key in groups && groups[key] == WholeGroup(items, key)
    requires target <= TotalSize(items, keys)
    ensures var n := PickCount(items, keys, target);
            test == Members(items, keys[..n]) && picked == TotalSize(items, keys[..n])
  {
    test, picked := {}, 0;
    var i := 0;
    while i < |keys| && picked < target
      invariant i <= |keys| && picked == TotalSize(items, keys[..i]) && test == Members(items, keys[..i])
      invariant forall j :: 0 <= j < i ==> TotalSize(items, keys[..j]) < target
    {
      var key := keys[i];
      assert keys[..i + 1][..i] == keys[..i];
      assert keys[..i + 1] == keys[..i] + [key];
      OneGroupMore(items, keys[..i], key);
      test := test + Elements(groups[key]);
      picked := picked + |groups[key]|;
      i := i + 1;
    }
    StopsHere(items, keys, target, i);
  }

  lemma {:induction false} TotalGrows(items: seq<Item>, keys: seq<Key>, i: nat)
    requires i <= |keys|
    ensures TotalSize(items, keys[..i]) <= TotalSize(items, keys)
    ensures i < |keys| ==> TotalSize(items, keys[..i]) + SizeOf(items, keys[i]) <= TotalSize(items, keys)
  {
    if i < |keys| {
      assert keys[..|keys| - 1][..i] == keys[..i];
      TotalGrows(items, keys[..|keys| - 1], i);
    } else {
      assert keys[..i] == keys;
    }
  }

  lemma {:induction false} StopsHere(items: seq<Item>, keys: seq<Key>, target: nat, i: nat)
    requires i <= |keys| && forall j :: 0 <= j < i ==> TotalSize(items, keys[..j]) < target
    requires i == |keys| || TotalSize(items, keys[..i]) >= target
    ensures PickCount(items, keys, target) == i
  {
    if i < |keys| {
      var front := keys[..|keys| - 1];
      assert front[..i] == keys[..i];
      TotalGrows(items, front, i);
      forall j | 0 <= j < i ensures front[..j] == keys[..j] {}
      StopsHere(items, front, target, i);
    }
  }

  /** The questions of the groups. */
  function Members(items: seq<Item>, keys: seq<Key>): set<nat> {
    set i: nat | i < |items| && KeyOf(items[i]) in keys
  }

  /** Buckets by first occurrence among the keys. */
  function Buckets(items: seq<Item>, keys: seq<Key>): (bs: seq<Bucket>)
    ensures forall b :: b in bs <==> exists key :: key in keys && BucketOf(items, key) == b
  {
    if keys == [] then []
    else
      var front, last := keys[..|keys| - 1], keys[|keys| - 1];
      assert keys == front + [last];
      if BucketOf(items, last) in Buckets(items, front) then Buckets(items, front)
      else Buckets(items, front) + [BucketOf(items, last)]
  }

  function BucketMap(items: seq<Item>, keys: seq<Key>): map<Bucket, seq<Key>> {
    map b | b in Buckets(items, keys) :: InBucket(items, keys, b)
  }

  lemma {:induction false} NoneInBucket(items: seq<Item>, keys: seq<Key>, b: Bucket)
    ensures b !in Buckets(items, keys) <==> InBucket(items, keys, b) == []
  {
    var r := InBucket(items, keys, b);
    assert r != [] ==> r[0] in r;
    if key :| key in keys && BucketOf(items, key) == b { assert key in r; }
  }

  lemma {:induction false} InBucketMore(items: seq<Item>, keys: seq<Key>, key: Key, b: Bucket)
    ensures InBucket(items, keys + [key], b) ==
            InBucket(items, keys, b) + if BucketOf(items, key) == b then [key] else []
  {
    assert (keys + [key])[..|keys + [key]| - 1] == keys;
  }

  lemma {:induction false} BucketsMore(items: seq<Item>, keys: seq<Key>, key: Key)
    ensures Buckets(items, keys + [key]) ==
            if BucketOf(items, key) in Buckets(items, keys) then Buckets(items, keys)
            else Buckets(items, keys) + [BucketOf(items, key)]
  {
    assert (keys + [key])[..|keys + [key]| - 1] == keys;
  }

  /** One group more in its bucket. */
  function Extended(items: seq<Item>, keys: seq<Key>, key: Key): map<Bucket, seq<Key>> {
    var b := BucketOf(items, key);
    BucketMap(items, keys)[b := (if b in BucketMap(items, keys) then InBucket(items, keys, b) else []) + [key]]
  }

  lemma {:induction false} ExtendedKeys(items: seq<Item>, keys: seq<Key>, key: Key)
    ensures Extended(items, keys, key).Keys == BucketMap(items, keys + [key]).Keys
  {
    BucketsMore(items, keys, key);
  }

  lemma {:induction false} ExtendedAt(items: seq<Item>, keys: seq<Key>, key: Key, b: Bucket)
    requires b in Extended(items, keys, key)
    ensures Extended(items, keys, key)[b] == InBucket(items, keys + [key], b)
  {
    InBucketMore(items, keys, key, b);
    if b == BucketOf(items, key) { NoneInBucket(items, keys, b); }
  }

  lemma {:induction false} OneKeyMore(items: seq<Item>, keys: seq<Key>, key: Key)
    ensures BucketMap(items, keys + [key]) == Extended(items, keys, key)
  {
    var before, after := Extended(items, keys, key), BucketMap(items, keys + [key]);
    ExtendedKeys(items, keys, key);
    forall b | b in before ensures before[b] == after[b] { ExtendedAt(items, keys, key, b); }
    SameMap(before, after);
  }

  /** by_intent[intent].append(group), over all cases. */
  method CollectBuckets(items: seq<Item>, keys: seq<Key>) returns (order: seq<Bucket>, groups: map<Bucket, seq<Key>>)
    ensures order == Buckets(items, keys) && groups == BucketMap(items, keys)
  {
    order, groups := [], map[];
    for i := 0 to |keys|
      invariant order == Buckets(items, keys[..i]) && groups == BucketMap(items, keys[..i])
    {
      var b := BucketOf(items, keys[i]);
      assert keys[..i + 1] == keys[..i] + [keys[i]];
      OneKeyMore(items, keys[..i], keys[i]);
      BucketsMore(items, keys[..i], keys[i]);
      groups := groups[b := (if b in groups then groups[b] else []) + [keys[i]]];
      if b !in order { order := order + [b]; }
    }
    assert keys[..|keys|] == keys;
  }

  /** The test questions of the buckets. */
  function TestOf(items: seq<Item>, bs: seq<Bucket>): set<nat> {
    set i: nat | i < |items| && BucketOf(items, KeyOf(items[i])) in bs && InTest(items, i)
  }

  lemma {:induction false} PickedInBucket(items: seq<Item>, b: Bucket, key: Key)
    requires key in Picked(items, b)
    ensures BucketOf(items, key) == b
  {
    assert key in multiset(Ordered(items, b)) && key in multiset(InBucket(items, Keys(items, |items|), b));
  }

  lemma {:induction false} MembersOfPicked(items: seq<Item>, b: Bucket)
    ensures Members(items, Picked(items, b)) == TestOf(items, [b])
  {
    forall i: nat | i < |items| ensures i in Members(items, Picked(items, b)) <==> i in TestOf(items, [b]) {
      if KeyOf(items[i]) in Picked(items, b) { PickedInBucket(items, b, KeyOf(items[i])); }
    }
  }

  /** The test questions of one bucket. The script's fallback for a small bucket of which nothing was picked is dead:
      a bucket has a question, its target is at least one, and the loop goes on until the target is reached. */
  method SelectInBucket(questions: array<Question>, groups: map<Key, seq<nat>>, b: Bucket, keys: seq<Key>)
    returns (test: set<nat>)
    requires var items := Items(questions[..]);
             groups == GroupMap(items, |items|) && keys == InBucket(items, Keys(items, |items|), b)
    requires keys != []
    ensures test == TestOf(Items(questions[..]), [b])
  {
    var items := Items(questions[..]);
    var ordered := Sorted(items, keys);
    OrderedAreKeys(items, b);
    var total := TotalSize(items, ordered);
    var picked;
    TargetWithin(total);
    test, picked := PickGroups(items, groups, ordered, Target(total));
    SomethingIsPicked(items, b);
    if picked == 0 && total <= 2 { assert false; }
    MembersOfPicked(items, b);
  }

  lemma {:induction false} GroupsAreNotEmpty(items: seq<Item>, keys: seq<Key>)
    requires keys != [] && forall key :: key in keys ==> key in Keys(items, |items|)
    ensures TotalSize(items, keys) > 0
  {
    var last := keys[|keys| - 1];
    assert last in keys;
    var i :| 0 <= i < |items| && KeyOf(items[i]) == last;
    assert i in WholeGroup(items, last);
  }

  lemma {:induction false} SomethingIsPicked(items: seq<Item>, b: Bucket)
    requires InBucket(items, Keys(items, |items|), b) != []
    ensures TotalSize(items, Picked(items, b)) > 0
  {
    var keys := InBucket(items, Keys(items, |items|), b);
    GroupsAreNotEmpty(items, keys);
    SortKeepsTotal(items, keys);
    TargetWithin(TotalSize(items, Ordered(items, b)));
    PickReaches(items, Ordered(items, b), Target(TotalSize(items, Ordered(items, b))));
  }

  lemma {:induction false} TargetWithin(total: nat)
    ensures Target(total) <= total && (total > 0 ==> Target(total) >= 1)
  {
  }

  lemma {:induction false} OneBucketMore(items: seq<Item>, bs: seq<Bucket>, b: Bucket)
    ensures TestOf(items, bs + [b]) == TestOf(items, bs) + TestOf(items, [b])
  {
  }

  function TestSet(items: seq<Item>): set<nat> {
    set i: nat | i < |items| && InTest(items, i)
  }

  lemma {:induction false} AllBuckets(items: seq<Item>, bs: seq<Bucket>)
    requires bs == Buckets(items, Keys(items, |items|))
    ensures TestOf(items, bs) == TestSet(items)
  {
    forall i: nat | i < |items| ensures BucketOf(items, KeyOf(items[i])) in bs {
      assert KeyOf(items[i]) in Keys(items, |items|);
    }
  }

  lemma {:induction false} BucketIsInhabited(items: seq<Item>, keys: seq<Key>, b: Bucket)
    requires b in Buckets(items, keys)
    ensures InBucket(items, keys, b) != []
  {
    var key :| key in keys && BucketOf(items, key) == b;
    assert key in InBucket(items, keys, b);
  }

  method SelectTest(questions: array<Question>) returns (test: set<nat>)
    ensures test == TestSet(Items(questions[..]))
  {
    var items := Items(questions[..]);
    var keys, groups := CollectGroups(questions);
    var order, byBucket := CollectBuckets(items, keys);
    test := {};
    for k := 0 to |order|
      invariant test == TestOf(items, order[..k])
    {
      var b := order[k];
      assert byBucket[b] == InBucket(items, keys, b);
      BucketIsInhabited(items, keys, b);
      var more := SelectInBucket(questions, groups, b, byBucket[b]);
      OneBucketMore(items, order[..k], b);
      PrefixGrows(order, k);
      test := test + more;
    }
    assert order[..|order|] == order;
    AllBuckets(items, order);
  }

  lemma {:induction false} OrderedAreKeys(items: seq<Item>, b: Bucket)
    ensures forall key :: key in Ordered(items, b) ==> key in Keys(items, |items|)
  {
    forall key | key in Ordered(items, b) ensures key in Keys(items, |items|) {
      assert key in multiset(Ordered(items, b)) && key in multiset(InBucket(items, Keys(items, |items|), b));
    }
  }

  function Assigned(qs: seq<Question>, test: set<nat>): (r: seq<Question>)
    ensures |r| == |qs|
  {
    seq(|qs|, i requires 0 <= i < |qs| => qs[i].(split := if i in test then Test else Dev))
  }

  method AssignSplits(questions: array<Question>, test: set<nat>)
    modifies questions
    ensures questions[..] == Assigned(old(questions[..]), test)
  {
    for i := 0 to questions.Length
      invariant forall j :: 0 <= j < i ==> questions[j] == Assigned(old(questions[..]), test)[j]
      invariant forall j :: i <= j < questions.Length ==> questions[j] == old(questions[j])
    {
      questions[i] := questions[i].(split := if i in test then Test else Dev);
    }
  }

  /** What the script makes of a dataset: a function of the items alone. */
  function SplitOf(items: seq<Item>): seq<Question> {
    seq(|items|, i requires 0 <= i < |items| => Question(items[i], if InTest(items, i) then Test else Dev))
  }

  predicate Together(a: Item, b: Item) {
    a.caseKey == b.caseKey && a.template == b.template
  }

  /** No template group of a case straddles the splits. */
  predicate NoLeak(qs: seq<Question>) {
    forall i, j :: 0 <= i < j < |qs| && Together(qs[i].item, qs[j].item) ==> qs[i].split == qs[j].split
  }

  /** resplit: every question keeps its item and gets a split that depends on the items alone, whatever split it had
      before; questions of one case and template stay together, and splitting again changes nothing. */
  method ResplitQuestions(questions: array<Question>)
    modifies questions
    ensures questions[..] == SplitOf(Items(old(questions[..])))
    ensures Items(questions[..]) == Items(old(questions[..])) && NoLeak(questions[..])
    ensures SplitOf(Items(questions[..])) == questions[..]
  {
    ghost var items := Items(questions[..]);
    var test := SelectTest(questions);
    AssignSplits(questions, test);
    SplitByGroup(items);
    ItemsAreKept(items);
    assert questions[..] == SplitOf(items);
  }

  // ---------------------------------------------------------------- what the split guarantees

  lemma {:induction false} SplitByGroup(items: seq<Item>)
    ensures NoLeak(SplitOf(items))
  {
    var qs := SplitOf(items);
    forall i, j | 0 <= i < j < |qs| && Together(qs[i].item, qs[j].item) ensures qs[i].split == qs[j].split {
      assert qs[i].item == items[i] && qs[j].item == items[j];
    }
  }

  lemma {:induction false} ItemsAreKept(items: seq<Item>)
    ensures Items(SplitOf(items)) == items
  {
    assert forall i :: 0 <= i < |items| ==> SplitOf(items)[i].item == items[i];
  }

  lemma {:induction false} PickReaches(items: seq<Item>, keys: seq<Key>, target: nat)
    requires target <= TotalSize(items, keys)
    ensures var n := PickCount(items, keys, target);
            && TotalSize(items, keys[..n]) >= target
            && (n > 0 ==> TotalSize(items, keys[..n - 1]) < target)
  {
    if keys != [] && TotalSize(items, keys[..|keys| - 1]) >= target {
      PickReaches(items, keys[..|keys| - 1], target);
      var n := PickCount(items, keys, target);
      assert keys[..|keys| - 1][..n] == keys[..n];
      if n > 0 { assert keys[..|keys| - 1][..n - 1] == keys[..n - 1]; }
    } else {
      assert keys[..|keys|] == keys;
    }
  }

  /** The questions of distinct groups number as many as the groups' sizes say. */
  lemma {:induction false} MembersCount(items: seq<Item>, keys: seq<Key>)
    requires NoDuplicates(keys)
    ensures |Members(items, keys)| == TotalSize(items, keys)
  {
    if keys == [] {
      assert Members(items, keys) == {};
    } else {
      var front, last := keys[..|keys| - 1], keys[|keys| - 1];
      assert keys == front + [last];
      MembersCount(items, front);
      OneGroupMore(items, front, last);
      GroupCount(items, last, |items|);
      NotAmong(items, front, last);
    }
  }

  lemma {:induction false} NotAmong(items: seq<Item>, keys: seq<Key>, key: Key)
    requires key !in keys
    ensures Members(items, keys) !! Elements(WholeGroup(items, key))
  {
  }

  lemma {:induction false} GroupCount(items: seq<Item>, key: Key, n: nat)
    requires n <= |items|
    ensures |Elements(Group(items, key, n))| == |Group(items, key, n)|
  {
    if n > 0 {
      GroupCount(items, key, n - 1);
      var front := Group(items, key, n - 1);
      assert n - 1 !in front;
      assert Elements(front + [n - 1]) == Elements(front) + {n - 1};
    }
  }

  lemma {:induction false} SortKeepsDistinct(items: seq<Item>, keys: seq<Key>)
    requires NoDuplicates(keys)
    ensures NoDuplicates(Sorted(items, keys))
  {
    OccursOnce(keys);
    OccursOnce(Sorted(items, keys));
  }

  lemma {:induction false} BucketIsDistinct(items: seq<Item>, keys: seq<Key>, b: Bucket)
    requires NoDuplicates(keys)
    ensures NoDuplicates(InBucket(items, keys, b))
  {
    if keys != [] {
      var front, last := keys[..|keys| - 1], keys[|keys| - 1];
      assert keys == front + [last];
      BucketIsDistinct(items, front, b);
      assert last !in front && last !in InBucket(items, front, b);
    }
  }

  lemma {:induction false} PickedAreDistinct(items: seq<Item>, b: Bucket)
    ensures NoDuplicates(Picked(items, b))
  {
    BucketIsDistinct(items, Keys(items, |items|), b);
    SortKeepsDistinct(items, InBucket(items, Keys(items, |items|), b));
  }

  lemma {:induction false} SortKeepsTotal(items: seq<Item>, keys: seq<Key>)
    ensures TotalSize(items, Sorted(items, keys)) == TotalSize(items, keys)
  {
    if keys != [] {
      SortKeepsTotal(items, keys[..|keys| - 1]);
      InsertAddsSize(items, Sorted(items, keys[..|keys| - 1]), keys[|keys| - 1]);
    }
  }

  lemma {:induction false} InsertAddsSize(items: seq<Item>, keys: seq<Key>, key: Key)
    ensures TotalSize(items, Insert(items, keys, key)) == TotalSize(items, keys) + SizeOf(items, key)
  {
    if keys == [] || NotAfter(items, keys[|keys| - 1], key) {
      assert (keys + [key])[..|keys + [key]| - 1] == keys;
    } else {
      var front, last := keys[..|keys| - 1], keys[|keys| - 1];
      InsertAddsSize(items, front, key);
      assert (Insert(items, front, key) + [last])[..|Insert(items, front, key)|] == Insert(items, front, key);
    }
  }

  /** All questions of a bucket. */
  function BucketQuestions(items: seq<Item>, b: Bucket): set<nat> {
    set i: nat | i < |items| && BucketOf(items, KeyOf(items[i])) == b
  }

  lemma {:induction false} BucketSize(items: seq<Item>, b: Bucket)
    ensures |BucketQuestions(items, b)| == TotalSize(items, Ordered(items, b))
  {
    var keys := InBucket(items, Keys(items, |items|), b);
    BucketIsDistinct(items, Keys(items, |items|), b);
    MembersCount(items, keys);
    SortKeepsTotal(items, keys);
    forall i: nat | i < |items| ensures KeyOf(items[i]) in keys <==> BucketOf(items, KeyOf(items[i])) == b {
      assert KeyOf(items[i]) in Keys(items, |items|);
    }
    assert Members(items, keys) == BucketQuestions(items, b);
  }

  /** The test questions of a bucket number as many as its picked groups hold. */
  lemma {:induction false} TestCount(items: seq<Item>, b: Bucket)
    ensures |BucketQuestions(items, b) * TestSet(items)| == TotalSize(items, Picked(items, b))
  {
    PickedAreDistinct(items, b);
    MembersCount(items, Picked(items, b));
    MembersOfPicked(items, b);
    TestOfOne(items, b);
  }

  lemma {:induction false} TestOfOne(items: seq<Item>, b: Bucket)
    ensures TestOf(items, [b]) == BucketQuestions(items, b) * TestSet(items)
  {
  }

  lemma {:induction false} PickOvershoot(items: seq<Item>, keys: seq<Key>, target: nat, largest: nat)
    requires 1 <= target <= TotalSize(items, keys) && forall key :: key in keys ==> SizeOf(items, key) <= largest
    ensures target <= TotalSize(items, keys[..PickCount(items, keys, target)]) < target + largest
  {
    PickReaches(items, keys, target);
    var n := PickCount(items, keys, target);
    if n > 0 {
      assert keys[..n][..n - 1] == keys[..n - 1];
      assert keys[n - 1] in keys;
    }
  }

  lemma {:induction false} OrderedInBucket(items: seq<Item>, b: Bucket, key: Key)
    requires key in Ordered(items, b)
    ensures key in Keys(items, |items|) && BucketOf(items, key) == b
  {
    assert key in multiset(Ordered(items, b)) && key in multiset(InBucket(items, Keys(items, |items|), b));
  }

  /** Each bucket sends at least its target of 60 per cent to test, at least one question, and less than a largest
      group more than the target. */
  lemma {:induction false} TestSizeIsOnTarget(items: seq<Item>, b: Bucket, largest: nat)
    requires BucketQuestions(items, b) != {}
    requires forall key :: key in Keys(items, |items|) && BucketOf(items, key) == b ==> SizeOf(items, key) <= largest
    ensures var test := |BucketQuestions(items, b) * TestSet(items)|;
            var all := |BucketQuestions(items, b)|;
            exists target ::
              && 1 <= target && 6 * all - 5 < 10 * target <= 6 * all + 5
              && target <= test < target + largest
  {
    var keys := Ordered(items, b);
    BucketSize(items, b);
    TargetWithin(TotalSize(items, keys));
    forall key | key in keys ensures SizeOf(items, key) <= largest { OrderedInBucket(items, b, key); }
    PickOvershoot(items, keys, Target(TotalSize(items, keys)), largest);
    TestCount(items, b);
    var target := Target(TotalSize(items, keys));
    assert 1 <= target && 6 * TotalSize(items, keys) - 5 < 10 * target <= 6 * TotalSize(items, keys) + 5;
  }
}
