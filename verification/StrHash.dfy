/** The chained hash table with its iterator. */
module StrHash {

  // ---------------------------------------------------------------- iteration, as a value

  /** The keys s without k, in order. */
  function Without(s: seq<string>, k: string): (r: seq<string>) {
    if s == [] then []
    else if s[0] == k then Without(s[1..], k)
    else [s[0]] + Without(s[1..], k)
  }

  lemma {:induction false} WithoutAppend(a: seq<string>, b: seq<string>, k: string)
    ensures Without(a + b, k) == Without(a, k) + Without(b, k)
  {
    if a == [] {
      assert a + b == b;
    } else {
      assert (a + b)[0] == a[0] && (a + b)[1..] == a[1..] + b;
      WithoutAppend(a[1..], b, k);
    }
  }

  lemma {:induction false} WithoutAbsent(s: seq<string>, k: string)
    requires k !in s
    ensures Without(s, k) == s
  {
    if s != [] {
      assert s[0] in s && forall x :: x in s[1..] ==> x in s;
      WithoutAbsent(s[1..], k);
    }
  }

  lemma {:induction false} WithoutCounts(s: seq<string>, k: string, x: string)
    ensures multiset(Without(s, k))[x] == if x == k then 0 else multiset(s)[x]
  {
    if s != [] {
      assert s == [s[0]] + s[1..];
      WithoutCounts(s[1..], k, x);
    }
  }

  /** The keys in the table, those still to be returned and those returned since the start. */
  datatype Iteration = Iteration(present: set<string>, pending: seq<string>, returned: seq<string>)

  ghost predicate Started(it: Iteration) {
    && it.returned == []
    && (forall k :: k in it.pending <==> k in it.present)
    && (forall i, j :: 0 <= i < j < |it.pending| ==> it.pending[i] != it.pending[j])
  }

  /** What the table may do between two calls of strhash_next, and what that one does. */
  datatype Event = Add(k: string) | Remove(k: string) | Next

  ghost predicate Happens(it: Iteration, e: Event, it': Iteration) {
    match e
    case Add(k) =>
      && k !in it.present && it'.present == it.present + {k}
      && it.pending == Without(it'.pending, k) && it'.returned == it.returned
    case Remove(k) =>
      && k in it.present && it'.present == it.present - {k}
      && it'.pending == Without(it.pending, k) && it'.returned == it.returned
    case Next =>
      && it.pending != [] && it'.present == it.present
      && it'.pending == it.pending[1..] && it'.returned == it.returned + [it.pending[0]]
  }

  ghost predicate IsIteration(its: seq<Iteration>, events: seq<Event>)
    decreases |events|
  {
    && |its| == |events| + 1
    && if events == [] then Started(its[0])
       else
         var n := |events| - 1;
         IsIteration(its[..n + 1], events[..n]) && Happens(its[n], events[n], its[n + 1])
  }

  lemma {:induction false} StepOf(its: seq<Iteration>, events: seq<Event>, i: nat)
    requires IsIteration(its, events) && i <= |events|
    ensures Started(its[0])
    ensures i < |events| ==> Happens(its[i], events[i], its[i + 1])
    decreases |events|
  {
    if events != [] {
      var n := |events| - 1;
      StepOf(its[..n + 1], events[..n], if i < n then i else n);
    }
  }

  lemma {:induction false} DistinctCounts(s: seq<string>, k: string)
    requires k in s && forall i, j :: 0 <= i < j < |s| ==> s[i] != s[j]
    ensures multiset(s)[k] == 1
  {
    assert s == [s[0]] + s[1..];
    if s[0] == k {
      assert k !in s[1..];
    } else {
      DistinctCounts(s[1..], k);
    }
  }

  lemma HappensKeepsCount(it: Iteration, e: Event, it': Iteration, k: string)
    requires Happens(it, e, it') && k in it.present && k in it'.present
    ensures multiset(it'.pending)[k] + multiset(it'.returned)[k] == multiset(it.pending)[k] + multiset(it.returned)[k]
  {
    match e {
      case Add(x) => WithoutCounts(it'.pending, x, k);
      case Remove(x) => WithoutCounts(it.pending, x, k);
      case Next => assert it.pending == [it.pending[0]] + it.pending[1..];
    }
  }

  /** A key that stays in the table throughout is, at any time, either still to come, once,
      or has been returned, once: when strhash_next has nothing left, exactly once. */
  lemma {:induction false} ReturnedExactlyOnce(its: seq<Iteration>, events: seq<Event>, i: nat, k: string)
    requires IsIteration(its, events) && i < |its|
    requires forall j :: 0 <= j <= i ==> k in its[j].present
    ensures multiset(its[i].pending)[k] + multiset(its[i].returned)[k] == 1
    ensures its[i].pending == [] ==> multiset(its[i].returned)[k] == 1
  {
    if i == 0 {
      StepOf(its, events, 0);
      assert k in its[0].pending;
      DistinctCounts(its[0].pending, k);
    } else {
      ReturnedExactlyOnce(its, events, i - 1, k);
      StepOf(its, events, i - 1);
      HappensKeepsCount(its[i - 1], events[i - 1], its[i], k);
    }
  }

  /** On an unmodified table the iteration returns the keys there were, every one once, in
      their order, and ends after as many calls. */
  lemma {:induction false} UnmodifiedEnumerates(its: seq<Iteration>, events: seq<Event>, i: nat)
    requires IsIteration(its, events) && i < |its|
    requires forall j :: 0 <= j < |events| ==> events[j] == Next
    ensures i <= |its[0].pending| && its[i].present == its[0].present
    ensures its[i].returned == its[0].pending[..i] && its[i].pending == its[0].pending[i..]
    ensures its[i].pending == [] ==>
              && (forall k :: k in its[i].returned <==> k in its[0].present)
              && (forall a, b :: 0 <= a < b < |its[i].returned| ==> its[i].returned[a] != its[i].returned[b])
  {
    StepOf(its, events, 0);
    if i > 0 {
      UnmodifiedEnumerates(its, events, i - 1);
      StepOf(its, events, i - 1);
    }
  }

  // ---------------------------------------------------------------- chains

  class Entry {
    const key: string
    const value: string
    var next: Entry?

    constructor (key: string, value: string)
      ensures this.key == key && this.value == value && next == null
    {
      this.key, this.value, this.next := key, value, null;
    }
  }

  ghost function Keys(chain: seq<Entry>): (ks: seq<string>)
    ensures |ks| == |chain| && forall j :: 0 <= j < |chain| ==> ks[j] == chain[j].key
  {
    seq(|chain|, j requires 0 <= j < |chain| => chain[j].key)
  }

  ghost function AllKeys(chains: seq<seq<Entry>>): seq<string> {
    if chains == [] then [] else Keys(chains[0]) + AllKeys(chains[1..])
  }

  lemma {:induction false} AllKeysContains(chains: seq<seq<Entry>>, k: string)
    ensures k in AllKeys(chains) <==> exists i, j :: 0 <= i < |chains| && 0 <= j < |chains[i]| && chains[i][j].key == k
  {
    if chains != [] {
      AllKeysContains(chains[1..], k);
      if k in AllKeys(chains) {
        if k in Keys(chains[0]) {
          var j :| 0 <= j < |chains[0]| && Keys(chains[0])[j] == k;
          assert chains[0][j].key == k;
        } else {
          var i, j :| 0 <= i < |chains[1..]| && 0 <= j < |chains[1..][i]| && chains[1..][i][j].key == k;
          assert chains[i + 1][j].key == k;
        }
      }
      if i, j :| 0 <= i < |chains| && 0 <= j < |chains[i]| && chains[i][j].key == k {
        if i == 0 {
          assert Keys(chains[0])[j] == k;
        } else {
          assert chains[1..][i - 1][j].key == k;
        }
      }
    }
  }

  /** Two tables that differ by key k in chain i only. */
  ghost predicate DifferBy(big: seq<seq<Entry>>, small: seq<seq<Entry>>, i: nat, k: string) {
    && |big| == |small| && i < |big|
    && Without(Keys(big[i]), k) == Keys(small[i])
    && forall n :: 0 <= n < |big| && n != i ==> big[n] == small[n] && k !in Keys(big[n])
  }

  lemma {:induction false} AllKeysDiffer(big: seq<seq<Entry>>, small: seq<seq<Entry>>, i: nat, k: string, from: nat)
    requires DifferBy(big, small, i, k) && from <= |big|
    ensures Without(AllKeys(big[from..]), k) == AllKeys(small[from..])
    decreases |big| - from
  {
    if from < |big| {
      assert big[from..][1..] == big[from + 1..] && small[from..][1..] == small[from + 1..];
      AllKeysDiffer(big, small, i, k, from + 1);
      WithoutAppend(Keys(big[from]), AllKeys(big[from + 1..]), k);
      if from != i {
        WithoutAbsent(Keys(big[from]), k);
      }
    }
  }

  /** A pointer to a pointer to an entry: a bucket or the next field of an entry. */
  datatype Slot = Bucket(i: nat) | NextOf(e: Entry)

  function Head(chain: seq<Entry>): Entry? { if chain == [] then null else chain[0] }

  /** The successor of the j-th entry. */
  function After(chain: seq<Entry>, j: nat): Entry?
    requires j < |chain|
  {
    if j + 1 < |chain| then chain[j + 1] else null
  }

  /** The pointers of a chain run through its entries and end with null. */
  ghost predicate Linked(bucket: array<Entry?>, i: nat, chain: seq<Entry>)
    requires i < bucket.Length
    reads bucket, chain
  {
    && bucket[i] == Head(chain)
    && forall j {:trigger chain[j].next} :: 0 <= j < |chain| ==> chain[j].next == After(chain, j)
  }

  ghost predicate AllLinked(bucket: array<Entry?>, chains: seq<seq<Entry>>)
    requires |chains| == bucket.Length
    reads bucket, set i, j | 0 <= i < |chains| && 0 <= j < |chains[i]| :: chains[i][j]
  {
    forall i :: 0 <= i < |chains| ==> Linked(bucket, i, chains[i])
  }

  /** The i-th chain of a table of this size and contents: distinct keys, all of them at home. */
  ghost predicate Members(chain: seq<Entry>, contents: map<string, string>, hash: string -> nat, size: nat, i: nat)
    requires size > 0
  {
    && (forall j :: 0 <= j < |chain| ==> MemberOk(chain[j], contents, hash, size, i))
    && (forall j, k :: 0 <= j < k < |chain| ==> chain[j].key != chain[k].key)
  }

  ghost predicate MemberOk(e: Entry, contents: map<string, string>, hash: string -> nat, size: nat, i: nat)
    requires size > 0
  {
    hash(e.key) % size == i && e.key in contents && contents[e.key] == e.value
  }

  /** The chains hold exactly these contents. The first part is a recursion over the chains
      so that its quantifiers are in the way only where they are needed. */
  ghost predicate Table(chains: seq<seq<Entry>>, contents: map<string, string>, hash: string -> nat)
    requires chains != []
  {
    && AllMembers(chains, |chains|, contents, hash)
    && forall key :: key in contents ==> key in AllKeys(chains)
  }

  ghost predicate AllMembers(chains: seq<seq<Entry>>, n: nat, contents: map<string, string>, hash: string -> nat)
    requires n <= |chains| && chains != []
  {
    n > 0 ==> AllMembers(chains, n - 1, contents, hash) && Members(chains[n - 1], contents, hash, |chains|, n - 1)
  }

  lemma {:induction false} MembersAt(chains: seq<seq<Entry>>, n: nat, contents: map<string, string>, hash: string -> nat, i: nat)
    requires i < n <= |chains| && AllMembers(chains, n, contents, hash)
    ensures Members(chains[i], contents, hash, |chains|, i)
  {
    if i < n - 1 {
      MembersAt(chains, n - 1, contents, hash, i);
    }
  }

  lemma {:induction false} MembersEverywhere(chains: seq<seq<Entry>>, n: nat, contents: map<string, string>, hash: string -> nat)
    requires n <= |chains| && chains != []
    requires forall i :: 0 <= i < n ==> Members(chains[i], contents, hash, |chains|, i)
    ensures AllMembers(chains, n, contents, hash)
  {
    if n > 0 {
      MembersEverywhere(chains, n - 1, contents, hash);
    }
  }

  /** The keys of the contents are those of their home chains, and only those. */
  lemma FoundAtHome(chains: seq<seq<Entry>>, contents: map<string, string>, hash: string -> nat, key: string)
    requires chains != [] && Table(chains, contents, hash)
    ensures key in contents <==> key in Keys(chains[hash(key) % |chains|])
  {
    var h := hash(key) % |chains|;
    MembersAt(chains, |chains|, contents, hash, h);
    if key in Keys(chains[h]) {
      var j :| 0 <= j < |chains[h]| && Keys(chains[h])[j] == key;
      assert MemberOk(chains[h][j], contents, hash, |chains|, h);
    }
    if key in contents {
      AllKeysContains(chains, key);
      var i, j :| 0 <= i < |chains| && 0 <= j < |chains[i]| && chains[i][j].key == key;
      MembersAt(chains, |chains|, contents, hash, i);
      assert MemberOk(chains[i][j], contents, hash, |chains|, i);
      assert Keys(chains[h])[j] == key;
    }
  }

  ghost predicate Inside(chains: seq<seq<Entry>>, entries: set<Entry>) {
    forall i, j :: 0 <= i < |chains| && 0 <= j < |chains[i]| ==> chains[i][j] in entries
  }

  lemma InsideAdd(chains: seq<seq<Entry>>, entries: set<Entry>, i: nat, e: Entry)
    requires Inside(chains, entries) && i < |chains|
    ensures Inside(chains[i := chains[i] + [e]], entries + {e})
  {
  }

  lemma InsideCut(chains: seq<seq<Entry>>, entries: set<Entry>, i: nat, j: nat)
    requires Inside(chains, entries) && i < |chains| && j < |chains[i]|
    ensures Inside(chains[i := Cut(chains[i], j)], entries)
  {
    var chains' := chains[i := Cut(chains[i], j)];
    forall n, k | 0 <= n < |chains'| && 0 <= k < |chains'[n]|
      ensures chains'[n][k] in entries
    {
      assert chains'[n][k] == chains[n][if n == i && k >= j then k + 1 else k];
    }
  }

  /** A new key at the end of its chain. */
  lemma TableAdd(chains: seq<seq<Entry>>, contents: map<string, string>, hash: string -> nat, e: Entry)
    requires chains != [] && Table(chains, contents, hash) && e.key !in contents
    ensures var i := hash(e.key) % |chains|;
            var chains' := chains[i := chains[i] + [e]];
            Table(chains', contents[e.key := e.value], hash) && DifferBy(chains', chains, i, e.key)
  {
    var i := hash(e.key) % |chains|;
    var chains', contents' := chains[i := chains[i] + [e]], contents[e.key := e.value];
    forall n | 0 <= n < |chains|
      ensures Members(chains'[n], contents', hash, |chains|, n) && e.key !in Keys(chains[n])
    {
      MembersAt(chains, |chains|, contents, hash, n);
      forall j | 0 <= j < |chains[n]|
        ensures chains[n][j].key != e.key && MemberOk(chains[n][j], contents', hash, |chains|, n)
      {
        assert MemberOk(chains[n][j], contents, hash, |chains|, n);
      }
      assert MemberOk(e, contents', hash, |chains|, i);
    }
    MembersEverywhere(chains', |chains'|, contents', hash);
    forall key | key in contents'
      ensures key in AllKeys(chains')
    {
      AllKeysContains(chains', key);
      if key != e.key {
        AllKeysContains(chains, key);
        var n, j :| 0 <= n < |chains| && 0 <= j < |chains[n]| && chains[n][j].key == key;
        assert chains'[n][j].key == key;
      } else {
        assert chains'[i][|chains[i]|].key == key;
      }
    }
    assert Keys(chains[i] + [e]) == Keys(chains[i]) + [e.key];
    WithoutAppend(Keys(chains[i]), [e.key], e.key);
    WithoutAbsent(Keys(chains[i]), e.key);
  }

  function Cut(chain: seq<Entry>, j: nat): seq<Entry>
    requires j < |chain|
  {
    chain[..j] + chain[j + 1..]
  }

  /** A key taken out of its chain. */
  lemma TableRemove(chains: seq<seq<Entry>>, contents: map<string, string>, hash: string -> nat, i: nat, j: nat)
    requires chains != [] && Table(chains, contents, hash) && i < |chains| && j < |chains[i]|
    ensures var key := chains[i][j].key;
            var chains' := chains[i := Cut(chains[i], j)];
            Table(chains', contents - {key}, hash) && DifferBy(chains, chains', i, key)
  {
    var chain := chains[i];
    var key := chain[j].key;
    var chains', contents' := chains[i := Cut(chain, j)], contents - {key};
    MembersAt(chains, |chains|, contents, hash, i);
    assert MemberOk(chain[j], contents, hash, |chains|, i);
    forall n | 0 <= n < |chains|
      ensures Members(chains'[n], contents', hash, |chains|, n) && (n != i ==> key !in Keys(chains[n]))
    {
      MembersAt(chains, |chains|, contents, hash, n);
      if n == i {
        MembersCut(chain, contents, hash, |chains|, i, j);
      } else {
        MembersKept(chains[n], contents, hash, |chains|, n, key);
      }
    }
    MembersEverywhere(chains', |chains'|, contents', hash);
    forall x | x in contents'
      ensures x in AllKeys(chains')
    {
      AllKeysContains(chains, x);
      AllKeysContains(chains', x);
      var n, k :| 0 <= n < |chains| && 0 <= k < |chains[n]| && chains[n][k].key == x;
      StillThere(chains, i, j, n, k);
    }
    CutKeys(chain, j);
  }

  lemma StillThere(chains: seq<seq<Entry>>, i: nat, j: nat, n: nat, k: nat)
    requires i < |chains| && j < |chains[i]| && n < |chains| && k < |chains[n]| && !(n == i && k == j)
    ensures var chains' := chains[i := Cut(chains[i], j)];
            exists n', k' :: 0 <= n' < |chains'| && 0 <= k' < |chains'[n']| && chains'[n'][k'].key == chains[n][k].key
  {
    var chains' := chains[i := Cut(chains[i], j)];
    assert chains'[n][if n == i && k > j then k - 1 else k] == chains[n][k];
  }

  lemma MembersCut(chain: seq<Entry>, contents: map<string, string>, hash: string -> nat, size: nat, n: nat, j: nat)
    requires size > 0 && Members(chain, contents, hash, size, n) && j < |chain|
    ensures Members(Cut(chain, j), contents - {chain[j].key}, hash, size, n)
  {
    var chain', key := Cut(chain, j), chain[j].key;
    forall k | 0 <= k < |chain'|
      ensures MemberOk(chain'[k], contents - {key}, hash, size, n)
    {
      var k' := if k >= j then k + 1 else k;
      assert chain'[k] == chain[k'] && MemberOk(chain[k'], contents, hash, size, n) && chain[k'].key != key;
    }
  }

  lemma MembersKept(chain: seq<Entry>, contents: map<string, string>, hash: string -> nat, size: nat, n: nat, key: string)
    requires size > 0 && Members(chain, contents, hash, size, n) && hash(key) % size != n
    ensures Members(chain, contents - {key}, hash, size, n)
    ensures key !in Keys(chain)
  {
    forall k | 0 <= k < |chain|
      ensures Keys(chain)[k] != key && MemberOk(chain[k], contents - {key}, hash, size, n)
    {
      assert MemberOk(chain[k], contents, hash, size, n);
    }
  }

  lemma CutKeys(chain: seq<Entry>, j: nat)
    requires j < |chain|
    requires forall a, b :: 0 <= a < b < |chain| ==> chain[a].key != chain[b].key
    ensures Without(Keys(chain), chain[j].key) == Keys(Cut(chain, j))
  {
    var e, p, q := chain[j], chain[..j], chain[j + 1..];
    assert chain == p + ([e] + q);
    KeysAppend(p, [e] + q);
    KeysAppend([e], q);
    KeysAppend(p, q);
    assert Keys([e]) == [e.key];
    WithoutAppend(Keys(p), [e.key] + Keys(q), e.key);
    WithoutAppend([e.key], Keys(q), e.key);
    NotAmong(p, e.key);
    NotAmong(q, e.key);
  }

  lemma NotAmong(chain: seq<Entry>, k: string)
    requires forall n :: 0 <= n < |chain| ==> chain[n].key != k
    ensures Without(Keys(chain), k) == Keys(chain)
  {
    WithoutAbsent(Keys(chain), k);
  }

  lemma KeysAppend(a: seq<Entry>, b: seq<Entry>)
    ensures Keys(a + b) == Keys(a) + Keys(b)
  {
  }

  /** No entry is in two places. */
  ghost predicate Apart(chains: seq<seq<Entry>>, i: nat, j: nat)
    requires i < |chains| && j < |chains[i]|
  {
    forall n, k :: 0 <= n < |chains| && 0 <= k < |chains[n]| && chains[n][k] == chains[i][j] ==> n == i && k == j
  }

  lemma TableKeepsApart(chains: seq<seq<Entry>>, contents: map<string, string>, hash: string -> nat, i: nat, j: nat)
    requires chains != [] && Table(chains, contents, hash) && i < |chains| && j < |chains[i]|
    ensures Apart(chains, i, j)
  {
    forall n, k | 0 <= n < |chains| && 0 <= k < |chains[n]| && chains[n][k] == chains[i][j]
      ensures n == i && k == j
    {
      MembersAt(chains, |chains|, contents, hash, n);
      MembersAt(chains, |chains|, contents, hash, i);
      assert MemberOk(chains[n][k], contents, hash, |chains|, n) && MemberOk(chains[i][j], contents, hash, |chains|, i);
    }
  }

  /** slot is where the pointer to the j-th entry of chain i is stored. */
  ghost predicate Points(chains: seq<seq<Entry>>, slot: Slot, i: nat, j: nat)
    requires i < |chains| && j <= |chains[i]|
  {
    slot == if j == 0 then Bucket(i) else NextOf(chains[i][j - 1])
  }

  /** Writes through the slot of the j-th entry of chain i: that chain then goes on with e
      there, and the others are as they were. */
  method Store(bucket: array<Entry?>, slot: Slot, e: Entry?, ghost chains: seq<seq<Entry>>, ghost i: nat, ghost j: nat)
    requires i < |chains| == bucket.Length && j <= |chains[i]| && Points(chains, slot, i, j)
    requires j > 0 ==> Apart(chains, i, j - 1)
    requires AllLinked(bucket, chains)
    modifies bucket, if slot.NextOf? then {slot.e} else {}
    ensures forall n :: 0 <= n < |chains| && n != i ==> Linked(bucket, n, chains[n])
    ensures bucket[i] == if j == 0 then e else Head(chains[i])
    ensures forall k {:trigger chains[i][k].next} :: 0 <= k < |chains[i]| ==>
              chains[i][k].next == if k == j - 1 then e else After(chains[i], k)
  {
    assert Linked(bucket, i, chains[i]);
    match slot {
      case Bucket(b) => bucket[b] := e;
      case NextOf(p) => p.next := e;
    }
    forall n | 0 <= n < |chains| && n != i
      ensures Linked(bucket, n, chains[n])
    {
      assert old(Linked(bucket, n, chains[n]));
    }
  }

  /** *prev = entry for the slot at the end of chain i */
  method LinkIn(bucket: array<Entry?>, slot: Slot, e: Entry, ghost chains: seq<seq<Entry>>, ghost i: nat)
    requires i < |chains| == bucket.Length && Points(chains, slot, i, |chains[i]|)
    requires chains[i] != [] ==> Apart(chains, i, |chains[i]| - 1)
    requires AllLinked(bucket, chains)
    requires e.next == null && !(slot == NextOf(e))
    modifies bucket, if slot.NextOf? then {slot.e} else {}
    ensures AllLinked(bucket, chains[i := chains[i] + [e]])
  {
    Store(bucket, slot, e, chains, i, |chains[i]|);
    assert Linked(bucket, i, chains[i] + [e]);
  }

  /** *prev = entry->next for the slot of the j-th entry of chain i */
  method Unlink(bucket: array<Entry?>, slot: Slot, e: Entry, ghost chains: seq<seq<Entry>>, ghost i: nat, ghost j: nat)
    requires i < |chains| == bucket.Length && j < |chains[i]| && Points(chains, slot, i, j) && e == chains[i][j]
    requires j > 0 ==> Apart(chains, i, j - 1)
    requires AllLinked(bucket, chains)
    modifies bucket, if slot.NextOf? then {slot.e} else {}
    ensures AllLinked(bucket, chains[i := Cut(chains[i], j)])
  {
    assert Linked(bucket, i, chains[i]);
    Store(bucket, slot, e.next, chains, i, j);
    assert Linked(bucket, i, Cut(chains[i], j));
  }

  // ---------------------------------------------------------------- the iterator

  /** The iterator stands between two chains, or at an entry of the chain before itIndex. */
  ghost predicate CursorAt(chains: seq<seq<Entry>>, itIndex: nat, itEntry: Entry?, cursor: nat) {
    && itIndex <= |chains|
    && (itEntry != null ==> 0 < itIndex && cursor < |chains[itIndex - 1]| && chains[itIndex - 1][cursor] == itEntry)
  }

  ghost function PendingKeys(chains: seq<seq<Entry>>, itIndex: nat, itEntry: Entry?, cursor: nat): seq<string>
    requires CursorAt(chains, itIndex, itEntry, cursor)
  {
    (if itEntry == null then [] else Keys(chains[itIndex - 1][cursor..])) + AllKeys(chains[itIndex..])
  }

  ghost function IterationAt(chains: seq<seq<Entry>>, contents: map<string, string>,
                             itIndex: nat, itEntry: Entry?, cursor: nat, returned: seq<string>): Iteration
    requires CursorAt(chains, itIndex, itEntry, cursor)
  {
    Iteration(contents.Keys, PendingKeys(chains, itIndex, itEntry, cursor), returned)
  }

  /** Adding a key leaves the iterator where it is; the new key may be still to come or not. */
  lemma AddKeepsIteration(chains: seq<seq<Entry>>, i: nat, e: Entry, itIndex: nat, itEntry: Entry?, cursor: nat)
    requires CursorAt(chains, itIndex, itEntry, cursor) && i < |chains|
    requires DifferBy(chains[i := chains[i] + [e]], chains, i, e.key)
    requires e.key !in Keys(chains[i])
    ensures var chains' := chains[i := chains[i] + [e]];
            && CursorAt(chains', itIndex, itEntry, cursor)
            && PendingKeys(chains, itIndex, itEntry, cursor) == Without(PendingKeys(chains', itIndex, itEntry, cursor), e.key)
  {
    var chains' := chains[i := chains[i] + [e]];
    AllKeysDiffer(chains', chains, i, e.key, itIndex);
    if itEntry != null {
      var a, a' := chains[itIndex - 1][cursor..], chains'[itIndex - 1][cursor..];
      WithoutAppend(Keys(a'), AllKeys(chains'[itIndex..]), e.key);
      assert e.key !in Keys(a) by { SuffixKeys(chains[itIndex - 1], cursor, e.key); }
      WithoutAbsent(Keys(a), e.key);
      if itIndex - 1 == i {
        assert a' == a + [e] && Keys(a') == Keys(a) + [e.key];
        WithoutAppend(Keys(a), [e.key], e.key);
      }
    } else {
      assert [] + AllKeys(chains'[itIndex..]) == AllKeys(chains'[itIndex..]);
    }
  }

  ghost predicate AfterAdd(chains: seq<seq<Entry>>, contents: map<string, string>, e: Entry,
                           itIndex: nat, itEntry: Entry?, cursor: nat, returned: seq<string>, chains': seq<seq<Entry>>) {
    CursorAt(chains, itIndex, itEntry, cursor) ==>
      && CursorAt(chains', itIndex, itEntry, cursor)
      && Happens(IterationAt(chains, contents, itIndex, itEntry, cursor, returned), Event.Add(e.key),
                 IterationAt(chains', contents[e.key := e.value], itIndex, itEntry, cursor, returned))
  }

  lemma AddIteration(chains: seq<seq<Entry>>, contents: map<string, string>, hash: string -> nat, e: Entry,
                     itIndex: nat, itEntry: Entry?, cursor: nat, returned: seq<string>)
    requires chains != [] && Table(chains, contents, hash) && e.key !in contents
    ensures var i := hash(e.key) % |chains|;
            AfterAdd(chains, contents, e, itIndex, itEntry, cursor, returned, chains[i := chains[i] + [e]])
  {
    if CursorAt(chains, itIndex, itEntry, cursor) {
      TableAdd(chains, contents, hash, e);
      FoundAtHome(chains, contents, hash, e.key);
      AddKeepsIteration(chains, hash(e.key) % |chains|, e, itIndex, itEntry, cursor);
    }
  }

  lemma SuffixKeys(chain: seq<Entry>, from: nat, k: string)
    requires from <= |chain| && k !in Keys(chain)
    ensures k !in Keys(chain[from..])
  {
    forall j | 0 <= j < |chain[from..]|
      ensures Keys(chain[from..])[j] != k
    {
      assert Keys(chain)[from + j] != k;
    }
  }

  /** Where the iterator stands after the j-th entry of chain i is gone. */
  function MovedCursor(i: nat, j: nat, itIndex: nat, itEntry: Entry?, cursor: nat): nat {
    if itEntry != null && itIndex == i + 1 && j < cursor then cursor - 1 else cursor
  }

  /** Removing a key takes it from those still to come, unless the iterator points to it. */
  lemma RemoveKeepsIteration(chains: seq<seq<Entry>>, i: nat, j: nat, itIndex: nat, itEntry: Entry?, cursor: nat)
    requires CursorAt(chains, itIndex, itEntry, cursor) && i < |chains| && j < |chains[i]|
    requires DifferBy(chains, chains[i := Cut(chains[i], j)], i, chains[i][j].key)
    requires forall a, b :: 0 <= a < b < |chains[i]| ==> chains[i][a].key != chains[i][b].key
    requires itEntry != chains[i][j]
    ensures var chains', cursor' := chains[i := Cut(chains[i], j)], MovedCursor(i, j, itIndex, itEntry, cursor);
            && CursorAt(chains', itIndex, itEntry, cursor')
            && PendingKeys(chains', itIndex, itEntry, cursor') == Without(PendingKeys(chains, itIndex, itEntry, cursor), chains[i][j].key)
  {
    var chains', cursor' := chains[i := Cut(chains[i], j)], MovedCursor(i, j, itIndex, itEntry, cursor);
    var key := chains[i][j].key;
    AllKeysDiffer(chains, chains', i, key, itIndex);
    if itEntry != null {
      var a := Keys(chains[itIndex - 1][cursor..]);
      if itIndex - 1 == i {
        CutBehind(chains[i], j, cursor);
      } else {
        SuffixKeys(chains[itIndex - 1], cursor, key);
        WithoutAbsent(a, key);
      }
      WithoutAppend(a, AllKeys(chains[itIndex..]), key);
    } else {
      assert [] + AllKeys(chains[itIndex..]) == AllKeys(chains[itIndex..]);
    }
  }

  /** What is left of a chain from an entry on, after another entry is gone. */
  lemma CutBehind(chain: seq<Entry>, j: nat, cursor: nat)
    requires j < |chain| && cursor < |chain| && cursor != j
    requires forall a, b :: 0 <= a < b < |chain| ==> chain[a].key != chain[b].key
    ensures var cursor' := if j < cursor then cursor - 1 else cursor;
            && cursor' < |Cut(chain, j)| && Cut(chain, j)[cursor'] == chain[cursor]
            && Keys(Cut(chain, j)[cursor'..]) == Without(Keys(chain[cursor..]), chain[j].key)
  {
    var tail := chain[cursor..];
    if cursor < j {
      assert tail[..j - cursor] == chain[cursor..j] && tail[j - cursor + 1..] == chain[j + 1..];
      assert Cut(chain, j)[cursor..] == chain[cursor..j] + chain[j + 1..];
      CutKeys(tail, j - cursor);
    } else {
      assert Cut(chain, j)[cursor - 1..] == tail;
      forall k | 0 <= k < |tail|
        ensures Keys(tail)[k] != chain[j].key
      {
        assert tail[k] == chain[cursor + k];
      }
      WithoutAbsent(Keys(tail), chain[j].key);
    }
  }

  ghost predicate AfterRemove(chains: seq<seq<Entry>>, contents: map<string, string>, cursor: nat, key: string,
                              itIndex: nat, itEntry: Entry?, returned: seq<string>,
                              chains': seq<seq<Entry>>, contents': map<string, string>, cursor': nat) {
    CursorAt(chains, itIndex, itEntry, cursor) ==>
      && (CursorAt(chains', itIndex, itEntry, cursor') <==> !(itEntry != null && itEntry.key == key))
      && (CursorAt(chains', itIndex, itEntry, cursor') ==>
            Happens(IterationAt(chains, contents, itIndex, itEntry, cursor, returned), Event.Remove(key),
                    IterationAt(chains', contents', itIndex, itEntry, cursor', returned)))
  }

  /** Removing the entry the iterator points to, and no other, leaves the iterator dangling. */
  lemma RemoveIteration(chains: seq<seq<Entry>>, contents: map<string, string>, hash: string -> nat, i: nat, j: nat,
                        itIndex: nat, itEntry: Entry?, cursor: nat, returned: seq<string>)
    requires chains != [] && Table(chains, contents, hash) && i < |chains| && j < |chains[i]|
    ensures AfterRemove(chains, contents, cursor, chains[i][j].key, itIndex, itEntry, returned,
                        chains[i := Cut(chains[i], j)], contents - {chains[i][j].key}, MovedCursor(i, j, itIndex, itEntry, cursor))
  {
    TableRemove(chains, contents, hash, i, j);
    MembersAt(chains, |chains|, contents, hash, i);
    if !CursorAt(chains, itIndex, itEntry, cursor) {
    } else if itEntry == null || itEntry.key != chains[i][j].key {
      KeyIsPresent(chains, contents, hash, i, j);
      RemoveKeepsIteration(chains, i, j, itIndex, itEntry, cursor);
      KeysMinus(contents, chains[i][j].key);
    } else {
      SameKeySameEntry(chains, contents, hash, i, j, itIndex - 1, cursor);
      Dangles(chains[i], j);
    }
  }

  lemma KeysMinus(m: map<string, string>, k: string)
    ensures (m - {k}).Keys == m.Keys - {k}
  {
  }

  lemma Dangles(chain: seq<Entry>, j: nat)
    requires j < |chain| && (j + 1 < |chain| ==> chain[j + 1] != chain[j])
    ensures j < |Cut(chain, j)| ==> Cut(chain, j)[j] != chain[j]
  {
  }

  lemma KeyIsPresent(chains: seq<seq<Entry>>, contents: map<string, string>, hash: string -> nat, i: nat, j: nat)
    requires chains != [] && Table(chains, contents, hash) && i < |chains| && j < |chains[i]|
    ensures chains[i][j].key in contents
  {
    MembersAt(chains, |chains|, contents, hash, i);
    assert MemberOk(chains[i][j], contents, hash, |chains|, i);
  }

  lemma SameKeySameEntry(chains: seq<seq<Entry>>, contents: map<string, string>, hash: string -> nat, i: nat, j: nat, n: nat, k: nat)
    requires chains != [] && Table(chains, contents, hash)
    requires i < |chains| && j < |chains[i]| && n < |chains| && k < |chains[n]| && chains[i][j].key == chains[n][k].key
    ensures i == n && j == k
    ensures j + 1 < |chains[i]| ==> chains[i][j + 1] != chains[i][j]
  {
    MembersAt(chains, |chains|, contents, hash, i);
    MembersAt(chains, |chains|, contents, hash, n);
    assert MemberOk(chains[i][j], contents, hash, |chains|, i) && MemberOk(chains[n][k], contents, hash, |chains|, n);
  }

  /** A table lists every key once. */
  lemma {:induction false} ListsOnce(chains: seq<seq<Entry>>, contents: map<string, string>, hash: string -> nat, from: nat)
    requires chains != [] && AllMembers(chains, |chains|, contents, hash) && from <= |chains|
    ensures forall a, b :: 0 <= a < b < |AllKeys(chains[from..])| ==> AllKeys(chains[from..])[a] != AllKeys(chains[from..])[b]
    decreases |chains| - from
  {
    if from < |chains| {
      ListsOnce(chains, contents, hash, from + 1);
      assert chains[from..][1..] == chains[from + 1..];
      MembersAt(chains, |chains|, contents, hash, from);
      var first, rest := Keys(chains[from]), AllKeys(chains[from + 1..]);
      forall a, b | 0 <= a < |first| && 0 <= b < |rest|
        ensures first[a] != rest[b]
      {
        AllKeysContains(chains[from + 1..], rest[b]);
        var n, k :| 0 <= n < |chains[from + 1..]| && 0 <= k < |chains[from + 1..][n]| && chains[from + 1..][n][k].key == rest[b];
        MembersAt(chains, |chains|, contents, hash, from + 1 + n);
        assert MemberOk(chains[from + 1 + n][k], contents, hash, |chains|, from + 1 + n);
        assert MemberOk(chains[from][a], contents, hash, |chains|, from);
      }
    }
  }

  lemma KeysAreListed(chains: seq<seq<Entry>>, contents: map<string, string>, hash: string -> nat, key: string)
    requires chains != [] && Table(chains, contents, hash)
    ensures key in AllKeys(chains) <==> key in contents
  {
    if key in AllKeys(chains) {
      AllKeysContains(chains, key);
      var n, k :| 0 <= n < |chains| && 0 <= k < |chains[n]| && chains[n][k].key == key;
      MembersAt(chains, |chains|, contents, hash, n);
      assert MemberOk(chains[n][k], contents, hash, |chains|, n);
    }
  }

  // ---------------------------------------------------------------- the table

  class StrHash {
    const hash: string -> nat
    const bucket: array<Entry?>
    var length: nat
    var itIndex: nat
    var itEntry: Entry?
    ghost var chains: seq<seq<Entry>>
    ghost var entries: set<Entry>
    ghost var contents: map<string, string>
    ghost var removed: nat            // how often strhash_remove has succeeded
    ghost var cursor: nat             // the place of itEntry in its chain
    ghost var returned: seq<string>   // since the last Start

    ghost function Home(key: string): nat
      requires bucket.Length > 0
    {
      hash(key) % bucket.Length
    }

    /** The chains represent the contents, and length counts these and all removed keys. */
    ghost predicate Valid()
      reads this`length, this`chains, this`entries, this`contents, this`removed, bucket, entries
    {
      Intact() && length == |contents| + removed
    }

    ghost predicate Intact()
      reads this`chains, this`entries, this`contents, bucket, entries
    {
      && 0 < |chains| == bucket.Length
      && Inside(chains, entries)
      && Table(chains, contents, hash)
      && AllLinked(bucket, chains)
    }

    /** The pointers alone, which is what the iterator relies on. */
    ghost predicate Chained()
      reads this`chains, bucket, set i, j | 0 <= i < |chains| && 0 <= j < |chains[i]| :: chains[i][j]
    {
      |chains| == bucket.Length && AllLinked(bucket, chains)
    }

    ghost predicate CursorOk()
      reads this`chains, this`itIndex, this`itEntry, this`cursor
    {
      CursorAt(chains, itIndex, itEntry, cursor)
    }

    /** The iteration since the last Start, as a value. */
    ghost function Iter(): Iteration
      requires CursorOk()
      reads this
    {
      IterationAt(chains, contents, itIndex, itEntry, cursor, returned)
    }

    function Deref(slot: Slot): Entry?
      requires slot.Bucket? ==> slot.i < bucket.Length
      reads bucket, if slot.NextOf? then {slot.e} else {}
    {
      match slot
      case Bucket(i) => bucket[i]
      case NextOf(e) => e.next
    }

    constructor (hash: string -> nat, size: nat)
      requires size > 0
      ensures Valid() && contents == map[] && length == removed == 0
      ensures fresh(bucket) && entries == {}
    {
      this.hash := hash;
      var b := new Entry?[size](_ => null);
      bucket := b;
      length, itIndex, itEntry := 0, 0, null;
      chains := seq(size, _ => []);
      entries, contents, removed, cursor, returned := {}, map[], 0, 0, [];
      new;
      MembersEverywhere(chains, |chains|, contents, hash);
    }

    /** strhash_find: the slot that points to the entry with this key, or the end of its chain */
    method Find(key: string) returns (found: bool, slot: Slot, ghost j: nat)
      requires Valid()
      ensures j <= |chains[Home(key)]| && Points(chains, slot, Home(key), j)
      ensures slot.Bucket? ==> slot.i < bucket.Length
      ensures slot.NextOf? ==> slot.e in entries
      ensures Deref(slot) == (if j < |chains[Home(key)]| then chains[Home(key)][j] else null)
      ensures found <==> j < |chains[Home(key)]|
      ensures found ==> chains[Home(key)][j].key == key
      ensures found <==> key in contents
    {
      var index := hash(key) % bucket.Length;
      ghost var chain := chains[index];
      assert Linked(bucket, index, chain);
      slot, j := Bucket(index), 0;
      while Deref(slot) != null && Deref(slot).key != key
        invariant j <= |chain| && Points(chains, slot, index, j)
        invariant slot.Bucket? ==> slot.i < bucket.Length
        invariant slot.NextOf? ==> slot.e in entries
        invariant Deref(slot) == if j < |chain| then chain[j] else null
        invariant forall k :: 0 <= k < j ==> chain[k].key != key
        decreases |chain| - j
      {
        slot, j := NextOf(Deref(slot)), j + 1;
      }
      found := Deref(slot) != null;
      FoundAtHome(chains, contents, hash, key);
      assert j < |chain| ==> Keys(chain)[j] == key;
    }

    method Exists(key: string) returns (found: bool)
      requires Valid()
      ensures found <==> key in contents
    {
      var slot;
      ghost var j;
      found, slot, j := Find(key);
    }

    /** strhash_lookup; value is unchanged when the key does not exist */
    method Lookup(key: string, value0: string) returns (found: bool, value: string)
      requires Valid()
      ensures found <==> key in contents
      ensures value == if found then contents[key] else value0
    {
      var slot;
      ghost var j;
      found, slot, j := Find(key);
      value := value0;
      if found {
        MembersAt(chains, |chains|, contents, hash, Home(key));
        assert MemberOk(chains[Home(key)][j], contents, hash, |chains|, Home(key));
        value := Deref(slot).value;
      }
    }

    /** The part of strhash_add behind the allocation of the entry. */
    method Insert(slot: Slot, e: Entry, ghost j: nat)
      requires Intact() && e.key !in contents && e !in entries && e.next == null
      requires j == |chains[Home(e.key)]| && Points(chains, slot, Home(e.key), j)
      requires slot.NextOf? ==> slot.e in entries
      modifies this`length, this`chains, this`entries, this`contents, bucket, entries
      ensures Intact() && contents == old(contents)[e.key := e.value] && entries == old(entries) + {e}
      ensures length == old(length) + 1
      ensures chains == old(chains)[Home(e.key) := old(chains)[Home(e.key)] + [e]]
      ensures DifferBy(chains, old(chains), Home(e.key), e.key)
    {
      ghost var index := Home(e.key);
      TableAdd(chains, contents, hash, e);
      InsideAdd(chains, entries, index, e);
      if j > 0 {
        TableKeepsApart(chains, contents, hash, index, j - 1);
      }
      LinkIn(bucket, slot, e, chains, index);
      length := length + 1;
      chains := chains[index := chains[index] + [e]];
      entries := entries + {e};
      contents := contents[e.key := e.value];
    }

    /** strhash_add; memory: malloc succeeds. An iteration goes on behind it. */
    method Add(key: string, value: string, memory: bool) returns (ok: bool)
      requires Valid()
      modifies this`length, this`chains, this`entries, this`contents, bucket, entries
      ensures Valid() && fresh(entries - old(entries))
      ensures ok <==> key !in old(contents) && memory
      ensures contents == if ok then old(contents)[key := value] else old(contents)
      ensures length == if ok then old(length) + 1 else old(length)
      ensures old(CursorOk()) ==> CursorOk()
      ensures old(CursorOk()) ==> if ok then Happens(old(Iter()), Event.Add(key), Iter()) else Iter() == old(Iter())
    {
      var found, slot;
      ghost var j;
      found, slot, j := Find(key);
      if found || !memory {
        return false;
      }
      var e := new Entry(key, value);
      AddEntry(slot, e, j);
      return true;
    }

    /** Inserts the entry; the iterator stands where it stood. */
    method AddEntry(slot: Slot, e: Entry, ghost j: nat)
      requires Valid() && e.key !in contents && e !in entries && e.next == null
      requires j == |chains[Home(e.key)]| && Points(chains, slot, Home(e.key), j)
      requires slot.NextOf? ==> slot.e in entries
      modifies this`length, this`chains, this`entries, this`contents, bucket, entries
      ensures Valid() && contents == old(contents)[e.key := e.value] && entries == old(entries) + {e}
      ensures length == old(length) + 1
      ensures AfterAdd(old(chains), old(contents), e, itIndex, itEntry, cursor, returned, chains)
    {
      AddIteration(chains, contents, hash, e, itIndex, itEntry, cursor, returned);
      OneKeyMore(contents, e.key, e.value);
      Insert(slot, e, j);
    }

    /** The part of strhash_remove behind the search. */
    method Delete(slot: Slot, key: string, ghost j: nat)
      requires Intact() && j < |chains[Home(key)]| && chains[Home(key)][j].key == key
      requires Points(chains, slot, Home(key), j) && Deref(slot) == chains[Home(key)][j]
      requires slot.NextOf? ==> slot.e in entries
      modifies this`chains, this`contents, bucket, entries
      ensures Intact() && contents == old(contents) - {key}
      ensures chains == old(chains)[Home(key) := Cut(old(chains)[Home(key)], j)]
    {
      ghost var index := Home(key);
      var e := Deref(slot);
      TableRemove(chains, contents, hash, index, j);
      InsideCut(chains, entries, index, j);
      if j > 0 {
        TableKeepsApart(chains, contents, hash, index, j - 1);
      }
      Unlink(bucket, slot, e, chains, index, j);
      chains := chains[index := Cut(chains[index], j)];
      contents := contents - {key};
    }

    /** strhash_remove, which leaves length as it is and so counts the key for ever. An iteration goes on behind it exactly if
        the removed entry is not the one that the iterator points to. */
    method Remove(key: string) returns (ok: bool)
      requires Valid()
      modifies this`chains, this`contents, this`removed, this`cursor, bucket, entries
      ensures Valid() && removed == if ok then old(removed) + 1 else old(removed)
      ensures ok <==> key in old(contents)
      ensures contents == old(contents) - {key}
      ensures old(CursorOk()) ==> (CursorOk() <==> !(ok && itEntry != null && itEntry.key == key))
      ensures old(CursorOk()) && CursorOk() ==>
                if ok then Happens(old(Iter()), Event.Remove(key), Iter()) else Iter() == old(Iter())
    {
      var found, slot;
      ghost var j;
      found, slot, j := Find(key);
      if !found {
        return false;
      }
      RemoveEntry(slot, key, j);
      return true;
    }

    method RemoveEntry(slot: Slot, key: string, ghost j: nat)
      requires Valid() && key in contents && j < |chains[Home(key)]| && chains[Home(key)][j].key == key
      requires Points(chains, slot, Home(key), j) && (slot.Bucket? ==> slot.i < bucket.Length)
      requires Deref(slot) == chains[Home(key)][j]
      requires slot.NextOf? ==> slot.e in entries
      modifies this`chains, this`contents, this`removed, this`cursor, bucket, entries
      ensures Valid() && contents == old(contents) - {key} && removed == old(removed) + 1
      ensures AfterRemove(old(chains), old(contents), old(cursor), key, itIndex, itEntry, returned, chains, contents, cursor)
    {
      OneKeyLess(contents, key);
      RemoveAt(slot, key, j);
      removed := removed + 1;
    }

    /** Deletes the entry and keeps track of where the iterator stands. */
    method RemoveAt(slot: Slot, key: string, ghost j: nat)
      requires Intact() && key in contents && j < |chains[Home(key)]| && chains[Home(key)][j].key == key
      requires Points(chains, slot, Home(key), j) && (slot.Bucket? ==> slot.i < bucket.Length)
      requires Deref(slot) == chains[Home(key)][j]
      requires slot.NextOf? ==> slot.e in entries
      modifies this`chains, this`contents, this`cursor, bucket, entries
      ensures Intact() && contents == old(contents) - {key}
      ensures AfterRemove(old(chains), old(contents), old(cursor), key, itIndex, itEntry, returned, chains, contents, cursor)
    {
      RemoveIteration(chains, contents, hash, Home(key), j, itIndex, itEntry, cursor, returned);
      ghost var cursor' := MovedCursor(Home(key), j, itIndex, itEntry, cursor);
      Delete(slot, key, j);
      cursor := cursor';
    }

    method Start()
      requires Valid()
      modifies this`itIndex, this`itEntry, this`returned
      ensures Valid() && CursorOk() && Started(Iter())
    {
      StartsWithAll(chains, contents, hash, cursor);
      itIndex, itEntry := 0, null;
      returned := [];
    }

    /** Skips the empty chains in front of the next entry. */
    method SkipEmpty()
      requires Chained() && CursorOk() && itEntry == null
      modifies this`itIndex
      ensures CursorOk() && Iter() == old(Iter())
      ensures itIndex < |chains| ==> chains[itIndex] != []
    {
      while itIndex < bucket.Length && bucket[itIndex] == null
        invariant CursorOk() && Iter() == old(Iter())
        decreases bucket.Length - itIndex
      {
        assert Linked(bucket, itIndex, chains[itIndex]);
        SkipChain(chains, itIndex, cursor);
        itIndex := itIndex + 1;
      }
      if itIndex < bucket.Length {
        assert Linked(bucket, itIndex, chains[itIndex]);
      }
    }

    /** Enters the next chain that is not empty. */
    method NextChain() returns (found: bool)
      requires Chained() && CursorOk() && itEntry == null
      modifies this`itIndex, this`itEntry, this`cursor
      ensures CursorOk() && Iter() == old(Iter())
      ensures found <==> itEntry != null
      ensures !found ==> itIndex == |chains|
    {
      SkipEmpty();
      if itIndex >= bucket.Length {
        return false;
      }
      assert Linked(bucket, itIndex, chains[itIndex]);
      EnterChain(chains, itIndex);
      itEntry := bucket[itIndex];
      itIndex := itIndex + 1;
      cursor := 0;
      return true;
    }

    /** Returns the key the iterator points to and goes on in the chain. */
    method Advance() returns (key: string)
      requires Chained() && CursorOk() && itEntry != null
      modifies this`itEntry, this`cursor, this`returned
      ensures CursorOk()
      ensures AfterNext(old(Iter()), key, Iter())
    {
      assert Linked(bucket, itIndex - 1, chains[itIndex - 1]);
      StepInChain(chains, contents, itIndex, cursor, returned);
      key := itEntry.key;
      itEntry := itEntry.next;
      cursor := cursor + 1;
      returned := returned + [key];
    }

    /** strhash_next: the next key still to come, or 0 when there is none */
    method Next(key0: string) returns (ok: bool, key: string)
      requires Valid() && CursorOk()
      modifies this`itIndex, this`itEntry, this`cursor, this`returned
      ensures Valid() && CursorOk()
      ensures ok <==> old(Iter()).pending != []
      ensures ok ==> AfterNext(old(Iter()), key, Iter())
      ensures !ok ==> Iter() == old(Iter()) && key == key0
    {
      PointersAreIntact();
      ok, key := NextKey(key0);
    }

    lemma PointersAreIntact()
      requires Intact()
      ensures Chained()
    {
    }

    method NextKey(key0: string) returns (ok: bool, key: string)
      requires Chained() && CursorOk()
      modifies this`itIndex, this`itEntry, this`cursor, this`returned
      ensures CursorOk()
      ensures ok <==> old(Iter()).pending != []
      ensures ok ==> AfterNext(old(Iter()), key, Iter())
      ensures !ok ==> Iter() == old(Iter()) && key == key0
    {
      key := key0;
      ok := true;
      if itEntry == null {
        ok := NextChain();
      }
      if ok {
        key := Advance();
      } else {
        assert chains[itIndex..] == [];
      }
    }
  }

  lemma OneKeyMore(contents: map<string, string>, key: string, value: string)
    requires key !in contents
    ensures |contents[key := value]| == |contents| + 1
  {
    assert contents[key := value].Keys == contents.Keys + {key};
  }

  lemma OneKeyLess(contents: map<string, string>, key: string)
    requires key in contents
    ensures |contents - {key}| == |contents| - 1
  {
    assert (contents - {key}).Keys == contents.Keys - {key};
  }

  lemma StartsWithAll(chains: seq<seq<Entry>>, contents: map<string, string>, hash: string -> nat, cursor: nat)
    requires chains != [] && Table(chains, contents, hash)
    ensures Started(IterationAt(chains, contents, 0, null, cursor, []))
  {
    assert chains[0..] == chains && [] + AllKeys(chains) == AllKeys(chains);
    ListsOnce(chains, contents, hash, 0);
    forall key
      ensures key in AllKeys(chains) <==> key in contents
    {
      KeysAreListed(chains, contents, hash, key);
    }
  }

  lemma SkipChain(chains: seq<seq<Entry>>, itIndex: nat, cursor: nat)
    requires itIndex < |chains| && chains[itIndex] == []
    ensures PendingKeys(chains, itIndex, null, cursor) == PendingKeys(chains, itIndex + 1, null, cursor)
  {
    assert chains[itIndex..][1..] == chains[itIndex + 1..];
    assert Keys([]) + AllKeys(chains[itIndex + 1..]) == AllKeys(chains[itIndex + 1..]);
  }

  lemma EnterChain(chains: seq<seq<Entry>>, itIndex: nat)
    requires itIndex < |chains| && chains[itIndex] != []
    ensures PendingKeys(chains, itIndex, null, 0) == PendingKeys(chains, itIndex + 1, chains[itIndex][0], 0)
  {
    assert chains[itIndex..][1..] == chains[itIndex + 1..] && chains[itIndex][0..] == chains[itIndex];
  }

  ghost predicate AfterNext(it: Iteration, key: string, it': Iteration) {
    it.pending != [] && it.pending[0] == key && Happens(it, Event.Next, it')
  }

  lemma StepInChain(chains: seq<seq<Entry>>, contents: map<string, string>, itIndex: nat, cursor: nat, returned: seq<string>)
    requires 0 < itIndex <= |chains| && cursor < |chains[itIndex - 1]|
    ensures var e, next := chains[itIndex - 1][cursor], After(chains[itIndex - 1], cursor);
            && CursorAt(chains, itIndex, next, cursor + 1)
            && AfterNext(IterationAt(chains, contents, itIndex, e, cursor, returned), e.key,
                         IterationAt(chains, contents, itIndex, next, cursor + 1, returned + [e.key]))
  {
    var chain := chains[itIndex - 1];
    assert Keys(chain[cursor..]) == [chain[cursor].key] + Keys(chain[cursor + 1..]);
    assert ([chain[cursor].key] + Keys(chain[cursor + 1..]) + AllKeys(chains[itIndex..]))[1..]
        == Keys(chain[cursor + 1..]) + AllKeys(chains[itIndex..]);
    assert [] + AllKeys(chains[itIndex..]) == AllKeys(chains[itIndex..]);
  }

  // ---------------------------------------------------------------- strhash_length

  /** strhash_length returns the number of entries exactly as long as no strhash_remove has
      succeeded. */
  lemma LengthIsCountIff(table: StrHash)
    requires table.Valid()
    ensures table.length == |table.contents| <==> table.removed == 0
    ensures table.length >= |table.contents|
  {
  }

  /** An empty table that strhash_length takes for one with an entry. */
  method LengthAfterRemove(hash: string -> nat, size: nat, key: string, value: string) returns (table: StrHash)
    requires size > 0
    ensures table.contents == map[] && table.length == 1
  {
    table := new StrHash(hash, size);
    var added := table.Add(key, value, true);
    var gone := table.Remove(key);
    assert map[key := value] - {key} == map[];
  }

  /** After any calls of strhash_add and strhash_remove on a new table, of which this many of
      the latter have succeeded. */
  method LengthAfterAnyCalls(hash: string -> nat, size: nat, calls: nat) returns (table: StrHash, removals: nat)
    requires size > 0
    ensures table.Valid() && table.length == |table.contents| + removals
    ensures table.length == |table.contents| <==> removals == 0
  {
    table := new StrHash(hash, size);
    removals := 0;
    for i := 0 to calls
      invariant table.Valid() && removals == table.removed
      invariant fresh(table) && fresh(table.bucket) && fresh(table.entries)
    {
      var add: bool, key: string, value: string, memory: bool := *, *, *, *;
      if add {
        var added := table.Add(key, value, memory);
      } else {
        var gone := table.Remove(key);
        if gone {
          removals := removals + 1;
        }
      }
    }
  }

  // ---------------------------------------------------------------- whole iterations

  /** What has happened since strhash_start. */
  datatype History = History(its: seq<Iteration>, events: seq<Event>) {
    ghost predicate Ok() { IsIteration(its, events) }
    function First(): Iteration requires its != [] { its[0] }
    function Last(): Iteration requires its != [] { its[|its| - 1] }
    function Then(e: Event, it: Iteration): History { History(its + [it], events + [e]) }

    ghost predicate Throughout(k: string) { forall j :: 0 <= j < |its| ==> k in its[j].present }
    ghost predicate OnlyNext() { forall j :: 0 <= j < |events| ==> events[j] == Event.Next }
  }

  /** The table has come to its present iteration in this way. */
  ghost predicate Recorded(table: StrHash, h: History)
    reads table
  {
    h.Ok() && table.CursorOk() && h.Last() == table.Iter()
  }

  lemma OneMoreEvent(h: History, e: Event, it: Iteration)
    requires h.Ok() && Happens(h.Last(), e, it)
    ensures h.Then(e, it).Ok()
  {
    assert h.Then(e, it).its[..|h.its|] == h.its && h.Then(e, it).events[..|h.events|] == h.events;
  }

  /** strhash_start */
  method Begin(table: StrHash) returns (ghost h: History)
    requires table.Valid()
    modifies table`itIndex, table`itEntry, table`returned
    ensures table.Valid() && Recorded(table, h) && h.events == []
    ensures h.First() == h.Last() && h.Last().returned == [] && h.Last().present == table.contents.Keys
  {
    table.Start();
    h := History([table.Iter()], []);
  }

  /** strhash_next */
  method GoOn(table: StrHash, ghost h: History) returns (more: bool, key: string, ghost h': History)
    requires table.Valid() && Recorded(table, h)
    modifies table`itIndex, table`itEntry, table`cursor, table`returned
    ensures table.Valid() && Recorded(table, h') && h'.First() == h.First()
    ensures h'.events == if more then h.events + [Event.Next] else h.events
    ensures h'.Last().returned == if more then h.Last().returned + [key] else h.Last().returned
    ensures if more then |h'.Last().pending| < |h.Last().pending| else h'.Last().pending == []
  {
    h' := h;
    more, key := table.Next("");
    if more {
      OneMoreEvent(h, Event.Next, table.Iter());
      h' := h.Then(Event.Next, table.Iter());
    }
  }

  method GoOnToTheEnd(table: StrHash, ghost h: History) returns (keys: seq<string>, ghost h': History)
    requires table.Valid() && Recorded(table, h) && h.OnlyNext() && h.Last().returned == []
    modifies table`itIndex, table`itEntry, table`cursor, table`returned
    ensures table.Valid() && Recorded(table, h') && h'.First() == h.First() && h'.OnlyNext()
    ensures keys == h'.Last().returned && h'.Last().pending == []
  {
    keys, h' := [], h;
    var more := true;
    while more
      invariant table.Valid() && Recorded(table, h') && h'.First() == h.First() && h'.OnlyNext()
      invariant keys == h'.Last().returned && (!more ==> h'.Last().pending == [])
      decreases more, |h'.Last().pending|
    {
      var key;
      more, key, h' := GoOn(table, h');
      keys := if more then keys + [key] else keys;
    }
  }

  /** The iteration of an unmodified table ends and returns its keys, each once. */
  method Enumerate(table: StrHash) returns (keys: seq<string>)
    requires table.Valid()
    modifies table`itIndex, table`itEntry, table`cursor, table`returned
    ensures table.Valid()
    ensures forall k :: k in keys <==> k in table.contents
    ensures forall i, j :: 0 <= i < j < |keys| ==> keys[i] != keys[j]
  {
    ghost var h := Begin(table);
    keys, h := GoOnToTheEnd(table, h);
    UnmodifiedEnumerates(h.its, h.events, |h.its| - 1);
  }

  /** strhash_add with any arguments */
  method AddAny(table: StrHash, ghost h: History) returns (ghost h': History)
    requires table.Valid() && Recorded(table, h)
    modifies table`length, table`chains, table`entries, table`contents, table.bucket, table.entries
    ensures table.Valid() && Recorded(table, h') && fresh(table.entries - old(table.entries))
    ensures h'.First() == h.First() && h'.Last().returned == h.Last().returned
  {
    h' := h;
    var key: string, value: string, memory: bool := *, *, *;
    var ok := table.Add(key, value, memory);
    if ok {
      OneMoreEvent(h, Event.Add(key), table.Iter());
      h' := h.Then(Event.Add(key), table.Iter());
    }
  }

  /** strhash_remove of any key but the one that comes next */
  method RemoveAny(table: StrHash, ghost h: History) returns (ghost h': History)
    requires table.Valid() && Recorded(table, h)
    modifies table`chains, table`contents, table`removed, table`cursor, table.bucket, table.entries
    ensures table.Valid() && Recorded(table, h')
    ensures h'.First() == h.First() && h'.Last().returned == h.Last().returned
  {
    h' := h;
    var key: string := *;
    if table.itEntry == null || table.itEntry.key != key {
      var ok := table.Remove(key);
      if ok {
        OneMoreEvent(h, Event.Remove(key), table.Iter());
        h' := h.Then(Event.Remove(key), table.Iter());
      }
    }
  }

  method ChangeOrGoOn(table: StrHash, keys: seq<string>, ghost h: History)
    returns (keys': seq<string>, ended: bool, ghost h': History)
    requires table.Valid() && Recorded(table, h) && keys == h.Last().returned
    modifies table, table.bucket, table.entries
    ensures table.Valid() && Recorded(table, h') && fresh(table.entries - old(table.entries))
    ensures h'.First() == h.First() && keys' == h'.Last().returned && (ended ==> h'.Last().pending == [])
  {
    var add: bool, remove: bool := *, *;
    keys', ended := keys, false;
    if add {
      h' := AddAny(table, h);
    } else if remove {
      h' := RemoveAny(table, h);
    } else {
      var more, key;
      more, key, h' := GoOn(table, h);
      keys', ended := if more then keys + [key] else keys, !more;
    }
  }

  /** Any changes between the calls of strhash_next, in at most so many steps. */
  method ChangeAndGoOn(table: StrHash, steps: nat, ghost h: History)
    returns (keys: seq<string>, ended: bool, ghost h': History)
    requires table.Valid() && Recorded(table, h) && h.Last().returned == []
    modifies table, table.bucket, table.entries
    ensures table.Valid() && Recorded(table, h') && h'.First() == h.First()
    ensures keys == h'.Last().returned && (ended ==> h'.Last().pending == [])
  {
    keys, ended, h' := [], false, h;
    var left := steps;
    while left > 0 && !ended
      invariant table.Valid() && Recorded(table, h') && fresh(table.entries - old(table.entries))
      invariant h'.First() == h.First() && keys == h'.Last().returned && (ended ==> h'.Last().pending == [])
    {
      left := left - 1;
      keys, ended, h' := ChangeOrGoOn(table, keys, h');
    }
  }

  /** When an iteration with any changes between the calls of strhash_next has come to its end,
      every key that was present throughout has been returned exactly once. */
  method IterateWhileChanging(table: StrHash, steps: nat) returns (keys: seq<string>, ended: bool, ghost h: History)
    requires table.Valid()
    modifies table, table.bucket, table.entries
    ensures table.Valid() && Recorded(table, h)
    ensures h.First().present == old(table.contents).Keys
    ensures ended ==> forall k :: h.Throughout(k) ==> multiset(keys)[k] == 1
  {
    h := Begin(table);
    keys, ended, h := ChangeAndGoOn(table, steps, h);
    if ended {
      forall k | h.Throughout(k)
        ensures multiset(keys)[k] == 1
      {
        ReturnedExactlyOnce(h.its, h.events, |h.its| - 1, k);
      }
    }
  }
}
