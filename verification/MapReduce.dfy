/** What a MapReduce job computes: sequentially in one place, or split into
    buckets by a hash of the key, sorted and grouped bucket by bucket. */
module MapReduce {

  datatype KV = KV(key: string, value: string)

  datatype Line = Line(key: string, out: string)

  type Reduce = (string, seq<string>) -> string

  // The reduce function does not look at the order of its values.
  ghost predicate Unordered(f: Reduce) {
    forall k, xs, ys :: multiset(xs) == multiset(ys) ==> f(k, xs) == f(k, ys)
  }

  // ----- the order of keys

  predicate Less(a: string, b: string) {
    b != "" && (a == "" || a[0] < b[0] || (a[0] == b[0] && Less(a[1..], b[1..])))
  }

  lemma {:induction false} LessTotal(a: string, b: string)
    ensures a == b || Less(a, b) || Less(b, a)
  {
    if a != "" && b != "" && a[0] == b[0] {
      LessTotal(a[1..], b[1..]);
      assert a == [a[0]] + a[1..] && b == [b[0]] + b[1..];
    }
  }

  lemma {:induction false} LessStrict(a: string, b: string)
    requires Less(a, b)
    ensures !Less(b, a) && a != b
  {
    if a != "" && a[0] == b[0] { LessStrict(a[1..], b[1..]); }
  }

  lemma {:induction false} LessTransitive(a: string, b: string, c: string)
    requires Less(a, b) && Less(b, c)
    ensures Less(a, c)
  {
    if a != "" && a[0] == b[0] == c[0] { LessTransitive(a[1..], b[1..], c[1..]); }
  }

  ghost predicate Sorted(s: seq<KV>) {
    forall i, j :: 0 <= i < j < |s| ==> s[i].key == s[j].key || Less(s[i].key, s[j].key)
  }

  // ----- the values of a key

  function Values(pairs: seq<KV>, k: string): seq<string> {
    if pairs == [] then []
    else Values(pairs[..|pairs| - 1], k) +
         if pairs[|pairs| - 1].key == k then [pairs[|pairs| - 1].value] else []
  }

  ghost predicate HasKey(pairs: seq<KV>, k: string) {
    exists i :: 0 <= i < |pairs| && pairs[i].key == k
  }

  lemma HasKeySnoc(pairs: seq<KV>, x: KV, k: string)
    ensures HasKey(pairs + [x], k) <==> HasKey(pairs, k) || x.key == k
  {
    var longer := pairs + [x];
    if i :| 0 <= i < |pairs| && pairs[i].key == k { assert longer[i].key == k; }
    if x.key == k { assert longer[|pairs|].key == k; }
    if i :| 0 <= i < |longer| && longer[i].key == k { assert i == |pairs| || pairs[i].key == k; }
  }

  lemma {:induction false} ValuesConcat(a: seq<KV>, b: seq<KV>, k: string)
    ensures Values(a + b, k) == Values(a, k) + Values(b, k)
  {
    if b == [] {
      assert a + b == a;
    } else {
      assert (a + b)[..|a + b| - 1] == a + b[..|b| - 1];
      ValuesConcat(a, b[..|b| - 1], k);
    }
  }

  lemma {:induction false} ValuesNone(pairs: seq<KV>, k: string)
    requires !HasKey(pairs, k)
    ensures Values(pairs, k) == []
  {
    if pairs != [] {
      assert pairs == pairs[..|pairs| - 1] + [pairs[|pairs| - 1]];
      HasKeySnoc(pairs[..|pairs| - 1], pairs[|pairs| - 1], k);
      ValuesNone(pairs[..|pairs| - 1], k);
    }
  }

  // How often a value occurs among a key's values is how often the pair occurs.
  lemma {:induction false} ValuesCount(pairs: seq<KV>, k: string, v: string)
    ensures multiset(Values(pairs, k))[v] == multiset(pairs)[KV(k, v)]
  {
    if pairs != [] {
      ValuesCount(pairs[..|pairs| - 1], k, v);
      assert pairs == pairs[..|pairs| - 1] + [pairs[|pairs| - 1]];
    }
  }

  lemma ValuesPermuted(a: seq<KV>, b: seq<KV>, k: string)
    requires multiset(a) == multiset(b)
    ensures multiset(Values(a, k)) == multiset(Values(b, k))
    ensures HasKey(a, k) <==> HasKey(b, k)
  {
    forall v ensures multiset(Values(a, k))[v] == multiset(Values(b, k))[v] {
      ValuesCount(a, k, v);
      ValuesCount(b, k, v);
    }
    if i :| 0 <= i < |a| && a[i].key == k { assert a[i] in multiset(b); }
    if i :| 0 <= i < |b| && b[i].key == k { assert b[i] in multiset(a); }
  }

  // ----- grouped output

  // One line for each key, in order, reduced from all the key's values.
  ghost predicate Grouped(pairs: seq<KV>, f: Reduce, lines: seq<Line>) {
    && (forall p, q :: 0 <= p < q < |lines| ==> Less(lines[p].key, lines[q].key))
    && (forall p :: 0 <= p < |lines| ==>
          HasKey(pairs, lines[p].key) && lines[p].out == f(lines[p].key, Values(pairs, lines[p].key)))
    && (forall k :: HasKey(pairs, k) ==> exists p :: 0 <= p < |lines| && lines[p].key == k)
  }

  // The output of sorting these pairs, in any order that keys allow, and grouping.
  ghost predicate Reduced(pairs: seq<KV>, f: Reduce, lines: seq<Line>) {
    exists s :: Sorted(s) && multiset(s) == multiset(pairs) && Grouped(s, f, lines)
  }

  method SortByKey(pairs: seq<KV>) returns (s: seq<KV>)
    ensures Sorted(s) && multiset(s) == multiset(pairs)
  {
    s := [];
    for i := 0 to |pairs|
      invariant Sorted(s) && multiset(s) == multiset(pairs[..i])
    {
      var k := |s|;
      while k > 0 && Less(pairs[i].key, s[k - 1].key)
        invariant 0 <= k <= |s|
        invariant forall j :: k <= j < |s| ==> Less(pairs[i].key, s[j].key)
      {
        k := k - 1;
      }
      InsertSorted(s, k, pairs[i]);
      assert s == s[..k] + s[k..] && pairs[..i + 1] == pairs[..i] + [pairs[i]];
      s := s[..k] + [pairs[i]] + s[k..];
    }
    assert pairs[..|pairs|] == pairs;
  }

  lemma InsertSorted(s: seq<KV>, k: nat, x: KV)
    requires Sorted(s) && k <= |s| && (forall j :: k <= j < |s| ==> Less(x.key, s[j].key))
    requires k > 0 ==> !Less(x.key, s[k - 1].key)
    ensures Sorted(s[..k] + [x] + s[k..])
  {
    var r := s[..k] + [x] + s[k..];
    forall i | 0 <= i < k ensures s[i].key == x.key || Less(s[i].key, x.key) {
      LessTotal(s[k - 1].key, x.key);
      if i < k - 1 && Less(s[i].key, s[k - 1].key) && Less(s[k - 1].key, x.key) {
        LessTransitive(s[i].key, s[k - 1].key, x.key);
      }
    }
  }

  // Appending a block of one new key changes nothing for the keys before it.
  lemma OldKey(a: seq<KV>, b: seq<KV>, k: string, x: string)
    requires x != k && forall m :: 0 <= m < |b| ==> b[m].key == k
    ensures Values(a + b, x) == Values(a, x) && (HasKey(a + b, x) <==> HasKey(a, x))
  {
    ValuesConcat(a, b, x);
    ValuesNone(b, x);
    if m :| 0 <= m < |a| && a[m].key == x { assert (a + b)[m].key == x; }
    if m :| 0 <= m < |a + b| && (a + b)[m].key == x { assert m < |a| && a[m].key == x; }
  }

  // A block of one key, above all keys before it, adds one line.
  lemma GroupBlock(a: seq<KV>, b: seq<KV>, k: string, f: Reduce, lines: seq<Line>)
    requires Grouped(a, f, lines) && b != [] && forall m :: 0 <= m < |b| ==> b[m].key == k
    requires forall m :: 0 <= m < |a| ==> Less(a[m].key, k)
    ensures Grouped(a + b, f, lines + [Line(k, f(k, Values(b, k)))])
  {
    var lines' := lines + [Line(k, f(k, Values(b, k)))];
    forall m | 0 <= m < |a| ensures a[m].key != k { LessStrict(a[m].key, k); }
    ValuesConcat(a, b, k);
    ValuesNone(a, k);
    assert (a + b)[|a|].key == k;
    assert HasKey(a + b, k) && Values(a + b, k) == Values(b, k);
    forall p | 0 <= p < |lines| ensures Less(lines[p].key, k) && HasKey(a + b, lines[p].key)
      ensures Values(a + b, lines[p].key) == Values(a, lines[p].key)
    {
      assert HasKey(a, lines[p].key);
      OldKey(a, b, k, lines[p].key);
    }
    forall x | HasKey(a + b, x) ensures exists p :: 0 <= p < |lines'| && lines'[p].key == x {
      if x == k {
        assert lines'[|lines|].key == x;
      } else {
        OldKey(a, b, k, x);
        var p :| 0 <= p < |lines| && lines[p].key == x;
        assert lines'[p].key == x;
      }
    }
  }

  method GroupLines(s: seq<KV>, f: Reduce) returns (lines: seq<Line>)
    requires Sorted(s)
    ensures Grouped(s, f, lines)
  {
    lines := [];
    var i := 0;
    while i < |s|
      invariant 0 <= i <= |s| && Grouped(s[..i], f, lines)
      invariant i < |s| ==> forall m :: 0 <= m < i ==> Less(s[m].key, s[i].key)
    {
      var j := i + 1;
      while j < |s| && s[j].key == s[i].key
        invariant i < j <= |s| && forall m :: i <= m < j ==> s[m].key == s[i].key
      {
        j := j + 1;
      }
      var values := [];
      for k := i to j
        invariant values == Values(s[i..k], s[i].key)
      {
        assert s[i..k + 1][..|s[i..k + 1]| - 1] == s[i..k];
        values := values + [s[k].value];
      }
      GroupBlock(s[..i], s[i..j], s[i].key, f, lines);
      assert s[..j] == s[..i] + s[i..j];
      if j < |s| {
        forall m | 0 <= m < j ensures Less(s[m].key, s[j].key) {
          if m < i { LessTransitive(s[m].key, s[i].key, s[j].key); }
        }
      }
      lines := lines + [Line(s[i].key, f(s[i].key, values))];
      i := j;
    }
    assert s[..|s|] == s;
  }

  // ----- the two programs

  type Map = (string, string) -> seq<KV>

  datatype File = File(name: string, content: string)

  function MapAll(files: seq<File>, mapf: Map): seq<KV> {
    if files == [] then []
    else MapAll(files[..|files| - 1], mapf) + mapf(files[|files| - 1].name, files[|files| - 1].content)
  }

  // The pairs that go to reduce task r.
  function Bucket(pairs: seq<KV>, hash: string -> nat, n: nat, r: nat): seq<KV>
    requires n > 0
  {
    if pairs == [] then []
    else Bucket(pairs[..|pairs| - 1], hash, n, r) +
         if hash(pairs[|pairs| - 1].key) % n == r then [pairs[|pairs| - 1]] else []
  }

  function Concat(inputs: seq<seq<KV>>): seq<KV> {
    if inputs == [] then [] else Concat(inputs[..|inputs| - 1]) + inputs[|inputs| - 1]
  }

  method Sequential(files: seq<File>, mapf: Map, f: Reduce) returns (lines: seq<Line>)
    ensures Reduced(MapAll(files, mapf), f, lines)
  {
    var intermediate := [];
    for i := 0 to |files|
      invariant intermediate == MapAll(files[..i], mapf)
    {
      assert files[..i + 1][..i] == files[..i];
      intermediate := intermediate + mapf(files[i].name, files[i].content);
    }
    assert files[..|files|] == files;
    var s := SortByKey(intermediate);
    lines := GroupLines(s, f);
  }

  method MapTask(file: File, mapf: Map, hash: string -> nat, n: nat) returns (buckets: seq<seq<KV>>)
    requires n > 0
    ensures |buckets| == n
    ensures forall r :: 0 <= r < n ==> buckets[r] == Bucket(mapf(file.name, file.content), hash, n, r)
  {
    var intermediate := mapf(file.name, file.content);
    buckets := seq(n, _ => []);
    for i := 0 to |intermediate|
      invariant |buckets| == n
      invariant forall r :: 0 <= r < n ==> buckets[r] == Bucket(intermediate[..i], hash, n, r)
    {
      var h := hash(intermediate[i].key) % n;
      assert intermediate[..i + 1][..i] == intermediate[..i];
      buckets := buckets[h := buckets[h] + [intermediate[i]]];
    }
    assert intermediate[..|intermediate|] == intermediate;
  }

  method ReduceTask(inputs: seq<seq<KV>>, f: Reduce) returns (lines: seq<Line>)
    ensures Reduced(Concat(inputs), f, lines)
  {
    var intermediate := [];
    for i := 0 to |inputs|
      invariant intermediate == Concat(inputs[..i])
    {
      assert inputs[..i + 1][..i] == inputs[..i];
      intermediate := intermediate + inputs[i];
    }
    assert inputs[..|inputs|] == inputs;
    var s := SortByKey(intermediate);
    lines := GroupLines(s, f);
  }

  // ----- they mean the same

  lemma {:induction false} BucketConcat(a: seq<KV>, b: seq<KV>, hash: string -> nat, n: nat, r: nat)
    requires n > 0
    ensures Bucket(a + b, hash, n, r) == Bucket(a, hash, n, r) + Bucket(b, hash, n, r)
  {
    if b == [] {
      assert a + b == a;
    } else {
      assert (a + b)[..|a + b| - 1] == a + b[..|b| - 1];
      BucketConcat(a, b[..|b| - 1], hash, n, r);
    }
  }

  // The inputs of reduce task r: its bucket of every file, in file order.
  ghost predicate Inputs(files: seq<File>, mapf: Map, hash: string -> nat, n: nat, r: nat, inputs: seq<seq<KV>>)
    requires n > 0
  {
    && |inputs| == |files|
    && forall i :: 0 <= i < |files| ==> inputs[i] == Bucket(mapf(files[i].name, files[i].content), hash, n, r)
  }

  // Splitting file by file and then collecting a bucket loses and reorders nothing.
  lemma {:induction false} ReadsItsBucket(files: seq<File>, mapf: Map, hash: string -> nat, n: nat, r: nat,
                                          inputs: seq<seq<KV>>)
    requires n > 0 && Inputs(files, mapf, hash, n, r, inputs)
    ensures Concat(inputs) == Bucket(MapAll(files, mapf), hash, n, r)
  {
    if files != [] {
      var last := files[|files| - 1];
      ReadsItsBucket(files[..|files| - 1], mapf, hash, n, r, inputs[..|files| - 1]);
      BucketConcat(MapAll(files[..|files| - 1], mapf), mapf(last.name, last.content), hash, n, r);
    }
  }

  // A bucket has all the values of its own keys and none of any other key.
  lemma {:induction false} BucketValues(pairs: seq<KV>, hash: string -> nat, n: nat, r: nat, k: string)
    requires n > 0
    ensures Values(Bucket(pairs, hash, n, r), k) == if hash(k) % n == r then Values(pairs, k) else []
    ensures HasKey(Bucket(pairs, hash, n, r), k) <==> hash(k) % n == r && HasKey(pairs, k)
  {
    if pairs != [] {
      var init, last := pairs[..|pairs| - 1], pairs[|pairs| - 1];
      var b := Bucket(init, hash, n, r);
      BucketValues(init, hash, n, r, k);
      assert pairs == init + [last];
      HasKeySnoc(init, last, k);
      if hash(last.key) % n == r {
        HasKeySnoc(b, last, k);
        assert (b + [last])[..|b|] == b;
      } else {
        assert Bucket(pairs, hash, n, r) == b;
      }
    }
  }

  // These lines are the whole reduction of pairs for the keys in keys, each once.
  ghost predicate Covers(lines: seq<Line>, pairs: seq<KV>, f: Reduce, keys: iset<string>) {
    && (forall p, q :: 0 <= p < q < |lines| ==> lines[p].key != lines[q].key)
    && (forall p :: 0 <= p < |lines| ==> lines[p].key in keys && lines[p] == LineFor(pairs, f, lines[p].key))
    && (forall k :: k in keys ==> LineFor(pairs, f, k) in lines)
  }

  function LineFor(pairs: seq<KV>, f: Reduce, k: string): Line { Line(k, f(k, Values(pairs, k))) }

  // The keys of the first r buckets.
  ghost function KeysBelow(pairs: seq<KV>, hash: string -> nat, n: nat, r: nat): iset<string>
    requires n > 0
  {
    iset k | HasKey(pairs, k) && hash(k) % n < r
  }

  lemma ReducedCovers(pairs: seq<KV>, f: Reduce, lines: seq<Line>)
    requires Unordered(f) && Reduced(pairs, f, lines)
    ensures Covers(lines, pairs, f, iset k | HasKey(pairs, k))
  {
    var s :| Sorted(s) && multiset(s) == multiset(pairs) && Grouped(s, f, lines);
    forall k ensures (HasKey(s, k) <==> HasKey(pairs, k)) && f(k, Values(s, k)) == f(k, Values(pairs, k)) {
      ValuesPermuted(s, pairs, k);
    }
    forall p, q | 0 <= p < q < |lines| ensures lines[p].key != lines[q].key {
      LessStrict(lines[p].key, lines[q].key);
    }
    forall k | HasKey(pairs, k) ensures LineFor(pairs, f, k) in lines {
      var p :| 0 <= p < |lines| && lines[p].key == k;
      assert lines[p] == LineFor(pairs, f, k);
    }
  }

  lemma BucketCovers(pairs: seq<KV>, hash: string -> nat, n: nat, r: nat, f: Reduce, lines: seq<Line>)
    requires n > 0 && Unordered(f) && Reduced(Bucket(pairs, hash, n, r), f, lines)
    ensures Covers(lines, pairs, f, iset k | HasKey(pairs, k) && hash(k) % n == r)
  {
    ReducedCovers(Bucket(pairs, hash, n, r), f, lines);
    forall k ensures HasKey(Bucket(pairs, hash, n, r), k) <==> hash(k) % n == r && HasKey(pairs, k)
             ensures hash(k) % n == r ==> Values(Bucket(pairs, hash, n, r), k) == Values(pairs, k)
    {
      BucketValues(pairs, hash, n, r, k);
    }
    forall k | HasKey(pairs, k) && hash(k) % n == r ensures LineFor(pairs, f, k) in lines {
      assert LineFor(Bucket(pairs, hash, n, r), f, k) == LineFor(pairs, f, k);
    }
  }

  lemma CoversJoin(a: seq<Line>, ka: iset<string>, b: seq<Line>, kb: iset<string>, pairs: seq<KV>, f: Reduce)
    requires Covers(a, pairs, f, ka) && Covers(b, pairs, f, kb) && ka !! kb
    ensures Covers(a + b, pairs, f, ka + kb)
  {
  }

  function Flatten(outs: seq<seq<Line>>): seq<Line> {
    if outs == [] then [] else Flatten(outs[..|outs| - 1]) + outs[|outs| - 1]
  }

  lemma {:induction false} AllCover(pairs: seq<KV>, hash: string -> nat, n: nat, f: Reduce, outs: seq<seq<Line>>)
    requires n > 0 && Unordered(f)
    requires forall r :: 0 <= r < |outs| ==> Reduced(Bucket(pairs, hash, n, r), f, outs[r])
    ensures Covers(Flatten(outs), pairs, f, KeysBelow(pairs, hash, n, |outs|))
  {
    if outs != [] {
      var r := |outs| - 1;
      AllCover(pairs, hash, n, f, outs[..r]);
      BucketCovers(pairs, hash, n, r, f, outs[r]);
      var mine := iset k | HasKey(pairs, k) && hash(k) % n == r;
      CoversJoin(Flatten(outs[..r]), KeysBelow(pairs, hash, n, r), outs[r], mine, pairs, f);
      assert KeysBelow(pairs, hash, n, r) + mine == KeysBelow(pairs, hash, n, |outs|);
    }
  }

  lemma {:induction false} DistinctCount(lines: seq<Line>, l: Line)
    requires forall p, q :: 0 <= p < q < |lines| ==> lines[p].key != lines[q].key
    ensures multiset(lines)[l] == if l in lines then 1 else 0
  {
    if lines != [] {
      var init, last := lines[..|lines| - 1], lines[|lines| - 1];
      assert lines == init + [last];
      DistinctCount(init, l);
      assert forall p :: 0 <= p < |init| ==> init[p] == lines[p] && init[p].key != last.key;
    }
  }

  lemma CoversUnique(a: seq<Line>, b: seq<Line>, pairs: seq<KV>, f: Reduce, keys: iset<string>)
    requires Covers(a, pairs, f, keys) && Covers(b, pairs, f, keys)
    ensures multiset(a) == multiset(b)
  {
    forall l ensures multiset(a)[l] == multiset(b)[l] {
      DistinctCount(a, l);
      DistinctCount(b, l);
      assert l in a <==> l.key in keys && l == LineFor(pairs, f, l.key);
      assert l in b <==> l.key in keys && l == LineFor(pairs, f, l.key);
    }
  }

  // The reduce tasks' outputs together are a permutation of the sequential
  // output, and reduce each key once, from all its values.
  lemma SameMeaning(files: seq<File>, mapf: Map, hash: string -> nat, n: nat, f: Reduce,
                    lines: seq<Line>, inputs: seq<seq<seq<KV>>>, outs: seq<seq<Line>>)
    requires n > 0 && Unordered(f) && |outs| == |inputs| == n
    requires Reduced(MapAll(files, mapf), f, lines)
    requires forall r :: 0 <= r < n ==>
               Inputs(files, mapf, hash, n, r, inputs[r]) && Reduced(Concat(inputs[r]), f, outs[r])
    ensures multiset(Flatten(outs)) == multiset(lines)
    ensures Covers(Flatten(outs), MapAll(files, mapf), f, iset k | HasKey(MapAll(files, mapf), k))
  {
    var pairs := MapAll(files, mapf);
    forall r | 0 <= r < n ensures Reduced(Bucket(pairs, hash, n, r), f, outs[r]) {
      ReadsItsBucket(files, mapf, hash, n, r, inputs[r]);
    }
    AllCover(pairs, hash, n, f, outs);
    assert KeysBelow(pairs, hash, n, n) == iset k | HasKey(pairs, k);
    ReducedCovers(pairs, f, lines);
    CoversUnique(Flatten(outs), lines, pairs, f, iset k | HasKey(pairs, k));
  }

  // ----- and only for such reduce functions

  function Pairs(k: string, xs: seq<string>): seq<KV> { seq(|xs|, i requires 0 <= i < |xs| => KV(k, xs[i])) }

  lemma {:induction false} PairsValues(k: string, xs: seq<string>)
    ensures Values(Pairs(k, xs), k) == xs
  {
    if xs != [] {
      var init := xs[..|xs| - 1];
      PairsValues(k, init);
      assert Pairs(k, xs)[..|xs| - 1] == Pairs(k, init);
      assert xs == init + [xs[|xs| - 1]];
    }
  }

  lemma {:induction false} PairsCount(k: string, xs: seq<string>, p: KV)
    ensures multiset(Pairs(k, xs))[p] == if p.key == k then multiset(xs)[p.value] else 0
  {
    if xs != [] {
      var init := xs[..|xs| - 1];
      PairsCount(k, init, p);
      assert Pairs(k, xs) == Pairs(k, init) + [KV(k, xs[|xs| - 1])];
      assert xs == init + [xs[|xs| - 1]];
    }
  }

  // All the values of one key, sorted by key, may come in any order.
  lemma OneKey(k: string, xs: seq<string>, ys: seq<string>, f: Reduce)
    requires multiset(xs) == multiset(ys) && xs != []
    ensures Reduced(Pairs(k, xs), f, [Line(k, f(k, ys))])
  {
    var s, lines := Pairs(k, ys), [Line(k, f(k, ys))];
    forall p ensures multiset(s)[p] == multiset(Pairs(k, xs))[p] {
      PairsCount(k, xs, p);
      PairsCount(k, ys, p);
    }
    PairsValues(k, ys);
    assert |xs| == |multiset(xs)| == |ys|;
    assert s[0].key == k && lines[0].key == k;
    assert Sorted(s) && Grouped(s, f, lines);
  }

  // Sorting is not stable, so the output is determined by the input exactly
  // when the reduce function ignores the order of its values.
  lemma DeterminedIffUnordered(f: Reduce)
    ensures Unordered(f) <==>
            (forall pairs, a, b :: Reduced(pairs, f, a) && Reduced(pairs, f, b) ==> multiset(a) == multiset(b))
  {
    if Unordered(f) {
      forall pairs, a, b | Reduced(pairs, f, a) && Reduced(pairs, f, b) ensures multiset(a) == multiset(b) {
        ReducedCovers(pairs, f, a);
        ReducedCovers(pairs, f, b);
        CoversUnique(a, b, pairs, f, iset k | HasKey(pairs, k));
      }
    } else {
      var k, xs, ys :| multiset(xs) == multiset(ys) && f(k, xs) != f(k, ys);
      TwoOutputs(f, k, xs, ys);
    }
  }

  lemma TwoOutputs(f: Reduce, k: string, xs: seq<string>, ys: seq<string>)
    requires multiset(xs) == multiset(ys) && f(k, xs) != f(k, ys)
    ensures exists pairs, a, b :: Reduced(pairs, f, a) && Reduced(pairs, f, b) && multiset(a) != multiset(b)
  {
    assert |xs| == |multiset(xs)| == |multiset(ys)| == |ys|;
    assert |xs| == 0 ==> xs == ys;
    OneKey(k, xs, xs, f);
    OneKey(k, xs, ys, f);
    var a, b := [Line(k, f(k, xs))], [Line(k, f(k, ys))];
    assert multiset(a)[a[0]] == 1 && multiset(b)[a[0]] == 0;
    assert Reduced(Pairs(k, xs), f, a) && Reduced(Pairs(k, xs), f, b) && multiset(a) != multiset(b);
  }
}
