/** The case-insensitive functors that key the proxy and handler maps, and a hash table that uses them. */
module CaseInsensitive {
  import opened Wrappers

  /** `std::toupper`, which depends on the locale. */
  type ToUpper = char -> int

  /** `std::hash<size_t>` on the converted result of `toupper`; `size_t` has 64 bits. */
  type Hasher = int -> bv64

  /** A name as the functors see it. */
  function Upper(up: ToUpper, s: string): (r: seq<int>)
    ensures |r| == |s| && forall i | 0 <= i < |s| :: r[i] == up(s[i])
  {
    seq(|s|, i requires 0 <= i < |s| => up(s[i]))
  }

  /** What mixing in one character does to the hash; addition, shifts and exclusive or are those of `size_t`. */
  function Mix(hash: bv64, h: bv64): bv64 {
    hash ^ (h + (hash << 5) + (hash >> 2))
  }

  function HashOf(hasher: Hasher, upper: seq<int>): bv64 {
    if upper == [] then 0 else Mix(HashOf(hasher, upper[..|upper| - 1]), hasher(upper[|upper| - 1]))
  }

  /** `case_insensitive_equals` (17-33): it holds exactly for names with the same upper case. */
  method Equals(up: ToUpper, s1: string, s2: string) returns (same: bool)
    ensures same <==> Upper(up, s1) == Upper(up, s2)
  {
    if |s1| != |s2| {
      assert |Upper(up, s1)| != |Upper(up, s2)|;
      return false;
    }
    for i := 0 to |s1|
      invariant forall j | 0 <= j < i :: up(s1[j]) == up(s2[j])
    {
      if up(s1[i]) != up(s2[i]) {
        assert Upper(up, s1)[i] != Upper(up, s2)[i];
        return false;
      }
    }
    return true;
  }

  /** `case_insensitive_hash` (38-48): a function of the upper-cased name alone. */
  method Hash(up: ToUpper, hasher: Hasher, s: string) returns (hash: bv64)
    ensures hash == HashOf(hasher, Upper(up, s))
  {
    hash := 0;
    for i := 0 to |s|
      invariant hash == HashOf(hasher, Upper(up, s)[..i])
    {
      assert Upper(up, s)[..i + 1][..i] == Upper(up, s)[..i];
      hash := Mix(hash, hasher(up(s[i])));
    }
    assert Upper(up, s)[..|s|] == Upper(up, s);
  }

  /** The two functors fit together: names that compare equal hash alike, and comparing equal is an equivalence. */
  method FunctorsAgree(up: ToUpper, hasher: Hasher, a: string, b: string, c: string)
    returns (ab: bool, ba: bool, bc: bool, ac: bool, aa: bool, ha: bv64, hb: bv64)
    ensures aa && ab == ba && (ab && bc ==> ac) && (ab ==> ha == hb)
  {
    ab := Equals(up, a, b);
    ba := Equals(up, b, a);
    bc := Equals(up, b, c);
    ac := Equals(up, a, c);
    aa := Equals(up, a, a);
    ha := Hash(up, hasher, a);
    hb := Hash(up, hasher, b);
  }

  // ---- A hash table with these functors ----

  datatype Entry<V> = Entry(key: string, value: V)

  type Table<V> = seq<seq<Entry<V>>>

  function Slot(hasher: Hasher, upper: seq<int>, size: nat): (i: nat)
    requires 0 < size
    ensures i < size
  {
    HashOf(hasher, upper) as int % size
  }

  /** Every entry lies in the bucket its hash selects and means what `contents` says. */
  ghost predicate Sound<V>(up: ToUpper, hasher: Hasher, table: Table<V>, contents: map<seq<int>, V>) {
    && table != []
    && forall b, i | 0 <= b < |table| && 0 <= i < |table[b]| :: EntryOk(up, hasher, |table|, b, table[b][i], contents)
  }

  ghost predicate EntryOk<V>(up: ToUpper, hasher: Hasher, size: nat, b: nat, e: Entry<V>, contents: map<seq<int>, V>)
    requires 0 < size
  {
    var u := Upper(up, e.key);
    Slot(hasher, u, size) == b && u in contents && contents[u] == e.value
  }

  ghost predicate Holds<V>(up: ToUpper, bucket: seq<Entry<V>>, upper: seq<int>) {
    exists i :: 0 <= i < |bucket| && Upper(up, bucket[i].key) == upper
  }

  /** Everything in `contents` has an entry. */
  ghost predicate Complete<V>(up: ToUpper, hasher: Hasher, table: Table<V>, contents: map<seq<int>, V>) {
    && table != []
    && forall u | u in contents :: Holds(up, table[Slot(hasher, u, |table|)], u)
  }

  lemma Inserted<V>(up: ToUpper, hasher: Hasher, table: Table<V>, contents: map<seq<int>, V>, name: string, value: V)
    requires Sound(up, hasher, table, contents) && Complete(up, hasher, table, contents)
    requires Upper(up, name) !in contents
    ensures var u := Upper(up, name);
            var b := Slot(hasher, u, |table|);
            var after := table[b := table[b] + [Entry(name, value)]];
            Sound(up, hasher, after, contents[u := value]) && Complete(up, hasher, after, contents[u := value])
  {
    var u := Upper(up, name);
    var b := Slot(hasher, u, |table|);
    var after := table[b := table[b] + [Entry(name, value)]];
    forall c, i | 0 <= c < |after| && 0 <= i < |after[c]|
      ensures EntryOk(up, hasher, |after|, c, after[c][i], contents[u := value])
    {
      if c == b && i == |table[b]| {
        assert after[c][i] == Entry(name, value);
      } else {
        assert after[c][i] == table[c][i];
        assert EntryOk(up, hasher, |table|, c, table[c][i], contents);
      }
    }
    forall v | v in contents[u := value]
      ensures Holds(up, after[Slot(hasher, v, |after|)], v)
    {
      var c := Slot(hasher, v, |table|);
      if v == u {
        assert after[b][|table[b]|] == Entry(name, value);
      } else {
        assert Holds(up, table[c], v);
        var i :| 0 <= i < |table[c]| && Upper(up, table[c][i].key) == v;
        assert after[c][i] == table[c][i];
      }
    }
  }

  /** An `unordered_map` with the two functors. */
  class NameMap<V> {
    const up: ToUpper
    const hasher: Hasher
    var buckets: array<seq<Entry<V>>>
    /** What the table means: a map keyed by upper-cased names. */
    ghost var contents: map<seq<int>, V>

    ghost predicate Valid()
      reads this, buckets
    {
      Sound(up, hasher, buckets[..], contents) && Complete(up, hasher, buckets[..], contents)
    }

    constructor (up: ToUpper, hasher: Hasher, size: nat)
      requires 0 < size
      ensures Valid() && fresh(buckets) && contents == map[]
      ensures this.up == up && this.hasher == hasher
    {
      this.up, this.hasher := up, hasher;
      buckets := new seq<Entry<V>>[size](_ => []);
      contents := map[];
    }

    /** The bucket of a name. */
    method BucketOf(name: string) returns (b: nat)
      requires buckets.Length != 0
      ensures b == Slot(hasher, Upper(up, name), buckets.Length)
    {
      var hash := Hash(up, hasher, name);
      b := hash as int % buckets.Length;
    }

    /** Looking through a bucket. */
    method Search(bucket: seq<Entry<V>>, name: string) returns (found: Option<V>)
      ensures found == None <==> !Holds(up, bucket, Upper(up, name))
      ensures found.Some? ==> exists i :: 0 <= i < |bucket| && Upper(up, bucket[i].key) == Upper(up, name)
                                          && bucket[i].value == found.value
    {
      hide Upper;
      for i := 0 to |bucket|
        invariant forall j | 0 <= j < i :: Upper(up, bucket[j].key) != Upper(up, name)
      {
        var same := Equals(up, bucket[i].key, name);
        if same { return Some(bucket[i].value); }
      }
      return None;
    }

    /** `find`: the value stored under the name in whatever case. */
    method Find(name: string) returns (found: Option<V>)
      requires Valid()
      ensures found == if Upper(up, name) in contents then Some(contents[Upper(up, name)]) else None
    {
      hide Upper, Slot, Holds;
      ghost var u, table := Upper(up, name), buckets[..];
      var b := BucketOf(name);
      assert buckets[b] == table[b];
      found := Search(buckets[b], name);
      if found.Some? {
        ghost var i :| 0 <= i < |table[b]| && Upper(up, table[b][i].key) == u && table[b][i].value == found.value;
        assert EntryOk(up, hasher, |table|, b, table[b][i], contents);
      }
    }

    /** `insert`: keeps what is there. */
    method Insert(name: string, value: V) returns (inserted: bool)
      requires Valid()
      modifies this`contents, buckets
      ensures Valid() && inserted == (Upper(up, name) !in old(contents))
      ensures contents == if inserted then old(contents)[Upper(up, name) := value] else old(contents)
    {
      var found := Find(name);
      if found.Some? { return false; }
      var b := BucketOf(name);
      Inserted(up, hasher, buckets[..], contents, name, value);
      ghost var table := buckets[..];
      buckets[b] := buckets[b] + [Entry(name, value)];
      assert buckets[..] == table[b := table[b] + [Entry(name, value)]];
      contents := contents[Upper(up, name) := value];
      return true;
    }
  }

  // ---- Hub proxies ----

  datatype Creation = EmptyName | NotDisconnected | Proxy(proxy: nat)

  /** `create_hub_proxy` (71-93): proxies are numbered as they are made, so that their identity shows. */
  class Proxies {
    const proxies: NameMap<nat>
    var made: nat

    /** All proxies in the map are distinct ones made here: no two differ only in the case of their names. */
    ghost predicate Valid()
      reads this, proxies, proxies.buckets
    {
      && proxies.Valid()
      && (forall u | u in proxies.contents :: proxies.contents[u] < made)
      && (forall u, v | u in proxies.contents && v in proxies.contents && u != v ::
            proxies.contents[u] != proxies.contents[v])
    }

    constructor (up: ToUpper, hasher: Hasher)
      ensures Valid() && fresh(proxies) && fresh(proxies.buckets) && proxies.contents == map[] && made == 0
    {
      var p := new NameMap<nat>(up, hasher, 8);
      proxies, made := p, 0;
    }

    method CreateHubProxy(name: string, disconnected: bool) returns (result: Creation)
      requires Valid()
      modifies this, proxies`contents, proxies.buckets
      ensures Valid()
      ensures var u, before := Upper(proxies.up, name), old(proxies.contents);
              match result
              case EmptyName => name == "" && proxies.contents == before
              case NotDisconnected => name != "" && !disconnected && proxies.contents == before
              case Proxy(p) =>
                && name != "" && disconnected
                && p == (if u in before then before[u] else old(made))
                && proxies.contents == before[u := p]
    {
      hide Sound, Complete, Upper;
      if name == "" { return EmptyName; }
      if !disconnected { return NotDisconnected; }
      var found := proxies.Find(name);
      if found.Some? {
        assert proxies.contents == proxies.contents[Upper(proxies.up, name) := found.value];
        return Proxy(found.value);
      }
      var _ := proxies.Insert(name, made);
      made := made + 1;
      return Proxy(made - 1);
    }

    /** Two names get the same proxy exactly if they differ at most in case. */
    method SameProxyIffSameUpper(name1: string, name2: string) returns (p1: nat, p2: nat)
      requires Valid() && name1 != "" && name2 != ""
      modifies this, proxies`contents, proxies.buckets
      ensures Valid()
      ensures p1 == p2 <==> Upper(proxies.up, name1) == Upper(proxies.up, name2)
    {
      var r1 := CreateHubProxy(name1, true);
      var r2 := CreateHubProxy(name2, true);
      p1, p2 := r1.proxy, r2.proxy;
      ghost var u1, u2, contents := Upper(proxies.up, name1), Upper(proxies.up, name2), proxies.contents;
      assert u1 in contents && contents[u1] == p1 && u2 in contents && contents[u2] == p2;
    }
  }
}
