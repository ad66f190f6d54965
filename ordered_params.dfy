// `BTreeMap<String, String>`, the parameter map the Aliyun, Baidu and DNS.COM
// signers build: its entries in ascending key order, one entry per key. The
// pure `Put` is `insert`; the class `ParamMap` is a map a caller lends out as
// `&mut` and that the callee inserts into.
module OrderedParams {
  import opened Types
  import opened Text

  type Entries = seq<(string, string)>

  /** Keys strictly ascending, hence also distinct. */
  predicate Ordered(e: Entries)
  {
    forall i, j :: 0 <= i < j < |e| ==> Less(e[i].0, e[j].0)
  }

  /** The map the entries denote (the first entry of a key wins, which for
      ordered entries is the only one). */
  function ToMap(e: Entries): map<string, string>
  {
    if e == [] then map[] else ToMap(e[1..])[e[0].0 := e[0].1]
  }

  function Keys(e: Entries): set<string>
  {
    set i | 0 <= i < |e| :: e[i].0
  }

  /** `BTreeMap::insert`: the value of a present key is replaced in place,
      a new key goes where the order puts it. */
  function Put(e: Entries, key: string, value: string): (r: Entries)
    decreases |e|
  {
    if e == [] then [(key, value)]
    else if e[0].0 == key then [(key, value)] + e[1..]
    else if Less(key, e[0].0) then [(key, value)] + e
    else [e[0]] + Put(e[1..], key, value)
  }

  /** Insertion adds its key and no other. */
  lemma {:induction false} PutKeys(e: Entries, key: string, value: string)
    ensures Keys(Put(e, key, value)) == Keys(e) + {key}
    decreases |e|
  {
    if e == [] {
      KeysCons((key, value), []);
      assert [(key, value)] + [] == [(key, value)];
    } else if e[0].0 == key {
      KeysCons(e[0], e[1..]);
      KeysCons((key, value), e[1..]);
    } else if Less(key, e[0].0) {
      KeysCons((key, value), e);
    } else {
      PutKeys(e[1..], key, value);
      KeysCons(e[0], e[1..]);
      KeysCons(e[0], Put(e[1..], key, value));
    }
  }

  lemma KeysCons(x: (string, string), e: Entries)
    ensures Keys([x] + e) == {x.0} + Keys(e)
  {
    var s := [x] + e;
    forall k | k in Keys(s) ensures k in {x.0} + Keys(e) {
      var i :| 0 <= i < |s| && s[i].0 == k;
      if i > 0 { assert e[i - 1].0 == k; }
    }
    forall k | k in Keys(e) ensures k in Keys(s) {
      var i :| 0 <= i < |e| && e[i].0 == k;
      assert s[i + 1].0 == k;
    }
    assert s[0].0 == x.0;
  }

  lemma OrderedFirstBelow(x: (string, string), e: Entries)
    requires Ordered(e)
    requires forall k | k in Keys(e) :: Less(x.0, k)
    ensures Ordered([x] + e)
  {
    var s := [x] + e;
    forall i, j | 0 <= i < j < |s| ensures Less(s[i].0, s[j].0) {
      if i == 0 {
        assert s[j].0 == e[j - 1].0 && e[j - 1].0 in Keys(e);
      } else {
        assert s[i] == e[i - 1] && s[j] == e[j - 1];
      }
    }
  }

  /** Insertion keeps the keys ascending. */
  lemma {:induction false} PutOrdered(e: Entries, key: string, value: string)
    requires Ordered(e)
    ensures Ordered(Put(e, key, value))
    decreases |e|
  {
    if e == [] {
    } else if e[0].0 == key {
      forall k | k in Keys(e[1..]) ensures Less(key, k) {
        var i :| 0 <= i < |e[1..]| && e[1..][i].0 == k;
        assert e[i + 1].0 == k;
      }
      OrderedFirstBelow((key, value), e[1..]);
    } else if Less(key, e[0].0) {
      forall k | k in Keys(e) ensures Less(key, k) {
        var i :| 0 <= i < |e| && e[i].0 == k;
        if i > 0 { LessTransitive(key, e[0].0, k); }
      }
      OrderedFirstBelow((key, value), e);
    } else {
      LessTotal(key, e[0].0);
      PutOrdered(e[1..], key, value);
      PutKeys(e[1..], key, value);
      forall k | k in Keys(Put(e[1..], key, value)) ensures Less(e[0].0, k) {
        if k != key {
          var i :| 0 <= i < |e[1..]| && e[1..][i].0 == k;
          assert e[i + 1].0 == k;
        }
      }
      OrderedFirstBelow(e[0], Put(e[1..], key, value));
    }
  }

  /** Insertion is map update. */
  lemma {:induction false} PutToMap(e: Entries, key: string, value: string)
    ensures ToMap(Put(e, key, value)) == ToMap(e)[key := value]
    decreases |e|
  {
    if e != [] && e[0].0 != key && !Less(key, e[0].0) {
      PutToMap(e[1..], key, value);
    }
  }

  /** The entries of a map lent out for in-place insertion. */
  class ParamMap {
    var entries: Entries

    ghost predicate Valid()
      reads this
    {
      Ordered(entries)
    }

    constructor(initial: Entries)
      requires Ordered(initial)
      ensures Valid() && entries == initial
    {
      entries := initial;
    }

    /** The map's current contents. */
    function Contents(): map<string, string>
      reads this
    {
      ToMap(entries)
    }

    method Insert(key: string, value: string)
      requires Valid()
      modifies this
      ensures Valid()
      ensures entries == Put(old(entries), key, value)
      ensures Contents() == old(Contents())[key := value]
    {
      PutOrdered(entries, key, value);
      PutToMap(entries, key, value);
      entries := Put(entries, key, value);
    }
  }
}
