/**
 * Header field names compared case-insensitively (section 4.2 of RFC 2616):
 * the `CaseInsensitiveEqual` and `CaseInsensitiveHash` functors and the
 * `Headers` hashmap they key.
 */
module Headers {

  import opened Wrappers
  import opened Text

  /** The relation `CaseInsensitiveEqual` decides: same length, same characters after `tolower`. */
  predicate EqualIgnoringCase(left: string, right: string)
  {
    && |left| == |right|
    && forall i :: 0 <= i < |left| ==> ToLower(left[i]) == ToLower(right[i])
  }

  /** `CaseInsensitiveEqual::operator()`: a length check, then an early-exit scan. */
  method CaseInsensitiveEqual(left: string, right: string) returns (equal: bool)
    ensures equal == EqualIgnoringCase(left, right)
  {
    if |left| != |right| {
      return false;
    }
    var i := 0;
    while i < |left|
      invariant 0 <= i <= |left|
      invariant forall k :: 0 <= k < i ==> ToLower(left[k]) == ToLower(right[k])
    {
      if ToLower(left[i]) != ToLower(right[i]) {
        return false;
      }
      i := i + 1;
    }
    return true;
  }

  /** Two keys are equal ignoring case exactly when their folded forms are equal. */
  lemma EqualIgnoringCaseIffFoldsEqual(left: string, right: string)
    ensures EqualIgnoringCase(left, right) <==> Fold(left) == Fold(right)
  {
    if Fold(left) == Fold(right) {
      assert |left| == |Fold(left)|;
      forall i | 0 <= i < |left| ensures ToLower(left[i]) == ToLower(right[i]) {
        assert Fold(left)[i] == Fold(right)[i];
      }
    }
  }

  /** The comparison is an equivalence relation, as a hashmap's key equality must be. */
  lemma EqualIgnoringCaseIsEquivalence(a: string, b: string, c: string)
    ensures EqualIgnoringCase(a, a)
    ensures EqualIgnoringCase(a, b) ==> EqualIgnoringCase(b, a)
    ensures EqualIgnoringCase(a, b) && EqualIgnoringCase(b, c) ==> EqualIgnoringCase(a, c)
  {
    EqualIgnoringCaseIffFoldsEqual(a, b);
    EqualIgnoringCaseIffFoldsEqual(b, c);
    EqualIgnoringCaseIffFoldsEqual(a, c);
  }

  // ---------------------------------------------------------------------
  // CaseInsensitiveHash

  /**
   * `boost::hash_combine(seed, v)` is a foreign call; it is the parameter
   * `combine`. The hash of a key is the seed 0 folded with every lowered
   * character, left to right.
   */
  function HashOf(combine: (bv64, char) -> bv64, key: string): bv64
  {
    if key == [] then 0 else combine(HashOf(combine, key[..|key| - 1]), ToLower(key[|key| - 1]))
  }

  /** `CaseInsensitiveHash::operator()`: the loop that accumulates `seed`. */
  method CaseInsensitiveHash(combine: (bv64, char) -> bv64, key: string) returns (seed: bv64)
    ensures seed == HashOf(combine, key)
  {
    seed := 0;
    for i := 0 to |key|
      invariant seed == HashOf(combine, key[..i])
    {
      assert key[..i + 1][..i] == key[..i];
      seed := combine(seed, ToLower(key[i]));
    }
    assert key[..|key|] == key;
  }

  /** Keys that compare equal hash equally, whatever `hash_combine` does: the hashmap's contract. */
  lemma {:induction false} HashAgreesWithEquality(combine: (bv64, char) -> bv64, a: string, b: string)
    requires EqualIgnoringCase(a, b)
    ensures HashOf(combine, a) == HashOf(combine, b)
    decreases |a|
  {
    if a != [] {
      var n := |a| - 1;
      HashAgreesWithEquality(combine, a[..n], b[..n]);
      assert ToLower(a[n]) == ToLower(b[n]);
    }
  }

  // ---------------------------------------------------------------------
  // Headers: hashmap<string, string, CaseInsensitiveHash, CaseInsensitiveEqual>

  datatype Header = Header(name: string, value: string)

  /**
   * The entries of the map. Iteration order is not observable in the
   * source; a list is used so that the spelling of a name stored first
   * is kept, as `operator[]` keeps the key it already holds.
   */
  type Headers = seq<Header>

  /** No two entries have names that the map considers the same key. */
  ghost predicate WellFormed(h: Headers)
  {
    forall i, j :: 0 <= i < j < |h| ==> !EqualIgnoringCase(h[i].name, h[j].name)
  }

  /** `headers.get(key)`: the value under the first name equal to `key` ignoring case. */
  function Get(h: Headers, key: string): (r: Option<string>)
    ensures r.None? <==> forall i :: 0 <= i < |h| ==> !EqualIgnoringCase(h[i].name, key)
    ensures r.Some? ==> exists i :: 0 <= i < |h| && EqualIgnoringCase(h[i].name, key) && h[i].value == r.value
  {
    if h == [] then None
    else if EqualIgnoringCase(h[0].name, key) then Some(h[0].value)
    else
      var r := Get(h[1..], key);
      assert r.Some? ==> exists i :: 1 <= i < |h| && EqualIgnoringCase(h[i].name, key) && h[i].value == r.value by {
        if r.Some? {
          var i :| 0 <= i < |h[1..]| && EqualIgnoringCase(h[1..][i].name, key) && h[1..][i].value == r.value;
          assert h[i + 1] == h[1..][i];
        }
      }
      r
  }

  /** `headers[key] = value`: overwrite the entry for `key` if there is one, otherwise add one. */
  function Put(h: Headers, key: string, value: string): (r: Headers)
    ensures |r| == if Get(h, key).Some? then |h| else |h| + 1
  {
    if h == [] then [Header(key, value)]
    else if EqualIgnoringCase(h[0].name, key) then [Header(h[0].name, value)] + h[1..]
    else [h[0]] + Put(h[1..], key, value)
  }

  /** After `headers[key] = value`, looking up any key equal to `key` gives `value`, and every other key is as before. */
  lemma {:induction false} GetPut(h: Headers, key: string, value: string, other: string)
    ensures Get(Put(h, key, value), other)
         == if EqualIgnoringCase(key, other) then Some(value) else Get(h, other)
  {
    if h == [] {
      EqualIgnoringCaseIsEquivalence(key, other, other);
    } else {
      var n := h[0].name;
      EqualIgnoringCaseIsEquivalence(n, key, other);
      EqualIgnoringCaseIsEquivalence(key, n, other);
      if !EqualIgnoringCase(n, key) {
        GetPut(h[1..], key, value, other);
        assert Put(h, key, value)[1..] == Put(h[1..], key, value);
      } else {
        assert Put(h, key, value)[1..] == h[1..];
      }
    }
  }

  /** Assignment keeps every name a distinct key. */
  lemma {:induction false} PutKeepsWellFormed(h: Headers, key: string, value: string)
    requires WellFormed(h)
    ensures WellFormed(Put(h, key, value))
  {
    if h != [] && !EqualIgnoringCase(h[0].name, key) {
      assert WellFormed(h[1..]) by {
        forall i, j | 0 <= i < j < |h[1..]| ensures !EqualIgnoringCase(h[1..][i].name, h[1..][j].name) {
          assert h[1..][i] == h[i + 1] && h[1..][j] == h[j + 1];
        }
      }
      PutKeepsWellFormed(h[1..], key, value);
      var r := Put(h, key, value);
      assert r[1..] == Put(h[1..], key, value);
      forall j | 1 <= j < |r| ensures !EqualIgnoringCase(r[0].name, r[j].name) {
        PutNames(h[1..], key, value, j - 1);
        assert r[j] == r[1..][j - 1];
        if r[j].name == key {
          EqualIgnoringCaseIsEquivalence(h[0].name, key, key);
        } else {
          var k :| 0 <= k < |h[1..]| && r[j].name == h[1..][k].name;
          assert h[1..][k] == h[k + 1];
        }
      }
    } else if h != [] {
      var r := Put(h, key, value);
      forall i, j | 0 <= i < j < |r| ensures !EqualIgnoringCase(r[i].name, r[j].name) {
        assert r[i].name == h[i].name && r[j].name == h[j].name;
      }
    }
  }

  /** Each name after `Put` is `key` or a name that was already there. */
  lemma {:induction false} PutNames(h: Headers, key: string, value: string, j: nat)
    requires j < |Put(h, key, value)|
    ensures Put(h, key, value)[j].name == key
         || exists k :: 0 <= k < |h| && Put(h, key, value)[j].name == h[k].name
  {
    if h != [] && !EqualIgnoringCase(h[0].name, key) && j > 0 {
      PutNames(h[1..], key, value, j - 1);
      var r := Put(h, key, value);
      assert r[j] == Put(h[1..], key, value)[j - 1];
      if r[j].name != key {
        var k :| 0 <= k < |h[1..]| && r[j].name == h[1..][k].name;
        assert h[1..][k] == h[k + 1];
      }
    } else if h != [] && j > 0 {
      assert Put(h, key, value)[j] == h[j];
    } else if h != [] {
      assert Put(h, key, value)[0].name == h[0].name;
    }
  }
}
