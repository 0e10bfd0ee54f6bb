/** Small vocabulary shared by the models: optional values, real arithmetic and upper-casing. */
module Common {

  datatype Option<+T> = None | Some(value: T) {
    function GetOr(default: T): T {
      if Some? then value else default
    }
  }

  function MinR(a: real, b: real): real {
    if b < a then b else a
  }

  function MaxR(a: real, b: real): real {
    if b > a then b else a
  }

  function AbsR(a: real): real {
    if a < 0.0 then -a else a
  }

  /** The `float(value or default)` idiom: a genuine zero is read as the default. */
  function OrElse(value: real, default: real): real {
    if value == 0.0 then default else value
  }

  /** ASCII upper-casing of one character. */
  function UpperChar(c: char): char {
    if 'a' <= c <= 'z' then ((c as int - 'a' as int) + 'A' as int) as char else c
  }

  /** ASCII upper-casing, as every symbol and fleet name goes through. */
  function Upper(s: string): string {
    seq(|s|, i requires 0 <= i < |s| => UpperChar(s[i]))
  }

  lemma UpperIdempotent(s: string)
    ensures Upper(Upper(s)) == Upper(s)
  {
    forall i | 0 <= i < |s| ensures Upper(Upper(s))[i] == Upper(s)[i] {
      assert Upper(Upper(s))[i] == UpperChar(UpperChar(s[i]));
    }
  }

  // ----- steps of real arithmetic

  lemma Distribute(k: real, a: real, b: real)
    ensures k * (a + b) == k * a + k * b
  {
  }

  lemma ProductNonNegative(a: real, b: real)
    requires a >= 0.0 && b >= 0.0
    ensures a * b >= 0.0
  {
  }

  lemma ProductNegative(a: real, b: real)
    requires a < 0.0 && b > 0.0
    ensures a * b < 0.0
  {
  }

  lemma Scale(a: real, b: real, k: real)
    requires a <= b && k >= 0.0
    ensures a * k <= b * k
  {
  }

  lemma ScaleStrict(a: real, b: real, k: real)
    requires a < b && k > 0.0
    ensures a * k < b * k
  {
  }

  lemma Cancel(a: real, b: real, k: real)
    requires k > 0.0 && a * k <= b * k
    ensures a <= b
  {
    if a > b { ScaleStrict(b, a, k); }
  }

  lemma CancelEqual(a: real, b: real, k: real)
    requires k != 0.0 && a * k == b * k
    ensures a == b
  {
    assert (a - b) * k == 0.0;
  }

  // ----- sequences

  /** What stands before the first separator and what follows it are determined by the whole. */
  lemma FirstSeparator<T>(separator: T, p1: seq<T>, s1: seq<T>, p2: seq<T>, s2: seq<T>)
    requires separator !in p1 && separator !in p2 && p1 + [separator] + s1 == p2 + [separator] + s2
    ensures p1 == p2 && s1 == s2
  {
    var whole := p1 + [separator] + s1;
    assert forall i :: 0 <= i < |p1| ==> whole[i] == p1[i];
    assert forall i :: 0 <= i < |p2| ==> whole[i] == p2[i];
    assert whole[|p1|] == separator && whole[|p2|] == separator;
    assert p1 == whole[..|p1|] && p2 == whole[..|p1|];
    assert s1 == whole[|p1| + 1..] && s2 == whole[|p1| + 1..];
  }

  lemma Regroup<T>(a: seq<T>, b: seq<T>, c: seq<T>)
    ensures a + (b + c) == a + b + c
  {
  }
}

/** An insertion-ordered dictionary with string keys: assignment to a present key keeps its place. */
module OrderedDict {
  import opened Common

  type Dict<V> = seq<(string, V)>

  function Get<V>(d: Dict<V>, key: string): Option<V> {
    if d == [] then None
    else if d[0].0 == key then Some(d[0].1)
    else Get(d[1..], key)
  }

  function Put<V>(d: Dict<V>, key: string, value: V): Dict<V> {
    if d == [] then [(key, value)]
    else if d[0].0 == key then [(key, value)] + d[1..]
    else [d[0]] + Put(d[1..], key, value)
  }

  function Values<V>(d: Dict<V>): seq<V> {
    seq(|d|, i requires 0 <= i < |d| => d[i].1)
  }

  ghost predicate Unique<V>(d: Dict<V>) {
    forall i, j :: 0 <= i < j < |d| ==> d[i].0 != d[j].0
  }

  lemma {:induction false} GetPut<V>(d: Dict<V>, key: string, value: V, other: string)
    ensures Get(Put(d, key, value), other) == if other == key then Some(value) else Get(d, other)
  {
    if d == [] {
      assert Put(d, key, value)[1..] == [];
    } else if d[0].0 == key {
      assert Put(d, key, value)[1..] == d[1..];
    } else {
      assert Put(d, key, value)[1..] == Put(d[1..], key, value);
      GetPut(d[1..], key, value, other);
    }
  }

  /** `Get` answers None exactly for absent keys. */
  lemma {:induction false} GetNone<V>(d: Dict<V>, key: string)
    ensures Get(d, key) == None <==> forall i :: 0 <= i < |d| ==> d[i].0 != key
  {
    if d != [] && d[0].0 != key {
      GetNone(d[1..], key);
      if Get(d, key) == None {
        forall i | 0 <= i < |d| ensures d[i].0 != key {
          if i > 0 { assert d[i] == d[1..][i - 1]; }
        }
      } else {
        var i :| 0 <= i < |d[1..]| && d[1..][i].0 == key;
        assert d[i + 1].0 == key;
      }
    }
  }

  /** In a dictionary with unique keys, `Get` finds the value stored at any position. */
  lemma {:induction false} GetAt<V>(d: Dict<V>, i: nat)
    requires Unique(d) && i < |d|
    ensures Get(d, d[i].0) == Some(d[i].1)
  {
    if i > 0 {
      assert d[0].0 != d[i].0;
      assert d[1..][i - 1] == d[i];
      GetAt(d[1..], i - 1);
    }
  }

  lemma {:induction false} PutUnique<V>(d: Dict<V>, key: string, value: V)
    requires Unique(d)
    ensures Unique(Put(d, key, value))
    ensures forall i :: 0 <= i < |Put(d, key, value)| ==>
      Put(d, key, value)[i] == (key, value) || Put(d, key, value)[i] in d
  {
    if d != [] && d[0].0 != key {
      var rest := Put(d[1..], key, value);
      PutUnique(d[1..], key, value);
      forall i | 0 <= i < |rest| ensures rest[i].0 != d[0].0 {
        if rest[i] in d[1..] {
          var j :| 0 <= j < |d[1..]| && d[1..][j] == rest[i];
          assert d[j + 1] == rest[i];
        }
      }
    }
  }
}
