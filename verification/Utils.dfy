/** The small integer sets of src/utils.c: an array whose empty places hold negative numbers. */
module Utils {

  /** The array after an attempt to add `value`: the first empty place takes it, unless the value
      is met before. */
  function Added(s: seq<int>, value: int): seq<int> {
    if s == [] then []
    else if s[0] < 0 then [value] + s[1..]
    else if s[0] == value then s
    else [s[0]] + Added(s[1..], value)
  }

  predicate CanAdd(s: seq<int>, value: int) {
    if s == [] then false else s[0] < 0 || (s[0] != value && CanAdd(s[1..], value))
  }

  method AddSet(a: array<int>, value: int) returns (status: int)
    modifies a
    ensures a[..] == Added(old(a[..]), value)
    ensures status == if CanAdd(old(a[..]), value) then 0 else -1
  {
    hide Added; hide CanAdd;
    ghost var was := a[..];
    var i: nat := 0;
    while i < a.Length
      invariant i <= a.Length && a[..] == was
      invariant Added(was, value) == was[..i] + Added(was[i..], value)
      invariant CanAdd(was, value) == CanAdd(was[i..], value)
    {
      AddedHere(was, i, value);
      if a[i] < 0 {
        a[i] := value;
        return 0;
      }
      if a[i] == value {
        return -1;
      }
      i := i + 1;
    }
    AddedNowhere(value);
    assert was[i..] == [];
    status := -1;
  }

  lemma AddedHere(s: seq<int>, i: nat, value: int)
    requires i < |s|
    ensures s[..i] + Added(s[i..], value) ==
            if s[i] < 0 then s[i := value] else if s[i] == value then s else s[..i + 1] + Added(s[i + 1..], value)
    ensures CanAdd(s[i..], value) == (s[i] < 0 || (s[i] != value && CanAdd(s[i + 1..], value)))
  {
    assert s[i..][1..] == s[i + 1..];
    assert s[..i + 1] == s[..i] + [s[i]];
  }

  lemma AddedNowhere(value: int)
    ensures Added([], value) == [] && !CanAdd([], value)
  {
  }

  method Contains(s: seq<nat>, value: nat) returns (found: bool)
    ensures found <==> value in s
  {
    var i: nat := 0;
    while i < |s|
      invariant i <= |s| && value !in s[..i]
    {
      if s[i] == value {
        return true;
      }
      i := i + 1;
    }
    found := false;
  }

  /** The distinct values among three, as three additions to an empty array leave them. */
  function Distinct3(x: int, y: int, z: int): seq<int> {
    Added(Added(Added([-1, -1, -1], x), y), z)
  }

  /** No number above 2 is met twice. */
  predicate OnceAbove2(s: seq<int>) {
    forall i, j | 0 <= i < j < |s| :: s[i] > 2 ==> s[i] != s[j]
  }

  lemma AddedToThree(p: int, q: int, r: int, v: int)
    ensures Added([p, q, r], v) ==
            if p < 0 then [v, q, r] else if p == v then [p, q, r]
            else if q < 0 then [p, v, r] else if q == v then [p, q, r]
            else if r < 0 then [p, q, v] else [p, q, r]
  {
    assert [p, q, r][1..] == [q, r] && [q, r][1..] == [r] && [r][1..] == [];
    assert Added([r], v) == if r < 0 then [v] else [r];
    assert Added([q, r], v) == if q < 0 then [v, r] else if q == v then [q, r] else [q] + Added([r], v);
  }

  /** Three additions to an empty array keep each value above 2 once. */
  lemma Distinct3Members(x: int, y: int, z: int)
    ensures var s := Distinct3(x, y, z);
            && |s| == 3 && OnceAbove2(s)
            && forall v :: v > 2 ==> (v in s <==> v == x || v == y || v == z)
  {
    hide Added;
    AddedToThree(-1, -1, -1, x);
    AddedToThree(x, -1, -1, y);
    var b := Added([x, -1, -1], y);
    AddedToThree(b[0], b[1], b[2], z);
    assert b == [b[0], b[1], b[2]] && b[2] == -1;
    var s := Added(b, z);
    assert s == [s[0], s[1], s[2]];
    assert forall v :: v in s <==> v == s[0] || v == s[1] || v == s[2];
  }

  /** The array after the values have been added one by one to an empty array of the same length. */
  function Distinct(values: seq<int>, size: nat): seq<int> {
    if values == [] then seq(size, _ => -1) else Added(Distinct(values[..|values| - 1], size), values[|values| - 1])
  }

  /** The first `m` places are taken, by different values; the others are empty. */
  predicate IsFilled(s: seq<int>, m: nat) {
    && m <= |s|
    && (forall i | 0 <= i < m :: s[i] >= 0) && (forall i | m <= i < |s| :: s[i] < 0)
    && (forall i, j | 0 <= i < j < m :: s[i] != s[j])
  }

  lemma {:induction false} AddedBehind(s: seq<int>, m: nat, value: int)
    requires m < |s| && s[m] < 0 && forall i | 0 <= i < m :: s[i] >= 0 && s[i] != value
    ensures Added(s, value) == s[m := value]
  {
    if m == 0 {
      assert s[0 := value] == [value] + s[1..];
    } else {
      AddedBehind(s[1..], m - 1, value);
      assert s[m := value] == [s[0]] + s[1..][m - 1 := value];
    }
  }

  lemma {:induction false} AddedAgain(s: seq<int>, m: nat, value: int)
    requires m < |s| && s[m] == value && forall i | 0 <= i <= m :: s[i] >= 0
    ensures Added(s, value) == s
  {
    if s[0] != value {
      AddedAgain(s[1..], m - 1, value);
    }
  }

  lemma AddedFills(s: seq<int>, m: nat, value: int) returns (n: nat)
    requires IsFilled(s, m) && m < |s|
    ensures var t := Added(s, value);
            && |t| == |s| && n <= m + 1 && IsFilled(t, n)
            && forall v :: v >= 0 ==> (v in t <==> v in s || v == value)
  {
    hide Added;
    if i :| 0 <= i < m && s[i] == value {
      AddedAgain(s, i, value);
      assert s[i] in s;
      n := m;
    } else {
      AddedBehind(s, m, value);
      ReplacedMembers(s, m, value);
      n := if value >= 0 then m + 1 else m;
    }
  }

  lemma {:induction false} DistinctIsFilled(values: seq<int>, size: nat) returns (m: nat)
    requires |values| <= size
    ensures var s := Distinct(values, size);
            && |s| == size && m <= |values| && IsFilled(s, m)
            && forall v :: v >= 0 ==> (v in s <==> v in values)
  {
    hide Added; hide IsFilled;
    if values == [] {
      m := 0;
      NothingIsFilled(size);
    } else {
      var k := |values| - 1;
      m := DistinctIsFilled(values[..k], size);
      m := AddedFills(Distinct(values[..k], size), m, values[k]);
      assert values == values[..k] + [values[k]];
    }
  }

  lemma NothingIsFilled(size: nat)
    ensures var s := seq(size, _ => -1); IsFilled(s, 0) && forall v :: v >= 0 ==> v !in s
  {
  }

  lemma ReplacedMembers(s: seq<int>, m: nat, value: int)
    requires m < |s| && s[m] < 0
    ensures forall v :: v >= 0 ==> (v in s[m := value] <==> v in s || v == value)
  {
    forall v | v >= 0
      ensures v in s[m := value] <==> v in s || v == value
    {
      assert v in s ==> exists i :: 0 <= i < |s| && i != m && s[i] == v;
      assert forall i | 0 <= i < |s| && i != m :: s[m := value][i] == s[i];
      assert s[m := value][m] == value;
    }
  }

  /** So every value above 2 is there, once. */
  lemma DistinctMembers(values: seq<int>)
    ensures var s := Distinct(values, |values|);
            && |s| == |values| && OnceAbove2(s)
            && forall v :: v > 2 ==> (v in s <==> v in values)
  {
    hide Distinct;
    var m := DistinctIsFilled(values, |values|);
  }
}
