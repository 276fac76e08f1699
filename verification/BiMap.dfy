/** A bidirectional map kept as two mirrored maps. */
module BiMaps {

  /** Each map holds exactly the other's pairs, turned round. */
  ghost predicate Mirrors<X, Y>(l: map<X, Y>, r: map<Y, X>) {
    && (forall x | x in l :: l[x] in r && r[l[x]] == x)
    && (forall y | y in r :: r[y] in l && l[r[y]] == y)
  }

  class BiMap<X(==), Y(==)> {
    var leftMap: map<X, Y>
    var rightMap: map<Y, X>
    const defaultLeft: X
    const defaultRight: Y

    ghost predicate Valid()
      reads this
    {
      Mirrors(leftMap, rightMap)
    }

    /** The defaults are what a lookup of a missing key returns. */
    constructor (defaultLeft: X, defaultRight: Y)
      ensures Valid() && leftMap == map[] && rightMap == map[]
      ensures this.defaultLeft == defaultLeft && this.defaultRight == defaultRight
    {
      this.defaultLeft, this.defaultRight := defaultLeft, defaultRight;
      leftMap, rightMap := map[], map[];
    }

    constructor Copy(other: BiMap<X, Y>)
      requires other.Valid()
      ensures Valid() && leftMap == other.leftMap && rightMap == other.rightMap
      ensures defaultLeft == other.defaultLeft && defaultRight == other.defaultRight
    {
      defaultLeft, defaultRight := other.defaultLeft, other.defaultRight;
      leftMap, rightMap := other.leftMap, other.rightMap;
    }

    method Assign(other: BiMap<X, Y>)
      requires other.Valid()
      modifies this
      ensures Valid() && leftMap == old(other.leftMap) && rightMap == old(other.rightMap)
    {
      leftMap, rightMap := other.leftMap, other.rightMap;
    }

    method Size() returns (n: nat)
      requires Valid()
      ensures n == |leftMap| == |rightMap|
    {
      MirrorsSameSize(leftMap, rightMap);
      n := |leftMap|;
    }

    method IsEmpty() returns (empty: bool)
      requires Valid()
      ensures empty <==> leftMap == map[]
      ensures empty <==> rightMap == map[]
    {
      MirrorsSameSize(leftMap, rightMap);
      empty := |leftMap| == 0;
    }

    method Clear()
      modifies this
      ensures Valid() && leftMap == map[] && rightMap == map[]
    {
      leftMap, rightMap := map[], map[];
    }

    method Insert(left: X, right: Y) returns (inserted: bool)
      requires Valid()
      modifies this
      ensures Valid()
      ensures inserted <==> left !in old(leftMap) && right !in old(rightMap)
      ensures leftMap == if inserted then old(leftMap)[left := right] else old(leftMap)
      ensures rightMap == if inserted then old(rightMap)[right := left] else old(rightMap)
    {
      if left in leftMap || right in rightMap {
        return false;
      }
      leftMap := leftMap[left := right];
      rightMap := rightMap[right := left];
      return true;
    }

    method RemoveByLeft(left: X) returns (removed: bool)
      requires Valid()
      modifies this
      ensures Valid()
      ensures removed <==> left in old(leftMap)
      ensures leftMap == old(leftMap) - {left}
      ensures rightMap == if removed then old(rightMap) - {old(leftMap)[left]} else old(rightMap)
    {
      if left !in leftMap {
        return false;
      }
      var right := leftMap[left];
      leftMap := leftMap - {left};
      rightMap := rightMap - {right};
      return true;
    }

    method RemoveByRight(right: Y) returns (removed: bool)
      requires Valid()
      modifies this
      ensures Valid()
      ensures removed <==> right in old(rightMap)
      ensures rightMap == old(rightMap) - {right}
      ensures leftMap == if removed then old(leftMap) - {old(rightMap)[right]} else old(leftMap)
    {
      if right !in rightMap {
        return false;
      }
      var left := rightMap[right];
      leftMap := leftMap - {left};
      rightMap := rightMap - {right};
      return true;
    }

    /** The left key paired with `right`. */
    method Left(right: Y) returns (left: X)
      requires Valid()
      ensures forall x | x in leftMap && leftMap[x] == right :: left == x
      ensures (forall x | x in leftMap :: leftMap[x] != right) ==> left == defaultLeft
    {
      left := if right in rightMap then rightMap[right] else defaultLeft;
    }

    /** The right key paired with `left`. */
    method Right(left: X) returns (right: Y)
      requires Valid()
      ensures forall y | y in rightMap && rightMap[y] == left :: right == y
      ensures (forall y | y in rightMap :: rightMap[y] != left) ==> right == defaultRight
    {
      right := if left in leftMap then leftMap[left] else defaultRight;
    }

    /** Comparing the left maps alone compares everything. */
    method Equals(other: BiMap<X, Y>) returns (equal: bool)
      requires Valid() && other.Valid()
      ensures equal <==> leftMap == other.leftMap && rightMap == other.rightMap
    {
      equal := leftMap == other.leftMap;
      if equal { MirrorUnique(leftMap, rightMap, other.rightMap); }
    }
  }

  /** A map has at most one mirror. */
  lemma MirrorUnique<X, Y>(l: map<X, Y>, r: map<Y, X>, r': map<Y, X>)
    requires Mirrors(l, r) && Mirrors(l, r')
    ensures r == r'
  {
    assert r.Keys == r'.Keys by {
      assert forall y :: y in r ==> l[r[y]] == y && y in r';
      assert forall y :: y in r' ==> l[r'[y]] == y && y in r;
    }
    forall y | y in r ensures r[y] == r'[y] { assert l[r[y]] == y; }
  }

  lemma {:induction false} MirrorsSameSize<X, Y>(l: map<X, Y>, r: map<Y, X>)
    requires Mirrors(l, r)
    ensures |l| == |r|
    decreases |l|
  {
    if x :| x in l {
      MirrorsSameSize(l - {x}, r - {l[x]});
    } else {
      assert forall y :: y !in r;
    }
  }
}
