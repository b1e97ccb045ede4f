/** The scene-graph and angle helpers of the globe's `three-utils.js`. */
module ThreeUtils {

  /** `Math.PI` as a decimal. */
  const PI: real := 3.141592653589793
  const DEG2RAD: real := PI / 180.0
  const RAD2DEG: real := 180.0 / PI

  /** `degreesToRadians`. */
  function DegreesToRadians(degrees: real): (r: real)
    ensures degrees == 180.0 ==> r == PI
  {
    degrees * DEG2RAD
  }

  /** `radiansToDegrees`. */
  function RadiansToDegrees(radians: real): (r: real)
    ensures radians == PI ==> r == 180.0
  {
    radians * RAD2DEG
  }

  /** Over the reals the two conversions undo each other. */
  lemma {:induction false} AngleRoundTrip(x: real)
    ensures DegreesToRadians(RadiansToDegrees(x)) == x
    ensures RadiansToDegrees(DegreesToRadians(x)) == x
  {
    assert DEG2RAD * RAD2DEG == 1.0;
    calc {
      DegreesToRadians(RadiansToDegrees(x));
      (x * RAD2DEG) * DEG2RAD;
      x * (RAD2DEG * DEG2RAD);
    }
    calc {
      RadiansToDegrees(DegreesToRadians(x));
      (x * DEG2RAD) * RAD2DEG;
      x * (DEG2RAD * RAD2DEG);
    }
  }

  /** `randomRange(min, max)` with the value of `Math.random()` passed in
      as `random`, which the runtime draws from [0, 1). */
  function RandomRange(min: real, max: real, random: real): (r: real)
    requires 0.0 <= random < 1.0
    ensures min < max ==> min <= r < max
    ensures min == max ==> r == min
  {
    var span := max - min;
    StrictScale(random, span);
    min + random * span
  }

  lemma StrictScale(t: real, d: real)
    requires 0.0 <= t < 1.0
    ensures d > 0.0 ==> 0.0 <= t * d < d
    ensures d == 0.0 ==> t * d == 0.0
  {
    if d > 0.0 {
      assert t * d < 1.0 * d;
    }
  }

  /** A scene-graph object with its `children` in order. */
  datatype Node = Node(id: nat, children: seq<Node>)

  /** The callbacks made while disposing the children of `n` with index
      below `i`: from child `i - 1` down to child 0, each after its own
      subtree. */
  function VisitChildren(n: Node, i: nat): (r: seq<Node>)
    requires i <= |n.children|
    decreases n, i
  {
    if i == 0 then []
    else Visit(n.children[i - 1]) + [n.children[i - 1]] + VisitChildren(n, i - 1)
  }

  /** The callbacks `disposeHierarchy(n, callback)` makes, in order. */
  function Visit(n: Node): (r: seq<Node>)
    decreases n, |n.children| + 1
  {
    VisitChildren(n, |n.children|)
  }

  /** `disposeHierarchy`: a reverse loop over the children that first
      recurses into the child and then hands it to the callback when the
      callback is a function. The calls are returned in the order made. */
  method DisposeHierarchy(node: Node, callbackIsFunction: bool) returns (calls: seq<Node>)
    ensures calls == if callbackIsFunction then Visit(node) else []
    decreases node
  {
    calls := [];
    var i := |node.children| - 1;
    while i >= 0
      invariant -1 <= i < |node.children|
      invariant callbackIsFunction ==> calls + VisitChildren(node, i + 1) == Visit(node)
      invariant !callbackIsFunction ==> calls == []
    {
      var child := node.children[i];
      var sub := DisposeHierarchy(child, callbackIsFunction);
      calls := calls + sub;
      if callbackIsFunction {
        calls := calls + [child];
      }
      i := i - 1;
    }
  }

  /** `d` lies strictly below `n` in the tree. */
  ghost predicate IsProperDescendant(d: Node, n: Node)
    decreases n
  {
    exists i :: 0 <= i < |n.children| &&
      (n.children[i] == d || IsProperDescendant(d, n.children[i]))
  }

  /** All proper descendants of `n`, counted with multiplicity. */
  function Descendants(n: Node): (m: multiset<Node>)
    decreases n, |n.children| + 1
  {
    DescendantsOf(n, |n.children|)
  }

  function DescendantsOf(n: Node, i: nat): (m: multiset<Node>)
    requires i <= |n.children|
    decreases n, i
  {
    if i == 0 then multiset{}
    else Descendants(n.children[i - 1]) + multiset{n.children[i - 1]} + DescendantsOf(n, i - 1)
  }

  /** The callback is made exactly once for each proper descendant. */
  lemma {:induction false} VisitsEachDescendantOnce(n: Node)
    ensures multiset(Visit(n)) == Descendants(n)
    decreases n, |n.children| + 1
  {
    VisitsChildrenOnce(n, |n.children|);
  }

  lemma {:induction false} VisitsChildrenOnce(n: Node, i: nat)
    requires i <= |n.children|
    ensures multiset(VisitChildren(n, i)) == DescendantsOf(n, i)
    decreases n, i
  {
    if i > 0 {
      var c := n.children[i - 1];
      VisitsEachDescendantOnce(c);
      VisitsChildrenOnce(n, i - 1);
      MultisetOfBlock(Visit(c), c, VisitChildren(n, i - 1), Descendants(c), DescendantsOf(n, i - 1));
    } else {
      assert VisitChildren(n, i) == [] && DescendantsOf(n, i) == multiset{};
    }
  }

  lemma MultisetOfBlock(a: seq<Node>, c: Node, b: seq<Node>, ma: multiset<Node>, mb: multiset<Node>)
    requires multiset(a) == ma && multiset(b) == mb
    ensures multiset(a + [c] + b) == ma + multiset{c} + mb
  {
  }

  /** The height of a tree; a child is always lower than its parent. */
  function Height(n: Node): (h: nat)
    decreases n
  {
    1 + MaxChildHeight(n, |n.children|)
  }

  function MaxChildHeight(n: Node, i: nat): (h: nat)
    requires i <= |n.children|
    ensures forall j :: 0 <= j < i ==> Height(n.children[j]) <= h
    decreases n, i
  {
    if i == 0 then 0
    else
      var h := Height(n.children[i - 1]);
      var rest := MaxChildHeight(n, i - 1);
      if h > rest then h else rest
  }

  lemma {:induction false} DescendantIsLower(d: Node, n: Node)
    requires IsProperDescendant(d, n)
    ensures Height(d) < Height(n)
    decreases n
  {
    var i :| 0 <= i < |n.children| &&
      (n.children[i] == d || IsProperDescendant(d, n.children[i]));
    assert Height(n.children[i]) <= MaxChildHeight(n, |n.children|);
    if n.children[i] != d {
      DescendantIsLower(d, n.children[i]);
    }
  }

  /** Everything handed to the callback is a proper descendant, so the
      root itself is never disposed. */
  lemma {:induction false} VisitsOnlyDescendants(n: Node)
    ensures forall d :: d in Visit(n) ==> IsProperDescendant(d, n)
    ensures n !in Visit(n)
    decreases n, |n.children| + 1
  {
    VisitChildrenOnlyDescendants(n, |n.children|);
    if n in Visit(n) {
      DescendantIsLower(n, n);
    }
  }

  lemma {:induction false} VisitChildrenOnlyDescendants(n: Node, i: nat)
    requires i <= |n.children|
    ensures forall d :: d in VisitChildren(n, i) ==> IsProperDescendant(d, n)
    decreases n, i
  {
    if i > 0 {
      var c := n.children[i - 1];
      VisitsOnlyDescendants(c);
      VisitChildrenOnlyDescendants(n, i - 1);
      forall d | d in Visit(c)
        ensures IsProperDescendant(d, n)
      {
        assert 0 <= i - 1 < |n.children| && IsProperDescendant(d, n.children[i - 1]);
      }
      assert 0 <= i - 1 < |n.children| && n.children[i - 1] == c;
    }
  }

  /** Post-order: each node handed to the callback comes right after all
      the callbacks for its own subtree. */
  ghost predicate PostOrdered(s: seq<Node>) {
    forall k :: 0 <= k < |s| ==>
      |Visit(s[k])| <= k && s[k - |Visit(s[k])|..k] == Visit(s[k])
  }

  lemma PostOrderedConcat(a: seq<Node>, b: seq<Node>)
    requires PostOrdered(a) && PostOrdered(b)
    ensures PostOrdered(a + b)
  {
    var s := a + b;
    forall k | 0 <= k < |s|
      ensures |Visit(s[k])| <= k && s[k - |Visit(s[k])|..k] == Visit(s[k])
    {
      if k >= |a| {
        var j := k - |a|;
        assert s[k] == b[j];
        assert s[k - |Visit(s[k])|..k] == b[j - |Visit(b[j])|..j];
      } else {
        assert s[k] == a[k];
        assert s[k - |Visit(s[k])|..k] == a[k - |Visit(a[k])|..k];
      }
    }
  }

  lemma {:induction false} VisitIsPostOrdered(n: Node)
    ensures PostOrdered(Visit(n))
    decreases n, |n.children| + 1
  {
    VisitChildrenPostOrdered(n, |n.children|);
  }

  lemma {:induction false} VisitChildrenPostOrdered(n: Node, i: nat)
    requires i <= |n.children|
    ensures PostOrdered(VisitChildren(n, i))
    decreases n, i
  {
    if i > 0 {
      var c := n.children[i - 1];
      VisitIsPostOrdered(c);
      var block := Visit(c) + [c];
      forall k | 0 <= k < |block|
        ensures |Visit(block[k])| <= k && block[k - |Visit(block[k])|..k] == Visit(block[k])
      {
        if k == |Visit(c)| {
          assert block[k] == c;
          assert block[..k] == Visit(c);
        } else {
          assert block[k] == Visit(c)[k];
          assert block[k - |Visit(block[k])|..k] == Visit(c)[k - |Visit(block[k])|..k];
        }
      }
      VisitChildrenPostOrdered(n, i - 1);
      PostOrderedConcat(block, VisitChildren(n, i - 1));
    }
  }

  /** Siblings are disposed from the last to the first: the callbacks for
      the children below `i` come after those for child `i` and above. */
  lemma {:induction false} SiblingsLastToFirst(n: Node, i: nat)
    requires i < |n.children|
    ensures exists before: seq<Node> ::
      Visit(n) == before + Visit(n.children[i]) + [n.children[i]] + VisitChildren(n, i)
  {
    SuffixOfVisit(n, |n.children|, i + 1);
    var before :| Visit(n) == before + VisitChildren(n, i + 1);
    assert Visit(n) == before + Visit(n.children[i]) + [n.children[i]] + VisitChildren(n, i);
  }

  lemma {:induction false} SuffixOfVisit(n: Node, j: nat, i: nat)
    requires i <= j <= |n.children|
    ensures exists before: seq<Node> :: VisitChildren(n, j) == before + VisitChildren(n, i)
    decreases j - i
  {
    if i == j {
      assert VisitChildren(n, j) == [] + VisitChildren(n, i);
    } else {
      SuffixOfVisit(n, j, i + 1);
      var before :| VisitChildren(n, j) == before + VisitChildren(n, i + 1);
      var more := Visit(n.children[i]) + [n.children[i]];
      assert VisitChildren(n, j) == (before + more) + VisitChildren(n, i);
    }
  }
}
