/**
 * `interfaces(clazz)`: every interface declared by a class or by one of its
 * superclasses, collected into a `HashSet` and returned as an array.
 */
module Classes {
  import opened Objects

  /** The class followed by its superclass chain, up to `java.lang.Object`. */
  function Ancestry(c: JClass): (r: seq<JClass>)
    ensures |r| >= 1 && r[0] == c
  {
    [c] + match c.superclass
          case None => []
          case Some(s) => Ancestry(s)
  }

  /** The union of the declared interfaces along the superclass chain. */
  function AllInterfaces(c: JClass): set<TypeDesc> {
    c.interfaces + match c.superclass
                   case None => {}
                   case Some(s) => AllInterfaces(s)
  }

  /** The interfaces still to be added once the loop has reached `cur`. */
  function Remaining(cur: Option<JClass>): set<TypeDesc> {
    match cur
    case None => {}
    case Some(c) => AllInterfaces(c)
  }

  /** How many more iterations the loop runs from `cur`. */
  function Depth(cur: Option<JClass>): nat {
    match cur
    case None => 0
    case Some(c) => 1 + Depth(c.superclass)
  }

  /**
   * An interface is collected exactly when some class of the chain declares it.
   */
  lemma {:induction false} AllInterfacesByAncestry(c: JClass, i: TypeDesc)
    ensures i in AllInterfaces(c) <==>
            exists k :: 0 <= k < |Ancestry(c)| && i in Ancestry(c)[k].interfaces
  {
    match c.superclass
    case None =>
      assert Ancestry(c) == [c];
    case Some(s) =>
      AllInterfacesByAncestry(s, i);
      assert Ancestry(c) == [c] + Ancestry(s);
      if i in AllInterfaces(c) && i !in c.interfaces {
        var k :| 0 <= k < |Ancestry(s)| && i in Ancestry(s)[k].interfaces;
        assert Ancestry(c)[k + 1] == Ancestry(s)[k];
      }
      if exists k :: 0 <= k < |Ancestry(c)| && i in Ancestry(c)[k].interfaces {
        var k :| 0 <= k < |Ancestry(c)| && i in Ancestry(c)[k].interfaces;
        if k > 0 {
          assert Ancestry(s)[k - 1] == Ancestry(c)[k];
        }
      }
  }

  /**
   * The while-loop over the superclass chain followed by `toArray`: the
   * result holds every collected interface once and nothing else.
   */
  method Interfaces(clazz: JClass) returns (r: seq<TypeDesc>)
    ensures forall i :: i in r <==> i in AllInterfaces(clazz)
    ensures forall j, k :: 0 <= j < k < |r| ==> r[j] != r[k]
  {
    var interfaces: set<TypeDesc> := {};
    var cur := Some(clazz);
    while cur.Some?
      invariant interfaces + Remaining(cur) == AllInterfaces(clazz)
      decreases Depth(cur)
    {
      interfaces := interfaces + cur.value.interfaces;
      cur := cur.value.superclass;
    }
    r := [];
    var left := interfaces;
    while left != {}
      invariant left <= interfaces
      invariant forall i :: i in r <==> i in interfaces - left
      invariant forall j, k :: 0 <= j < k < |r| ==> r[j] != r[k]
      decreases |left|
    {
      var x :| x in left;
      assert x !in r;
      r := r + [x];
      left := left - {x};
    }
  }
}
