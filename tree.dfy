/**
 * A translation tree as JavaScript sees it: string leaves and plain objects
 * whose own properties are listed in the order they are written, and the
 * optional-chaining step `value?.[k]` used to walk it.
 */
module Tree {

  datatype Option<+T> = None | Some(value: T)

  /** A translation value: a string, or an object holding further keys. */
  datatype Node = Leaf(text: string) | Branch(props: Props)

  /** The own properties of an object literal, first written first. */
  datatype Props = NoProps | Prop(key: string, value: Node, rest: Props)

  /** The own keys of an object, in order. */
  function Keys(ps: Props): seq<string>
  {
    match ps
    case NoProps => []
    case Prop(k, _, rest) => [k] + Keys(rest)
  }

  /** The properties of `a` followed by those of `b`. */
  function Concat(a: Props, b: Props): Props
  {
    match a
    case NoProps => b
    case Prop(k, v, rest) => Prop(k, v, Concat(rest, b))
  }

  /**
   * The own property `k` of an object (`obj[k]`): found exactly when `k` is
   * one of its keys; when a literal repeats a key, the last one written wins.
   */
  function Get(ps: Props, k: string): (r: Option<Node>)
    ensures r.Some? <==> k in Keys(ps)
  {
    match ps
    case NoProps => None
    case Prop(k', v, rest) =>
      var later := Get(rest, k);
      if later.Some? then later
      else if k' == k then Some(v)
      else None
  }

  /** The first written property with a key not repeated later is the one found. */
  lemma GetFirst(k: string, v: Node, rest: Props)
    requires k !in Keys(rest)
    ensures Get(Prop(k, v, rest), k) == Some(v)
  {
  }

  /** Properties written later shadow those written earlier. */
  lemma {:induction false} GetConcat(a: Props, b: Props, k: string)
    ensures Get(Concat(a, b), k) == if Get(b, k).Some? then Get(b, k) else Get(a, k)
  {
    match a
    case NoProps =>
    case Prop(k', v, rest) => GetConcat(rest, b, k);
  }

  /** The properties of several blocks of an object literal, one block after the other. */
  function Flatten(blocks: seq<Props>): Props
  {
    if blocks == [] then NoProps else Concat(blocks[0], Flatten(blocks[1..]))
  }

  /** A key that no block has is not a property of the whole. */
  lemma {:induction false} GetFlattenAbsent(blocks: seq<Props>, k: string)
    requires forall j :: 0 <= j < |blocks| ==> k !in Keys(blocks[j])
    ensures Get(Flatten(blocks), k) == None
    decreases |blocks|
  {
    if blocks != [] {
      GetFlattenAbsent(blocks[1..], k);
      GetConcat(blocks[0], Flatten(blocks[1..]), k);
    }
  }

  /** A key of block `i` that no later block repeats is looked up in block `i`. */
  lemma {:induction false} GetFlatten(blocks: seq<Props>, i: nat, k: string)
    requires i < |blocks|
    requires k in Keys(blocks[i])
    requires forall j :: i < j < |blocks| ==> k !in Keys(blocks[j])
    ensures Get(Flatten(blocks), k) == Get(blocks[i], k)
    decreases |blocks|
  {
    GetConcat(blocks[0], Flatten(blocks[1..]), k);
    if i == 0 {
      GetFlattenAbsent(blocks[1..], k);
    } else {
      GetFlatten(blocks[1..], i - 1, k);
    }
  }

  /** A key opening block `i`, and written nowhere after that, is found with the value written there. */
  lemma GetFlattenFirst(blocks: seq<Props>, i: nat, k: string)
    requires i < |blocks| && blocks[i].Prop? && blocks[i].key == k
    requires k !in Keys(blocks[i].rest)
    requires forall j :: i < j < |blocks| ==> k !in Keys(blocks[j])
    ensures Get(Flatten(blocks), k) == Some(blocks[i].value)
  {
    GetFirst(k, blocks[i].value, blocks[i].rest);
    GetFlatten(blocks, i, k);
  }

  /** One iteration of `value = value?.[k]`: undefined, and any string, give undefined. */
  function Step(v: Option<Node>, k: string): Option<Node>
  {
    match v
    case Some(Branch(ps)) => Get(ps, k)
    case _ => None
  }

  /** The value reached by descending from `n` along `path`, one key at a time. */
  function Lookup(n: Node, path: seq<string>): Option<Node>
    decreases |path|
  {
    if path == [] then Some(n)
    else
      match n
      case Leaf(_) => None
      case Branch(ps) =>
        match Get(ps, path[0])
        case None => None
        case Some(child) => Lookup(child, path[1..])
  }

  /** Descending along `p + q` is descending along `p`, then along `q`. */
  lemma {:induction false} LookupAppend(n: Node, p: seq<string>, q: seq<string>)
    ensures Lookup(n, p + q) == match Lookup(n, p)
                                case None => None
                                case Some(m) => Lookup(m, q)
    decreases |p|
  {
    if p == [] {
      assert p + q == q;
    } else {
      assert (p + q)[0] == p[0] && (p + q)[1..] == p[1..] + q;
      match n
      case Leaf(_) =>
      case Branch(ps) =>
        match Get(ps, p[0])
        case None =>
        case Some(child) => LookupAppend(child, p[1..], q);
    }
  }

  /** The loop's view of `Lookup`: one more key is one more `Step`. */
  lemma LookupSnoc(n: Node, p: seq<string>, k: string)
    ensures Lookup(n, p + [k]) == Step(Lookup(n, p), k)
  {
    LookupAppend(n, p, [k]);
    match Lookup(n, p)
    case None =>
    case Some(m) =>
      assert [k][1..] == [];
  }

  /** Once a prefix of the path is missing, every continuation of it is missing. */
  lemma LookupAbsentPrefix(n: Node, p: seq<string>, q: seq<string>)
    requires Lookup(n, p) == None
    ensures Lookup(n, p + q) == None
  {
    LookupAppend(n, p, q);
  }

  /** Every string leaf is non-empty and no object has the empty key. */
  predicate WellFormed(n: Node)
  {
    match n
    case Leaf(s) => s != ""
    case Branch(ps) => WellFormedProps(ps)
  }

  predicate WellFormedProps(ps: Props)
  {
    match ps
    case NoProps => true
    case Prop(k, v, rest) => k != "" && WellFormed(v) && WellFormedProps(rest)
  }

  /** Two trees with the same keys in the same order, and leaves where leaves are. */
  predicate SameShape(a: Node, b: Node)
  {
    match (a, b)
    case (Leaf(_), Leaf(_)) => true
    case (Branch(ps), Branch(qs)) => SameShapeProps(ps, qs)
    case _ => false
  }

  predicate SameShapeProps(ps: Props, qs: Props)
  {
    match (ps, qs)
    case (NoProps, NoProps) => true
    case (Prop(k, v, rest), Prop(k', v', rest')) =>
      k == k' && SameShape(v, v') && SameShapeProps(rest, rest')
    case _ => false
  }

  lemma {:induction false} WellFormedConcat(a: Props, b: Props)
    requires WellFormedProps(a) && WellFormedProps(b)
    ensures WellFormedProps(Concat(a, b))
  {
    match a
    case NoProps =>
    case Prop(_, _, rest) => WellFormedConcat(rest, b);
  }

  lemma {:induction false} SameShapeConcat(a: Props, b: Props, c: Props, d: Props)
    requires SameShapeProps(a, c) && SameShapeProps(b, d)
    ensures SameShapeProps(Concat(a, b), Concat(c, d))
  {
    match a
    case NoProps =>
    case Prop(_, _, rest) => SameShapeConcat(rest, b, c.rest, d);
  }

  /** Every tree has its own shape. */
  lemma {:induction false} SameShapeReflexive(n: Node)
    ensures SameShape(n, n)
    decreases n
  {
    match n
    case Leaf(_) =>
    case Branch(ps) => SameShapePropsReflexive(ps);
  }

  lemma {:induction false} SameShapePropsReflexive(ps: Props)
    ensures SameShapeProps(ps, ps)
    decreases ps
  {
    match ps
    case NoProps =>
    case Prop(_, v, rest) =>
      SameShapeReflexive(v);
      SameShapePropsReflexive(rest);
  }

  lemma {:induction false} SameShapeSymmetric(a: Node, b: Node)
    requires SameShape(a, b)
    ensures SameShape(b, a)
    decreases a
  {
    match a
    case Leaf(_) =>
    case Branch(ps) => SameShapePropsSymmetric(ps, b.props);
  }

  lemma {:induction false} SameShapePropsSymmetric(ps: Props, qs: Props)
    requires SameShapeProps(ps, qs)
    ensures SameShapeProps(qs, ps)
    decreases ps
  {
    match ps
    case NoProps =>
    case Prop(_, v, rest) =>
      SameShapeSymmetric(v, qs.value);
      SameShapePropsSymmetric(rest, qs.rest);
  }

  lemma {:induction false} SameShapeTransitive(a: Node, b: Node, c: Node)
    requires SameShape(a, b) && SameShape(b, c)
    ensures SameShape(a, c)
    decreases a
  {
    match a
    case Leaf(_) =>
    case Branch(ps) => SameShapePropsTransitive(ps, b.props, c.props);
  }

  lemma {:induction false} SameShapePropsTransitive(ps: Props, qs: Props, rs: Props)
    requires SameShapeProps(ps, qs) && SameShapeProps(qs, rs)
    ensures SameShapeProps(ps, rs)
    decreases ps
  {
    match ps
    case NoProps =>
    case Prop(_, v, rest) =>
      SameShapeTransitive(v, qs.value, rs.value);
      SameShapePropsTransitive(rest, qs.rest, rs.rest);
  }

  /** Objects of the same shape have the same keys, holding values of the same shape. */
  lemma {:induction false} GetSameShape(ps: Props, qs: Props, k: string)
    requires SameShapeProps(ps, qs)
    ensures Get(ps, k).Some? <==> Get(qs, k).Some?
    ensures Get(ps, k).Some? ==> SameShape(Get(ps, k).value, Get(qs, k).value)
  {
    match ps
    case NoProps =>
    case Prop(_, _, rest) => GetSameShape(rest, qs.rest, k);
  }

  /** In a well-formed object, a property found has a non-empty key and a well-formed value. */
  lemma {:induction false} GetWellFormed(ps: Props, k: string)
    requires WellFormedProps(ps) && Get(ps, k).Some?
    ensures k != "" && WellFormed(Get(ps, k).value)
  {
    match ps
    case NoProps =>
    case Prop(_, _, rest) =>
      if Get(rest, k).Some? {
        GetWellFormed(rest, k);
      }
  }

  /**
   * Trees of the same shape resolve the same paths, and to nodes of the
   * same shape: a leaf in one is a leaf in the other.
   */
  lemma {:induction false} LookupSameShape(a: Node, b: Node, path: seq<string>)
    requires SameShape(a, b)
    ensures Lookup(a, path).Some? <==> Lookup(b, path).Some?
    ensures Lookup(a, path).Some? ==> SameShape(Lookup(a, path).value, Lookup(b, path).value)
    decreases |path|
  {
    if path != [] {
      match a
      case Leaf(_) =>
      case Branch(ps) =>
        var qs := b.props;
        GetSameShape(ps, qs, path[0]);
        if Get(ps, path[0]).Some? {
          LookupSameShape(Get(ps, path[0]).value, Get(qs, path[0]).value, path[1..]);
        }
    }
  }

  /** In a well-formed tree every node reached is well-formed: a leaf reached is never empty. */
  lemma {:induction false} LookupWellFormed(n: Node, path: seq<string>)
    requires WellFormed(n)
    requires Lookup(n, path).Some?
    ensures WellFormed(Lookup(n, path).value)
    ensures Lookup(n, path).value.Leaf? ==> Lookup(n, path).value.text != ""
    decreases |path|
  {
    if path != [] {
      GetWellFormed(n.props, path[0]);
      LookupWellFormed(Get(n.props, path[0]).value, path[1..]);
    }
  }

  /** A well-formed tree has no empty key, so a path with an empty segment is never found. */
  lemma {:induction false} LookupEmptySegment(n: Node, path: seq<string>)
    requires WellFormed(n)
    requires "" in path
    ensures Lookup(n, path) == None
    decreases |path|
  {
    match n
    case Leaf(_) =>
    case Branch(ps) =>
      if Get(ps, path[0]).Some? {
        GetWellFormed(ps, path[0]);
        assert "" in path[1..];
        LookupEmptySegment(Get(ps, path[0]).value, path[1..]);
      }
  }
}
