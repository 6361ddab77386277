/**
 * The All MIME Types bubble chart: totals per `mime_` field arranged as a
 * two-level `flare` hierarchy, which `classes` flattens to one bubble per
 * leaf; and the component's load cycle.
 */
module AllMimeTypesChart {
  import opened Wrappers
  import opened PrefixTotals
  import opened Fetch

  const MimePrefix: string := "mime_"
  const RootName: string := "flare"

  /**
   * A node of the hierarchy: an object with a `children` array is internal
   * (even when the array is empty), any other is a leaf with a `size`.
   */
  datatype Node = Leaf(name: string, size: int) | Group(name: string, children: seq<Node>)

  /** One element of `classes(root).children`. */
  datatype ClassEntry = ClassEntry(packageName: Option<string>, className: string, value: int)

  /** The category built for key `m`: named `m`, with the single leaf `{name: m, size: total}`. */
  function Category(m: string, total: int): Node {
    Group(m, [Leaf(m, total)])
  }

  /** The categories, one per dictionary key, in the order `for...in` visits the keys. */
  function Categories(d: Dict): (cs: seq<Node>)
    requires Valid(d)
    ensures |cs| == |d.order|
  {
    seq(|d.order|, i requires 0 <= i < |d.order| => Category(d.order[i], d.values[d.order[i]]))
  }

  /** `test`: the root named `flare` whose children are the categories. */
  function Hierarchy(d: Dict): Node
    requires Valid(d)
  {
    Group(RootName, Categories(d))
  }

  /** The `for (const m in mime)` loop that builds a category per key, and the root over them. */
  method BuildHierarchy(mime: Dict) returns (test: Node)
    requires Valid(mime)
    ensures test == Hierarchy(mime)
  {
    var resultingData: seq<Node> := [];
    var i := 0;
    while i < |mime.order|
      invariant 0 <= i <= |mime.order|
      invariant resultingData == Categories(mime)[..i]
    {
      var m := mime.order[i];
      var child := [Leaf(m, mime.values[m])];
      resultingData := resultingData + [Group(m, child)];
      i := i + 1;
    }
    test := Group(RootName, resultingData);
  }

  /**
   * `recurse(name, node)` of `classes`: an internal node passes its own name
   * down to each child in turn, a leaf yields one entry naming its parent.
   */
  function Classes(parent: Option<string>, node: Node): seq<ClassEntry>
    decreases node
  {
    match node
    case Leaf(name, size) => [ClassEntry(parent, name, size)]
    case Group(name, children) => ClassesOf(Some(name), children)
  }

  function ClassesOf(parent: Option<string>, nodes: seq<Node>): seq<ClassEntry>
    decreases nodes
  {
    if |nodes| == 0 then [] else Classes(parent, nodes[0]) + ClassesOf(parent, nodes[1..])
  }

  /** The number of leaves below a node. */
  function LeafCount(node: Node): nat
    decreases node
  {
    match node
    case Leaf(_, _) => 1
    case Group(_, children) => LeafCountOf(children)
  }

  function LeafCountOf(nodes: seq<Node>): nat
    decreases nodes
  {
    if |nodes| == 0 then 0 else LeafCount(nodes[0]) + LeafCountOf(nodes[1..])
  }

  /** `classes` yields exactly one entry per leaf. */
  lemma {:induction false} ClassesCount(parent: Option<string>, node: Node)
    ensures |Classes(parent, node)| == LeafCount(node)
    decreases node
  {
    match node
    case Leaf(_, _) =>
    case Group(name, children) => ClassesOfCount(Some(name), children);
  }

  lemma {:induction false} ClassesOfCount(parent: Option<string>, nodes: seq<Node>)
    ensures |ClassesOf(parent, nodes)| == LeafCountOf(nodes)
    decreases nodes
  {
    if |nodes| > 0 {
      ClassesCount(parent, nodes[0]);
      ClassesOfCount(parent, nodes[1..]);
    }
  }

  /** Flattening a run of siblings is flattening each in turn, left to right. */
  lemma {:induction false} ClassesOfAppend(parent: Option<string>, a: seq<Node>, b: seq<Node>)
    ensures ClassesOf(parent, a + b) == ClassesOf(parent, a) + ClassesOf(parent, b)
    decreases a
  {
    if |a| == 0 {
      assert a + b == b;
    } else {
      assert (a + b)[1..] == a[1..] + b;
      ClassesOfAppend(parent, a[1..], b);
    }
  }

  /** An internal node with no children yields nothing, whatever its parent. */
  lemma {:induction false} ClassesOfEmptyGroup(parent: Option<string>, name: string)
    ensures Classes(parent, Group(name, [])) == []
  {
  }

  /**
   * For the built hierarchy, entry `i` is the bubble of the `i`-th key:
   * package and class are both the key and the value is its total; there is
   * one bubble per key, zero totals included.
   */
  lemma {:induction false} ClassesOfHierarchy(d: Dict)
    requires Valid(d)
    ensures var cs := Classes(None, Hierarchy(d));
      && |cs| == |d.order|
      && forall i :: 0 <= i < |d.order| ==> cs[i] == ClassEntry(Some(d.order[i]), d.order[i], d.values[d.order[i]])
  {
    CategoriesFlatten(d, |d.order|);
    assert Categories(d)[..|d.order|] == Categories(d);
  }

  lemma {:induction false} CategoriesFlatten(d: Dict, n: nat)
    requires Valid(d) && n <= |d.order|
    ensures var cs := ClassesOf(Some(RootName), Categories(d)[..n]);
      && |cs| == n
      && forall i :: 0 <= i < n ==> cs[i] == ClassEntry(Some(d.order[i]), d.order[i], d.values[d.order[i]])
  {
    if n > 0 {
      var cats := Categories(d);
      CategoriesFlatten(d, n - 1);
      assert cats[..n] == cats[..n - 1] + [cats[n - 1]];
      ClassesOfAppend(Some(RootName), cats[..n - 1], [cats[n - 1]]);
      CategoryFlatten(Some(RootName), d.order[n - 1], d.values[d.order[n - 1]]);
    }
  }

  /** A category flattens to its one leaf, with the category's name as the package. */
  lemma {:induction false} CategoryFlatten(parent: Option<string>, m: string, total: int)
    ensures ClassesOf(parent, [Category(m, total)]) == [ClassEntry(Some(m), m, total)]
  {
    var leaf := [Leaf(m, total)];
    assert leaf[1..] == [];
    assert ClassesOf(Some(m), leaf) == [ClassEntry(Some(m), m, total)];
    assert [Category(m, total)][1..] == [];
  }

  /** The bubbles `drawChart` lays out for `docs`. */
  function BubbleData(docs: seq<Doc>): seq<ClassEntry> {
    Classes(None, Hierarchy(Totals(docs, MimePrefix)))
  }

  /** `drawChart` up to the data handed to the pack layout. */
  method DrawChartData(docs: seq<Doc>) returns (classes: seq<ClassEntry>)
    ensures classes == BubbleData(docs)
  {
    var mime := Accumulate(docs, MimePrefix);
    var test := BuildHierarchy(mime);
    classes := Classes(None, test);
  }

  /**
   * The bubbles are the keys of the fields in first-seen order, one each,
   * each sized by the sum of the values of its fields.
   */
  lemma {:induction false} BubbleDataSpec(docs: seq<Doc>)
    ensures var kvs := Keyed(Flatten(docs), MimePrefix);
      var bubbles := BubbleData(docs);
      && (forall i :: 0 <= i < |bubbles| ==>
            bubbles[i].packageName == Some(bubbles[i].className) &&
            bubbles[i].value == SumFor(kvs, bubbles[i].className))
      && (forall k :: k in Keys(kvs) <==> exists i :: 0 <= i < |bubbles| && bubbles[i].className == k)
      && (forall i, j :: 0 <= i < j < |bubbles| ==> bubbles[i].className != bubbles[j].className)
  {
    var kvs := Keyed(Flatten(docs), MimePrefix);
    assert BubbleData(docs) == Classes(None, Hierarchy(Accumulated(kvs)));
    BubblesOfTotals(kvs);
  }

  lemma {:induction false} BubblesOfTotals(kvs: seq<Entry>)
    ensures var bubbles := Classes(None, Hierarchy(Accumulated(kvs)));
      && (forall i :: 0 <= i < |bubbles| ==>
            bubbles[i].packageName == Some(bubbles[i].className) &&
            bubbles[i].value == SumFor(kvs, bubbles[i].className))
      && (forall k :: k in Keys(kvs) <==> exists i :: 0 <= i < |bubbles| && bubbles[i].className == k)
      && (forall i, j :: 0 <= i < j < |bubbles| ==> bubbles[i].className != bubbles[j].className)
  {
    var d := Accumulated(kvs);
    ClassesOfHierarchy(d);
    AccumulatedKeys(kvs);
    AccumulatedSums(kvs);
    var bubbles := Classes(None, Hierarchy(d));
    forall k | k in Keys(kvs)
      ensures exists i :: 0 <= i < |bubbles| && bubbles[i].className == k
    {
      var i :| 0 <= i < |d.order| && d.order[i] == k;
      assert bubbles[i].className == k;
    }
  }

  /** A load with no documents draws no bubbles, so its draw throws. */
  lemma NoDocsNoBubbles()
    ensures BubbleData([]) == []
  {
    TotalsOfNoDocs(MimePrefix);
    ClassesOfHierarchy(Totals([], MimePrefix));
  }

  /**
   * There are no bubbles exactly when the documents have no fields at all:
   * every field, with or without the prefix, opens a key.
   */
  lemma {:induction false} NoBubblesIffNoFields(docs: seq<Doc>)
    ensures |BubbleData(docs)| == 0 <==> |Flatten(docs)| == 0
  {
    BubbleDataSpec(docs);
    var kvs := Keyed(Flatten(docs), MimePrefix);
    var bubbles := BubbleData(docs);
    if |Flatten(docs)| > 0 {
      assert Keys(kvs)[0] in Keys(kvs);
    }
    if |bubbles| > 0 {
      assert bubbles[0].className in Keys(kvs);
    }
  }

  class AllMimeTypesChart {
    var state: LoadState<seq<Doc>>
    var isMounted: bool
    /** The bubbles of each chart drawn so far; every draw appends one more SVG element. */
    var drawn: seq<seq<ClassEntry>>

    constructor ()
      ensures state == Initial([]) && !isMounted && drawn == []
    {
      state := Initial([]);
      isMounted := false;
      drawn := [];
    }

    /** `componentDidMount`: marks the component mounted and starts a load. */
    method Mount()
      modifies this
      ensures isMounted && state == Started(old(state)) && drawn == old(drawn)
    {
      isMounted := true;
      StartLoad();
    }

    /** `componentWillUnmount`. */
    method Unmount()
      modifies this
      ensures !isMounted && state == old(state) && drawn == old(drawn)
    {
      isMounted := false;
    }

    /** The synchronous part of `callApiLoadSoftwareData`. */
    method StartLoad()
      modifies this
      ensures state == Started(old(state))
      ensures isMounted == old(isMounted) && drawn == old(drawn)
    {
      state := Started(state);
    }

    /**
     * The request settles. A 200 is used only while mounted: it stores the
     * documents and draws; when there are no bubbles `root.children` is
     * undefined, the draw throws at `.data(root.children).enter()` after
     * appending an empty SVG, and the `.catch` sets the error flag. Any
     * other response, including a 200 after unmounting, sets the error
     * flag; a rejection does so only while mounted.
     */
    method Resolve(outcome: FetchOutcome<seq<Doc>>)
      modifies this
      ensures isMounted == old(isMounted)
      ensures outcome.Response? && old(isMounted) && outcome.status == StatusOk ==>
        state == (if |BubbleData(outcome.docs)| > 0 then Loaded(old(state), outcome.docs)
                  else Failed(Loaded(old(state), outcome.docs))) &&
        drawn == old(drawn) + [BubbleData(outcome.docs)]
      ensures outcome.Response? && !(old(isMounted) && outcome.status == StatusOk) ==>
        state == Failed(old(state)) && drawn == old(drawn)
      ensures outcome.Rejected? ==>
        state == (if old(isMounted) then Failed(old(state)) else old(state)) && drawn == old(drawn)
    {
      match outcome {
        case Response(status, docs) =>
          if isMounted && status == StatusOk {
            state := Loaded(state, docs);
            var classes := DrawChartData(docs);
            drawn := drawn + [classes];
            if |classes| == 0 {
              state := Failed(state);
            }
          } else {
            state := Failed(state);
          }
        case Rejected =>
          if isMounted {
            state := Failed(state);
          }
      }
    }
  }
}
