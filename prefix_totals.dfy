/**
 * The aggregation loop shared by the Top MIME Types, License Types and All
 * MIME Types charts: every own field of every document is keyed by
 * `fieldName.split(prefix)[1]` and its value is accumulated into a
 * dictionary, which is then turned into one `{key, y}` entry per key.
 *
 * A JavaScript object used as a dictionary is modelled as its keys in
 * insertion order (the order a `for...in` loop visits them) together with a
 * map from key to value.
 */
module PrefixTotals {
  import opened Text

  /** One field of a document returned by the search backend. */
  datatype Field = Field(name: string, value: int)

  /** A document: its own fields, in enumeration order. */
  type Doc = seq<Field>

  /** What `obj[undefined]` reads and writes: the property named "undefined". */
  const UndefinedKey: string := "undefined"

  /**
   * The dictionary key of a field: `name.split(prefix)[1]`, that is the text
   * between the first and the second occurrence of `prefix` (or after the
   * first one when there is no second), and "undefined" when `prefix` does
   * not occur in `name`.
   */
  function KeyOf(name: string, prefix: string): string {
    var parts := Split(name, prefix);
    if |parts| > 1 then parts[1] else UndefinedKey
  }

  /** The key is the text between the first and second occurrence of the prefix. */
  lemma {:induction false} KeyBetweenOccurrences(name: string, prefix: string)
    requires |prefix| > 0
    ensures IndexOf(name, prefix) == -1 ==> KeyOf(name, prefix) == UndefinedKey
    ensures IndexOf(name, prefix) != -1 ==>
      var rest := name[IndexOf(name, prefix) + |prefix|..];
      KeyOf(name, prefix) == if IndexOf(rest, prefix) == -1 then rest else rest[..IndexOf(rest, prefix)]
  {
    var i := IndexOf(name, prefix);
    SplitAtUnfold(name, prefix);
    if i != -1 {
      SplitAtUnfold(name[i + |prefix|..], prefix);
    }
  }

  /** An ordinary field `prefix + k` is keyed by `k`, provided `k` does not repeat the prefix. */
  lemma {:induction false} KeyOfPrefixedName(prefix: string, k: string)
    requires |prefix| > 0 && !Includes(k, prefix)
    ensures KeyOf(prefix + k, prefix) == k
  {
    var name := prefix + k;
    assert OccursAt(name, prefix, 0);
    KeyBetweenOccurrences(name, prefix);
    assert name[|prefix|..] == k;
  }

  /**
   * `isEqual` of two documents: the same own fields with the same values,
   * in whatever order they are enumerated. An object's own names are
   * distinct, so its fields are given by the set of its name-value pairs.
   */
  predicate SameFields(a: Doc, b: Doc) {
    (forall f | f in a :: f in b) && (forall f | f in b :: f in a)
  }

  /** `isEqual` of two arrays of documents: element by element. */
  predicate DocsDeepEqual(a: seq<Doc>, b: seq<Doc>) {
    |a| == |b| && forall i :: 0 <= i < |a| ==> SameFields(a[i], b[i])
  }

  /** Each document of `b` holds the fields of the document of `a` at its position, possibly reordered. */
  predicate Reordered(a: seq<Doc>, b: seq<Doc>) {
    |a| == |b| && forall i :: 0 <= i < |a| ==> multiset(a[i]) == multiset(b[i])
  }

  /** Deep equality is an equivalence, and it holds of documents whose fields are only reordered. */
  lemma {:induction false} DocsDeepEqualFacts(a: seq<Doc>, b: seq<Doc>, c: seq<Doc>)
    ensures DocsDeepEqual(a, a)
    ensures DocsDeepEqual(a, b) ==> DocsDeepEqual(b, a)
    ensures DocsDeepEqual(a, b) && DocsDeepEqual(b, c) ==> DocsDeepEqual(a, c)
    ensures Reordered(a, b) ==> DocsDeepEqual(a, b)
  {
    if Reordered(a, b) {
      forall i, f | 0 <= i < |a|
        ensures f in a[i] <==> f in b[i]
      {
        assert f in a[i] <==> f in multiset(a[i]);
        assert f in b[i] <==> f in multiset(b[i]);
      }
    }
  }

  /** Two documents with the same fields in another order are deep-equal but not the same sequence. */
  lemma ReorderedDocsDiffer()
    ensures var a, b := Field("license_A", 1), Field("license_B", 2);
      DocsDeepEqual([[a, b]], [[b, a]]) && [[a, b]] != [[b, a]]
  {
    var a, b := Field("license_A", 1), Field("license_B", 2);
    assert multiset([a, b]) == multiset([b, a]);
    DocsDeepEqualFacts([[a, b]], [[b, a]], []);
    assert [a, b][0] != [b, a][0];
  }

  /** A key with a value: an element of `resultingData`, and a keyed field. */
  datatype Entry = Entry(key: string, y: int)

  /** Each field paired with its dictionary key. */
  function Keyed(fields: seq<Field>, prefix: string): (kvs: seq<Entry>)
    ensures |kvs| == |fields|
    ensures forall i :: 0 <= i < |fields| ==> kvs[i] == Entry(KeyOf(fields[i].name, prefix), fields[i].value)
  {
    seq(|fields|, i requires 0 <= i < |fields| => Entry(KeyOf(fields[i].name, prefix), fields[i].value))
  }

  /** All fields of all documents, document by document. */
  function Flatten(docs: seq<Doc>): seq<Field> {
    if |docs| == 0 then [] else Flatten(docs[..|docs| - 1]) + docs[|docs| - 1]
  }

  /** A dictionary: its keys in insertion order and its values. */
  datatype Dict = Dict(order: seq<string>, values: map<string, int>)

  predicate Distinct(s: seq<string>) {
    forall i, j :: 0 <= i < j < |s| ==> s[i] != s[j]
  }

  /** Each key is listed once, and the listed keys are exactly the keys with a value. */
  predicate Valid(d: Dict) {
    && Distinct(d.order)
    && (forall k :: k in d.values ==> k in d.order)
    && (forall i :: 0 <= i < |d.order| ==> d.order[i] in d.values)
  }

  const EmptyDict: Dict := Dict([], map[])

  /**
   * One step of the accumulation loop: a key seen for the first time is set
   * to the value (and appended to the key order); a key already present has
   * the value added to it.
   */
  function Add(d: Dict, key: string, value: int): Dict {
    if key !in d.values then Dict(d.order + [key], d.values[key := value])
    else Dict(d.order, d.values[key := d.values[key] + value])
  }

  /** The dictionary after the accumulation loop has visited the keyed fields `kvs`. */
  function Accumulated(kvs: seq<Entry>): (d: Dict)
    ensures Valid(d)
  {
    if |kvs| == 0 then EmptyDict
    else Add(Accumulated(kvs[..|kvs| - 1]), kvs[|kvs| - 1].key, kvs[|kvs| - 1].y)
  }

  /** The dictionary the three charts build from `docs`. */
  function Totals(docs: seq<Doc>, prefix: string): (d: Dict)
    ensures Valid(d)
  {
    Accumulated(Keyed(Flatten(docs), prefix))
  }

  lemma {:induction false} AccumulatedStep(kvs: seq<Entry>, e: Entry)
    ensures Accumulated(kvs + [e]) == Add(Accumulated(kvs), e.key, e.y)
  {
    assert (kvs + [e])[..|kvs|] == kvs;
  }

  /** The key of every keyed field, in order. */
  function Keys(kvs: seq<Entry>): (ks: seq<string>)
    ensures |ks| == |kvs|
    ensures forall i :: 0 <= i < |kvs| ==> ks[i] == kvs[i].key
  {
    seq(|kvs|, i requires 0 <= i < |kvs| => kvs[i].key)
  }

  /** The sum of the values carried by the keyed fields whose key is `k`. */
  function SumFor(kvs: seq<Entry>, k: string): int {
    if |kvs| == 0 then 0
    else SumFor(kvs[..|kvs| - 1], k) + (if kvs[|kvs| - 1].key == k then kvs[|kvs| - 1].y else 0)
  }

  /** The position of the first occurrence of `x` in `s`. */
  function FirstIndex(s: seq<string>, x: string): (i: nat)
    requires x in s
    ensures i < |s| && s[i] == x && forall j :: 0 <= j < i ==> s[j] != x
  {
    if s[0] == x then 0 else 1 + FirstIndex(s[1..], x)
  }

  lemma {:induction false} FirstIndexAppend(s: seq<string>, y: string, x: string)
    requires x in s
    ensures FirstIndex(s + [y], x) == FirstIndex(s, x)
  {
    var i := FirstIndex(s, x);
    var t := s + [y];
    var j := FirstIndex(t, x);
    assert t[i] == x;
    assert s[j] == x || j == |s|;
  }

  /** The dictionary has a value for exactly the keys of the fields. */
  lemma {:induction false} AccumulatedKeys(kvs: seq<Entry>)
    ensures forall k :: k in Accumulated(kvs).values <==> k in Keys(kvs)
  {
    if |kvs| > 0 {
      var n := |kvs| - 1;
      AccumulatedKeys(kvs[..n]);
      assert Keys(kvs) == Keys(kvs[..n]) + [kvs[n].key];
    }
  }

  /** A key no field has sums to zero. */
  lemma {:induction false} SumForAbsent(kvs: seq<Entry>, k: string)
    requires k !in Keys(kvs)
    ensures SumFor(kvs, k) == 0
  {
    if |kvs| > 0 {
      var n := |kvs| - 1;
      assert Keys(kvs) == Keys(kvs[..n]) + [kvs[n].key];
      SumForAbsent(kvs[..n], k);
    }
  }

  /**
   * Each key's value is the sum of the values of the fields with that key:
   * the first occurrence initialises the value and every later one adds to it.
   */
  lemma {:induction false} AccumulatedSums(kvs: seq<Entry>)
    ensures var d := Accumulated(kvs);
      forall k :: k in d.values ==> d.values[k] == SumFor(kvs, k)
  {
    if |kvs| > 0 {
      var n := |kvs| - 1;
      AccumulatedSums(kvs[..n]);
      AccumulatedKeys(kvs[..n]);
      var d0 := Accumulated(kvs[..n]);
      if kvs[n].key !in d0.values {
        SumForAbsent(kvs[..n], kvs[n].key);
      }
    }
  }

  /** Every key of `order` occurs in `ks`, and `order` lists them by increasing first occurrence. */
  predicate InFirstSeenOrder(order: seq<string>, ks: seq<string>) {
    && (forall i :: 0 <= i < |order| ==> order[i] in ks)
    && (forall i, j :: 0 <= i < j < |order| && order[i] in ks && order[j] in ks ==>
          FirstIndex(ks, order[i]) < FirstIndex(ks, order[j]))
  }

  /** The keys are listed in the order of their first occurrence among the fields. */
  lemma {:induction false} AccumulatedOrder(kvs: seq<Entry>)
    ensures InFirstSeenOrder(Accumulated(kvs).order, Keys(kvs))
  {
    if |kvs| > 0 {
      var n := |kvs| - 1;
      var key := kvs[n].key;
      AccumulatedOrder(kvs[..n]);
      AccumulatedKeys(kvs[..n]);
      var d0 := Accumulated(kvs[..n]);
      var ks0 := Keys(kvs[..n]);
      assert Keys(kvs) == ks0 + [key];
      if key !in d0.values {
        assert Accumulated(kvs).order == d0.order + [key];
        OrderAfterNewKey(d0.order, ks0, key);
      } else {
        assert Accumulated(kvs).order == d0.order;
        OrderAfterOldKey(d0.order, ks0, key);
      }
    }
  }

  lemma {:induction false} OrderAfterNewKey(order: seq<string>, ks: seq<string>, key: string)
    requires InFirstSeenOrder(order, ks) && key !in ks
    ensures InFirstSeenOrder(order + [key], ks + [key])
  {
    var o := order + [key];
    var t := ks + [key];
    assert FirstIndex(t, key) == |ks|;
    forall i | 0 <= i < |order|
      ensures FirstIndex(t, o[i]) == FirstIndex(ks, order[i])
    {
      FirstIndexAppend(ks, key, order[i]);
    }
  }

  lemma {:induction false} OrderAfterOldKey(order: seq<string>, ks: seq<string>, key: string)
    requires InFirstSeenOrder(order, ks)
    ensures InFirstSeenOrder(order, ks + [key])
  {
    forall i | 0 <= i < |order|
      ensures FirstIndex(ks + [key], order[i]) == FirstIndex(ks, order[i])
    {
      FirstIndexAppend(ks, key, order[i]);
    }
  }

  lemma {:induction false} KeyedAppend(fields: seq<Field>, f: Field, prefix: string)
    ensures Keyed(fields + [f], prefix) == Keyed(fields, prefix) + [Entry(KeyOf(f.name, prefix), f.value)]
  {
  }

  /** Visiting one more field is one more `Add`. */
  lemma {:induction false} StepKeyed(fields: seq<Field>, f: Field, prefix: string, d: Dict)
    requires d == Accumulated(Keyed(fields, prefix))
    ensures Accumulated(Keyed(fields + [f], prefix)) == Add(d, KeyOf(f.name, prefix), f.value)
  {
    KeyedAppend(fields, f, prefix);
    AccumulatedStep(Keyed(fields, prefix), Entry(KeyOf(f.name, prefix), f.value));
  }

  lemma {:induction false} TakeOneMore(seen: seq<Field>, doc: Doc, j: nat)
    requires j < |doc|
    ensures seen + doc[..j + 1] == (seen + doc[..j]) + [doc[j]]
  {
    assert doc[..j + 1] == doc[..j] + [doc[j]];
  }

  /**
   * The accumulation loop of the three charts: `docs.forEach` over the
   * callback below.
   */
  method Accumulate(docs: seq<Doc>, prefix: string) returns (dict: Dict)
    ensures dict == Totals(docs, prefix)
  {
    dict := EmptyDict;
    var i := 0;
    while i < |docs|
      invariant 0 <= i <= |docs|
      invariant dict == Accumulated(Keyed(Flatten(docs[..i]), prefix))
    {
      assert docs[..i + 1][..i] == docs[..i];
      dict := AccumulateDoc(dict, docs[i], prefix, Flatten(docs[..i]));
      i := i + 1;
    }
    assert docs[..i] == docs;
  }

  /**
   * The `forEach` callback: `for (const d in doc)` adds every field of one
   * document to the dictionary.
   */
  method AccumulateDoc(dict0: Dict, doc: Doc, prefix: string, ghost seen: seq<Field>) returns (dict: Dict)
    requires dict0 == Accumulated(Keyed(seen, prefix))
    ensures dict == Accumulated(Keyed(seen + doc, prefix))
  {
    dict := dict0;
    ghost var fields := seen;
    var j := 0;
    while j < |doc|
      invariant 0 <= j <= |doc|
      invariant fields == seen + doc[..j]
      invariant dict == Accumulated(Keyed(fields, prefix))
    {
      var key := KeyOf(doc[j].name, prefix);
      var value := doc[j].value;
      StepKeyed(fields, doc[j], prefix, dict);
      dict := AddTo(dict, key, value);
      TakeOneMore(seen, doc, j);
      fields := fields + [doc[j]];
      j := j + 1;
    }
    assert doc[..j] == doc;
  }

  /** The loop body's update: a key with no value yet takes the value, any other key has it added. */
  method AddTo(dict0: Dict, key: string, value: int) returns (dict: Dict)
    ensures dict == Add(dict0, key, value)
  {
    if key !in dict0.values {
      dict := Dict(dict0.order + [key], dict0.values[key := value]);
    } else {
      dict := Dict(dict0.order, dict0.values[key := dict0.values[key] + value]);
    }
  }

  /** The entries, one per dictionary key, in the order `for...in` visits the keys. */
  function EntriesOf(d: Dict): (es: seq<Entry>)
    requires Valid(d)
    ensures |es| == |d.order|
  {
    seq(|d.order|, i requires 0 <= i < |d.order| => Entry(d.order[i], d.values[d.order[i]]))
  }

  /** The `for (const m in mime)` loop that pushes `{key: m, y: mime[m]}`. */
  method ToEntries(dict: Dict) returns (resultingData: seq<Entry>)
    requires Valid(dict)
    ensures resultingData == EntriesOf(dict)
  {
    resultingData := [];
    var i := 0;
    while i < |dict.order|
      invariant 0 <= i <= |dict.order|
      invariant resultingData == EntriesOf(dict)[..i]
    {
      var m := dict.order[i];
      resultingData := resultingData + [Entry(m, dict.values[m])];
      i := i + 1;
    }
  }

  predicate DistinctKeys(es: seq<Entry>) {
    forall i, j :: 0 <= i < j < |es| ==> es[i].key != es[j].key
  }

  /**
   * `resultingData` holds exactly one entry per distinct field key, carrying
   * the sum of the values of the fields with that key, in the order the keys
   * first occur.
   */
  lemma {:induction false} EntriesSpec(kvs: seq<Entry>)
    ensures var es := EntriesOf(Accumulated(kvs));
      && DistinctKeys(es)
      && (forall k :: k in Keys(kvs) <==> exists i :: 0 <= i < |es| && es[i].key == k)
      && (forall i :: 0 <= i < |es| ==> es[i].y == SumFor(kvs, es[i].key))
      && InFirstSeenOrder(Keys(es), Keys(kvs))
  {
    var d := Accumulated(kvs);
    AccumulatedKeys(kvs);
    AccumulatedSums(kvs);
    AccumulatedOrder(kvs);
    EntriesOfSpec(d);
  }

  /** The entries of a dictionary list its keys, each once and in order, with their values. */
  lemma {:induction false} EntriesOfSpec(d: Dict)
    requires Valid(d)
    ensures var es := EntriesOf(d);
      && Keys(es) == d.order
      && DistinctKeys(es)
      && (forall i :: 0 <= i < |es| ==> es[i].key in d.values && es[i].y == d.values[es[i].key])
      && (forall k :: k in d.values <==> exists i :: 0 <= i < |es| && es[i].key == k)
  {
    var es := EntriesOf(d);
    assert Keys(es) == d.order;
    forall k | k in d.values
      ensures exists i :: 0 <= i < |es| && es[i].key == k
    {
      var i :| 0 <= i < |d.order| && d.order[i] == k;
      assert es[i].key == k;
    }
  }

  /** Empty input gives an empty dictionary. */
  lemma {:induction false} TotalsOfNoDocs(prefix: string)
    ensures Totals([], prefix) == EmptyDict
  {
  }
}
