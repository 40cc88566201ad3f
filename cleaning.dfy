/**
 * The claim-record cleaner that runs on each intercepted claim response
 * before it is stored: it deletes the base64 payload of every encounter
 * document and the attachments of every treatment, in place.
 *
 * Objects have identity here (several paths may reach the same object and
 * `delete` changes it for all of them), so the record lives in a heap of
 * objects addressed by `Addr`, owned by the `Heap` class.
 */
module Cleaning {

  type Addr = nat

  /** What a property or an array element holds: a primitive or a reference. */
  datatype Slot = Undef | Null | Bool(b: bool) | Num(n: int) | Str(s: string) | Ref(addr: Addr)

  /** A plain object or an array: named properties, plus the elements of an array. */
  datatype JsObject = JsObject(isArray: bool, props: map<string, Slot>, elems: seq<Slot>)

  type Objects = map<Addr, JsObject>

  // `IsNullish` and `Truthy` are `JsValue`'s, restated for heap slots, where an object is a reference.

  predicate IsNullish(v: Slot) {
    v.Undef? || v.Null?
  }

  /** `!!v` (numbers are integers here, so there is no NaN). */
  predicate Truthy(v: Slot) {
    match v
    case Undef => false
    case Null => false
    case Bool(b) => b
    case Num(n) => n != 0
    case Str(s) => s != ""
    case Ref(_) => true
  }

  /** A reference in `v` names an object of `h`. */
  predicate InHeap(h: Objects, v: Slot) {
    v.Ref? ==> v.addr in h
  }

  /** No property and no element of any object of `h` dangles. */
  ghost predicate Closed(h: Objects) {
    && (forall a, k :: a in h && k in h[a].props ==> InHeap(h, h[a].props[k]))
    && (forall a, i :: a in h && 0 <= i < |h[a].elems| ==> InHeap(h, h[a].elems[i]))
  }

  /** `v.key` read without throwing: a missing property, or any property of a primitive, is undefined. */
  function Lookup(h: Objects, v: Slot, key: string): (r: Slot)
    ensures r != Undef ==> v.Ref? && v.addr in h && key in h[v.addr].props
  {
    if v.Ref? && v.addr in h && key in h[v.addr].props then h[v.addr].props[key] else Undef
  }

  /** `Array.isArray(v)`. */
  predicate IsArray(h: Objects, v: Slot) {
    v.Ref? && v.addr in h && h[v.addr].isArray
  }

  /** Index of the first undefined or null element, or `|elems|` when there is none. */
  function FirstNullish(elems: seq<Slot>): (k: nat)
    ensures k <= |elems|
    ensures forall j :: 0 <= j < k ==> !IsNullish(elems[j])
    ensures k < |elems| ==> IsNullish(elems[k])
  {
    if elems == [] then 0
    else if IsNullish(elems[0]) then 0
    else 1 + FirstNullish(elems[1..])
  }

  /** Addresses of the objects among `elems`. */
  function RefTargets(elems: seq<Slot>): set<Addr> {
    if elems == [] then {}
    else RefTargets(elems[..|elems| - 1]) + (if elems[|elems| - 1].Ref? then {elems[|elems| - 1].addr} else {})
  }

  /** What a `for (x of v) delete x.key` loop does: the objects it deleted from, and whether it threw. */
  datatype Sweep = Sweep(targets: set<Addr>, threw: bool)

  /**
   * The loop over an array: `delete` on undefined or null throws a TypeError,
   * so the loop reaches exactly the elements before the first nullish one;
   * deleting from any other primitive does nothing.
   */
  function SweepElems(elems: seq<Slot>): Sweep {
    var k := FirstNullish(elems);
    Sweep(RefTargets(elems[..k]), k < |elems|)
  }

  /**
   * The loop over any value: a string yields its characters (primitives,
   * so nothing is deleted), an array its elements; numbers, booleans,
   * nullish values and plain objects are not iterable and throw at once.
   */
  function SweepIterable(h: Objects, v: Slot): Sweep {
    match v
    case Str(_) => Sweep({}, false)
    case Ref(a) => if a in h && h[a].isArray then SweepElems(h[a].elems) else Sweep({}, true)
    case _ => Sweep({}, true)
  }

  /** `h` after `delete o.key` on every object `o` addressed by `targets`. */
  function StripKey(h: Objects, targets: set<Addr>, key: string): (r: Objects)
    ensures r.Keys == h.Keys
  {
    map a | a in h :: if a in targets then h[a].(props := h[a].props - {key}) else h[a]
  }

  /** The document loop: `data.encounter.documents`, swept when both links of the path are truthy. */
  function DocumentSweep(h: Objects, data: Slot): Sweep {
    var encounter := Lookup(h, data, "encounter");
    var documents := Lookup(h, encounter, "documents");
    if Truthy(encounter) && Truthy(documents) then SweepIterable(h, documents) else Sweep({}, false)
  }

  /** The treatment loop: `data.treatments`, swept when it is an array and the document loop did not throw. */
  function TreatmentSweep(h: Objects, data: Slot): Sweep {
    var treatments := Lookup(h, data, "treatments");
    if !DocumentSweep(h, data).threw && Truthy(treatments) && IsArray(h, treatments)
    then SweepIterable(h, treatments) else Sweep({}, false)
  }

  /**
   * The heap after `cleanClaimData(data)`. Both loops sit in one `try`, so
   * a throw in the document loop keeps the deletions already made and skips
   * the treatment loop; the error itself is only logged. Paths are read from
   * the original heap: the deleted properties are never on them.
   */
  function Cleaned(h: Objects, data: Slot): Objects {
    if !Truthy(data) then h
    else StripKey(StripKey(h, DocumentSweep(h, data).targets, "docbase64"), TreatmentSweep(h, data).targets, "attachments")
  }

  /** The objects reachable by the scraper, updated in place by the cleaner. */
  class Heap {
    var objects: Objects

    ghost predicate Valid()
      reads this
    {
      Closed(objects)
    }

    constructor(h: Objects)
      requires Closed(h)
      ensures Valid() && objects == h
    {
      objects := h;
    }

    /** `for (const x of iterable) delete x[key];`, reporting whether it threw. */
    method DeleteFromEach(iterable: Slot, key: string) returns (threw: bool)
      requires Valid() && InHeap(objects, iterable)
      modifies this
      ensures Valid()
      ensures threw == SweepIterable(old(objects), iterable).threw
      ensures objects == StripKey(old(objects), SweepIterable(old(objects), iterable).targets, key)
    {
      StripNothing(objects, key);
      if iterable.Str? {
        return false;
      }
      if !iterable.Ref? || !objects[iterable.addr].isArray {
        return true;
      }
      threw := DeleteFromElems(objects[iterable.addr].elems, key);
    }

    /** The same loop over the elements of an array. */
    method DeleteFromElems(elems: seq<Slot>, key: string) returns (threw: bool)
      requires Valid() && forall j :: 0 <= j < |elems| ==> InHeap(objects, elems[j])
      modifies this
      ensures Valid()
      ensures threw == SweepElems(elems).threw
      ensures objects == StripKey(old(objects), SweepElems(elems).targets, key)
    {
      ghost var h0 := objects;
      StripNothing(h0, key);
      var i := 0;
      while i < |elems|
        invariant i <= FirstNullish(elems)
        invariant objects == StripKey(h0, RefTargets(elems[..i]), key)
      {
        var x := elems[i];
        if IsNullish(x) {
          assert elems[..i] == elems[..FirstNullish(elems)];
          StripKeyClosed(h0, RefTargets(elems[..i]), key);
          return true;
        }
        SweepStep(h0, elems, i, key);
        if x.Ref? {
          objects := objects[x.addr := objects[x.addr].(props := objects[x.addr].props - {key})];
        }
        i := i + 1;
      }
      assert elems[..i] == elems;
      StripKeyClosed(h0, RefTargets(elems), key);
      return false;
    }

    /** `cleanClaimData(data)`: deletes in place and returns `data` itself. */
    method CleanClaimData(data: Slot) returns (r: Slot)
      requires Valid() && InHeap(objects, data)
      modifies this
      ensures Valid()
      ensures r == data
      ensures !Truthy(data) ==> objects == old(objects)
      ensures objects == Cleaned(old(objects), data)
    {
      r := data;
      ghost var h0 := objects;
      if !Truthy(data) {
        return;
      }
      ghost var docs := Sweep({}, false);
      var threw := false;
      var encounter := Lookup(objects, data, "encounter");
      if Truthy(encounter) {
        var documents := Lookup(objects, encounter, "documents");
        if Truthy(documents) {
          threw := DeleteFromEach(documents, "docbase64");
          docs := SweepIterable(h0, documents);
          assert docs == DocumentSweep(h0, data);
        }
      }
      StripNothing(objects, "attachments");
      ghost var h1 := objects;
      assert h1 == StripKey(h0, docs.targets, "docbase64");
      if !threw {
        var treatments := Lookup(objects, data, "treatments");
        assert treatments == Lookup(h0, data, "treatments");
        if Truthy(treatments) && IsArray(objects, treatments) {
          assert InHeap(objects, treatments);
          var _ := DeleteFromEach(treatments, "attachments");
          assert SweepIterable(h1, treatments) == SweepIterable(h0, treatments);
        }
      }
    }
  }

  // ---------------------------------------------------------------- heap lemmas

  /** Deleting from no object changes nothing. */
  lemma StripNothing(h: Objects, key: string)
    ensures StripKey(h, {}, key) == h
  {
  }

  /** Deleting a key from one more object extends the target set. */
  lemma StripOneMore(h: Objects, targets: set<Addr>, key: string, b: Addr)
    requires b in h
    ensures var s := StripKey(h, targets, key);
      s[b := s[b].(props := s[b].props - {key})] == StripKey(h, targets + {b}, key)
  {
    var s := StripKey(h, targets, key);
    assert s[b].props - {key} == h[b].props - {key};
  }

  /** One more element of the sweep: an object loses `key`, a primitive changes nothing. */
  lemma SweepStep(h: Objects, elems: seq<Slot>, i: nat, key: string)
    requires i < |elems| && InHeap(h, elems[i])
    ensures var s := StripKey(h, RefTargets(elems[..i]), key);
      StripKey(h, RefTargets(elems[..i + 1]), key)
        == if elems[i].Ref? then s[elems[i].addr := s[elems[i].addr].(props := s[elems[i].addr].props - {key})] else s
  {
    assert elems[..i + 1][..i] == elems[..i];
    if elems[i].Ref? {
      StripOneMore(h, RefTargets(elems[..i]), key, elems[i].addr);
    }
  }

  /** Deleting properties leaves no dangling reference behind. */
  lemma StripKeyClosed(h: Objects, targets: set<Addr>, key: string)
    requires Closed(h)
    ensures Closed(StripKey(h, targets, key))
  {
    var s := StripKey(h, targets, key);
    forall a, k | a in s && k in s[a].props
      ensures InHeap(s, s[a].props[k])
    {
      assert s[a].props[k] == h[a].props[k];
    }
    forall a, i | a in s && 0 <= i < |s[a].elems|
      ensures InHeap(s, s[a].elems[i])
    {
      assert s[a].elems == h[a].elems;
    }
  }

  /** An address is a target of a sweep exactly when some element refers to it. */
  lemma {:induction false} RefTargetsMembers(elems: seq<Slot>, b: Addr)
    ensures b in RefTargets(elems) <==> exists j :: 0 <= j < |elems| && elems[j] == Ref(b)
  {
    if elems != [] {
      var n := |elems| - 1;
      RefTargetsMembers(elems[..n], b);
      if b in RefTargets(elems[..n]) {
        var j :| 0 <= j < n && elems[..n][j] == Ref(b);
        assert elems[j] == Ref(b);
      }
      if j :| 0 <= j < |elems| && elems[j] == Ref(b) {
        if j < n {
          assert elems[..n][j] == Ref(b);
        }
      }
    }
  }

  // ---------------------------------------------------------------- what the cleaner promises

  /**
   * The cleaner only deletes: the same objects, the same array elements,
   * no new property, no changed value, and nothing but `docbase64` and
   * `attachments` removed.
   */
  lemma CleanedOnlyDeletes(h: Objects, data: Slot, a: Addr)
    requires a in h
    ensures a in Cleaned(h, data)
    ensures var c := Cleaned(h, data)[a];
      && c.isArray == h[a].isArray
      && c.elems == h[a].elems
      && c.props.Keys <= h[a].props.Keys
      && h[a].props.Keys - {"docbase64", "attachments"} <= c.props.Keys
      && forall k :: k in c.props ==> c.props[k] == h[a].props[k]
  {
  }

  /**
   * Every object the document loop reaches loses its `docbase64` property:
   * all of `data.encounter.documents` when it holds no undefined or null
   * entry, the ones before the first such entry otherwise.
   */
  lemma CleanedRemovesDocBase64(h: Objects, data: Slot, j: nat)
    requires Truthy(data)
    requires var documents := Lookup(h, Lookup(h, data, "encounter"), "documents");
      && IsArray(h, documents)
      && j < FirstNullish(h[documents.addr].elems)
      && h[documents.addr].elems[j].Ref? && h[documents.addr].elems[j].addr in h
    ensures var documents := Lookup(h, Lookup(h, data, "encounter"), "documents");
      "docbase64" !in Cleaned(h, data)[h[documents.addr].elems[j].addr].props
  {
    var documents := Lookup(h, Lookup(h, data, "encounter"), "documents");
    var elems := h[documents.addr].elems;
    var k := FirstNullish(elems);
    assert elems[..k][j] == elems[j];
    RefTargetsMembers(elems[..k], elems[j].addr);
  }

  /**
   * When the document loop did not throw, every object the treatment loop
   * reaches loses its `attachments` property: all of an array-valued
   * `data.treatments` without undefined or null entries, the ones before
   * the first such entry otherwise.
   */
  lemma CleanedRemovesAttachments(h: Objects, data: Slot, j: nat)
    requires Truthy(data) && !DocumentSweep(h, data).threw
    requires var treatments := Lookup(h, data, "treatments");
      && IsArray(h, treatments)
      && j < FirstNullish(h[treatments.addr].elems)
      && h[treatments.addr].elems[j].Ref? && h[treatments.addr].elems[j].addr in h
    ensures var treatments := Lookup(h, data, "treatments");
      "attachments" !in Cleaned(h, data)[h[treatments.addr].elems[j].addr].props
  {
    var treatments := Lookup(h, data, "treatments");
    var elems := h[treatments.addr].elems;
    var k := FirstNullish(elems);
    assert elems[..k][j] == elems[j];
    RefTargetsMembers(elems[..k], elems[j].addr);
  }

  /** Without a truthy `data.encounter.documents` no `docbase64` is deleted. */
  lemma MissingDocumentsKeepDocBase64(h: Objects, data: Slot, a: Addr)
    requires a in h && "docbase64" in h[a].props
    requires var encounter := Lookup(h, data, "encounter");
      !Truthy(encounter) || !Truthy(Lookup(h, encounter, "documents"))
    ensures "docbase64" in Cleaned(h, data)[a].props
    ensures Cleaned(h, data)[a].props["docbase64"] == h[a].props["docbase64"]
  {
  }

  /** When `data.treatments` is not an array no `attachments` is deleted. */
  lemma NonArrayTreatmentsKeepAttachments(h: Objects, data: Slot, a: Addr)
    requires a in h && "attachments" in h[a].props
    requires !IsArray(h, Lookup(h, data, "treatments"))
    ensures "attachments" in Cleaned(h, data)[a].props
    ensures Cleaned(h, data)[a].props["attachments"] == h[a].props["attachments"]
  {
  }

  /**
   * A `documents` value that cannot be iterated (a number, `true`, a plain
   * object) throws before any deletion, the treatment loop is skipped and
   * the heap is left as it was.
   */
  lemma NonIterableDocumentsChangeNothing(h: Objects, data: Slot)
    requires var documents := Lookup(h, Lookup(h, data, "encounter"), "documents");
      Truthy(documents) && !documents.Str? && !IsArray(h, documents)
    ensures Cleaned(h, data) == h
  {
    if Truthy(data) {
      var documents := Lookup(h, Lookup(h, data, "encounter"), "documents");
      assert DocumentSweep(h, data) == Sweep({}, true);
      StripNothing(h, "docbase64");
      StripNothing(h, "attachments");
    }
  }

  /**
   * An undefined or null document stops the loop: an object that only
   * appears after it keeps everything, since the treatment loop is skipped
   * as well.
   */
  lemma CleaningStopsAtNullishDocument(h: Objects, data: Slot, b: Addr)
    requires Truthy(data) && b in h
    requires var documents := Lookup(h, Lookup(h, data, "encounter"), "documents");
      && IsArray(h, documents)
      && var elems := h[documents.addr].elems;
      && FirstNullish(elems) < |elems|
      && forall j :: 0 <= j < FirstNullish(elems) ==> elems[j] != Ref(b)
    ensures Cleaned(h, data)[b] == h[b]
  {
    var documents := Lookup(h, Lookup(h, data, "encounter"), "documents");
    var elems := h[documents.addr].elems;
    var k := FirstNullish(elems);
    RefTargetsMembers(elems[..k], b);
    assert TreatmentSweep(h, data).targets == {};
  }

  /** Both loops walk the same values in a cleaned heap: the paths they follow are never deleted. */
  lemma SweepsSurviveCleaning(h: Objects, data: Slot)
    requires Truthy(data)
    ensures DocumentSweep(Cleaned(h, data), data) == DocumentSweep(h, data)
    ensures TreatmentSweep(Cleaned(h, data), data) == TreatmentSweep(h, data)
  {
    var c := Cleaned(h, data);
    CleanedKeepsPaths(h, data);
    var encounter := Lookup(h, data, "encounter");
    var documents := Lookup(h, encounter, "documents");
    var treatments := Lookup(h, data, "treatments");
    LookupKept(h, c, data, "encounter");
    LookupKept(h, c, encounter, "documents");
    LookupKept(h, c, data, "treatments");
    SweepKept(h, c, documents);
    SweepKept(h, c, treatments);
  }

  /**
   * `c` has the objects of `h` and their elements; each object keeps its
   * properties except possibly the two the cleaner deletes, and gains none.
   */
  ghost predicate KeepsPaths(h: Objects, c: Objects) {
    && c.Keys == h.Keys
    && forall a :: a in h ==>
      && c[a].isArray == h[a].isArray && c[a].elems == h[a].elems
      && (forall k :: k in c[a].props ==> k in h[a].props && c[a].props[k] == h[a].props[k])
      && (forall k :: k in h[a].props && k != "docbase64" && k != "attachments" ==> k in c[a].props)
  }

  /** Deleting one of the two keys keeps the paths the loops walk. */
  lemma StripKeepsPaths(h: Objects, targets: set<Addr>, key: string)
    requires key == "docbase64" || key == "attachments"
    ensures KeepsPaths(h, StripKey(h, targets, key))
  {
  }

  /** Two such deletions in a row keep them too. */
  lemma KeepsPathsTransitive(h: Objects, c: Objects, d: Objects)
    requires KeepsPaths(h, c) && KeepsPaths(c, d)
    ensures KeepsPaths(h, d)
  {
  }

  /** The cleaner keeps every path its own loops walk. */
  lemma CleanedKeepsPaths(h: Objects, data: Slot)
    ensures KeepsPaths(h, Cleaned(h, data))
  {
    if Truthy(data) {
      var c := StripKey(h, DocumentSweep(h, data).targets, "docbase64");
      StripKeepsPaths(h, DocumentSweep(h, data).targets, "docbase64");
      StripKeepsPaths(c, TreatmentSweep(h, data).targets, "attachments");
      KeepsPathsTransitive(h, c, Cleaned(h, data));
    }
  }

  /** Reading any other property finds the same value. */
  lemma LookupKept(h: Objects, c: Objects, v: Slot, key: string)
    requires KeepsPaths(h, c) && key != "docbase64" && key != "attachments"
    ensures Lookup(c, v, key) == Lookup(h, v, key)
  {
  }

  /** A loop over the same value walks the same elements. */
  lemma SweepKept(h: Objects, c: Objects, v: Slot)
    requires KeepsPaths(h, c)
    ensures IsArray(c, v) == IsArray(h, v)
    ensures SweepIterable(c, v) == SweepIterable(h, v)
  {
  }

  /** Deleting a property the targets no longer have changes nothing. */
  lemma StripAbsent(h: Objects, targets: set<Addr>, key: string)
    requires forall a :: a in targets && a in h ==> key !in h[a].props
    ensures StripKey(h, targets, key) == h
  {
    var s := StripKey(h, targets, key);
    forall a | a in h
      ensures s[a] == h[a]
    {
      if a in targets {
        assert s[a].props == h[a].props;
      }
    }
  }

  /** Cleaning a cleaned record again changes nothing more. */
  lemma CleanedIdempotent(h: Objects, data: Slot)
    ensures Cleaned(Cleaned(h, data), data) == Cleaned(h, data)
  {
    if Truthy(data) {
      var c := Cleaned(h, data);
      SweepsSurviveCleaning(h, data);
      StripAbsent(c, DocumentSweep(h, data).targets, "docbase64");
      StripAbsent(c, TreatmentSweep(h, data).targets, "attachments");
    }
  }
}
