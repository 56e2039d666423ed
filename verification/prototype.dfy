/** The Prototype demo: a document that copies itself through
    `Object.clone`. Objects live in an explicit heap so that "the copy is a
    different object" can be stated and checked. */
module Prototype {
  import opened JavaLang

  datatype Document = Document(content: Nullable<string>)

  /** The objects allocated so far, by reference; `next` is the next unused
      reference. */
  datatype Heap = Heap(objects: map<nat, Document>, next: nat)

  ghost predicate Valid(h: Heap) {
    forall r | r in h.objects :: r < h.next
  }

  const EmptyHeap: Heap := Heap(map[], 0)

  /** A heap after an allocation, and the reference to the new object. */
  datatype Allocation = Allocation(heap: Heap, ref: nat)

  /** Places an object at a reference no existing object uses. */
  function Allocate(h: Heap, d: Document): (a: Allocation)
    requires Valid(h)
    ensures Valid(a.heap)
    ensures a.ref !in h.objects
    ensures a.heap.objects == h.objects[a.ref := d]
  {
    Allocation(Heap(h.objects[h.next := d], h.next + 1), h.next)
  }

  /** `new Document(content)`. */
  function New(h: Heap, content: Nullable<string>): (a: Allocation)
    requires Valid(h)
    ensures Valid(a.heap) && a.ref !in h.objects
    ensures a.heap.objects == h.objects[a.ref := Document(content)]
  {
    Allocate(h, Document(content))
  }

  /** `getContent`. */
  function GetContent(h: Heap, r: nat): Nullable<string>
    requires r in h.objects
  {
    h.objects[r].content
  }

  /** `setContent`: changes the one object's content and nothing else. */
  function SetContent(h: Heap, r: nat, content: Nullable<string>): (h': Heap)
    requires Valid(h) && r in h.objects
    ensures Valid(h') && h'.objects.Keys == h.objects.Keys
    ensures GetContent(h', r) == content
    ensures forall q | q in h.objects && q != r :: h'.objects[q] == h.objects[q]
  {
    h.(objects := h.objects[r := Document(content)])
  }

  /** `Object.clone`: a field-by-field copy at a fresh reference when the
      class implements `Cloneable`, and `CloneNotSupportedException`
      otherwise. */
  function ObjectClone(h: Heap, r: nat, cloneable: bool): (o: Outcome<Allocation>)
    requires Valid(h) && r in h.objects
    ensures o.Returned? <==> cloneable
    ensures o.Returned? ==>
      && Valid(o.value.heap)
      && o.value.ref !in h.objects
      && o.value.heap.objects == h.objects[o.value.ref := h.objects[r]]
    ensures o.Thrown? ==> o.exception == "CloneNotSupportedException"
  {
    if cloneable then Returned(Allocate(h, h.objects[r]))
    else Thrown("CloneNotSupportedException")
  }

  /** `Document` implements `Cloneable`. */
  const DocumentIsCloneable: bool := true

  /** `Document.clone`: the superclass copy, with its checked exception
      turned into an `AssertionError`. The error never happens, and the
      copy is a new object with the same content. */
  function Clone(h: Heap, r: nat): (o: Outcome<Allocation>)
    requires Valid(h) && r in h.objects
    ensures o.Returned?
    ensures Valid(o.value.heap)
    ensures o.value.ref !in h.objects && o.value.ref != r
    ensures o.value.ref in o.value.heap.objects
    ensures GetContent(o.value.heap, o.value.ref) == GetContent(h, r)
    ensures forall q | q in h.objects :: q in o.value.heap.objects && o.value.heap.objects[q] == h.objects[q]
  {
    match ObjectClone(h, r, DocumentIsCloneable)
    case Returned(copy) => Returned(copy)
    case Thrown(_) => Thrown("AssertionError")
  }

  /** Changing the copy leaves the original alone, and changing the
      original leaves the copy alone. */
  lemma CopyIsIndependent(h: Heap, r: nat, content: Nullable<string>)
    requires Valid(h) && r in h.objects
    ensures var a := Clone(h, r).value;
      && GetContent(SetContent(a.heap, a.ref, content), r) == GetContent(h, r)
      && GetContent(SetContent(a.heap, r, content), a.ref) == GetContent(h, r)
  {
  }

  /** `getContent` answers the constructor's value until `setContent`
      runs, and the most recent `setContent` value afterwards. */
  lemma GetReturnsLatest(h: Heap, first: Nullable<string>, second: Nullable<string>, third: Nullable<string>)
    requires Valid(h)
    ensures var a := New(h, first);
      && GetContent(a.heap, a.ref) == first
      && GetContent(SetContent(SetContent(a.heap, a.ref, second), a.ref, third), a.ref) == third
  {
  }

  /** The demo: the copy starts with the original's text, and after the
      copy is edited the original still has its own. */
  lemma DemoScenario()
    ensures
      var original := New(EmptyHeap, Ref("This is the original document."));
      var copy := Clone(original.heap, original.ref).value;
      var edited := SetContent(copy.heap, copy.ref, Ref("This is the modified cloned document."));
      && GetContent(copy.heap, copy.ref) == Ref("This is the original document.")
      && GetContent(edited, original.ref) == Ref("This is the original document.")
      && GetContent(edited, copy.ref) == Ref("This is the modified cloned document.")
  {
  }
}
