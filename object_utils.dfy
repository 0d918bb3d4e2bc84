/**
 * Engine object-list helpers: unlinking an object from a singly linked list
 * kept through head and tail pointers, and copying a NULL-terminated array
 * of pointers into a vector.
 */
module ObjectUtils {
  import opened Common

  /** A list node: an engine object with its `next` link. */
  class Node {
    const id: nat
    var next: Node?

    constructor (id: nat)
      ensures this.id == id && next == null
    {
      this.id := id;
      next := null;
    }
  }

  /** A list given by its head and tail pointers; `nodes` is its sequence of nodes. */
  class ObjectList {
    var head: Node?
    var tail: Node?
    ghost var nodes: seq<Node>

    /** Head, tail and links run exactly through `nodes`, each node once, ending in null. */
    ghost predicate Valid()
      reads this, nodes
    {
      && (forall i, j :: 0 <= i < j < |nodes| ==> nodes[i] != nodes[j])
      && head == (if nodes == [] then null else nodes[0])
      && tail == (if nodes == [] then null else nodes[|nodes| - 1])
      && (forall i :: 0 <= i < |nodes| - 1 ==> nodes[i].next == nodes[i + 1])
      && (nodes != [] ==> nodes[|nodes| - 1].next == null)
    }

    constructor ()
      ensures Valid() && nodes == []
    {
      head, tail, nodes := null, null, [];
    }

    /** `remove_object_list`: unlinks the node `obj`, if it is in the list. */
    method Remove(obj: Node)
      requires Valid()
      modifies this, nodes
      ensures Valid()
      ensures obj in old(nodes) ==>
        exists i :: 0 <= i < |old(nodes)| && old(nodes)[i] == obj && nodes == old(nodes)[..i] + old(nodes)[i + 1..]
      ensures obj !in old(nodes) ==> nodes == old(nodes) && head == old(head) && tail == old(tail)
      ensures obj !in old(nodes) ==> forall n :: n in nodes ==> n.next == old(n.next)
      ensures obj.next == old(obj.next)
    {
      var current := head;
      var prev: Node? := null;
      ghost var i := 0;
      while current != null
        invariant Valid() && nodes == old(nodes) && head == old(head) && tail == old(tail)
        invariant forall n :: n in nodes ==> n.next == old(n.next)
        invariant 0 <= i <= |nodes|
        invariant current == (if i < |nodes| then nodes[i] else null)
        invariant prev == (if i == 0 then null else nodes[i - 1])
        invariant forall j :: 0 <= j < i ==> nodes[j] != obj
        invariant obj.next == old(obj.next)
        decreases |nodes| - i
      {
        if current == obj {
          ghost var rest := nodes[..i] + nodes[i + 1..];
          assert i < |nodes|;
          assert i < |nodes| - 1 ==> current.next == nodes[i + 1];
          assert i == |nodes| - 1 ==> current.next == null;
          if prev == null {
            head := current.next;
          } else {
            prev.next := current.next;
          }
          if current.next == null {
            tail := prev;
          }
          nodes := rest;
          assert forall k :: 0 <= k < i ==> rest[k] == old(nodes)[k];
          assert forall k :: i <= k < |rest| ==> rest[k] == old(nodes)[k + 1];
          return;
        }
        prev := current;
        current := current.next;
        i := i + 1;
      }
    }
  }

  /** The elements before the first `None` (all of them when there is none). */
  function BeforeNull<T>(s: seq<Option<T>>): seq<T>
  {
    if s == [] || s[0].None? then [] else [s[0].value] + BeforeNull(s[1..])
  }

  /** The result is the run of present elements at the front, stopped by the first `None`. */
  lemma {:induction false} BeforeNullIsPrefix<T>(s: seq<Option<T>>)
    ensures |BeforeNull(s)| <= |s|
    ensures forall i :: 0 <= i < |BeforeNull(s)| ==> s[i] == Some(BeforeNull(s)[i])
    ensures |BeforeNull(s)| < |s| ==> s[|BeforeNull(s)|].None?
  {
    if s != [] && s[0].Some? {
      BeforeNullIsPrefix(s[1..]);
    }
  }

  /** `tab2vec`, for object pointers and for C strings alike; the array must hold a NULL. */
  method Tab2Vec<T>(tab: array<Option<T>>) returns (vec: seq<T>)
    requires exists i :: 0 <= i < tab.Length && tab[i].None?
    ensures vec == BeforeNull(tab[..])
  {
    ghost var k :| 0 <= k < tab.Length && tab[k].None?;
    vec := [];
    var i := 0;
    while tab[i].Some?
      invariant 0 <= i < tab.Length
      invariant i <= k
      invariant BeforeNull(tab[..]) == vec + BeforeNull(tab[i..])
      decreases tab.Length - i
    {
      assert tab[i..][1..] == tab[i + 1..];
      assert BeforeNull(tab[i..]) == [tab[i].value] + BeforeNull(tab[i + 1..]);
      vec := vec + [tab[i].value];
      i := i + 1;
    }
  }
}
