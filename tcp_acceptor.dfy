/**
 * The TCP acceptor's list of peer names ("children") and the "peers" entry of
 * its statistics.
 */
module TcpAcceptor {
  import opened Common

  /** `s` with every entry equal to `v` removed, the rest in their order. */
  function RemoveAll(s: seq<string>, v: string): (r: seq<string>)
    ensures forall x :: x in r <==> x in s && x != v
    ensures |r| == |s| - multiset(s)[v]
  {
    if s == [] then []
    else if s[0] == v then
      assert s == [s[0]] + s[1..];
      RemoveAll(s[1..], v)
    else
      assert s == [s[0]] + s[1..];
      [s[0]] + RemoveAll(s[1..], v)
  }

  /** Removal distributes over concatenation, so the kept entries keep their order. */
  lemma {:induction false} RemoveAllAppend(a: seq<string>, b: seq<string>, v: string)
    ensures RemoveAll(a + b, v) == RemoveAll(a, v) + RemoveAll(b, v)
  {
    if a == [] {
      assert a + b == b;
    } else {
      assert (a + b)[1..] == a[1..] + b;
      RemoveAllAppend(a[1..], b, v);
    }
  }

  /** Removing an absent name changes nothing. */
  lemma {:induction false} RemoveAllAbsent(s: seq<string>, v: string)
    requires v !in s
    ensures RemoveAll(s, v) == s
  {
    if s != [] {
      RemoveAllAbsent(s[1..], v);
    }
  }

  /** The statistics text: the count, a colon, then the names joined by ", ". */
  function PeersText(children: seq<string>): (r: string)
    ensures children == [] ==> r == "0: "
    ensures |children| == 1 ==> r == "1: " + children[0]
  {
    NatToString(|children|) + ": " + Join(children, ", ")
  }

  class Acceptor {
    var children: seq<string>

    constructor ()
      ensures children == []
    {
      children := [];
    }

    /** Appends a peer name at the end of the list. */
    method AddChild(child: string)
      modifies this
      ensures children == old(children) + [child]
    {
      children := children + [child];
    }

    /** Deletes every entry equal to the name. */
    method RemoveChild(child: string)
      modifies this
      ensures children == RemoveAll(old(children), child)
    {
      children := RemoveAll(children, child);
    }

    /** The "peers" statistics entry. */
    method Stats() returns (peers: string)
      ensures peers == PeersText(children)
    {
      peers := PeersText(children);
    }
  }

  /** The list and the text the unit test expects, computed on the model. */
  lemma ScenarioFacts()
    ensures RemoveAll(["child1", "child2", "child3"], "child2") == ["child1", "child3"]
    ensures PeersText(["child1", "child3"]) == "2: child1, child3"
  {
    var c1, c2, c3 := "child1", "child2", "child3";
    assert c1 != c2 && c3 != c2;
    assert [c1, c2, c3][1..] == [c2, c3];
    assert [c2, c3][1..] == [c3];
    assert [c3][1..] == [];
    assert RemoveAll([c3], c2) == [c3];
    assert RemoveAll([c2, c3], c2) == [c3];
    assert NatToString(2) == "2";
    assert Join([c1, c3], ", ") == c1 + ", " + c3;
  }

  /** Adding child1, child2 and child3 and removing child2 leaves "2: child1, child3". */
  method ChildrenAndStats() returns (peers: string)
    ensures peers == "2: child1, child3"
  {
    var acc := new Acceptor();
    acc.AddChild("child1");
    acc.AddChild("child2");
    acc.AddChild("child3");
    assert acc.children == ["child1", "child2", "child3"];
    acc.RemoveChild("child2");
    ScenarioFacts();
    peers := acc.Stats();
  }
}
