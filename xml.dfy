/**
 * XML documents as element trees, the form in which both library formats are read and
 * written. Only the ElementTree queries the converter uses are modelled: attribute lookup
 * with a default, `find` and `findall` on direct children (`./TAG`), and `find` of the first
 * descendant in document order (`.//TAG`).
 */
module Xml {
  import opened Wrappers

  datatype Element = Element(tag: string, attrs: map<string, string>, children: seq<Element>)
  {
    /** `e.get(key, default)`. */
    function Get(key: string, default: string): (r: string)
      ensures key in attrs ==> r == attrs[key]
      ensures key !in attrs ==> r == default
    {
      if key in attrs then attrs[key] else default
    }

    /** `e.findall('./tag')`: the direct children with that tag, in document order. */
    function FindAll(tag: string): seq<Element>
    {
      WithTag(children, tag)
    }

    /** `e.find('./tag')`: the first direct child with that tag. */
    function Find(tag: string): (r: Option<Element>)
      ensures r.Some? ==> r.value in children && r.value.tag == tag
    {
      var all := FindAll(tag);
      WithTagMembers(children, tag);
      if all == [] then None else Some(all[0])
    }
  }

  /** The elements of `cs` with the given tag, order kept. */
  function WithTag(cs: seq<Element>, tag: string): (r: seq<Element>)
    ensures |r| <= |cs|
  {
    if cs == [] then []
    else if cs[0].tag == tag then [cs[0]] + WithTag(cs[1..], tag)
    else WithTag(cs[1..], tag)
  }

  /** `findall` lists exactly the elements with the tag. */
  lemma {:induction false} WithTagMembers(cs: seq<Element>, tag: string)
    ensures forall e :: e in WithTag(cs, tag) <==> e in cs && e.tag == tag
  {
    if cs != [] {
      WithTagMembers(cs[1..], tag);
      assert forall e :: e in cs <==> e == cs[0] || e in cs[1..];
    }
  }

  /** `find` finds nothing exactly when no child has the tag. */
  lemma FindNone(e: Element, tag: string)
    ensures e.Find(tag).None? <==> forall c :: c in e.children ==> c.tag != tag
  {
    WithTagMembers(e.children, tag);
  }

  /** Without a child of that tag, `findall` finds nothing. */
  lemma {:induction false} NoneWithTag(cs: seq<Element>, tag: string)
    requires forall c :: c in cs ==> c.tag != tag
    ensures WithTag(cs, tag) == []
  {
    if cs != [] {
      NoneWithTag(cs[1..], tag);
    }
  }

  /** `find` returns the first element `findall` would list, and nothing exactly when that list is empty. */
  lemma {:induction false} FindIsFirstOfFindAll(e: Element, tag: string, i: nat)
    requires i < |e.children| && e.children[i].tag == tag
    requires forall j :: 0 <= j < i ==> e.children[j].tag != tag
    ensures e.Find(tag) == Some(e.children[i])
  {
    FirstWithTag(e.children, tag, i);
  }

  lemma {:induction false} FirstWithTag(cs: seq<Element>, tag: string, i: nat)
    requires i < |cs| && cs[i].tag == tag
    requires forall j :: 0 <= j < i ==> cs[j].tag != tag
    ensures WithTag(cs, tag) != [] && WithTag(cs, tag)[0] == cs[i]
  {
    if i > 0 {
      FirstWithTag(cs[1..], tag, i - 1);
    }
  }

  /** Every element below the elements of `cs`, and those elements themselves, in document (pre-)order. */
  function Subtrees(cs: seq<Element>): (r: seq<Element>)
    ensures forall c :: c in cs ==> c in r
    decreases cs
  {
    if cs == [] then [] else [cs[0]] + Subtrees(cs[0].children) + Subtrees(cs[1..])
  }

  /** `e.find('.//tag')`: the first element below `e` (not `e` itself) with that tag, in document order. */
  function FindDescendant(e: Element, tag: string): (r: Option<Element>)
    ensures r.Some? ==> r.value.tag == tag && r.value in Subtrees(e.children)
  {
    var all := WithTag(Subtrees(e.children), tag);
    WithTagMembers(Subtrees(e.children), tag);
    if all == [] then None else Some(all[0])
  }

  /** A direct child with the tag guarantees that `.//tag` finds something. */
  lemma FindDescendantOfChild(e: Element, tag: string, c: Element)
    requires c in e.children && c.tag == tag
    ensures FindDescendant(e, tag).Some?
  {
    WithTagMembers(Subtrees(e.children), tag);
  }
}
