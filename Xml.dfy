/** XML documents as element trees, and the queries used to state what a
    document holds. */
module Xml {
  import opened Wrappers

  datatype Attr = Attr(name: string, value: string)

  /** An element with its attributes and children, or a run of character data. */
  datatype Xml =
    | Element(name: string, attrs: seq<Attr>, children: seq<Xml>)
    | CharData(text: string)

  /** A document: the XML declaration's version and encoding, and the root element. */
  datatype Document = Document(version: string, encoding: string, root: Xml)

  /** An element without attributes. */
  function Elem(name: string, children: seq<Xml>): Xml {
    Element(name, [], children)
  }

  /** An element without attributes holding only the given text. */
  function Leaf(name: string, text: string): Xml {
    Element(name, [], [CharData(text)])
  }

  /** The child elements with the given tag name, in document order. */
  function ChildrenNamed(children: seq<Xml>, name: string): (r: seq<Xml>)
    ensures |r| <= |children|
    ensures forall c :: c in r ==> c in children && c.Element? && c.name == name
    ensures forall i :: 0 <= i < |children| && children[i].Element? && children[i].name == name ==> children[i] in r
    ensures (forall i :: 0 <= i < |children| ==> !(children[i].Element? && children[i].name == name)) ==> r == []
  {
    if children == [] then []
    else
      var rest := ChildrenNamed(children[1..], name);
      assert forall i :: 1 <= i < |children| ==> children[i] == children[1..][i - 1];
      if children[0].Element? && children[0].name == name then [children[0]] + rest else rest
  }

  /** The child element with the given tag name, when there is exactly one. */
  function Child(x: Xml, name: string): (r: Option<Xml>)
    ensures r.Some? <==> x.Element? && |ChildrenNamed(x.children, name)| == 1
    ensures r.Some? ==> r.value in x.children && r.value.Element? && r.value.name == name
  {
    if x.Element? then
      var cs := ChildrenNamed(x.children, name);
      if |cs| == 1 then Some(cs[0]) else None
    else
      None
  }

  /** When the `i`th child is the only element child with the given name,
      it is the one ChildrenNamed finds. */
  lemma {:induction false} ChildrenNamedUnique(children: seq<Xml>, name: string, i: nat)
    requires i < |children| && children[i].Element? && children[i].name == name
    requires forall j :: 0 <= j < |children| && j != i ==> !(children[j].Element? && children[j].name == name)
    ensures ChildrenNamed(children, name) == [children[i]]
  {
    var rest := children[1..];
    if i == 0 {
      assert forall j :: 0 <= j < |rest| ==> !(rest[j].Element? && rest[j].name == name) by {
        forall j | 0 <= j < |rest| ensures !(rest[j].Element? && rest[j].name == name) {
          assert rest[j] == children[j + 1];
        }
      }
    } else {
      forall j | 0 <= j < |rest| && j != i - 1 ensures !(rest[j].Element? && rest[j].name == name) {
        assert rest[j] == children[j + 1];
      }
      ChildrenNamedUnique(rest, name, i - 1);
    }
  }

  /** Child finds the `i`th child when no other child element has its name. */
  lemma ChildAt(x: Xml, name: string, i: nat)
    requires x.Element? && i < |x.children| && x.children[i].Element? && x.children[i].name == name
    requires forall j :: 0 <= j < |x.children| && j != i ==> !(x.children[j].Element? && x.children[j].name == name)
    ensures Child(x, name) == Some(x.children[i])
  {
    ChildrenNamedUnique(x.children, name, i);
  }

  /** The text of an element whose only content is character data. */
  function TextOf(x: Option<Xml>): (r: Option<string>)
    ensures r.Some? ==> x.Some? && x.value.Element? && x.value.children == [CharData(r.value)]
  {
    if x.Some? && x.value.Element? && |x.value.children| == 1 && x.value.children[0].CharData? then
      Some(x.value.children[0].text)
    else
      None
  }

  /** The value of the first attribute with the given name. */
  function AttrValue(attrs: seq<Attr>, name: string): (r: Option<string>)
    ensures r.Some? ==> Attr(name, r.value) in attrs
    ensures r.None? ==> forall a :: a in attrs ==> a.name != name
  {
    if attrs == [] then None
    else if attrs[0].name == name then Some(attrs[0].value)
    else AttrValue(attrs[1..], name)
  }
}
