/**
 * The two elements the read-element test collects, and what getText and
 * getAllText return for them: the first test element holds text, a comment
 * and a processing instruction; the second holds only a foo element, whose
 * text is split around a nested bar element.
 */
module ElementScenarios {
  import opened Wrappers
  import opened QNames
  import opened Nodes

  /** <test att="foo" xmlns:x="urn:xxx">TEXT<!-- comment --><?pi bar?></test> */
  function FirstTest(): Node
  {
    ElementNode(Local("test"), [Attr(Local("att"), "foo")], [NamespaceNode(Some("x"), "urn:xxx")],
                [TextNode(Some("TEXT")), CommentNode(" comment "), PINode("pi", Some("bar"))])
  }

  /** <bar>...BAR...</bar> */
  function Bar(): Node
  {
    ElementNode(Local("bar"), [], [], [TextNode(Some("...BAR..."))])
  }

  /** <foo att="1">FOO-1<bar>...BAR...</bar>FOO-2</foo> */
  function Foo(): Node
  {
    ElementNode(Local("foo"), [Attr(Local("att"), "1")], [], [TextNode(Some("FOO-1")), Bar(), TextNode(Some("FOO-2"))])
  }

  /** <test att="foo"><foo att="1">FOO-1<bar>...BAR...</bar>FOO-2</foo></test> */
  function SecondTest(): Node
  {
    ElementNode(Local("test"), [Attr(Local("att"), "foo")], [], [Foo()])
  }

  lemma FirstTestText()
    ensures GetText(FirstTest()) == Some("TEXT")
  {
    var children := FirstTest().childNodes;
    GetTextMeaning(FirstTest());
    assert children[1..][1..][1..] == [];
    assert ImmediateTexts(children[1..][1..]) == [];
    assert ImmediateTexts(children[1..]) == [];
    assert ImmediateTexts(children) == ["TEXT"];
    assert Concat(["TEXT"]) == "TEXT" + Concat([]);
    assert "TEXT" + "" == "TEXT";
  }

  lemma SecondTestText()
    ensures GetText(SecondTest()) == None
  {
    GetTextMeaning(SecondTest());
    assert ImmediateTexts([Foo()]) == [] + ImmediateTexts([]);
  }

  lemma FooTexts()
    ensures AllTexts(Foo().childNodes) == ["FOO-1", "...BAR...", "FOO-2"]
  {
    var children := Foo().childNodes;
    assert AllTexts(Bar().childNodes) == ["...BAR..."] + AllTexts([]);
    assert children[1..][1..][1..] == [];
    assert AllTexts(children[1..][1..]) == ["FOO-2"] + AllTexts([]);
    assert AllTexts(children[1..]) == ["...BAR..."] + ["FOO-2"];
    assert AllTexts(children) == ["FOO-1"] + ["...BAR...", "FOO-2"];
  }

  lemma FooConcat()
    ensures Concat(["FOO-1", "...BAR...", "FOO-2"]) == "FOO-1...BAR...FOO-2"
  {
    assert Concat(["FOO-2"]) == "FOO-2" + Concat([]);
    assert "FOO-2" + "" == "FOO-2";
    assert Concat(["...BAR...", "FOO-2"]) == "...BAR..." + "FOO-2";
    assert "...BAR..." + "FOO-2" == "...BAR...FOO-2";
    assert Concat(["FOO-1", "...BAR...", "FOO-2"]) == "FOO-1" + "...BAR...FOO-2";
    assert "FOO-1" + "...BAR...FOO-2" == "FOO-1...BAR...FOO-2";
  }

  lemma SecondTestAllText()
    ensures GetAllText(SecondTest()) == Some("FOO-1...BAR...FOO-2")
  {
    GetAllTextMeaning(SecondTest());
    FooTexts();
    assert AllTexts([Foo()]) == AllTexts(Foo().childNodes) + AllTexts([]);
    assert AllTexts(SecondTest().childNodes) == ["FOO-1", "...BAR...", "FOO-2"];
    FooConcat();
  }
}
