/** The declaration text a light method renders to, as a function of the
    builder's configuration, and what that text is made of. */
module Rendering {
  import opened Wrappers
  import opened Psi

  /** Everything a builder can be configured with. */
  datatype MethodShape = MethodShape(
    name: string,
    isConstructor: bool,
    returnType: Option<TypeRef>,
    modifiers: seq<string>,
    annotations: seq<string>,
    params: seq<Parameter>,
    throwsList: seq<ExceptionRef>,
    typeParams: seq<TypeParameter>,
    containingClass: Option<ClassRef>,
    body: Option<CodeBlock>)

  /** The marker for package-private access: the absence of a keyword. */
  const PackageLocal: string := "packageLocal"

  /** The body every rendering ends with: brace, two spaces, brace. */
  const EmptyBody: string := "{  }"

  // ---------------------------------------------------------------------------
  // Modifiers

  /** The modifier prefix, one modifier at a time in list order, as the
      rendering loop appends it: each modifier other than PackageLocal,
      followed by one space. */
  function ModifierText(mods: seq<string>): string
  {
    if |mods| == 0 then ""
    else
      var m := mods[|mods| - 1];
      ModifierText(mods[..|mods| - 1]) + (if m == PackageLocal then "" else m + " ")
  }

  /** Reference definition: the modifiers that are printed, in order. */
  function Kept(mods: seq<string>): seq<string>
  {
    if |mods| == 0 then []
    else (if mods[0] == PackageLocal then [] else [mods[0]]) + Kept(mods[1..])
  }

  /** Reference definition: each word followed by one space. */
  function Spaced(words: seq<string>): string
  {
    if |words| == 0 then "" else words[0] + " " + Spaced(words[1..])
  }

  /** The sum over the words of (length + 1). */
  function Width(words: seq<string>): nat
  {
    if |words| == 0 then 0 else |words[0]| + 1 + Width(words[1..])
  }

  lemma {:induction false} KeptAppend(a: seq<string>, b: seq<string>)
    ensures Kept(a + b) == Kept(a) + Kept(b)
  {
    if |a| == 0 {
      assert a + b == b;
    } else {
      assert (a + b)[0] == a[0];
      assert (a + b)[1..] == a[1..] + b;
      KeptAppend(a[1..], b);
    }
  }

  lemma {:induction false} SpacedAppend(a: seq<string>, b: seq<string>)
    ensures Spaced(a + b) == Spaced(a) + Spaced(b)
  {
    if |a| == 0 {
      assert a + b == b;
    } else {
      assert (a + b)[0] == a[0];
      assert (a + b)[1..] == a[1..] + b;
      SpacedAppend(a[1..], b);
    }
  }

  /** The one-pass prefix is the kept modifiers, each followed by a space. */
  lemma {:induction false} ModifierTextIsSpacedKept(mods: seq<string>)
    ensures ModifierText(mods) == Spaced(Kept(mods))
  {
    if |mods| > 0 {
      var init, m := mods[..|mods| - 1], mods[|mods| - 1];
      assert mods == init + [m];
      ModifierTextIsSpacedKept(init);
      KeptAppend(init, [m]);
      assert [m][1..] == [];
      var tail := if m == PackageLocal then [] else [m];
      assert Kept([m]) == tail;
      SpacedAppend(Kept(init), tail);
      assert Spaced(tail) == (if m == PackageLocal then "" else m + " ");
    }
  }

  /** Every PackageLocal entry is dropped; every other modifier is kept as
      often as it occurs, duplicates included. */
  lemma {:induction false} KeptCount(mods: seq<string>, m: string)
    ensures multiset(Kept(mods))[m] == if m == PackageLocal then 0 else multiset(mods)[m]
  {
    if |mods| > 0 {
      assert mods == [mods[0]] + mods[1..];
      KeptCount(mods[1..], m);
    }
  }

  /** Only modifiers of the input are printed, and never PackageLocal. */
  lemma {:induction false} KeptMembers(mods: seq<string>)
    ensures forall m :: m in Kept(mods) <==> m in mods && m != PackageLocal
  {
    forall m
      ensures m in Kept(mods) <==> m in mods && m != PackageLocal
    {
      KeptCount(mods, m);
    }
  }

  lemma {:induction false} SpacedLength(words: seq<string>)
    ensures |Spaced(words)| == Width(words)
  {
    if |words| > 0 {
      SpacedLength(words[1..]);
    }
  }

  /** The prefix is as long as the sum over kept modifiers of (length + 1). */
  lemma ModifierTextLength(mods: seq<string>)
    ensures |ModifierText(mods)| == Width(Kept(mods))
  {
    ModifierTextIsSpacedKept(mods);
    SpacedLength(Kept(mods));
  }

  // ---------------------------------------------------------------------------
  // Parameters

  /** One parameter as rendered: canonical type text, a space, its name. */
  function Decl(p: Parameter): string
  {
    p.typ.canonicalText + " " + p.name
  }

  function Decls(ps: seq<Parameter>): (ds: seq<string>)
    ensures |ds| == |ps|
    ensures forall i :: 0 <= i < |ps| ==> ds[i] == Decl(ps[i])
  {
    if |ps| == 0 then [] else [Decl(ps[0])] + Decls(ps[1..])
  }

  /** What the parameter loop has appended: each declaration followed by a comma. */
  function Trailing(ps: seq<Parameter>): string
  {
    if |ps| == 0 then "" else Trailing(ps[..|ps| - 1]) + Decl(ps[|ps| - 1]) + ","
  }

  /** Reference definition: the items separated by single commas. */
  function Join(items: seq<string>): string
  {
    if |items| == 0 then ""
    else if |items| == 1 then items[0]
    else items[0] + "," + Join(items[1..])
  }

  /** The text between the parentheses. */
  function ParamSegment(ps: seq<Parameter>): string
  {
    Join(Decls(ps))
  }

  lemma {:induction false} JoinSnoc(items: seq<string>, d: string)
    requires |items| > 0
    ensures Join(items + [d]) == Join(items) + "," + d
  {
    if |items| == 1 {
      assert (items + [d])[1..] == [d];
    } else {
      assert (items + [d])[0] == items[0];
      assert (items + [d])[1..] == items[1..] + [d];
      JoinSnoc(items[1..], d);
    }
  }

  lemma DeclsSnoc(ps: seq<Parameter>)
    requires |ps| > 0
    ensures Decls(ps) == Decls(ps[..|ps| - 1]) + [Decl(ps[|ps| - 1])]
  {
  }

  /** The last parameter's declaration ends the segment, after a comma when
      there are others: no comma trails. */
  lemma ParamSegmentSnoc(ps: seq<Parameter>)
    requires |ps| > 0
    ensures var init := ps[..|ps| - 1];
            ParamSegment(ps) == ParamSegment(init) + (if |init| > 0 then "," else "") + Decl(ps[|ps| - 1])
  {
    var init := ps[..|ps| - 1];
    DeclsSnoc(ps);
    if |init| > 0 {
      JoinSnoc(Decls(init), Decl(ps[|ps| - 1]));
    }
  }

  /** Deleting the last character of the loop's output leaves exactly the
      comma-joined segment. */
  lemma {:induction false} TrailingIsSegmentAndComma(ps: seq<Parameter>)
    requires |ps| > 0
    ensures Trailing(ps) == ParamSegment(ps) + ","
  {
    var init := ps[..|ps| - 1];
    if |init| > 0 {
      TrailingIsSegmentAndComma(init);
    } else {
      assert Trailing(init) == "";
    }
    ParamSegmentSnoc(ps);
  }

  /** Number of occurrences of c in s. */
  function Count(c: char, s: string): nat
  {
    if |s| == 0 then 0 else (if s[0] == c then 1 else 0) + Count(c, s[1..])
  }

  lemma {:induction false} CountAppend(c: char, a: string, b: string)
    ensures Count(c, a + b) == Count(c, a) + Count(c, b)
  {
    if |a| == 0 {
      assert a + b == b;
    } else {
      assert (a + b)[0] == a[0];
      assert (a + b)[1..] == a[1..] + b;
      CountAppend(c, a[1..], b);
    }
  }

  lemma {:induction false} CountAbsent(c: char, s: string)
    ensures Count(c, s) == 0 <==> c !in s
  {
    if |s| > 0 {
      assert s == [s[0]] + s[1..];
      CountAbsent(c, s[1..]);
    }
  }

  /** Commas inside the items themselves. */
  function InnerCommas(items: seq<string>): nat
  {
    if |items| == 0 then 0 else Count(',', items[0]) + InnerCommas(items[1..])
  }

  /** Joining n > 0 items adds exactly n - 1 separator commas. */
  lemma {:induction false} JoinCommas(items: seq<string>)
    requires |items| > 0
    ensures Count(',', Join(items)) == |items| - 1 + InnerCommas(items)
  {
    if |items| > 1 {
      JoinCommas(items[1..]);
      CountAppend(',', items[0], ",");
      CountAppend(',', items[0] + ",", Join(items[1..]));
    } else {
      assert items[1..] == [];
    }
  }

  lemma {:induction false} InnerCommasNone(ps: seq<Parameter>)
    requires forall p :: p in ps ==> ',' !in p.typ.canonicalText && ',' !in p.name
    ensures InnerCommas(Decls(ps)) == 0
  {
    if |ps| > 0 {
      var p := ps[0];
      assert p in ps;
      assert ',' !in Decl(p);
      CountAbsent(',', Decl(p));
      assert Decls(ps)[1..] == Decls(ps[1..]);
      InnerCommasNone(ps[1..]);
    }
  }

  /** No parameters give an empty segment; n > 0 parameters whose type texts
      and names hold no comma give a segment with exactly n - 1 commas. */
  lemma ParamCommas(ps: seq<Parameter>)
    requires forall p :: p in ps ==> ',' !in p.typ.canonicalText && ',' !in p.name
    ensures |ps| == 0 ==> ParamSegment(ps) == ""
    ensures |ps| > 0 ==> Count(',', ParamSegment(ps)) == |ps| - 1
  {
    if |ps| > 0 {
      JoinCommas(Decls(ps));
      InnerCommasNone(ps);
    }
  }

  // ---------------------------------------------------------------------------
  // The whole declaration

  /** The canonical return-type text and a space, or nothing without a return type. */
  function ReturnTypeText(rt: Option<TypeRef>): string
  {
    if rt.Some? then rt.value.canonicalText + " " else ""
  }

  /** The declaration text: modifiers, return type, name, parameters, empty body.
      Annotations, the explicit body, type parameters and the throws list are
      not part of it. */
  function Render(s: MethodShape): string
  {
    ModifierText(s.modifiers) + ReturnTypeText(s.returnType) + s.name
      + "(" + ParamSegment(s.params) + ")" + EmptyBody
  }

  /** Where each part of the rendering sits. */
  lemma RenderLayout(s: MethodShape)
    ensures var pre := ModifierText(s.modifiers) + ReturnTypeText(s.returnType);
            var r := Render(s);
            var open := |pre| + |s.name|;
            && |r| == open + |ParamSegment(s.params)| + 6
            && r[..|pre|] == pre
            && r[|pre|..open] == s.name
            && r[open] == '('
            && r[open + 1..|r| - 5] == ParamSegment(s.params)
            && r[|r| - 5..] == ")" + EmptyBody
  {
  }

  /** Without a return type the name follows the modifier prefix directly. */
  lemma RenderWithoutReturnType(s: MethodShape)
    requires s.returnType.None?
    ensures var k := |ModifierText(s.modifiers)|;
            Render(s)[..k] == ModifierText(s.modifiers) && Render(s)[k..k + |s.name|] == s.name
  {
    RenderLayout(s);
  }

  /** With no parameters the name is followed by "()". */
  lemma RenderWithoutParameters(s: MethodShape)
    requires s.params == []
    ensures var k := |ModifierText(s.modifiers) + ReturnTypeText(s.returnType)| + |s.name|;
            Render(s)[k..k + 2] == "()"
  {
    RenderLayout(s);
  }

  /** Annotations, the explicit body, the constructor flag, type parameters, the
      throws list and the containing class do not change the text. */
  lemma RenderIgnoresUnrenderedParts(s: MethodShape, t: MethodShape)
    requires s.name == t.name && s.returnType == t.returnType
    requires s.modifiers == t.modifiers && s.params == t.params
    ensures Render(s) == Render(t)
  {
  }

  // ---------------------------------------------------------------------------
  // Concrete renderings

  /** A public getter of a long. */
  lemma GetterText(s: MethodShape)
    requires s.name == "getId" && s.returnType == Some(TypeRef("long"))
    requires s.modifiers == ["public"] && s.params == []
    ensures Render(s) == "public long getId(){  }"
  {
    assert ["public"][..0] == [];
    assert ModifierText(["public"]) == "public ";
    assert ParamSegment([]) == "";
  }

  /** A public constructor taking one string. */
  lemma ConstructorText(s: MethodShape)
    requires s.name == "User" && s.returnType == None
    requires s.modifiers == ["public"] && s.params == [Parameter("name", TypeRef("java.lang.String"))]
    ensures Render(s) == "public User(java.lang.String name){  }"
  {
    assert ["public"][..0] == [];
    assert ModifierText(["public"]) == "public ";
    assert Decls(s.params) == [Decl(s.params[0])];
    assert ParamSegment(s.params) == "java.lang.String name";
  }

  /** The same modifier added twice is printed twice. */
  lemma DuplicateModifierText(s: MethodShape)
    requires s.name == "getId" && s.returnType == Some(TypeRef("long"))
    requires s.modifiers == ["public", "public"] && s.params == []
    ensures Render(s) == "public public long getId(){  }"
  {
    assert s.modifiers[..1] == ["public"];
    assert ["public"][..0] == [];
    assert ModifierText(["public", "public"]) == "public public ";
    assert ParamSegment([]) == "";
  }

  /** A method without modifiers, with or without one int parameter. */
  lemma PlainText(s: MethodShape)
    requires s.returnType == Some(TypeRef("long")) && s.modifiers == []
    requires (s.name == "getId" && s.params == []) || (s.name == "id" && s.params == [Parameter("x", TypeRef("int"))])
    ensures s.name == "getId" ==> Render(s) == "long getId(){  }"
    ensures s.name == "id" ==> Render(s) == "long id(int x){  }"
  {
    assert ParamSegment([]) == "";
    var p := Parameter("x", TypeRef("int"));
    assert Decls([p]) == [Decl(p)];
    assert ParamSegment([p]) == "int x";
  }
}
