/** The synthetic method builder: a fluent, mutable description of a method
    declaration that renders itself to text on demand, caches the parsed
    node the first time it is asked for, and compares by signature. */
module LightMethodBuilder {
  import opened Wrappers
  import opened Psi
  import opened Rendering

  /** Java's null-aware comparison `x != null ? x.equals(y) : y == null`. */
  function NullSafeEquals<T(==)>(x: Option<T>, y: Option<T>): (r: bool)
    ensures r <==> x == y
  {
    if x.Some? then y.Some? && x.value == y.value else y.None?
  }

  /** The signature comparison behind equality: name, constructor flag,
      containing class, modifier list (modifiers and annotations), parameter
      list and return type. The body, type parameters and throws list do not
      take part. */
  predicate SameSignature(a: MethodShape, b: MethodShape)
  {
    && a.name == b.name
    && a.isConstructor == b.isConstructor
    && NullSafeEquals(a.containingClass, b.containingClass)
    && a.modifiers == b.modifiers && a.annotations == b.annotations
    && a.params == b.params
    && NullSafeEquals(a.returnType, b.returnType)
  }

  /** The configuration of a builder that was just created with a name. */
  function FreshShape(name: string): MethodShape
  {
    MethodShape(name, false, None, [], [], [], [], [], None, None)
  }

  class MethodBuilder {
    var name: string
    var isConstructor: bool
    var returnType: Option<TypeRef>
    var modifiers: seq<string>
    var annotations: seq<string>
    var params: seq<Parameter>
    var throwsList: seq<ExceptionRef>
    var typeParams: seq<TypeParameter>
    var containingClass: Option<ClassRef>
    var body: Option<CodeBlock>
    /** The parsed node, built at most once. */
    var cachedNode: DeclNode?

    /** The builder's configuration as a value. */
    function Shape(): MethodShape
      reads this
    {
      MethodShape(name, isConstructor, returnType, modifiers, annotations, params,
                  throwsList, typeParams, containingClass, body)
    }

    constructor (name: string)
      ensures Shape() == FreshShape(name)
      ensures cachedNode == null
    {
      this.name := name;
      isConstructor := false;
      returnType := None;
      modifiers := [];
      annotations := [];
      params := [];
      throwsList := [];
      typeParams := [];
      containingClass := None;
      body := None;
      cachedNode := null;
    }

    // -------------------------------------------------------------------------
    // Fluent configuration: each call returns the builder itself and leaves the
    // cached node alone.

    method WithModifier(modifier: string) returns (self: MethodBuilder)
      modifies this
      ensures self == this && cachedNode == old(cachedNode)
      ensures Shape() == old(Shape()).(modifiers := old(modifiers) + [modifier])
    {
      modifiers := modifiers + [modifier];
      self := this;
    }

    method WithModifiers(mods: seq<string>) returns (self: MethodBuilder)
      modifies this
      ensures self == this && cachedNode == old(cachedNode)
      ensures Shape() == old(Shape()).(modifiers := old(modifiers) + mods)
    {
      var i := 0;
      while i < |mods|
        invariant 0 <= i <= |mods|
        invariant cachedNode == old(cachedNode)
        invariant Shape() == old(Shape()).(modifiers := old(modifiers) + mods[..i])
      {
        assert mods[..i + 1] == mods[..i] + [mods[i]];
        modifiers := modifiers + [mods[i]];
        i := i + 1;
      }
      assert mods[..i] == mods;
      self := this;
    }

    method WithAnnotation(annotation: string) returns (self: MethodBuilder)
      modifies this
      ensures self == this && cachedNode == old(cachedNode)
      ensures Shape() == old(Shape()).(annotations := old(annotations) + [annotation])
    {
      annotations := annotations + [annotation];
      self := this;
    }

    /** The host accepts null here, so the argument is optional. */
    method WithMethodReturnType(rt: Option<TypeRef>) returns (self: MethodBuilder)
      modifies this
      ensures self == this && cachedNode == old(cachedNode)
      ensures Shape() == old(Shape()).(returnType := rt)
    {
      returnType := rt;
      self := this;
    }

    method WithParameter(p: Parameter) returns (self: MethodBuilder)
      modifies this
      ensures self == this && cachedNode == old(cachedNode)
      ensures Shape() == old(Shape()).(params := old(params) + [p])
    {
      params := params + [p];
      self := this;
    }

    /** Builds the parameter from a name and a type, then adds it. */
    method WithNamedParameter(paramName: string, typ: TypeRef) returns (self: MethodBuilder)
      modifies this
      ensures self == this && cachedNode == old(cachedNode)
      ensures Shape() == old(Shape()).(params := old(params) + [Parameter(paramName, typ)])
    {
      self := WithParameter(Parameter(paramName, typ));
    }

    method AddException(e: ExceptionRef) returns (self: MethodBuilder)
      modifies this
      ensures self == this && cachedNode == old(cachedNode)
      ensures Shape() == old(Shape()).(throwsList := old(throwsList) + [e])
    {
      throwsList := throwsList + [e];
      self := this;
    }

    method WithException(e: ExceptionRef) returns (self: MethodBuilder)
      modifies this
      ensures self == this && cachedNode == old(cachedNode)
      ensures Shape() == old(Shape()).(throwsList := old(throwsList) + [e])
    {
      self := AddException(e);
    }

    method WithContainingClass(c: ClassRef) returns (self: MethodBuilder)
      modifies this
      ensures self == this && cachedNode == old(cachedNode)
      ensures Shape() == old(Shape()).(containingClass := Some(c))
    {
      containingClass := Some(c);
      self := this;
    }

    method WithTypeParameter(tp: TypeParameter) returns (self: MethodBuilder)
      modifies this
      ensures self == this && cachedNode == old(cachedNode)
      ensures Shape() == old(Shape()).(typeParams := old(typeParams) + [tp])
    {
      typeParams := typeParams + [tp];
      self := this;
    }

    /** Sets only the flag; the return type is left as it is. */
    method WithConstructor(flag: bool) returns (self: MethodBuilder)
      modifies this
      ensures self == this && cachedNode == old(cachedNode)
      ensures Shape() == old(Shape()).(isConstructor := flag)
    {
      isConstructor := flag;
      self := this;
    }

    /** Records the block for GetBody; the rendering does not use it. */
    method WithBody(block: CodeBlock) returns (self: MethodBuilder)
      modifies this
      ensures self == this && cachedNode == old(cachedNode)
      ensures Shape() == old(Shape()).(body := Some(block))
    {
      body := Some(block);
      self := this;
    }

    /** The block last given to WithBody; absent until then. */
    function GetBody(): (r: Option<CodeBlock>)
      reads this
      ensures r == body
    {
      body
    }

    /** The exceptions added so far, in the order they were added. */
    function GetThrowsList(): (r: seq<ExceptionRef>)
      reads this
      ensures r == throwsList
    {
      throwsList
    }

    /** Rename: overwrites the name in place and nothing else; the cached node,
        if any, keeps the old text. */
    method SetName(newName: string) returns (self: MethodBuilder)
      modifies this
      ensures self == this && cachedNode == old(cachedNode)
      ensures Shape() == old(Shape()).(name := newName)
    {
      name := newName;
      self := this;
    }

    // -------------------------------------------------------------------------
    // Navigation and tree edits

    /** The host's own parent when it has one, else the containing class. */
    function GetParent(hostParent: Option<Element>): (r: Option<Element>)
      reads this
      ensures hostParent.Some? ==> r == hostParent
      ensures hostParent.None? ==> (r.Some? <==> containingClass.Some?)
      ensures hostParent.None? && containingClass.Some? ==> r == Some(ClassElement(containingClass.value))
    {
      if hostParent.Some? then hostParent
      else if containingClass.Some? then Some(ClassElement(containingClass.value))
      else None
    }

    /** The containing class's file; no file without a containing class. */
    function GetContainingFile(): (r: Option<FileRef>)
      reads this
      ensures containingClass.None? ==> r.None?
      ensures containingClass.Some? ==> r == containingClass.value.file
    {
      if containingClass.Some? then containingClass.value.file else None
    }

    /** Replacing adds the new element to the containing class instead; with
        no containing class the result is absent. `classAdd` is the host's
        insertion into a class. The builder itself does not change. */
    function Replace(newElement: Element, classAdd: (ClassRef, Element) -> Element): (r: Option<Element>)
      reads this
      ensures r.None? <==> containingClass.None?
      ensures containingClass.Some? ==> r.value == classAdd(containingClass.value, newElement)
    {
      if containingClass.Some? then Some(classAdd(containingClass.value, newElement)) else None
    }

    /** Deletion is accepted and does nothing: no state changes, no failure. */
    method Delete() returns (outcome: Outcome<string>)
      ensures outcome.Pass?
    {
      outcome := Pass;
    }

    method CheckDelete() returns (outcome: Outcome<string>)
      ensures outcome.Pass?
    {
      outcome := Pass;
    }

    // -------------------------------------------------------------------------
    // Rendering and the node cache

    /** The modifier prefix, appended one modifier at a time. */
    method AllModifierProperties(mods: seq<string>) returns (text: string)
      ensures text == ModifierText(mods)
      ensures text == Spaced(Kept(mods))
    {
      text := "";
      var i := 0;
      while i < |mods|
        invariant 0 <= i <= |mods|
        invariant text == ModifierText(mods[..i])
      {
        assert mods[..i + 1][..i] == mods[..i];
        if mods[i] != PackageLocal {
          text := text + mods[i] + " ";
        }
        i := i + 1;
      }
      assert mods[..i] == mods;
      ModifierTextIsSpacedKept(mods);
    }

    /** The declaration text, assembled piece by piece. */
    method BuildDeclarationText() returns (text: string)
      ensures text == Render(Shape())
    {
      text := AllModifierProperties(modifiers);
      if returnType.Some? {
        text := text + returnType.value.canonicalText + " ";
      }
      text := text + name;
      text := text + "(";
      var segment := ParameterListText(params);
      text := text + segment;
      text := text + ")";
      text := text + "{" + "  " + "}";
    }

    /** The parameters as the loop appends them, each declaration followed by
        a comma, with the last character deleted when there is any parameter. */
    method ParameterListText(ps: seq<Parameter>) returns (text: string)
      ensures text == ParamSegment(ps)
    {
      text := "";
      if |ps| > 0 {
        var i := 0;
        while i < |ps|
          invariant 0 <= i <= |ps|
          invariant text == Trailing(ps[..i])
        {
          assert ps[..i + 1][..i] == ps[..i];
          text := text + ps[i].typ.canonicalText + " " + ps[i].name + ",";
          i := i + 1;
        }
        assert ps[..i] == ps;
        TrailingIsSegmentAndComma(ps);
        text := text[..|text| - 1];
      }
    }

    /** Renders the current configuration and hands it to the host parser,
        scoped to the containing class. */
    method RebuildMethodFromString() returns (node: DeclNode)
      ensures fresh(node)
      ensures node.text == Render(Shape()) && node.context == containingClass
    {
      var text := BuildDeclarationText();
      node := CreateMethodFromText(text, containingClass);
    }

    /** A copy is always rebuilt from the current configuration. */
    method Copy() returns (node: DeclNode)
      ensures fresh(node)
      ensures node.text == Render(Shape()) && node.context == containingClass
    {
      node := RebuildMethodFromString();
    }

    /** Builds the node on the first call only; every later call returns the
        same node, whatever was configured since. */
    method GetNode() returns (node: DeclNode)
      modifies this`cachedNode
      ensures cachedNode == node
      ensures old(cachedNode) != null ==> node == old(cachedNode)
      ensures old(cachedNode) == null ==> fresh(node) && node.text == Render(Shape())
                                          && node.context == containingClass
    {
      if cachedNode == null {
        cachedNode := RebuildMethodFromString();
      }
      node := cachedNode;
    }

    /** The cached node's text, building the node first if needed. The host
        parser always yields a node, so the empty-text fallback of the host
        cannot arise here. */
    method GetText() returns (text: string)
      modifies this`cachedNode
      ensures cachedNode != null && text == cachedNode.text
      ensures old(cachedNode) != null ==> cachedNode == old(cachedNode)
      ensures old(cachedNode) == null ==> text == Render(Shape())
    {
      var node := GetNode();
      text := node.text;
    }

    // -------------------------------------------------------------------------
    // Identity

    /** Same object, or another builder with the same signature. Either way
        this holds exactly when name, constructor flag, containing class,
        modifiers, annotations, parameters and return type all agree. */
    predicate Equals(o: MethodBuilder?): (r: bool)
      reads this, o
      ensures r <==>
        && o != null
        && name == o.name
        && isConstructor == o.isConstructor
        && containingClass == o.containingClass
        && modifiers == o.modifiers && annotations == o.annotations
        && params == o.params
        && returnType == o.returnType
    {
      this == o || (o != null && SameSignature(Shape(), o.Shape()))
    }

    /** Constant, so that renaming cannot move a builder to another hash bucket. */
    function HashCode(): (h: int)
      ensures h == 1
    {
      1
    }
  }

  // ---------------------------------------------------------------------------
  // Properties of equality and hashing

  lemma EqualsReflexive(a: MethodBuilder)
    ensures a.Equals(a)
  {
  }

  lemma EqualsSymmetric(a: MethodBuilder, b: MethodBuilder)
    ensures a.Equals(b) <==> b.Equals(a)
  {
  }

  lemma EqualsTransitive(a: MethodBuilder, b: MethodBuilder, c: MethodBuilder)
    requires a.Equals(b) && b.Equals(c)
    ensures a.Equals(c)
  {
  }

  /** Any two builders hash alike, so equal builders do. */
  lemma HashCodeConstant(a: MethodBuilder, b: MethodBuilder)
    ensures a.HashCode() == b.HashCode() == 1
  {
  }

  /** Equal builders render the same declaration text. */
  lemma EqualBuildersRenderAlike(a: MethodBuilder, b: MethodBuilder)
    requires a.Equals(b)
    ensures Render(a.Shape()) == Render(b.Shape())
  {
  }

  // ---------------------------------------------------------------------------
  // Clients

  /** A public getter: `public long getId(){  }`. */
  method GetterExample() returns (text: string)
    ensures text == "public long getId(){  }"
  {
    var b := new MethodBuilder("getId");
    var _ := b.WithModifier("public");
    var _ := b.WithMethodReturnType(Some(TypeRef("long")));
    var _ := b.WithContainingClass(ClassRef("User", None));
    GetterText(b.Shape());
    text := b.GetText();
  }

  /** A constructor has no return-type segment. */
  method ConstructorExample() returns (text: string)
    ensures text == "public User(java.lang.String name){  }"
  {
    var b := new MethodBuilder("User");
    var _ := b.WithConstructor(true);
    var _ := b.WithModifier("public");
    var _ := b.WithNamedParameter("name", TypeRef("java.lang.String"));
    var _ := b.WithContainingClass(ClassRef("User", None));
    ConstructorText(b.Shape());
    text := b.GetText();
  }

  /** Configuration after the first rendering is ignored by the cached text,
      but a copy reflects it. */
  method StaleCacheExample() returns (first: string, second: string, copied: string)
    ensures first == second == "long getId(){  }"
    ensures copied == "long id(int x){  }"
  {
    var b := new MethodBuilder("getId");
    var _ := b.WithMethodReturnType(Some(TypeRef("long")));
    PlainText(b.Shape());
    first := b.GetText();
    var _ := b.WithNamedParameter("x", TypeRef("int"));
    var _ := b.SetName("id");
    second := b.GetText();
    PlainText(b.Shape());
    var c := b.Copy();
    copied := c.text;
  }
}
