# SqliteMagic light method builder, in Dafny

A model of `SqliteMagicLightMethodBuilder`, the IntelliJ plugin class that
describes a synthetic ("light") Java method: a method that exists in no source
file but that the IDE must see as an ordinary declaration. A caller configures
the builder with chained `with*` calls. The IDE later asks it for its text.
On the first request the builder renders its configuration to a Java
declaration string. It hands that string to the IDE's parser and caches the
node it gets back for good. Equality compares the signature. The hash code is
the constant 1.

Files:

- `wrappers.dfy` (module `Wrappers`): `Option` for the host's nullable
  references and `Outcome` for operations that are declared to throw.
- `psi.dfy` (module `Psi`): the host values the builder consumes. These are
  type references (only the canonical text is seen), classes, files,
  parameters, throws-list entries and code blocks. It also holds the immutable
  parsed node `DeclNode` and the host parser `CreateMethodFromText`.
- `rendering.dfy` (module `Rendering`): `MethodShape`, the builder's whole
  configuration as a value. `Render`, the declaration text as a function of a
  shape. Reference definitions (`Kept`, `Spaced`, `Join`) and the lemmas
  that tie the one-pass definitions to them.
- `builder.dfy` (module `LightMethodBuilder`): the class `MethodBuilder`,
  with one field per piece of configuration and the node cache `cachedNode`.
  Every configuration method (the `with*` methods, `AddException` and
  `SetName`) states the builder's whole new state as `old(Shape())` with one
  field updated, and says that the cache is untouched. `GetNode` and
  `GetText` are the only methods that write the cache. The rendering methods are proved against `Render`. Equality and
  hashing lemmas and three client methods follow.

Points where the code differs from a natural reading:

- The body always renders as `{  }`: brace, two spaces, brace. An explicit
  body set by `withBody` is only returned by `getBody`.
- Annotations are never rendered. Only the modifier keywords are iterated.
  Annotations do take part in equality, as part of the modifier list.
- `getText` calls `getNode`, and `getNode` builds the node when none is
  cached. So the first `getText` already renders. It does not return an empty
  string before a `getNode` call.
- A constructor renders its return type if one is set. Rendering tests the
  return type, not the constructor flag. A builder can be neither a
  constructor nor have a return type: nothing enforces that invariant.
- Parameters are joined by commas. A generic type's canonical text can itself
  contain a comma, so "n - 1 commas" holds only when no type text or name
  holds one. `JoinCommas` states the general count.

## Model

| member | source | states |
|---|---|---|
| `Psi.CreateMethodFromText` | sqlitemagic-intellij-plugin/sqlitemagic-plugin/src/main/java/com/siimkinks/sqlitemagic/intellij/plugin/psi/SqliteMagicLightMethodBuilder.java:180-181 | the host parser yields a new node that carries the given text and the containing-class scope |
| `Rendering.KeptAppend` | sqlitemagic-intellij-plugin/sqlitemagic-plugin/src/main/java/com/siimkinks/sqlitemagic/intellij/plugin/psi/SqliteMagicLightMethodBuilder.java:190-194 | filtering keeps insertion order: filtering a concatenation is the concatenation of the filtered parts |
| `Rendering.KeptCount` | sqlitemagic-intellij-plugin/sqlitemagic-plugin/src/main/java/com/siimkinks/sqlitemagic/intellij/plugin/psi/SqliteMagicLightMethodBuilder.java:190-194 | every `packageLocal` entry is dropped; every other modifier is kept as many times as it occurs, duplicates included |
| `Rendering.KeptMembers` | sqlitemagic-intellij-plugin/sqlitemagic-plugin/src/main/java/com/siimkinks/sqlitemagic/intellij/plugin/psi/SqliteMagicLightMethodBuilder.java:190-194 | a modifier is printed if and only if it was added and is not `packageLocal` |
| `Rendering.ModifierTextIsSpacedKept` | sqlitemagic-intellij-plugin/sqlitemagic-plugin/src/main/java/com/siimkinks/sqlitemagic/intellij/plugin/psi/SqliteMagicLightMethodBuilder.java:187-199 | the one-pass modifier prefix equals the kept modifiers, each followed by one space |
| `Rendering.ModifierTextLength` | sqlitemagic-intellij-plugin/sqlitemagic-plugin/src/main/java/com/siimkinks/sqlitemagic/intellij/plugin/psi/SqliteMagicLightMethodBuilder.java:190-195 | the prefix length is the sum over kept modifiers of (length + 1) |
| `Rendering.TrailingIsSegmentAndComma` | sqlitemagic-intellij-plugin/sqlitemagic-plugin/src/main/java/com/siimkinks/sqlitemagic/intellij/plugin/psi/SqliteMagicLightMethodBuilder.java:171-176 | for n > 0 parameters the loop's buffer is the comma-joined segment plus one comma, so deleting the last character leaves the segment |
| `Rendering.ParamSegmentSnoc` | sqlitemagic-intellij-plugin/sqlitemagic-plugin/src/main/java/com/siimkinks/sqlitemagic/intellij/plugin/psi/SqliteMagicLightMethodBuilder.java:171-176 | the last parameter's "type name" ends the segment, after one comma when other parameters precede it: no comma trails |
| `Rendering.JoinCommas` | sqlitemagic-intellij-plugin/sqlitemagic-plugin/src/main/java/com/siimkinks/sqlitemagic/intellij/plugin/psi/SqliteMagicLightMethodBuilder.java:171-176 | joining n > 0 declarations adds exactly n - 1 commas beyond those inside the declarations |
| `Rendering.ParamCommas` | sqlitemagic-intellij-plugin/sqlitemagic-plugin/src/main/java/com/siimkinks/sqlitemagic/intellij/plugin/psi/SqliteMagicLightMethodBuilder.java:171-176 | zero parameters give an empty segment; n > 0 parameters without commas in their texts give exactly n - 1 commas |
| `Rendering.RenderLayout` | sqlitemagic-intellij-plugin/sqlitemagic-plugin/src/main/java/com/siimkinks/sqlitemagic/intellij/plugin/psi/SqliteMagicLightMethodBuilder.java:164-178 | the text is the modifier prefix, the return-type part, the name, "(", the parameter segment, and the closing ")" followed by `{  }`, each at its position |
| `Rendering.RenderWithoutReturnType` | sqlitemagic-intellij-plugin/sqlitemagic-plugin/src/main/java/com/siimkinks/sqlitemagic/intellij/plugin/psi/SqliteMagicLightMethodBuilder.java:165-169 | without a return type the name directly follows the modifier prefix |
| `Rendering.RenderWithoutParameters` | sqlitemagic-intellij-plugin/sqlitemagic-plugin/src/main/java/com/siimkinks/sqlitemagic/intellij/plugin/psi/SqliteMagicLightMethodBuilder.java:170-177 | without parameters the name is followed by "()" |
| `Rendering.RenderIgnoresUnrenderedParts` | sqlitemagic-intellij-plugin/sqlitemagic-plugin/src/main/java/com/siimkinks/sqlitemagic/intellij/plugin/psi/SqliteMagicLightMethodBuilder.java:161-178 | annotations, the explicit body, the constructor flag, type parameters, the throws list and the containing class do not change the text |
| `Rendering.GetterText` | sqlitemagic-intellij-plugin/sqlitemagic-plugin/src/main/java/com/siimkinks/sqlitemagic/intellij/plugin/psi/SqliteMagicLightMethodBuilder.java:161-178 | a public getter `getId` returning `long` renders as `public long getId(){  }` |
| `Rendering.ConstructorText` | sqlitemagic-intellij-plugin/sqlitemagic-plugin/src/main/java/com/siimkinks/sqlitemagic/intellij/plugin/psi/SqliteMagicLightMethodBuilder.java:161-178 | a public constructor `User` taking `java.lang.String name` renders as `public User(java.lang.String name){  }` |
| `Rendering.DuplicateModifierText` | sqlitemagic-intellij-plugin/sqlitemagic-plugin/src/main/java/com/siimkinks/sqlitemagic/intellij/plugin/psi/SqliteMagicLightMethodBuilder.java:190-194 | `public` added twice is printed twice |
| `Rendering.PlainText` | sqlitemagic-intellij-plugin/sqlitemagic-plugin/src/main/java/com/siimkinks/sqlitemagic/intellij/plugin/psi/SqliteMagicLightMethodBuilder.java:161-178 | without modifiers, `getId` renders as `long getId(){  }` and `id(int x)` as `long id(int x){  }` |
| `LightMethodBuilder.NullSafeEquals` | sqlitemagic-intellij-plugin/sqlitemagic-plugin/src/main/java/com/siimkinks/sqlitemagic/intellij/plugin/psi/SqliteMagicLightMethodBuilder.java:243-247 | the null-aware comparison holds exactly when both are absent, or both present and equal |
| `LightMethodBuilder.MethodBuilder.constructor` | sqlitemagic-intellij-plugin/sqlitemagic-plugin/src/main/java/com/siimkinks/sqlitemagic/intellij/plugin/psi/SqliteMagicLightMethodBuilder.java:23-29 | a new builder has the given name, is not a constructor, and has no return type, modifiers, annotations, parameters, exceptions, type parameters, containing class, body or cached node |
| `LightMethodBuilder.MethodBuilder.WithModifier` | sqlitemagic-intellij-plugin/sqlitemagic-plugin/src/main/java/com/siimkinks/sqlitemagic/intellij/plugin/psi/SqliteMagicLightMethodBuilder.java:36-39 | appends one modifier; nothing else changes, not even the cached node; returns the builder |
| `LightMethodBuilder.MethodBuilder.WithModifiers` | sqlitemagic-intellij-plugin/sqlitemagic-plugin/src/main/java/com/siimkinks/sqlitemagic/intellij/plugin/psi/SqliteMagicLightMethodBuilder.java:41-46 | appends all given modifiers in order; nothing else changes; returns the builder |
| `LightMethodBuilder.MethodBuilder.WithAnnotation` | sqlitemagic-intellij-plugin/sqlitemagic-plugin/src/main/java/com/siimkinks/sqlitemagic/intellij/plugin/psi/SqliteMagicLightMethodBuilder.java:48-52 | appends one annotation; nothing else changes; returns the builder |
| `LightMethodBuilder.MethodBuilder.WithMethodReturnType` | sqlitemagic-intellij-plugin/sqlitemagic-plugin/src/main/java/com/siimkinks/sqlitemagic/intellij/plugin/psi/SqliteMagicLightMethodBuilder.java:54-57 | sets the return type, which may be absent; nothing else changes; returns the builder |
| `LightMethodBuilder.MethodBuilder.WithNamedParameter` | sqlitemagic-intellij-plugin/sqlitemagic-plugin/src/main/java/com/siimkinks/sqlitemagic/intellij/plugin/psi/SqliteMagicLightMethodBuilder.java:59-61 | appends the parameter built from the name and type; nothing else changes; returns the builder |
| `LightMethodBuilder.MethodBuilder.WithParameter` | sqlitemagic-intellij-plugin/sqlitemagic-plugin/src/main/java/com/siimkinks/sqlitemagic/intellij/plugin/psi/SqliteMagicLightMethodBuilder.java:63-66 | appends the parameter; nothing else changes; returns the builder |
| `LightMethodBuilder.MethodBuilder.AddException` | sqlitemagic-intellij-plugin/sqlitemagic-plugin/src/main/java/com/siimkinks/sqlitemagic/intellij/plugin/psi/SqliteMagicLightMethodBuilder.java:68-76 | appends to the throws list, by type or by qualified name; nothing else changes; returns the builder |
| `LightMethodBuilder.MethodBuilder.WithException` | sqlitemagic-intellij-plugin/sqlitemagic-plugin/src/main/java/com/siimkinks/sqlitemagic/intellij/plugin/psi/SqliteMagicLightMethodBuilder.java:84-92 | the same as `AddException` |
| `LightMethodBuilder.MethodBuilder.GetThrowsList` | sqlitemagic-intellij-plugin/sqlitemagic-plugin/src/main/java/com/siimkinks/sqlitemagic/intellij/plugin/psi/SqliteMagicLightMethodBuilder.java:78-82 | the builder's own throws list: every exception added so far, in order |
| `LightMethodBuilder.MethodBuilder.WithContainingClass` | sqlitemagic-intellij-plugin/sqlitemagic-plugin/src/main/java/com/siimkinks/sqlitemagic/intellij/plugin/psi/SqliteMagicLightMethodBuilder.java:94-97 | sets the containing class; nothing else changes; returns the builder |
| `LightMethodBuilder.MethodBuilder.WithTypeParameter` | sqlitemagic-intellij-plugin/sqlitemagic-plugin/src/main/java/com/siimkinks/sqlitemagic/intellij/plugin/psi/SqliteMagicLightMethodBuilder.java:99-102 | appends a type parameter; nothing else changes; returns the builder |
| `LightMethodBuilder.MethodBuilder.WithConstructor` | sqlitemagic-intellij-plugin/sqlitemagic-plugin/src/main/java/com/siimkinks/sqlitemagic/intellij/plugin/psi/SqliteMagicLightMethodBuilder.java:104-107 | sets only the constructor flag and leaves the return type; returns the builder |
| `LightMethodBuilder.MethodBuilder.WithBody` | sqlitemagic-intellij-plugin/sqlitemagic-plugin/src/main/java/com/siimkinks/sqlitemagic/intellij/plugin/psi/SqliteMagicLightMethodBuilder.java:109-117 | records the body that `GetBody` returns; nothing else changes; returns the builder |
| `LightMethodBuilder.MethodBuilder.GetBody` | sqlitemagic-intellij-plugin/sqlitemagic-plugin/src/main/java/com/siimkinks/sqlitemagic/intellij/plugin/psi/SqliteMagicLightMethodBuilder.java:114-117 | the block last recorded by `WithBody`, absent before any; nothing rendered is involved |
| `LightMethodBuilder.MethodBuilder.SetName` | sqlitemagic-intellij-plugin/sqlitemagic-plugin/src/main/java/com/siimkinks/sqlitemagic/intellij/plugin/psi/SqliteMagicLightMethodBuilder.java:220-224 | overwrites the name and nothing else, so the cached node keeps the old text; returns the builder |
| `LightMethodBuilder.MethodBuilder.GetParent` | sqlitemagic-intellij-plugin/sqlitemagic-plugin/src/main/java/com/siimkinks/sqlitemagic/intellij/plugin/psi/SqliteMagicLightMethodBuilder.java:124-129 | the host's parent when there is one; otherwise the containing class, and absent without one |
| `LightMethodBuilder.MethodBuilder.GetContainingFile` | sqlitemagic-intellij-plugin/sqlitemagic-plugin/src/main/java/com/siimkinks/sqlitemagic/intellij/plugin/psi/SqliteMagicLightMethodBuilder.java:131-136 | the containing class's file; absent when no containing class is set |
| `LightMethodBuilder.MethodBuilder.Replace` | sqlitemagic-intellij-plugin/sqlitemagic-plugin/src/main/java/com/siimkinks/sqlitemagic/intellij/plugin/psi/SqliteMagicLightMethodBuilder.java:209-218 | absent exactly when no containing class is set; otherwise the result of adding the new element to that class; the builder is unchanged |
| `LightMethodBuilder.MethodBuilder.Delete` | sqlitemagic-intellij-plugin/sqlitemagic-plugin/src/main/java/com/siimkinks/sqlitemagic/intellij/plugin/psi/SqliteMagicLightMethodBuilder.java:269-272 | never fails and changes nothing |
| `LightMethodBuilder.MethodBuilder.CheckDelete` | sqlitemagic-intellij-plugin/sqlitemagic-plugin/src/main/java/com/siimkinks/sqlitemagic/intellij/plugin/psi/SqliteMagicLightMethodBuilder.java:274-277 | never fails and changes nothing |
| `LightMethodBuilder.MethodBuilder.AllModifierProperties` | sqlitemagic-intellij-plugin/sqlitemagic-plugin/src/main/java/com/siimkinks/sqlitemagic/intellij/plugin/psi/SqliteMagicLightMethodBuilder.java:187-199 | the loop's output equals `ModifierText` and the kept modifiers, each followed by a space |
| `LightMethodBuilder.MethodBuilder.ParameterListText` | sqlitemagic-intellij-plugin/sqlitemagic-plugin/src/main/java/com/siimkinks/sqlitemagic/intellij/plugin/psi/SqliteMagicLightMethodBuilder.java:171-176 | the parameter loop followed by deleting the last character yields the comma-joined "type name" segment, empty for no parameters |
| `LightMethodBuilder.MethodBuilder.BuildDeclarationText` | sqlitemagic-intellij-plugin/sqlitemagic-plugin/src/main/java/com/siimkinks/sqlitemagic/intellij/plugin/psi/SqliteMagicLightMethodBuilder.java:161-178 | the assembled text is `Render` of the current configuration |
| `LightMethodBuilder.MethodBuilder.RebuildMethodFromString` | sqlitemagic-intellij-plugin/sqlitemagic-plugin/src/main/java/com/siimkinks/sqlitemagic/intellij/plugin/psi/SqliteMagicLightMethodBuilder.java:161-185 | a new node whose text renders the current configuration, scoped to the containing class |
| `LightMethodBuilder.MethodBuilder.Copy` | sqlitemagic-intellij-plugin/sqlitemagic-plugin/src/main/java/com/siimkinks/sqlitemagic/intellij/plugin/psi/SqliteMagicLightMethodBuilder.java:201-203 | always a new node rendered from the current configuration, never the cached one |
| `LightMethodBuilder.MethodBuilder.GetNode` | sqlitemagic-intellij-plugin/sqlitemagic-plugin/src/main/java/com/siimkinks/sqlitemagic/intellij/plugin/psi/SqliteMagicLightMethodBuilder.java:147-153 | the first call builds and caches a node rendering the current configuration; every later call returns that same node |
| `LightMethodBuilder.MethodBuilder.GetText` | sqlitemagic-intellij-plugin/sqlitemagic-plugin/src/main/java/com/siimkinks/sqlitemagic/intellij/plugin/psi/SqliteMagicLightMethodBuilder.java:138-145 | the cached node's text, building the node first when none is cached |
| `LightMethodBuilder.MethodBuilder.Equals` | sqlitemagic-intellij-plugin/sqlitemagic-plugin/src/main/java/com/siimkinks/sqlitemagic/intellij/plugin/psi/SqliteMagicLightMethodBuilder.java:226-261 | equal exactly when the other builder is present and name, constructor flag, containing class, modifiers, annotations, parameters and return type all agree, absent counting as equal to absent; the identity shortcut gives nothing more |
| `LightMethodBuilder.EqualsReflexive` | sqlitemagic-intellij-plugin/sqlitemagic-plugin/src/main/java/com/siimkinks/sqlitemagic/intellij/plugin/psi/SqliteMagicLightMethodBuilder.java:228-230 | every builder equals itself |
| `LightMethodBuilder.EqualsSymmetric` | sqlitemagic-intellij-plugin/sqlitemagic-plugin/src/main/java/com/siimkinks/sqlitemagic/intellij/plugin/psi/SqliteMagicLightMethodBuilder.java:226-261 | equality is symmetric |
| `LightMethodBuilder.EqualsTransitive` | sqlitemagic-intellij-plugin/sqlitemagic-plugin/src/main/java/com/siimkinks/sqlitemagic/intellij/plugin/psi/SqliteMagicLightMethodBuilder.java:226-261 | equality is transitive |
| `LightMethodBuilder.MethodBuilder.HashCode` | sqlitemagic-intellij-plugin/sqlitemagic-plugin/src/main/java/com/siimkinks/sqlitemagic/intellij/plugin/psi/SqliteMagicLightMethodBuilder.java:263-267 | the hash is 1 whatever the builder's state |
| `LightMethodBuilder.HashCodeConstant` | sqlitemagic-intellij-plugin/sqlitemagic-plugin/src/main/java/com/siimkinks/sqlitemagic/intellij/plugin/psi/SqliteMagicLightMethodBuilder.java:263-267 | every builder hashes to 1, so equal builders hash alike, before and after a rename |
| `LightMethodBuilder.EqualBuildersRenderAlike` | sqlitemagic-intellij-plugin/sqlitemagic-plugin/src/main/java/com/siimkinks/sqlitemagic/intellij/plugin/psi/SqliteMagicLightMethodBuilder.java:226-261 | equal builders render the same declaration text |
| `LightMethodBuilder.GetterExample` | sqlitemagic-intellij-plugin/sqlitemagic-plugin/src/main/java/com/siimkinks/sqlitemagic/intellij/plugin/psi/SqliteMagicLightMethodBuilder.java:138-178 | the configured getter's text is `public long getId(){  }` |
| `LightMethodBuilder.ConstructorExample` | sqlitemagic-intellij-plugin/sqlitemagic-plugin/src/main/java/com/siimkinks/sqlitemagic/intellij/plugin/psi/SqliteMagicLightMethodBuilder.java:138-178 | the configured constructor's text is `public User(java.lang.String name){  }` |
| `LightMethodBuilder.StaleCacheExample` | sqlitemagic-intellij-plugin/sqlitemagic-plugin/src/main/java/com/siimkinks/sqlitemagic/intellij/plugin/psi/SqliteMagicLightMethodBuilder.java:139-153 | adding a parameter and renaming after the first `GetText` do not change the text; a copy shows the new configuration |

## Left out

- Java parsing: `CreateMethodFromText` only records its input text and scope. It does not build a syntax tree.
- Parser rejection: the host parser throws when the text is not a valid method declaration (for example a builder with an empty name and no return type renders `(){  }`). Here `CreateMethodFromText` always returns a node, so the failure that `getNode` (line 150), `getText` (line 140, through `getNode`) and `copy` (line 202) would pass on to their callers is not modelled, and `GetNode`, `GetText` and `Copy` never fail. A rejected build would also leave the cache empty, so a later `getNode` would try again.
- The host may in principle return no node for a parsed method. Here the parser always yields one, so the empty-text fallback of `getText` (line 144) cannot happen.
- `setName` writes a final field by reflection. It is modelled as a plain assignment. The failure when reflection is unavailable is not modelled.
- `withNavigationElement` (lines 31-34), `getNameIdentifier` (lines 119-122), `getTextRange` (lines 155-159), `toString` (lines 205-207) and the icon (line 28) are host plumbing with nothing to state.
- `CheckUtil.checkWritable` in `replace` (line 214) is a host check. The host's insertion into a class is the `classAdd` parameter of `Replace`. Only its result is modelled, not what it does to the class.
- `StringBuilderSpinAllocator` pooling is an allocation detail.
- The modifier list, parameter list and throws list belong to host library classes that are not part of this model. They are ordered sequences here, and their equality is sequence equality. The host's own modifier list may store modifiers as a hash set, which would drop duplicates and lose order. The model follows insertion order and keeps duplicates.
- `PsiType.equals` and `PsiClass.equals` come from the host. Type and class references are compared as values.
- `equals` receives an arbitrary object. The model takes a possibly-null builder, so the case of an object of another class is not modelled.
- `super.getParent()` is host code. It becomes the `hostParent` parameter of `GetParent`.
- Threading: the host runs everything on one read thread, and the model is sequential.
- Rendering.ParamCommas: the "n - 1 commas" count needs type texts and names without commas. A generic type's canonical text breaks it. JoinCommas gives the count in general.
