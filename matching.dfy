/**
 * The two visitors' decisions: when a call or a tagged template is a macro
 * invocation, and which literal text it carries.
 *
 * `keyMap` is a plain object literal, so reading `keyMap[name]` also sees the
 * members every object inherits (`isPrototypeOf`, `__lookupGetter__`, ...). Their names
 * are the parameter `protoNames`; all of them are truthy, and the plugin's own
 * entries are all `true`.
 */
module Matching {
  import opened Ast
  import opened Options
  import opened Replacement

  /** Truthiness of `obj[name]` for a plain object whose own properties are `obj`. */
  predicate Truthy(obj: map<string, bool>, protoNames: set<string>, name: string)
    ensures (forall k | k in obj :: obj[k]) ==>
      (Truthy(obj, protoNames, name) <==> name in obj || name in protoNames)
    ensures obj == map[] ==> (Truthy(obj, protoNames, name) <==> name in protoNames)
  {
    if name in obj then obj[name] else name in protoNames
  }

  /** The text handed to `replaceNode` by the call form: from the first argument, if any. */
  function ExtractArgument(args: seq<Node>): (text: string)
    requires forall a | a in args :: WellFormed(a)
    ensures text != "" ==> args != [] && (args[0].TemplateLiteral? || args[0].StringLiteral?)
  {
    if args == [] then ""
    else
      assert args[0] in args;
      match args[0]
      case TemplateLiteral(quasis, es) =>
        assert |quasis| == |es| + 1 by { assert WellFormed(TemplateLiteral(quasis, es)); }
        quasis[0].raw
      case StringLiteral(value) => value
      case _ => ""
  }

  /** The guard of the `CallExpression` visitor. */
  predicate CallMatches(n: Node, keyMap: map<string, bool>, protoNames: set<string>, scope: set<string>)
    ensures CallMatches(n, keyMap, protoNames, scope) ==>
      n.CallExpression? && n.callee.Identifier? && n.callee.name !in scope && (n.callee.name in keyMap || n.callee.name in protoNames)
  {
    && n.CallExpression?
    && n.callee.Identifier?
    && Truthy(keyMap, protoNames, n.callee.name)
    && n.callee.name !in scope
  }

  /** The guard of the `TaggedTemplateExpression` visitor; the empty object `{}` sees only inherited names. */
  predicate TagMatches(n: Node, keyMap: map<string, bool>, protoNames: set<string>)
    ensures TagMatches(n, keyMap, protoNames) ==>
      n.TaggedTemplateExpression? && n.tag.Identifier? && n.tag.name in keyMap && keyMap[n.tag.name] && n.tag.name !in protoNames && n.quasi.TemplateLiteral?
  {
    && n.TaggedTemplateExpression?
    && n.tag.Identifier?
    && !Truthy(map[], protoNames, n.tag.name)
    && Truthy(keyMap, protoNames, n.tag.name)
    && n.quasi.TemplateLiteral?
  }

  /**
   * The `CallExpression` visitor: `scope` holds every name `hasBinding`
   * reports around the call, Babel's builtin globals included.
   */
  function VisitCall<V>(n: Node, keyMap: map<string, bool>, protoNames: set<string>,
                        scope: set<string>, filename: string, host: Host<V>): (a: Action)
    requires WellFormed(n)
    ensures a.Keep? <==> !CallMatches(n, keyMap, protoNames, scope)
  {
    if CallMatches(n, keyMap, protoNames, scope) then
      ReplaceNode(ExtractArgument(n.arguments), filename, host)
    else Keep
  }

  /** The `TaggedTemplateExpression` visitor; it receives the scope but does not consult it. */
  function VisitTagged<V>(n: Node, keyMap: map<string, bool>, protoNames: set<string>,
                          scope: set<string>, filename: string, host: Host<V>): (a: Action)
    requires WellFormed(n)
    ensures a.Keep? <==> !TagMatches(n, keyMap, protoNames)
  {
    if TagMatches(n, keyMap, protoNames) then
      assert WellFormed(n.quasi);
      ReplaceNode(n.quasi.quasis[0].raw, filename, host)
    else Keep
  }

  // ---------------------------------------------------------------- extraction

  /** A template argument gives the raw text of its first static chunk and nothing after it. */
  lemma TemplateArgumentFirstChunk(t: Node, rest: seq<Node>)
    requires t.TemplateLiteral? && WellFormed(t) && forall a | a in rest :: WellFormed(a)
    ensures ExtractArgument([t] + rest) == t.quasis[0].raw
  {
  }

  /** Interpolations, and every chunk after the first, do not change the extracted text. */
  lemma InterpolationsIgnored(t1: Node, t2: Node)
    requires t1.TemplateLiteral? && t2.TemplateLiteral? && WellFormed(t1) && WellFormed(t2)
    requires t1.quasis[0] == t2.quasis[0]
    ensures ExtractArgument([t1]) == ExtractArgument([t2])
  {
  }

  /** `precall(`module.exports=${x}`)` carries only the text before `${`. */
  lemma InterpolationExample()
    ensures ExtractArgument([TemplateLiteral(
      [TemplateElement("module.exports=", "module.exports="), TemplateElement("", "")],
      [Identifier("x")])]) == "module.exports="
  {
  }

  /** A string-literal argument gives its value; a missing or other argument gives `""`. */
  lemma OtherArguments(args: seq<Node>)
    requires forall a | a in args :: WellFormed(a)
    ensures args != [] && args[0].StringLiteral? ==> ExtractArgument(args) == args[0].value
    ensures args == [] || !(args[0].StringLiteral? || args[0].TemplateLiteral?) ==>
      ExtractArgument(args) == ""
  {
  }

  // ---------------------------------------------------------------- call form

  /** A call is expanded exactly when its callee is an unbound identifier the key map finds. */
  lemma CallExpansion<V>(n: Node, keyMap: map<string, bool>, protoNames: set<string>,
                         scope: set<string>, filename: string, host: Host<V>)
    requires WellFormed(n) && n.CallExpression?
    ensures CallMatches(n, keyMap, protoNames, scope) ==>
      VisitCall(n, keyMap, protoNames, scope, filename, host)
        == ReplaceNode(ExtractArgument(n.arguments), filename, host)
    ensures !n.callee.Identifier? || n.callee.name in scope ==>
      VisitCall(n, keyMap, protoNames, scope, filename, host) == Keep
  {
  }

  /** Any binding of the callee's name in an enclosing scope leaves the call untouched. */
  lemma ShadowedCallKept<V>(name: string, args: seq<Node>, keyMap: map<string, bool>,
                            protoNames: set<string>, scope: set<string>, filename: string, host: Host<V>)
    requires forall a | a in args :: WellFormed(a)
    requires name in scope
    ensures VisitCall(CallExpression(Identifier(name), args), keyMap, protoNames, scope, filename, host) == Keep
  {
  }

  // ---------------------------------------------------------------- tagged form

  /** The tagged form is decided without the scope: a local binding of the tag does not stop it. */
  lemma TaggedIgnoresScope<V>(n: Node, keyMap: map<string, bool>, protoNames: set<string>,
                              s1: set<string>, s2: set<string>, filename: string, host: Host<V>)
    requires WellFormed(n)
    ensures VisitTagged(n, keyMap, protoNames, s1, filename, host)
         == VisitTagged(n, keyMap, protoNames, s2, filename, host)
  {
  }

  /** A tagged template with an own keyword tag is replaced using its first chunk's raw text. */
  lemma TaggedExpansion<V>(name: string, t: Node, keyMap: map<string, bool>, protoNames: set<string>,
                           scope: set<string>, filename: string, host: Host<V>)
    requires t.TemplateLiteral? && WellFormed(t)
    requires name in keyMap && keyMap[name] && name !in protoNames
    ensures VisitTagged(TaggedTemplateExpression(Identifier(name), t), keyMap, protoNames, scope, filename, host)
         == ReplaceNode(t.quasis[0].raw, filename, host)
  {
  }

  // ---------------------------------------------------------------- the two forms together

  /**
   * For a configured keyword that no scope binds and no object inherits,
   * `k(`...`)` and k`...` expand to the same thing.
   */
  lemma FormsAgree<V>(name: string, t: Node, keyMap: map<string, bool>, protoNames: set<string>,
                      scope: set<string>, filename: string, host: Host<V>)
    requires t.TemplateLiteral? && WellFormed(t)
    requires name in keyMap && keyMap[name] && name !in protoNames && name !in scope
    ensures VisitCall(CallExpression(Identifier(name), [t]), keyMap, protoNames, scope, filename, host)
         == VisitTagged(TaggedTemplateExpression(Identifier(name), t), keyMap, protoNames, scope, filename, host)
  {
  }

  /**
   * An inherited name that is not configured and that no scope binds
   * (`__lookupGetter__`, say) is expanded in the call form and never in the
   * tagged form.
   */
  lemma InheritedNameAsymmetry<V>(name: string, t: Node, keyMap: map<string, bool>, protoNames: set<string>,
                                  scope: set<string>, filename: string, host: Host<V>)
    requires t.TemplateLiteral? && WellFormed(t)
    requires name in protoNames && name !in keyMap && name !in scope
    ensures VisitCall(CallExpression(Identifier(name), [t]), keyMap, protoNames, scope, filename, host)
         == ReplaceNode(t.quasis[0].raw, filename, host)
    ensures VisitTagged(TaggedTemplateExpression(Identifier(name), t), keyMap, protoNames, scope, filename, host)
         == Keep
  {
  }

  /**
   * With the key map `handleOptions` builds: a tagged template expands only
   * for a configured keyword, a call for a configured keyword or an inherited
   * name, and every unbound configured keyword expands in the call form.
   */
  lemma ConfiguredKeywords<V>(options: PluginOptions, n: Node, protoNames: set<string>,
                              scope: set<string>, filename: string, host: Host<V>)
    requires WellFormed(n)
    ensures !VisitTagged(n, HandleOptions(options).keyMap, protoNames, scope, filename, host).Keep? ==>
      n.tag.name in HandleOptions(options).keyList
    ensures !VisitCall(n, HandleOptions(options).keyMap, protoNames, scope, filename, host).Keep? ==>
      n.callee.name in HandleOptions(options).keyList || n.callee.name in protoNames
    ensures n.CallExpression? && n.callee.Identifier? && n.callee.name in HandleOptions(options).keyList
            && n.callee.name !in scope ==>
      !VisitCall(n, HandleOptions(options).keyMap, protoNames, scope, filename, host).Keep?
  {
  }
}
