/** Classifying the imports of a source file as required or optional: `_SourceImports`. */
module ImportVisitor {
  import opened Results

  datatype Alias = Alias(name: string, asname: Option<string>)

  /** The syntax trees the visitor distinguishes; `Other` stands for every other node. */
  datatype Node =
    | Import(names: seq<Alias>, line: int)
    | ImportFrom(level: nat, source: Option<string>, names: seq<Alias>, line: int)
    | If(test: Node, body: seq<Node>, orelse: seq<Node>)
    | Try(body: seq<Node>, handlers: seq<Node>, orelse: seq<Node>, finalbody: seq<Node>)
    | Handler(catches: Option<Node>, body: seq<Node>)
    | Name(id: string)
    | Attribute(value: Node, attr: string)
    | Tuple(elts: seq<Node>)
    | Other(children: seq<Node>)

  // --- names and guards -------------------------------------------------------------

  /** Names bound to the module `typing`, and to its constant TYPE_CHECKING. */
  datatype Env = Env(typingNames: set<string>, typeCheckingNames: set<string>)

  /** The name up to its first dot. */
  function TopLevel(name: string): (top: string)
    ensures top <= name && '.' !in top && (top == name || name[|top|] == '.')
  {
    if name == "" || name[0] == '.' then "" else [name[0]] + TopLevel(name[1..])
  }

  function Bound(a: Alias): string { if a.asname.Some? then a.asname.value else a.name }

  predicate TypingOnly(test: Node, env: Env) {
    || (test.Name? && test.id in env.typeCheckingNames)
    || (test.Attribute? && test.value.Name? && test.value.id in env.typingNames && test.attr == "TYPE_CHECKING")
  }

  const IMPORT_ERRORS: set<string> := {"ImportError", "ModuleNotFoundError", "Exception", "BaseException"}

  predicate CatchesImportError(handler: Node) {
    && handler.Handler?
    && match handler.catches
       case None => true
       case Some(Tuple(elts)) => exists i :: 0 <= i < |elts| && elts[i].Name? && elts[i].id in IMPORT_ERRORS
       case Some(choice) => choice.Name? && choice.id in IMPORT_ERRORS
  }

  predicate GuardedTry(handlers: seq<Node>) {
    exists i :: 0 <= i < |handlers| && CatchesImportError(handlers[i])
  }

  // --- the specification: guards are inherited ------------------------------------------

  datatype Record = Record(name: string, line: int, optional: bool)

  datatype Walked = Walked(records: seq<Record>, env: Env)

  /** The names an `import` statement records and binds, alias by alias. */
  function Imported(names: seq<Alias>, line: int, guarded: bool, env: Env): Walked
    decreases |names|
  {
    if names == [] then Walked([], env)
    else
      var a := names[|names| - 1];
      var before := Imported(names[..|names| - 1], line, guarded, env);
      Walked(before.records + [Record(TopLevel(a.name), line, guarded)], Binding(a, before.env))
  }

  function Binding(a: Alias, env: Env): Env {
    if a.name == "typing" then env.(typingNames := env.typingNames + {Bound(a)}) else env
  }

  function CheckingNames(names: seq<Alias>): set<string> {
    set i | 0 <= i < |names| && names[i].name == "TYPE_CHECKING" :: Bound(names[i])
  }

  function ImportedFrom(node: Node, guarded: bool, env: Env): Walked
    requires node.ImportFrom?
  {
    if node.level > 0 || node.source.None? then Walked([], env)
    else
      Walked([Record(TopLevel(node.source.value), node.line, guarded)],
             if node.source.value == "typing"
             then env.(typeCheckingNames := env.typeCheckingNames + CheckingNames(node.names)) else env)
  }

  function Then(a: Walked, b: Walked): Walked { Walked(a.records + b.records, b.env) }

  /**
   What a tree records below a guard, in source order. The environment passes from
   statement to statement; a recognised guard covers a typing-only body, the body of
   a try statement with an import-error handler, every handler and every else of one.
   */
  function Walk(node: Node, guarded: bool, env: Env): Walked
    decreases node
  {
    match node
    case Import(names, line) => Imported(names, line, guarded, env)
    case ImportFrom(_, _, _, _) => ImportedFrom(node, guarded, env)
    case If(test, body, orelse) =>
      var condition := Walk(test, guarded, env);
      var chosen := WalkAll(body, guarded || TypingOnly(test, env), condition.env);
      Then(Then(condition, chosen), WalkAll(orelse, guarded, chosen.env))
    case Try(body, handlers, orelse, finalbody) =>
      var tried := WalkAll(body, guarded || GuardedTry(handlers), env);
      var handled := WalkAll(handlers, true, tried.env);
      var succeeded := WalkAll(orelse, true, handled.env);
      Then(Then(Then(tried, handled), succeeded), WalkAll(finalbody, guarded, succeeded.env))
    case Handler(catches, body) =>
      var caught := if catches.Some? then Walk(catches.value, guarded, env) else Walked([], env);
      Then(caught, WalkAll(body, guarded, caught.env))
    case Name(_) => Walked([], env)
    case Attribute(value, _) => Walk(value, guarded, env)
    case Tuple(elts) => WalkAll(elts, guarded, env)
    case Other(children) => WalkAll(children, guarded, env)
  }

  function WalkAll(nodes: seq<Node>, guarded: bool, env: Env): Walked
    decreases nodes
  {
    if nodes == [] then Walked([], env)
    else
      var first := Walk(nodes[0], guarded, env);
      Then(first, WalkAll(nodes[1..], guarded, first.env))
  }

  // --- every absolute import once, whatever the guards ----------------------------------

  datatype Mention = Mention(name: string, line: int)

  /** The absolute imports of a tree, with no notion of guards or names. */
  function Mentions(node: Node): seq<Mention>
    decreases node
  {
    match node
    case Import(names, line) => seq(|names|, i requires 0 <= i < |names| => Mention(TopLevel(names[i].name), line))
    case ImportFrom(level, source, _, line) =>
      if level == 0 && source.Some? then [Mention(TopLevel(source.value), line)] else []
    case If(test, body, orelse) => Mentions(test) + MentionsAll(body) + MentionsAll(orelse)
    case Try(body, handlers, orelse, finalbody) =>
      MentionsAll(body) + MentionsAll(handlers) + MentionsAll(orelse) + MentionsAll(finalbody)
    case Handler(catches, body) => (if catches.Some? then Mentions(catches.value) else []) + MentionsAll(body)
    case Name(_) => []
    case Attribute(value, _) => Mentions(value)
    case Tuple(elts) => MentionsAll(elts)
    case Other(children) => MentionsAll(children)
  }

  function MentionsAll(nodes: seq<Node>): seq<Mention>
    decreases nodes
  {
    if nodes == [] then [] else Mentions(nodes[0]) + MentionsAll(nodes[1..])
  }

  function Mentioned(records: seq<Record>): (m: seq<Mention>)
    ensures |m| == |records| && forall i | 0 <= i < |m| :: m[i] == Mention(records[i].name, records[i].line)
  {
    seq(|records|, i requires 0 <= i < |records| => Mention(records[i].name, records[i].line))
  }

  lemma {:induction false} MentionedThen(a: seq<Record>, b: seq<Record>)
    ensures Mentioned(a + b) == Mentioned(a) + Mentioned(b)
  {
  }

  lemma {:induction false} ImportedMentions(names: seq<Alias>, line: int, guarded: bool, env: Env)
    ensures Mentioned(Imported(names, line, guarded, env).records) == Mentions(Import(names, line))
    decreases |names|
  {
    if names != [] {
      var init := names[..|names| - 1];
      ImportedMentions(init, line, guarded, env);
      MentionedThen(Imported(init, line, guarded, env).records, [Record(TopLevel(names[|init|].name), line, guarded)]);
    }
  }

  /** Each absolute import is recorded exactly once, in source order; no other name is. */
  lemma {:induction false} EachOnce(node: Node, guarded: bool, env: Env)
    ensures Mentioned(Walk(node, guarded, env).records) == Mentions(node)
    decreases node
  {
    match node
    case Import(names, line) => ImportedMentions(names, line, guarded, env);
    case ImportFrom(_, _, _, _) =>
    case If(test, body, orelse) =>
      var condition := Walk(test, guarded, env);
      var chosen := WalkAll(body, guarded || TypingOnly(test, env), condition.env);
      var otherwise := WalkAll(orelse, guarded, chosen.env);
      EachOnce(test, guarded, env);
      AllOnce(body, guarded || TypingOnly(test, env), condition.env);
      AllOnce(orelse, guarded, chosen.env);
      MentionedThen(condition.records + chosen.records, otherwise.records);
      MentionedThen(condition.records, chosen.records);
    case Try(body, handlers, orelse, finalbody) =>
      var tried := WalkAll(body, guarded || GuardedTry(handlers), env);
      var handled := WalkAll(handlers, true, tried.env);
      var succeeded := WalkAll(orelse, true, handled.env);
      var finished := WalkAll(finalbody, guarded, succeeded.env);
      AllOnce(body, guarded || GuardedTry(handlers), env);
      AllOnce(handlers, true, tried.env);
      AllOnce(orelse, true, handled.env);
      AllOnce(finalbody, guarded, succeeded.env);
      MentionedThen(tried.records + handled.records + succeeded.records, finished.records);
      MentionedThen(tried.records + handled.records, succeeded.records);
      MentionedThen(tried.records, handled.records);
    case Handler(catches, body) =>
      var caught := if catches.Some? then Walk(catches.value, guarded, env) else Walked([], env);
      if catches.Some? { EachOnce(catches.value, guarded, env); }
      AllOnce(body, guarded, caught.env);
      MentionedThen(caught.records, WalkAll(body, guarded, caught.env).records);
    case Name(_) =>
    case Attribute(value, _) => EachOnce(value, guarded, env);
    case Tuple(elts) => AllOnce(elts, guarded, env);
    case Other(children) => AllOnce(children, guarded, env);
  }

  lemma {:induction false} AllOnce(nodes: seq<Node>, guarded: bool, env: Env)
    ensures Mentioned(WalkAll(nodes, guarded, env).records) == MentionsAll(nodes)
    decreases nodes
  {
    if nodes != [] {
      var first := Walk(nodes[0], guarded, env);
      EachOnce(nodes[0], guarded, env);
      AllOnce(nodes[1..], guarded, first.env);
      MentionedThen(first.records, WalkAll(nodes[1..], guarded, first.env).records);
    }
  }

  // --- which names are bound ---------------------------------------------------------------

  /** The names that a tree binds to the module `typing`, with no notion of order. */
  function TypingIn(node: Node): set<string>
    decreases node
  {
    match node
    case Import(names, _) =>
      set i | 0 <= i < |names| && names[i].name == "typing" ::
        if names[i].asname.None? then "typing" else names[i].asname.value
    case ImportFrom(_, _, _, _) => {}
    case If(test, body, orelse) => TypingIn(test) + TypingInAll(body) + TypingInAll(orelse)
    case Try(body, handlers, orelse, finalbody) =>
      TypingInAll(body) + TypingInAll(handlers) + TypingInAll(orelse) + TypingInAll(finalbody)
    case Handler(catches, body) => (if catches.Some? then TypingIn(catches.value) else {}) + TypingInAll(body)
    case Name(_) => {}
    case Attribute(value, _) => TypingIn(value)
    case Tuple(elts) => TypingInAll(elts)
    case Other(children) => TypingInAll(children)
  }

  function TypingInAll(nodes: seq<Node>): set<string>
    decreases nodes
  {
    if nodes == [] then {} else TypingIn(nodes[0]) + TypingInAll(nodes[1..])
  }

  /** The names that a tree binds to its constant TYPE_CHECKING. */
  function CheckingIn(node: Node): set<string>
    decreases node
  {
    match node
    case Import(_, _) => {}
    case ImportFrom(level, source, names, _) =>
      if level == 0 && source == Some("typing") then
        set i | 0 <= i < |names| && names[i].name == "TYPE_CHECKING" ::
          if names[i].asname.None? then "TYPE_CHECKING" else names[i].asname.value
      else {}
    case If(test, body, orelse) => CheckingIn(test) + CheckingInAll(body) + CheckingInAll(orelse)
    case Try(body, handlers, orelse, finalbody) =>
      CheckingInAll(body) + CheckingInAll(handlers) + CheckingInAll(orelse) + CheckingInAll(finalbody)
    case Handler(catches, body) => (if catches.Some? then CheckingIn(catches.value) else {}) + CheckingInAll(body)
    case Name(_) => {}
    case Attribute(value, _) => CheckingIn(value)
    case Tuple(elts) => CheckingInAll(elts)
    case Other(children) => CheckingInAll(children)
  }

  function CheckingInAll(nodes: seq<Node>): set<string>
    decreases nodes
  {
    if nodes == [] then {} else CheckingIn(nodes[0]) + CheckingInAll(nodes[1..])
  }

  // These names are added to the environment.
  function Adding(env: Env, typing: set<string>, checking: set<string>): Env {
    Env(env.typingNames + typing, env.typeCheckingNames + checking)
  }

  lemma {:induction false} AddingTwice(env: Env, a: set<string>, b: set<string>, x: set<string>, y: set<string>)
    ensures Adding(Adding(env, a, b), x, y) == Adding(env, a + x, b + y)
  {
    assert env.typingNames + a + x == env.typingNames + (a + x);
    assert env.typeCheckingNames + b + y == env.typeCheckingNames + (b + y);
  }

  lemma {:induction false} AddingNothing(env: Env)
    ensures Adding(env, {}, {}) == env
  {
  }

  lemma {:induction false} ImportedBinds(names: seq<Alias>, line: int, guarded: bool, env: Env)
    ensures Imported(names, line, guarded, env).env == Adding(env, TypingIn(Import(names, line)), {})
    decreases |names|
  {
    if names == [] {
      AddingNothing(env);
    } else {
      var init, last := names[..|names| - 1], names[|names| - 1];
      ImportedBinds(init, line, guarded, env);
      TypingLast(names, line);
      var added := if last.name != "typing" then {} else if last.asname.None? then {"typing"} else {last.asname.value};
      AddingTwice(env, TypingIn(Import(init, line)), {}, added, {});
    }
  }

  lemma {:induction false} TypingLast(names: seq<Alias>, line: int)
    requires names != []
    ensures
      var last := names[|names| - 1];
      TypingIn(Import(names, line)) == TypingIn(Import(names[..|names| - 1], line))
        + if last.name != "typing" then {} else if last.asname.None? then {"typing"} else {last.asname.value}
  {
    var init, last := names[..|names| - 1], names[|names| - 1];
    forall x | x in TypingIn(Import(init, line)) ensures x in TypingIn(Import(names, line)) {
      var k :| 0 <= k < |init| && init[k].name == "typing"
               && x == if init[k].asname.None? then "typing" else init[k].asname.value;
      assert names[k] == init[k];
    }
    forall x | x in TypingIn(Import(names, line))
      ensures x in TypingIn(Import(init, line))
                   + if last.name != "typing" then {} else if last.asname.None? then {"typing"} else {last.asname.value}
    {
      var k :| 0 <= k < |names| && names[k].name == "typing"
               && x == if names[k].asname.None? then "typing" else names[k].asname.value;
      if k < |init| { assert init[k] == names[k]; }
    }
  }

  /** A walk binds exactly the names its tree does, in addition to those bound before. */
  lemma {:induction false} EnvExact(node: Node, guarded: bool, env: Env)
    ensures Walk(node, guarded, env).env == Adding(env, TypingIn(node), CheckingIn(node))
    decreases node
  {
    match node
    case Import(names, line) => ImportedBinds(names, line, guarded, env);
    case ImportFrom(_, _, _, _) => AddingNothing(env);
    case If(test, body, orelse) =>
      var condition := Walk(test, guarded, env).env;
      var inside := guarded || TypingOnly(test, env);
      var chosen := WalkAll(body, inside, condition).env;
      EnvExact(test, guarded, env);
      EnvsExact(body, inside, condition);
      EnvsExact(orelse, guarded, chosen);
      AddingTwice(env, TypingIn(test), CheckingIn(test), TypingInAll(body), CheckingInAll(body));
      AddingTwice(env, TypingIn(test) + TypingInAll(body), CheckingIn(test) + CheckingInAll(body),
                  TypingInAll(orelse), CheckingInAll(orelse));
    case Try(body, handlers, orelse, finalbody) => TryExact(node, guarded, env);
    case Handler(catches, body) =>
      AddingNothing(env);
      if catches.Some? {
        EnvExact(catches.value, guarded, env);
        AddingTwice(env, TypingIn(catches.value), CheckingIn(catches.value), TypingInAll(body), CheckingInAll(body));
      }
      EnvsExact(body, guarded, if catches.Some? then Walk(catches.value, guarded, env).env else env);
    case Name(_) => AddingNothing(env);
    case Attribute(value, _) => EnvExact(value, guarded, env);
    case Tuple(elts) => EnvsExact(elts, guarded, env);
    case Other(children) => EnvsExact(children, guarded, env);
  }

  lemma {:induction false} TryExact(node: Node, guarded: bool, env: Env)
    requires node.Try?
    ensures Walk(node, guarded, env).env == Adding(env, TypingIn(node), CheckingIn(node))
    decreases node, 0
  {
    var a, b := TypingInAll(node.body), CheckingInAll(node.body);
    var c, d := TypingInAll(node.handlers), CheckingInAll(node.handlers);
    var x, y := TypingInAll(node.orelse), CheckingInAll(node.orelse);
    EnvsExact(node.body, guarded || GuardedTry(node.handlers), env);
    EnvsExact(node.handlers, true, Adding(env, a, b));
    AddingTwice(env, a, b, c, d);
    EnvsExact(node.orelse, true, Adding(env, a + c, b + d));
    AddingTwice(env, a + c, b + d, x, y);
    EnvsExact(node.finalbody, guarded, Adding(env, a + c + x, b + d + y));
    AddingTwice(env, a + c + x, b + d + y, TypingInAll(node.finalbody), CheckingInAll(node.finalbody));
  }

  lemma {:induction false} EnvsExact(nodes: seq<Node>, guarded: bool, env: Env)
    ensures WalkAll(nodes, guarded, env).env == Adding(env, TypingInAll(nodes), CheckingInAll(nodes))
    decreases nodes
  {
    if nodes == [] {
      AddingNothing(env);
    } else {
      EnvExact(nodes[0], guarded, env);
      EnvsExact(nodes[1..], guarded, Walk(nodes[0], guarded, env).env);
      AddingTwice(env, TypingIn(nodes[0]), CheckingIn(nodes[0]), TypingInAll(nodes[1..]), CheckingInAll(nodes[1..]));
    }
  }

  // --- a guard reaches everything below it, and nothing else --------------------------------

  predicate AllOptional(records: seq<Record>) { forall i | 0 <= i < |records| :: records[i].optional }

  /** Below a guard every import is optional; which names are bound does not depend on guards. */
  lemma {:induction false} GuardCovers(node: Node, env: Env)
    ensures AllOptional(Walk(node, true, env).records)
    ensures Walk(node, true, env).env == Walk(node, false, env).env
    decreases node
  {
    match node
    case Import(names, line) => ImportedCovers(names, line, env);
    case ImportFrom(_, _, _, _) =>
    case If(test, body, orelse) =>
      GuardCovers(test, env);
      var after := Walk(test, true, env).env;
      GuardCoversAll(body, after);
      GuardCoversAll(orelse, WalkAll(body, true, after).env);
    case Try(body, handlers, orelse, finalbody) =>
      GuardCoversAll(body, env);
      var tried := WalkAll(body, true, env).env;
      GuardCoversAll(handlers, tried);
      var handled := WalkAll(handlers, true, tried).env;
      GuardCoversAll(orelse, handled);
      GuardCoversAll(finalbody, WalkAll(orelse, true, handled).env);
    case Handler(catches, body) =>
      if catches.Some? { GuardCovers(catches.value, env); }
      GuardCoversAll(body, if catches.Some? then Walk(catches.value, true, env).env else env);
    case Name(_) =>
    case Attribute(value, _) => GuardCovers(value, env);
    case Tuple(elts) => GuardCoversAll(elts, env);
    case Other(children) => GuardCoversAll(children, env);
  }

  lemma {:induction false} GuardCoversAll(nodes: seq<Node>, env: Env)
    ensures AllOptional(WalkAll(nodes, true, env).records)
    ensures WalkAll(nodes, true, env).env == WalkAll(nodes, false, env).env
    decreases nodes
  {
    if nodes != [] {
      GuardCovers(nodes[0], env);
      GuardCoversAll(nodes[1..], Walk(nodes[0], true, env).env);
    }
  }

  lemma {:induction false} ImportedCovers(names: seq<Alias>, line: int, env: Env)
    ensures AllOptional(Imported(names, line, true, env).records)
    ensures Imported(names, line, true, env).env == Imported(names, line, false, env).env
    decreases |names|
  {
    if names != [] { ImportedCovers(names[..|names| - 1], line, env); }
  }

  // --- the visitor ------------------------------------------------------------------------

  function Required(records: seq<Record>): seq<Mention> { Chosen(records, false) }

  function Optional(records: seq<Record>): seq<Mention> { Chosen(records, true) }

  function Chosen(records: seq<Record>, optional: bool): seq<Mention> {
    if records == [] then []
    else
      var last := records[|records| - 1];
      Chosen(records[..|records| - 1], optional)
      + if last.optional == optional then [Mention(last.name, last.line)] else []
  }

  lemma {:induction false} ChosenThen(a: seq<Record>, b: seq<Record>, optional: bool)
    ensures Chosen(a + b, optional) == Chosen(a, optional) + Chosen(b, optional)
    decreases |b|
  {
    if b == [] {
      assert a + b == a;
    } else {
      assert (a + b)[..|a + b| - 1] == a + b[..|b| - 1];
      ChosenThen(a, b[..|b| - 1], optional);
    }
  }

  // --- what is required, as what is left of the tree ------------------------------------------

  /** The tree with everything below a recognised guard cut out. */
  function Pruned(node: Node, env: Env): Node
    decreases node
  {
    match node
    case If(test, body, orelse) =>
      var tested := Walk(test, false, env).env;
      var chosen := WalkAll(body, false, tested).env;
      If(Pruned(test, env), if TypingOnly(test, env) then [] else PrunedAll(body, tested), PrunedAll(orelse, chosen))
    case Try(body, handlers, orelse, finalbody) =>
      var tried := WalkAll(body, false, env).env;
      var succeeded := WalkAll(orelse, true, WalkAll(handlers, true, tried).env).env;
      Try(if GuardedTry(handlers) then [] else PrunedAll(body, env), [], [], PrunedAll(finalbody, succeeded))
    case Handler(catches, body) =>
      var caught := if catches.Some? then Walk(catches.value, false, env).env else env;
      Handler(if catches.Some? then Some(Pruned(catches.value, env)) else None, PrunedAll(body, caught))
    case Attribute(value, attr) => Attribute(Pruned(value, env), attr)
    case Tuple(elts) => Tuple(PrunedAll(elts, env))
    case Other(children) => Other(PrunedAll(children, env))
    case _ => node
  }

  function PrunedAll(nodes: seq<Node>, env: Env): seq<Node>
    decreases nodes
  {
    if nodes == [] then []
    else [Pruned(nodes[0], env)] + PrunedAll(nodes[1..], Walk(nodes[0], false, env).env)
  }

  lemma {:induction false} NoneRequired(records: seq<Record>)
    requires AllOptional(records)
    ensures Required(records) == []
  {
    if records != [] { NoneRequired(records[..|records| - 1]); }
  }

  lemma {:induction false} RequiredThen(a: Walked, b: Walked)
    ensures Required(Then(a, b).records) == Required(a.records) + Required(b.records)
  {
    ChosenThen(a.records, b.records, false);
  }

  lemma {:induction false} ImportedRequired(names: seq<Alias>, line: int, env: Env)
    ensures Required(Imported(names, line, false, env).records) == Mentions(Import(names, line))
    decreases |names|
  {
    if names != [] {
      var init, last := names[..|names| - 1], names[|names| - 1];
      ImportedRequired(init, line, env);
      var before := Imported(init, line, false, env);
      AfterLast(before.records, Record(TopLevel(last.name), line, false));
      assert Mentions(Import(names, line)) == Mentions(Import(init, line)) + [Mention(TopLevel(last.name), line)];
    }
  }

  lemma {:induction false} AfterLast(records: seq<Record>, r: Record)
    ensures Chosen(records + [r], false) ==
              Chosen(records, false) + if r.optional then [] else [Mention(r.name, r.line)]
  {
    assert (records + [r])[..|records|] == records;
  }

  // A guarded list contributes nothing that is required.
  lemma {:induction false} BodyRequired(nodes: seq<Node>, guarded: bool, env: Env)
    requires !guarded ==> Required(WalkAll(nodes, false, env).records) == MentionsAll(PrunedAll(nodes, env))
    ensures Required(WalkAll(nodes, guarded, env).records) == MentionsAll(if guarded then [] else PrunedAll(nodes, env))
    ensures WalkAll(nodes, guarded, env).env == WalkAll(nodes, false, env).env
  {
    GuardCoversAll(nodes, env);
    if guarded { NoneRequired(WalkAll(nodes, true, env).records); }
  }

  /** The required imports are exactly the absolute imports outside all guards. */
  lemma {:induction false} RequiredOutsideGuards(node: Node, env: Env)
    ensures Required(Walk(node, false, env).records) == Mentions(Pruned(node, env))
    decreases node, 1
  {
    match node
    case Import(names, line) => ImportedRequired(names, line, env);
    case ImportFrom(_, _, _, _) => FromRequired(node, env);
    case If(test, body, orelse) =>
      var condition := Walk(test, false, env);
      var guarded := TypingOnly(test, env);
      var chosen := WalkAll(body, guarded, condition.env);
      RequiredOutsideGuards(test, env);
      AllRequired(body, condition.env);
      BodyRequired(body, guarded, condition.env);
      AllRequired(orelse, chosen.env);
      RequiredThen(Then(condition, chosen), WalkAll(orelse, false, chosen.env));
      RequiredThen(condition, chosen);
    case Try(body, handlers, orelse, finalbody) => TryRequired(node, env);
    case Handler(catches, body) =>
      var caught := if catches.Some? then Walk(catches.value, false, env) else Walked([], env);
      if catches.Some? { RequiredOutsideGuards(catches.value, env); }
      AllRequired(body, caught.env);
      RequiredThen(caught, WalkAll(body, false, caught.env));
    case Name(_) =>
    case Attribute(value, _) => RequiredOutsideGuards(value, env);
    case Tuple(elts) => AllRequired(elts, env);
    case Other(children) => AllRequired(children, env);
  }

  lemma {:induction false} FromRequired(node: Node, env: Env)
    requires node.ImportFrom?
    ensures Required(ImportedFrom(node, false, env).records) == Mentions(node)
  {
    if node.level == 0 && node.source.Some? {
      AfterLast([], Record(TopLevel(node.source.value), node.line, false));
    }
  }

  lemma {:induction false} TryRequired(node: Node, env: Env)
    requires node.Try?
    ensures Required(Walk(node, false, env).records) == Mentions(Pruned(node, env))
    decreases node, 0
  {
    var guarded := GuardedTry(node.handlers);
    var tried := WalkAll(node.body, guarded, env);
    var handled := WalkAll(node.handlers, true, tried.env);
    var succeeded := WalkAll(node.orelse, true, handled.env);
    var finished := WalkAll(node.finalbody, false, succeeded.env);
    AllRequired(node.body, env);
    BodyRequired(node.body, guarded, env);
    GuardCoversAll(node.handlers, tried.env);
    NoneRequired(handled.records);
    GuardCoversAll(node.orelse, handled.env);
    NoneRequired(succeeded.records);
    AllRequired(node.finalbody, succeeded.env);
    RequiredThen(Then(Then(tried, handled), succeeded), finished);
    RequiredThen(Then(tried, handled), succeeded);
    RequiredThen(tried, handled);
  }

  lemma {:induction false} AllRequired(nodes: seq<Node>, env: Env)
    ensures Required(WalkAll(nodes, false, env).records) == MentionsAll(PrunedAll(nodes, env))
    decreases nodes, 1
  {
    if nodes != [] {
      var first := Walk(nodes[0], false, env);
      RequiredOutsideGuards(nodes[0], env);
      AllRequired(nodes[1..], first.env);
      RequiredThen(first, WalkAll(nodes[1..], false, first.env));
      assert PrunedAll(nodes, env)[1..] == PrunedAll(nodes[1..], first.env);
    }
  }

  /** What the visitor has found, and how deep it is inside guards. */
  datatype Findings = Findings(required: seq<Mention>, optional: seq<Mention>, env: Env, depth: nat)

  /** The walk is added to the lists; the depth is as before. */
  function After(f: Findings, walked: Walked): Findings {
    Findings(f.required + Required(walked.records), f.optional + Optional(walked.records), walked.env, f.depth)
  }

  lemma {:induction false} AfterThen(f: Findings, a: Walked, b: Walked)
    ensures After(f, Then(a, b)) == After(After(f, a), b)
  {
    ChosenThen(a.records, b.records, false);
    ChosenThen(a.records, b.records, true);
  }

  lemma {:induction false} AfterNothing(f: Findings)
    ensures After(f, Walked([], f.env)) == f
  {
  }

  lemma {:induction false} AfterOne(f: Findings, r: Record)
    ensures After(f, Walked([r], f.env)) ==
      if r.optional then f.(optional := f.optional + [Mention(r.name, r.line)])
      else f.(required := f.required + [Mention(r.name, r.line)])
  {
    assert [r][..0] == [];
    assert Chosen([r], r.optional) == [Mention(r.name, r.line)] && Chosen([r], !r.optional) == [];
  }

  lemma {:induction false} ImportedNext(f: Findings, names: seq<Alias>, i: nat, line: int)
    requires i < |names|
    ensures
      var before := Imported(names[..i], line, f.depth > 0, f.env);
      After(f, Imported(names[..i + 1], line, f.depth > 0, f.env))
        == After(After(f, before),
                 Walked([Record(TopLevel(names[i].name), line, f.depth > 0)], Binding(names[i], before.env)))
  {
    var before := Imported(names[..i], line, f.depth > 0, f.env);
    assert names[..i + 1][..i] == names[..i];
    AfterThen(f, before, Walked([Record(TopLevel(names[i].name), line, f.depth > 0)], Binding(names[i], before.env)));
  }

  // `any(catches_import_error(handler) for handler in node.handlers)`
  method CatchesAny(handlers: seq<Node>) returns (found: bool)
    ensures found <==> GuardedTry(handlers)
  {
    for i := 0 to |handlers|
      invariant forall k | 0 <= k < i :: !CatchesImportError(handlers[k])
    {
      var handler := handlers[i];
      if handler.Handler? {
        var choices := [];
        if handler.catches.None? {
          return true;
        } else if handler.catches.value.Tuple? {
          choices := handler.catches.value.elts;
        } else {
          choices := [handler.catches.value];
        }
        assert handler.catches.Some? && !handler.catches.value.Tuple? ==> choices[0] == handler.catches.value;
        var caught := CatchesChoice(choices);
        if caught {
          return true;
        }
      }
    }
    return false;
  }

  method CatchesChoice(choices: seq<Node>) returns (found: bool)
    ensures found <==> exists i :: 0 <= i < |choices| && choices[i].Name? && choices[i].id in IMPORT_ERRORS
  {
    for i := 0 to |choices|
      invariant forall k | 0 <= k < i :: !(choices[k].Name? && choices[k].id in IMPORT_ERRORS)
    {
      var choice := choices[i];
      if choice.Name? && (choice.id == "ImportError" || choice.id == "ModuleNotFoundError"
                          || choice.id == "Exception" || choice.id == "BaseException") {
        return true;
      }
    }
    return false;
  }

  lemma {:induction false} CheckingNext(names: seq<Alias>, i: nat)
    requires i < |names|
    ensures CheckingNames(names[..i + 1]) ==
              CheckingNames(names[..i]) + if names[i].name == "TYPE_CHECKING" then {Bound(names[i])} else {}
  {
    var before, after := names[..i], names[..i + 1];
    forall x | x in CheckingNames(after)
      ensures x in CheckingNames(before) + if names[i].name == "TYPE_CHECKING" then {Bound(names[i])} else {}
    {
      var k :| 0 <= k < |after| && after[k].name == "TYPE_CHECKING" && x == Bound(after[k]);
      if k < i { assert before[k] == after[k]; }
    }
    forall x | x in CheckingNames(before) ensures x in CheckingNames(after) {
      var k :| 0 <= k < |before| && before[k].name == "TYPE_CHECKING" && x == Bound(before[k]);
      assert after[k] == before[k];
    }
    if names[i].name == "TYPE_CHECKING" { assert after[i] == names[i]; }
  }

  class SourceImports {
    var required: seq<Mention>
    var optional: seq<Mention>
    var optionalDepth: nat
    var typingNames: set<string>
    var typeCheckingNames: set<string>

    constructor ()
      ensures State() == Findings([], [], Env({}, {}), 0)
    {
      required, optional, optionalDepth := [], [], 0;
      typingNames, typeCheckingNames := {}, {};
    }

    ghost function State(): Findings reads this {
      Findings(required, optional, Env(typingNames, typeCheckingNames), optionalDepth)
    }

    method RecordName(name: string, line: int)
      modifies this`required, this`optional
      ensures
        var f := old(State());
        State() == After(f, Walked([Record(TopLevel(name), line, f.depth > 0)], f.env))
    {
      AfterOne(State(), Record(TopLevel(name), line, optionalDepth > 0));
      var dot := 0;
      while dot < |name| && name[dot] != '.'
        invariant dot <= |TopLevel(name)|
      {
        dot := dot + 1;
      }
      assert name[..dot] == TopLevel(name);
      if optionalDepth > 0 {
        optional := optional + [Mention(name[..dot], line)];
      } else {
        required := required + [Mention(name[..dot], line)];
      }
    }

    method VisitAlias(a: Alias, line: int)
      modifies this
      ensures
        var f := old(State());
        State() == After(f, Walked([Record(TopLevel(a.name), line, f.depth > 0)], Binding(a, f.env)))
    {
      AfterOne(State(), Record(TopLevel(a.name), line, optionalDepth > 0));
      RecordName(a.name, line);
      if a.name == "typing" {
        typingNames := typingNames + {if a.asname.Some? then a.asname.value else a.name};
      }
    }

    method VisitImport(names: seq<Alias>, line: int)
      modifies this
      ensures var f := old(State()); State() == After(f, Imported(names, line, f.depth > 0, f.env))
    {
      ghost var f := State();
      AfterNothing(f);
      for i := 0 to |names|
        invariant State() == After(f, Imported(names[..i], line, f.depth > 0, f.env))
      {
        ImportedNext(f, names, i, line);
        VisitAlias(names[i], line);
      }
      assert names[..|names|] == names;
    }

    method VisitImportFrom(node: Node)
      requires node.ImportFrom?
      modifies this
      ensures var f := old(State()); State() == After(f, ImportedFrom(node, f.depth > 0, f.env))
    {
      AfterNothing(State());
      if node.level > 0 || node.source.None? {
        return;
      }
      RecordName(node.source.value, node.line);
      if node.source.value == "typing" {
        ghost var f := State();
        ghost var names := f.env.typeCheckingNames;
        for i := 0 to |node.names|
          invariant State() == f.(env := f.env.(typeCheckingNames := names + CheckingNames(node.names[..i])))
        {
          var a := node.names[i];
          CheckingNext(node.names, i);
          if a.name == "TYPE_CHECKING" {
            typeCheckingNames := typeCheckingNames + {if a.asname.Some? then a.asname.value else a.name};
          }
        }
        assert node.names[..|node.names|] == node.names;
      }
    }

    method VisitIf(node: Node)
      requires node.If?
      modifies this
      ensures var f := old(State()); State() == After(f, Walk(node, f.depth > 0, f.env))
      decreases node, 0
    {
      ghost var f := State();
      ghost var g := f.depth > 0;
      var test := node.test;
      var typingOnly :=
        || (test.Name? && test.id in typeCheckingNames)
        || (test.Attribute? && test.value.Name? && test.value.id in typingNames && test.attr == "TYPE_CHECKING");
      ghost var condition := Walk(node.test, g, f.env);
      ghost var chosen := WalkAll(node.body, g || typingOnly, condition.env);
      ghost var otherwise := WalkAll(node.orelse, g, chosen.env);
      Visit(node.test);
      if typingOnly { optionalDepth := optionalDepth + 1; }
      VisitAll(node.body);
      if typingOnly { optionalDepth := optionalDepth - 1; }
      AfterThen(f, condition, chosen);
      VisitAll(node.orelse);
      AfterThen(f, Then(condition, chosen), otherwise);
    }

    method VisitTry(node: Node)
      requires node.Try?
      modifies this
      ensures var f := old(State()); State() == After(f, Walk(node, f.depth > 0, f.env))
      decreases node, 0
    {
      ghost var f := State();
      ghost var g := f.depth > 0;
      var guarded := CatchesAny(node.handlers);
      ghost var tried := WalkAll(node.body, g || guarded, f.env);
      ghost var handled := WalkAll(node.handlers, true, tried.env);
      ghost var succeeded := WalkAll(node.orelse, true, handled.env);
      ghost var finished := WalkAll(node.finalbody, g, succeeded.env);
      if guarded { optionalDepth := optionalDepth + 1; }
      VisitAll(node.body);
      if guarded { optionalDepth := optionalDepth - 1; }
      optionalDepth := optionalDepth + 1;
      VisitAll(node.handlers);
      VisitAll(node.orelse);
      optionalDepth := optionalDepth - 1;
      AfterThen(f, tried, handled);
      AfterThen(f, Then(tried, handled), succeeded);
      VisitAll(node.finalbody);
      AfterThen(f, Then(Then(tried, handled), succeeded), finished);
    }

    /** The visitor records exactly the walk of the specification, and restores its depth. */
    method Visit(node: Node)
      modifies this
      ensures var f := old(State()); State() == After(f, Walk(node, f.depth > 0, f.env))
      decreases node, 1
    {
      AfterNothing(State());
      match node
      case Import(names, line) => VisitImport(names, line);
      case ImportFrom(_, _, _, _) => VisitImportFrom(node);
      case If(_, _, _) => VisitIf(node);
      case Try(_, _, _, _) => VisitTry(node);
      case Handler(catches, body) => VisitHandler(node);
      case Name(_) =>
      case Attribute(value, _) => Visit(value);
      case Tuple(elts) => VisitAll(elts);
      case Other(children) => VisitAll(children);
    }

    method VisitHandler(node: Node)
      requires node.Handler?
      modifies this
      ensures var f := old(State()); State() == After(f, Walk(node, f.depth > 0, f.env))
      decreases node, 0
    {
      ghost var f := State();
      ghost var caught :=
        if node.catches.Some? then Walk(node.catches.value, f.depth > 0, f.env) else Walked([], f.env);
      AfterNothing(f);
      if node.catches.Some? {
        Visit(node.catches.value);
      }
      VisitAll(node.body);
      AfterThen(f, caught, WalkAll(node.body, f.depth > 0, caught.env));
    }

    method VisitAll(nodes: seq<Node>)
      modifies this
      ensures var f := old(State()); State() == After(f, WalkAll(nodes, f.depth > 0, f.env))
      decreases nodes, 0
    {
      ghost var f := State();
      ghost var g := f.depth > 0;
      AfterNothing(f);
      ghost var done := Walked([], f.env);
      for i := 0 to |nodes|
        invariant State() == After(f, done)
        invariant Then(done, WalkAll(nodes[i..], g, done.env)) == WalkAll(nodes, g, f.env)
      {
        ghost var next := Walk(nodes[i], g, done.env);
        ghost var rest := WalkAll(nodes[i + 1..], g, next.env);
        assert nodes[i..][0] == nodes[i] && nodes[i..][1..] == nodes[i + 1..];
        assert done.records + (next.records + rest.records) == done.records + next.records + rest.records;
        Visit(nodes[i]);
        AfterThen(f, done, next);
        done := Then(done, next);
      }
      assert nodes[|nodes|..] == [];
      assert done.records + [] == done.records;
    }
  }
}
