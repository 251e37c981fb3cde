/** Which lines of shell input a policy lets through, whatever its mode (internal/policy/shellparse.go,
policy.go), over an abstract syntax tree. The parser that yields the tree is not part of this model. */
module ShellPolicy {
  import opened Basics

  /** A decision; its wording for the user is not modelled. */
  datatype Decision = Decision(allowed: bool, rule: string)

  function Allow(rule: string): Decision { Decision(true, rule) }

  function Deny(rule: string): Decision { Decision(false, rule) }

  const FILE_ALLOW: string := "file.allow"

  datatype RedirOp = Hdoc | DashHdoc | OtherRedir

  datatype BinOp = AndStmt | OrStmt | Pipe | PipeAll

  datatype Kind =
    | File
    | Word
    | Lit(value: string)
    | SglQuoted(dollar: bool, value: string) // '...', or $'...' with its escapes as written
    | DblQuoted(dollar: bool)                // "..." or $"..."
    | Stmt(negated: bool, background: bool, coprocess: bool, disown: bool)
    | Redirect(redir: RedirOp)
    | BinaryCmd(op: BinOp)
    | CallExpr(withAssigns: bool) // without assignments, the children are the argument words
    | Unsupported                // substitutions, expansions, subshells, functions, loops, ...

  /** A node and its children, in the order they are walked. Comments, which the walk passes over,
      are left out, so the children of a file are its statements. */
  datatype Node = Node(kind: Kind, kids: seq<Node>)

  type Classifier = seq<string> -> Decision

  datatype Options = Options(allowRedirection: bool, classify: Classifier)

  // ---- Literal words ----

  predicate AllLit(parts: seq<Node>) {
    forall i :: 0 <= i < |parts| ==> parts[i].kind.Lit?
  }

  predicate LiteralPart(part: Node) {
    part.kind.Lit? || part.kind.SglQuoted? || (part.kind.DblQuoted? && AllLit(part.kids))
  }

  predicate LiteralWord(word: Node) {
    forall i :: 0 <= i < |word.kids| ==> LiteralPart(word.kids[i])
  }

  predicate LiteralWords(words: seq<Node>) {
    forall i :: 0 <= i < |words| ==> LiteralWord(words[i])
  }

  function LitText(part: Node): string {
    if part.kind.Lit? then part.kind.value else []
  }

  /** The text of literals side by side. */
  function QuotedText(parts: seq<Node>): string {
    if parts == [] then [] else QuotedText(parts[..|parts| - 1]) + LitText(parts[|parts| - 1])
  }

  function PartText(part: Node): string {
    match part.kind
    case Lit(value) => value
    case SglQuoted(_, value) => value
    case DblQuoted(_) => QuotedText(part.kids)
    case _ => []
  }

  /** Quoting removed: the text of all parts of a word. */
  function WordText(parts: seq<Node>): string {
    if parts == [] then [] else WordText(parts[..|parts| - 1]) + PartText(parts[|parts| - 1])
  }

  function ArgvOf(words: seq<Node>): seq<string> {
    seq(|words|, i requires 0 <= i < |words| => WordText(words[i].kids))
  }

  lemma WordTextSnoc(parts: seq<Node>, part: Node)
    ensures WordText(parts + [part]) == WordText(parts) + PartText(part)
  {
    assert (parts + [part])[..|parts|] == parts;
  }

  lemma QuotedTextSnoc(parts: seq<Node>, part: Node)
    ensures QuotedText(parts + [part]) == QuotedText(parts) + LitText(part)
  {
    assert (parts + [part])[..|parts|] == parts;
  }

  /** Words are read part by part: quoting is removed and nothing else changes. */
  lemma {:induction false} WordTextConcat(a: seq<Node>, b: seq<Node>)
    ensures WordText(a + b) == WordText(a) + WordText(b)
    decreases |b|
  {
    if b == [] {
      assert a + b == a;
    } else {
      var front, last := b[..|b| - 1], b[|b| - 1];
      ConcatSnoc(a, b);
      WordTextConcat(a, front);
      WordTextSnoc(a + front, last);
      Associates(WordText(a), WordText(front), PartText(last));
    }
  }

  lemma {:induction false} QuotedTextConcat(a: seq<Node>, b: seq<Node>)
    ensures QuotedText(a + b) == QuotedText(a) + QuotedText(b)
    decreases |b|
  {
    if b == [] {
      assert a + b == a;
    } else {
      var front, last := b[..|b| - 1], b[|b| - 1];
      ConcatSnoc(a, b);
      QuotedTextConcat(a, front);
      QuotedTextSnoc(a + front, last);
      Associates(QuotedText(a), QuotedText(front), LitText(last));
    }
  }

  lemma OnePart(part: Node)
    ensures part.kind.Lit? ==> WordText([part]) == part.kind.value && QuotedText([part]) == part.kind.value
    ensures part.kind.SglQuoted? ==> WordText([part]) == part.kind.value
    ensures part.kind.DblQuoted? ==> WordText([part]) == QuotedText(part.kids)
  {
    assert [part][..0] == [];
  }

  /** Each argument of a call is the text of its own word, in order. */
  lemma ArgvOfWords(words: seq<Node>)
    ensures |ArgvOf(words)| == |words|
    ensures forall i :: 0 <= i < |words| ==> ArgvOf(words)[i] == WordText(words[i].kids)
  {
  }

  /** The text of a double-quoted part, if it is literal. */
  method QuotedLiteral(parts: seq<Node>) returns (text: Option<string>)
    ensures text == if AllLit(parts) then Some(QuotedText(parts)) else None
  {
    var value := [];
    for i := 0 to |parts|
      invariant AllLit(parts[..i]) && value == QuotedText(parts[..i])
    {
      if !parts[i].kind.Lit? {
        return None;
      }
      value := value + parts[i].kind.value;
      assert parts[..i + 1][..i] == parts[..i];
    }
    assert parts[..|parts|] == parts;
    return Some(value);
  }

  method WordLiteral(word: Node) returns (text: Option<string>)
    ensures text == if LiteralWord(word) then Some(WordText(word.kids)) else None
  {
    var parts, value := word.kids, [];
    for i := 0 to |parts|
      invariant forall j :: 0 <= j < i ==> LiteralPart(parts[j])
      invariant value == WordText(parts[..i])
    {
      assert parts[..i + 1][..i] == parts[..i];
      match parts[i].kind {
        case Lit(v) => value := value + v;
        case SglQuoted(_, v) => value := value + v;
        case DblQuoted(_) =>
          var quoted := QuotedLiteral(parts[i].kids);
          if quoted == None {
            return None;
          }
          value := value + quoted.value;
        case _ => return None;
      }
    }
    assert parts[..|parts|] == parts;
    return Some(value);
  }

  method LiteralArgv(words: seq<Node>) returns (argv: Option<seq<string>>)
    ensures argv == if LiteralWords(words) then Some(ArgvOf(words)) else None
  {
    var args := [];
    for i := 0 to |words|
      invariant forall j :: 0 <= j < i ==> LiteralWord(words[j])
      invariant |args| == i && forall j :: 0 <= j < i ==> args[j] == WordText(words[j].kids)
    {
      var text := WordLiteral(words[i]);
      if text == None {
        return None;
      }
      args := args + [text.value];
    }
    assert args == ArgvOf(words);
    return Some(args);
  }

  /** The same word without the dollar signs in front of its quotes. */
  function Undollared(n: Node): Node {
    Node(
      match n.kind
      case SglQuoted(_, value) => SglQuoted(false, value)
      case DblQuoted(_) => DblQuoted(false)
      case _ => n.kind,
      seq(|n.kids|, i requires 0 <= i < |n.kids| => Undollared(n.kids[i])))
  }

  lemma UndollaredLit(part: Node)
    ensures Undollared(part).kind.Lit? == part.kind.Lit? && LitText(Undollared(part)) == LitText(part)
  {
  }

  lemma {:induction false} SameText(parts: seq<Node>, plain: seq<Node>)
    requires |parts| == |plain| && forall i :: 0 <= i < |parts| ==> LitText(plain[i]) == LitText(parts[i])
    ensures QuotedText(parts) == QuotedText(plain)
  {
    if parts != [] {
      SameText(parts[..|parts| - 1], plain[..|parts| - 1]);
    }
  }

  lemma UndollaredText(parts: seq<Node>, plain: seq<Node>)
    requires |parts| == |plain| && forall i :: 0 <= i < |parts| ==> plain[i] == Undollared(parts[i])
    ensures AllLit(parts) == AllLit(plain) && QuotedText(parts) == QuotedText(plain)
  {
    forall i | 0 <= i < |parts|
      ensures plain[i].kind.Lit? == parts[i].kind.Lit? && LitText(plain[i]) == LitText(parts[i])
    {
      UndollaredLit(parts[i]);
    }
    SameText(parts, plain);
  }

  lemma UndollaredPart(part: Node)
    ensures LiteralPart(part) == LiteralPart(Undollared(part)) && PartText(part) == PartText(Undollared(part))
  {
    UndollaredText(part.kids, Undollared(part).kids);
  }

  lemma {:induction false} UndollaredWord(parts: seq<Node>, plain: seq<Node>)
    requires |parts| == |plain| && forall i :: 0 <= i < |parts| ==> plain[i] == Undollared(parts[i])
    ensures WordText(parts) == WordText(plain)
    ensures forall i :: 0 <= i < |parts| ==> LiteralPart(parts[i]) == LiteralPart(plain[i])
  {
    if parts != [] {
      UndollaredWord(parts[..|parts| - 1], plain[..|parts| - 1]);
      UndollaredPart(parts[|parts| - 1]);
      assert forall i :: 0 <= i < |parts| - 1 ==> parts[..|parts| - 1][i] == parts[i] && plain[..|parts| - 1][i] == plain[i];
    }
  }

  /** A dollar sign in front of a quote makes no difference to the argument vector: the quoted text is
      taken as written, with no escape interpreted and nothing translated. */
  lemma DollarIgnored(words: seq<Node>, plain: seq<Node>)
    requires |words| == |plain| && forall i :: 0 <= i < |words| ==> plain[i] == Undollared(words[i])
    ensures LiteralWords(words) == LiteralWords(plain) && ArgvOf(words) == ArgvOf(plain)
  {
    forall i | 0 <= i < |words|
      ensures LiteralWord(words[i]) == LiteralWord(plain[i]) && WordText(words[i].kids) == WordText(plain[i].kids)
    {
      UndollaredWord(words[i].kids, plain[i].kids);
    }
  }

  // ---- What a line may contain ----

  /** `n` occurs somewhere in the tree `root`. */
  ghost predicate Within(n: Node, root: Node) {
    n == root || exists i :: 0 <= i < |root.kids| && Within(n, root.kids[i])
  }

  /** How many calls the tree holds. */
  function Calls(root: Node): nat
    decreases root, |root.kids| + 1
  {
    (if root.kind.CallExpr? then 1 else 0) + CallsFrom(root, 0)
  }

  function CallsFrom(root: Node, i: nat): nat
    requires i <= |root.kids|
    decreases root, |root.kids| - i
  {
    if i == |root.kids| then 0 else Calls(root.kids[i]) + CallsFrom(root, i + 1)
  }

  predicate HasRedirect(n: Node) {
    exists i :: 0 <= i < |n.kids| && n.kids[i].kind.Redirect?
  }

  /** A construct no line may contain, whatever its calls do. */
  predicate Forbidden(n: Node, allowRedirection: bool) {
    match n.kind
    case Stmt(negated, background, coprocess, disown) =>
      negated || background || coprocess || disown || (!allowRedirection && HasRedirect(n))
    case Redirect(op) => !allowRedirection || op == Hdoc || op == DashHdoc
    case BinaryCmd(op) => op == PipeAll
    case DblQuoted(_) => !AllLit(n.kids)
    case CallExpr(withAssigns) => withAssigns
    case Unsupported => true
    case _ => false
  }

  /** A call with literal words that the classifier allows. */
  predicate AllowedCall(n: Node, classify: Classifier) {
    LiteralWords(n.kids) && classify(ArgvOf(n.kids)).allowed
  }

  ghost predicate Permitted(n: Node, opts: Options) {
    !Forbidden(n, opts.allowRedirection) && (n.kind.CallExpr? ==> AllowedCall(n, opts.classify))
  }

  predicate ByFileRule(n: Node, opts: Options) {
    n.kind.CallExpr? && RuleOf(n, opts) == FILE_ALLOW
  }

  function RuleOf(n: Node, opts: Options): string {
    opts.classify(ArgvOf(n.kids)).rule
  }

  /** The contract: the line has a call, no forbidden node occurs anywhere, every call is literal and
      allowed, and a call allowed by a board's own rule is the only one. */
  ghost predicate LineAllowed(root: Node, opts: Options) {
    && Calls(root) > 0
    && (forall n :: Within(n, root) ==> Permitted(n, opts))
    && ((exists n :: Within(n, root) && ByFileRule(n, opts)) ==> Calls(root) == 1)
  }

  // ---- The walk, node by node ----

  /** Why a node that is not permitted is denied. */
  function Denial(n: Node, opts: Options): Decision {
    match n.kind
    case Stmt(_, _, _, _) => Deny("syntax.statement")
    case Redirect(_) => if !opts.allowRedirection then Deny("syntax.unsupported") else Deny("syntax.heredoc")
    case BinaryCmd(_) => Deny("syntax.operator")
    case DblQuoted(_) => Deny("syntax.expansion")
    case CallExpr(withAssigns) =>
      if withAssigns then Deny("syntax.assignment")
      else if !LiteralWords(n.kids) then Deny("syntax.expansion")
      else opts.classify(ArgvOf(n.kids))
    case _ => Deny("syntax.unsupported")
  }

  /** The walk's variables. */
  datatype Progress = Progress(decision: Decision, callCount: nat, fileRuleUsed: bool)

  const FRESH: Progress := Progress(Allow("common"), 0, false)

  ghost function Judged(p: Progress, n: Node, opts: Options): Progress {
    if !p.decision.allowed then p
    else
      var count := p.callCount + if n.kind.CallExpr? then 1 else 0;
      if !Permitted(n, opts) then p.(decision := Denial(n, opts), callCount := count)
      else if n.kind.CallExpr? then
        Progress(opts.classify(ArgvOf(n.kids)), count, p.fileRuleUsed || ByFileRule(n, opts))
      else p
  }

  ghost function JudgedAll(p: Progress, ns: seq<Node>, opts: Options): Progress
    decreases |ns|
  {
    if ns == [] then p else JudgedAll(Judged(p, ns[0], opts), ns[1..], opts)
  }

  /** The nodes of a tree, each before its children. */
  ghost function Preorder(n: Node): seq<Node>
    decreases n, |n.kids| + 1
  {
    [n] + PreorderFrom(n, 0)
  }

  ghost function PreorderFrom(n: Node, i: nat): seq<Node>
    requires i <= |n.kids|
    decreases n, |n.kids| - i
  {
    if i == |n.kids| then [] else Preorder(n.kids[i]) + PreorderFrom(n, i + 1)
  }

  lemma {:induction false} JudgedConcat(p: Progress, a: seq<Node>, b: seq<Node>, opts: Options)
    ensures JudgedAll(p, a + b, opts) == JudgedAll(JudgedAll(p, a, opts), b, opts)
    decreases |a|
  {
    if a == [] {
      assert a + b == b;
    } else {
      assert (a + b)[1..] == a[1..] + b;
      JudgedConcat(Judged(p, a[0], opts), a[1..], b, opts);
    }
  }

  /** Once a node is denied, the rest of the walk changes nothing. */
  lemma {:induction false} DeniedStays(p: Progress, ns: seq<Node>, opts: Options)
    requires !p.decision.allowed
    ensures JudgedAll(p, ns, opts) == p
    decreases |ns|
  {
    if ns != [] {
      DeniedStays(p, ns[1..], opts);
    }
  }

  class Walker {
    const opts: Options
    var decision: Decision
    var callCount: nat
    var fileRuleUsed: bool

    ghost function State(): Progress
      reads this
    {
      Progress(decision, callCount, fileRuleUsed)
    }

    constructor (opts: Options)
      ensures this.opts == opts && State() == FRESH
    {
      this.opts := opts;
      decision, callCount, fileRuleUsed := Allow("common"), 0, false;
    }

    method Visit(n: Node) returns (descend: bool)
      modifies this
      ensures State() == Judged(old(State()), n, opts)
      ensures descend == decision.allowed
    {
      if !decision.allowed {
        return false;
      }
      match n.kind {
        case Stmt(negated, background, coprocess, disown) =>
          if negated || background || coprocess || disown || (!opts.allowRedirection && HasRedirect(n)) {
            decision := Deny("syntax.statement");
          }
        case Redirect(op) =>
          if !opts.allowRedirection {
            decision := Deny("syntax.unsupported");
          } else if op == Hdoc || op == DashHdoc {
            decision := Deny("syntax.heredoc");
          }
        case BinaryCmd(op) =>
          if op != AndStmt && op != OrStmt && op != Pipe {
            decision := Deny("syntax.operator");
          }
        case DblQuoted(_) =>
          var quoted := QuotedLiteral(n.kids);
          if quoted == None {
            decision := Deny("syntax.expansion");
          }
        case CallExpr(withAssigns) => VisitCall(n);
        case Unsupported => decision := Deny("syntax.unsupported");
        case _ =>
      }
      return decision.allowed;
    }

    method VisitCall(n: Node)
      requires decision.allowed && n.kind.CallExpr?
      modifies this
      ensures State() == Judged(old(State()), n, opts)
    {
      callCount := callCount + 1;
      if n.kind.withAssigns {
        decision := Deny("syntax.assignment");
        return;
      }
      var argv := LiteralArgv(n.kids);
      if argv == None {
        decision := Deny("syntax.expansion");
        return;
      }
      decision := opts.classify(argv.value);
      if decision.allowed && decision.rule == FILE_ALLOW {
        fileRuleUsed := true;
      }
    }

    /** Visits the node and, unless it is denied, its children. */
    method Walk(n: Node)
      modifies this
      ensures State() == JudgedAll(old(State()), Preorder(n), opts)
      decreases n
    {
      var descend := Visit(n);
      ghost var p := State();
      JudgedConcat(old(State()), [n], PreorderFrom(n, 0), opts);
      if !descend {
        DeniedStays(p, PreorderFrom(n, 0), opts);
        return;
      }
      for i := 0 to |n.kids|
        invariant JudgedAll(State(), PreorderFrom(n, i), opts) == JudgedAll(p, PreorderFrom(n, 0), opts)
      {
        JudgedConcat(State(), Preorder(n.kids[i]), PreorderFrom(n, i + 1), opts);
        Walk(n.kids[i]);
      }
    }
  }

  // ---- What the walk finds ----

  function CountCalls(ns: seq<Node>): nat {
    if ns == [] then 0 else (if ns[0].kind.CallExpr? then 1 else 0) + CountCalls(ns[1..])
  }

  ghost predicate AllPermitted(ns: seq<Node>, opts: Options) {
    forall i :: 0 <= i < |ns| ==> Permitted(ns[i], opts)
  }

  predicate SomeByFileRule(ns: seq<Node>, opts: Options) {
    exists i :: 0 <= i < |ns| && ByFileRule(ns[i], opts)
  }

  lemma {:induction false} JudgedAllMeans(p: Progress, ns: seq<Node>, opts: Options)
    requires p.decision.allowed
    ensures var r := JudgedAll(p, ns, opts);
      && (r.decision.allowed <==> AllPermitted(ns, opts))
      && (r.decision.allowed ==>
            r.callCount == p.callCount + CountCalls(ns) && r.fileRuleUsed == (p.fileRuleUsed || SomeByFileRule(ns, opts)))
    decreases |ns|
  {
    if ns != [] {
      var q := Judged(p, ns[0], opts);
      assert AllPermitted(ns, opts) <==> Permitted(ns[0], opts) && AllPermitted(ns[1..], opts) by {
        assert forall i :: 0 < i < |ns| ==> ns[i] == ns[1..][i - 1];
        assert forall i :: 0 <= i < |ns[1..]| ==> ns[1..][i] == ns[i + 1];
      }
      assert SomeByFileRule(ns, opts) <==> ByFileRule(ns[0], opts) || SomeByFileRule(ns[1..], opts) by {
        assert forall i :: 0 < i < |ns| ==> ns[i] == ns[1..][i - 1];
        assert forall i :: 0 <= i < |ns[1..]| ==> ns[1..][i] == ns[i + 1];
      }
      if q.decision.allowed {
        JudgedAllMeans(q, ns[1..], opts);
      } else {
        DeniedStays(q, ns[1..], opts);
      }
    }
  }

  /** A denied line is denied for the first node, in walking order, that is not permitted. */
  lemma {:induction false} FirstDenial(p: Progress, ns: seq<Node>, opts: Options) returns (k: nat)
    requires p.decision.allowed && !JudgedAll(p, ns, opts).decision.allowed
    ensures k < |ns| && !Permitted(ns[k], opts) && AllPermitted(ns[..k], opts)
    ensures JudgedAll(p, ns, opts).decision == Denial(ns[k], opts)
    decreases |ns|
  {
    var q := Judged(p, ns[0], opts);
    if q.decision.allowed {
      var j := FirstDenial(q, ns[1..], opts);
      k := j + 1;
      assert ns[..k] == [ns[0]] + ns[1..][..j];
    } else {
      DeniedStays(q, ns[1..], opts);
      k := 0;
    }
  }

  lemma {:induction false} CountConcat(a: seq<Node>, b: seq<Node>)
    ensures CountCalls(a + b) == CountCalls(a) + CountCalls(b)
    decreases |a|
  {
    if a == [] {
      assert a + b == b;
    } else {
      assert (a + b)[1..] == a[1..] + b;
      CountConcat(a[1..], b);
    }
  }

  lemma {:induction false} CallsInPreorder(n: Node)
    ensures CountCalls(Preorder(n)) == Calls(n)
    decreases n, |n.kids| + 1
  {
    CallsInPreorderFrom(n, 0);
    assert Preorder(n)[1..] == PreorderFrom(n, 0);
  }

  lemma {:induction false} CallsInPreorderFrom(n: Node, i: nat)
    requires i <= |n.kids|
    ensures CountCalls(PreorderFrom(n, i)) == CallsFrom(n, i)
    decreases n, |n.kids| - i
  {
    if i < |n.kids| {
      CallsInPreorder(n.kids[i]);
      CallsInPreorderFrom(n, i + 1);
      CountConcat(Preorder(n.kids[i]), PreorderFrom(n, i + 1));
    }
  }

  /** The walk meets exactly the nodes of the tree. */
  lemma {:induction false} PreorderIsTree(root: Node, n: Node)
    ensures n in Preorder(root) <==> Within(n, root)
    decreases root, |root.kids| + 1
  {
    PreorderFromIsTree(root, 0, n);
  }

  lemma {:induction false} PreorderFromIsTree(root: Node, i: nat, n: Node)
    requires i <= |root.kids|
    ensures n in PreorderFrom(root, i) <==> exists j :: i <= j < |root.kids| && Within(n, root.kids[j])
    decreases root, |root.kids| - i
  {
    if i < |root.kids| {
      PreorderIsTree(root.kids[i], n);
      PreorderFromIsTree(root, i + 1, n);
    }
  }

  lemma PermittedThroughout(root: Node, opts: Options)
    ensures AllPermitted(Preorder(root), opts) <==> forall n :: Within(n, root) ==> Permitted(n, opts)
    ensures SomeByFileRule(Preorder(root), opts) <==> exists n :: Within(n, root) && ByFileRule(n, opts)
  {
    var ns := Preorder(root);
    forall n
      ensures n in ns <==> Within(n, root)
    {
      PreorderIsTree(root, n);
    }
    forall i | 0 <= i < |ns|
      ensures Within(ns[i], root)
    {
      assert ns[i] in ns;
    }
    if SomeByFileRule(ns, opts) {
      var i :| 0 <= i < |ns| && ByFileRule(ns[i], opts);
      assert Within(ns[i], root);
    }
    if n :| Within(n, root) && ByFileRule(n, opts) {
      assert n in ns;
      var i :| 0 <= i < |ns| && ns[i] == n;
    }
    if AllPermitted(ns, opts) {
      forall n | Within(n, root)
        ensures Permitted(n, opts)
      {
        assert n in ns;
      }
    }
  }

  // ---- Lines ----

  /** Decides a line; the parser yields its tree, or nothing. A line is allowed exactly by the
      contract above. */
  method EvaluateShellLine(parsed: Option<Node>, opts: Options) returns (d: Decision)
    requires parsed.Some? ==> parsed.value.kind.File?
    ensures d.allowed <==> parsed.Some? && LineAllowed(parsed.value, opts)
    ensures parsed.Some? && parsed.value.kids != [] ==>
      var walked := JudgedAll(FRESH, Preorder(parsed.value), opts).decision;
      if d.allowed || !walked.allowed then d == walked else d in {Deny("syntax.no-command"), Deny("file.exact")}
  {
    if parsed == None {
      return Deny("syntax.parse");
    }
    var file := parsed.value;
    if |file.kids| == 0 {
      assert CallsFrom(file, 0) == 0;
      return Deny("syntax.empty");
    }
    var w := new Walker(opts);
    w.Walk(file);
    JudgedAllMeans(FRESH, Preorder(file), opts);
    CallsInPreorder(file);
    PermittedThroughout(file, opts);
    if w.decision.allowed && w.callCount == 0 {
      return Deny("syntax.no-command");
    }
    if w.decision.allowed && w.fileRuleUsed && w.callCount != 1 {
      return Deny("file.exact");
    }
    return w.decision;
  }

  /** A node no policy objects to, spelled out by kind. */
  ghost predicate Harmless(n: Node, opts: Options) {
    match n.kind
    case Stmt(negated, background, coprocess, disown) =>
      && !negated && !background && !coprocess && !disown
      && (opts.allowRedirection || forall i :: 0 <= i < |n.kids| ==> !n.kids[i].kind.Redirect?)
    case Redirect(op) => opts.allowRedirection && op == OtherRedir
    case BinaryCmd(op) => op == AndStmt || op == OrStmt || op == Pipe
    case DblQuoted(_) => forall i :: 0 <= i < |n.kids| ==> n.kids[i].kind.Lit?
    case CallExpr(withAssigns) =>
      !withAssigns && LiteralWords(n.kids) && opts.classify(ArgvOf(n.kids)).allowed
    case Unsupported => false
    case _ => true
  }

  lemma PermittedIsHarmless(n: Node, opts: Options)
    ensures Permitted(n, opts) <==> Harmless(n, opts)
  {
  }

  /** The contract spelled out. An allowed line has a call and holds nowhere a negation, a background or
      coprocess statement, an operator but &&, || and |, an expansion in double quotes, an assignment, a
      substitution or other unsupported construct, a here-document, or, where redirection is not
      allowed, any redirection; every call is literal and allowed; and a call by a board's own rule is
      the only one. Nothing else is refused. */
  lemma LineAllowedMeans(root: Node, opts: Options)
    ensures LineAllowed(root, opts) <==>
      && Calls(root) > 0
      && (forall n :: Within(n, root) ==> Harmless(n, opts))
      && (Calls(root) == 1 || forall n :: Within(n, root) && n.kind.CallExpr? ==>
            opts.classify(ArgvOf(n.kids)).rule != "file.allow")
  {
    forall n
      ensures Permitted(n, opts) <==> Harmless(n, opts)
    {
      PermittedIsHarmless(n, opts);
    }
    if Calls(root) != 1 && forall n :: Within(n, root) && n.kind.CallExpr? ==> opts.classify(ArgvOf(n.kids)).rule != "file.allow" {
      forall n | Within(n, root)
        ensures !ByFileRule(n, opts)
      {
      }
    }
    if LineAllowed(root, opts) && Calls(root) != 1 {
      forall n | Within(n, root) && n.kind.CallExpr?
        ensures opts.classify(ArgvOf(n.kids)).rule != "file.allow"
      {
        assert !ByFileRule(n, opts);
      }
    }
  }

  /** A classifier that allows less, and never by a board's own rule where the other does not,
      allows fewer lines. */
  lemma LinesShrink(root: Node, opts: Options, strict: Options)
    requires strict.allowRedirection ==> opts.allowRedirection
    requires forall argv ::
      strict.classify(argv).allowed ==> opts.classify(argv).allowed && opts.classify(argv).rule == strict.classify(argv).rule
    requires LineAllowed(root, strict)
    ensures LineAllowed(root, opts)
  {
    forall n | Within(n, root)
      ensures Permitted(n, opts) && (ByFileRule(n, opts) ==> ByFileRule(n, strict))
    {
      assert Permitted(n, strict);
    }
  }
}
