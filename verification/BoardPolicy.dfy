/** Board policies: exact rules merged into the allowlist (internal/policy/file.go), and the denylist
mode (internal/policy/denylist.go).

An argument vector's key is its JSON encoding, which tells apart any two vectors of valid UTF-8
strings; the vector itself serves as the key here. Lower-casing, the base name of a path and what
counts as a sensitive path are parameters. */
module BoardPolicy {
  import opened Basics
  import opened ShellPolicy

  type Argv = seq<string>

  type Validator = Argv -> Decision

  datatype ArgvRule = ArgvRule(executable: string, args: Argv)

  /** Executables and the argument vectors named with them. */
  type ExactSet = map<string, set<Argv>>

  function Lookup(m: ExactSet, executable: string): set<Argv> {
    if executable in m then m[executable] else {}
  }

  predicate Holds(m: ExactSet, rule: ArgvRule) {
    rule.args in Lookup(m, rule.executable)
  }

  function AddExactRule(m: ExactSet, rule: ArgvRule): (m': ExactSet)
    ensures forall r :: Holds(m', r) <==> Holds(m, r) || r == rule
    ensures m'.Keys == m.Keys + {rule.executable}
  {
    m[rule.executable := Lookup(m, rule.executable) + {rule.args}]
  }

  /** `argv` is exactly one of the rules. */
  predicate Exact(rules: seq<ArgvRule>, argv: Argv) {
    argv != [] && ArgvRule(argv[0], argv[1..]) in rules
  }

  // ---- The allowlist ----

  datatype Policy = Policy(commands: map<string, Validator>)

  function EvaluateArgv(p: Policy, argv: Argv): Decision {
    if argv == [] then Deny("command.empty")
    else if argv[0] !in p.commands then Deny("command.unknown")
    else p.commands[argv[0]](argv)
  }

  // ---- Rules a file may carry ----

  predicate IsSpace(c: char) {
    || '\t' <= c <= '\r' || c == ' ' || c == '\U{0085}' || c == '\U{00A0}' || c == '\U{1680}'
    || '\U{2000}' <= c <= '\U{200A}' || c == '\U{2028}' || c == '\U{2029}' || c == '\U{202F}' || c == '\U{205F}'
    || c == '\U{3000}'
  }

  const METACHARACTERS: string := "*?[]{};&|<>$`\\/\"'"

  const UNGRANTABLE: set<string> := {
    "sh", "bash", "dash", "ash", "zsh", "ksh", "fish", "python", "python3", "perl", "ruby", "lua", "node",
    "rm", "mv", "cp", "install", "dd", "tee", "touch", "mkdir", "rmdir", "chmod", "chown", "chgrp", "ln",
    "kill", "killall", "pkill", "reboot", "poweroff", "halt", "shutdown", "mount", "umount",
    "systemctl", "service", "modprobe", "insmod", "rmmod", "sysctl", "ip", "ifconfig", "route", "ethtool",
    "apt", "apt-get", "dpkg", "rpm", "yum", "dnf", "opkg", "apk", "sed", "awk", "find", "xargs"}

  predicate LiteralBasename(name: string) {
    name != [] && forall i :: 0 <= i < |name| ==> name[i] !in METACHARACTERS && !IsSpace(name[i])
  }

  predicate NoNul(args: Argv) {
    forall i :: 0 <= i < |args| ==> '\0' !in args[i]
  }

  predicate ValidRule(rule: ArgvRule, allowing: bool, lower: string -> string) {
    && LiteralBasename(rule.executable)
    && NoNul(rule.args)
    && (allowing ==> lower(rule.executable) !in UNGRANTABLE)
  }

  /** A rule as written in the file, where the arguments may be missing. */
  datatype RuleWire = RuleWire(executable: string, args: Option<Argv>)

  predicate Complete(rules: seq<RuleWire>) {
    forall i :: 0 <= i < |rules| ==> rules[i].args.Some?
  }

  function RulesOf(rules: seq<RuleWire>): seq<ArgvRule>
    requires Complete(rules)
  {
    seq(|rules|, i requires 0 <= i < |rules| => ArgvRule(rules[i].executable, rules[i].args.value))
  }

  method Materialize(entries: seq<RuleWire>) returns (rules: Option<seq<ArgvRule>>)
    ensures rules == if Complete(entries) then Some(RulesOf(entries)) else None
  {
    var result := [];
    for i := 0 to |entries|
      invariant Complete(entries[..i]) && |result| == i
      invariant forall j :: 0 <= j < i ==> result[j] == ArgvRule(entries[j].executable, entries[j].args.value)
    {
      if entries[i].args == None {
        return None;
      }
      result := result + [ArgvRule(entries[i].executable, entries[i].args.value)];
    }
    assert entries[..|entries|] == entries;
    assert result == RulesOf(entries);
    return Some(result);
  }

  // ---- Merging ----

  datatype LoadError =
    | NoBase
    | NoFile
    | NotRegular
    | BadPermissions
    | BadContent
    | MissingArgs
    | InvalidRule
    | Contradictory

  /** What the decoder makes of a file: one JSON value of the right shape and nothing more, or not. */
  datatype Content = Undecodable | Decoded(allow: seq<RuleWire>, deny: seq<RuleWire>)

  datatype BoardFile = BoardFile(regular: bool, permissions: nat, content: Content)

  /** Octal 0600. */
  const OWNER_ONLY: nat := 384

  /** A file whose rules may be read at all. */
  predicate Trusted(file: Option<BoardFile>) {
    file.Some? && file.value.regular && file.value.permissions == OWNER_ONLY && file.value.content.Decoded?
  }

  datatype Loaded = Loaded(policy: Policy) | Refused(error: LoadError)

  predicate AllValid(rules: seq<ArgvRule>, allowing: bool, lower: string -> string) {
    forall i :: 0 <= i < |rules| ==> ValidRule(rules[i], allowing, lower)
  }

  predicate Overlap(allow: seq<ArgvRule>, deny: seq<ArgvRule>) {
    exists i :: 0 <= i < |allow| && allow[i] in deny
  }

  /** Deny rules win, then the base where it knows the executable, then the exact allow rules. */
  function Merged(base: Policy, allow: seq<ArgvRule>, deny: seq<ArgvRule>, argv: Argv): Decision {
    if argv == [] then Deny("command.empty")
    else if Exact(deny, argv) then Deny("file.deny")
    else if argv[0] in base.commands then base.commands[argv[0]](argv)
    else if Exact(allow, argv) then Allow(FILE_ALLOW)
    else Deny("command.unknown")
  }

  function Tail(argv: Argv): Argv {
    if argv == [] then [] else argv[1..]
  }

  function Known(p: Policy, executable: string): Option<Validator> {
    if executable in p.commands then Some(p.commands[executable]) else None
  }

  function Wrapped(existing: Option<Validator>, allowed: set<Argv>, denied: set<Argv>): Validator {
    (argv: Argv) =>
      if Tail(argv) in denied then Deny("file.deny")
      else if existing.Some? then existing.value(argv)
      else if Tail(argv) in allowed then Allow(FILE_ALLOW)
      else Deny("command.unknown")
  }

  lemma WrappedDecides(existing: Option<Validator>, allowed: set<Argv>, denied: set<Argv>, argv: Argv)
    requires argv != []
    ensures Wrapped(existing, allowed, denied)(argv)
         == if argv[1..] in denied then Deny("file.deny")
            else if existing.Some? then existing.value(argv)
            else if argv[1..] in allowed then Allow(FILE_ALLOW)
            else Deny("command.unknown")
  {
    assert Tail(argv) == argv[1..];
  }

  function WrapExactRules(p: Policy, executable: string, allowed: set<Argv>, denied: set<Argv>): Policy {
    p.(commands := p.commands[executable := Wrapped(Known(p, executable), allowed, denied)])
  }

  /** `base` with the rules of the executables `done` wrapped around it. */
  function WrappedPolicy(base: Policy, allowed: ExactSet, denied: ExactSet, done: set<string>): Policy {
    Policy(map x | x in base.commands.Keys + done ::
      if x in done then Wrapped(Known(base, x), Lookup(allowed, x), Lookup(denied, x)) else base.commands[x])
  }

  lemma WrapNone(base: Policy, allowed: ExactSet, denied: ExactSet)
    ensures WrappedPolicy(base, allowed, denied, {}) == base
  {
    assert WrappedPolicy(base, allowed, denied, {}).commands == base.commands;
  }

  lemma WrapOneMore(base: Policy, allowed: ExactSet, denied: ExactSet, done: set<string>, x: string)
    requires x !in done
    ensures WrapExactRules(WrappedPolicy(base, allowed, denied, done), x, Lookup(allowed, x), Lookup(denied, x))
         == WrappedPolicy(base, allowed, denied, done + {x})
  {
    var p := WrappedPolicy(base, allowed, denied, done);
    assert Known(p, x) == Known(base, x);
    var q := WrapExactRules(p, x, Lookup(allowed, x), Lookup(denied, x));
    var r := WrappedPolicy(base, allowed, denied, done + {x});
    assert q.commands.Keys == r.commands.Keys;
    forall y | y in r.commands
      ensures q.commands[y] == r.commands[y]
    {
    }
    assert q.commands == r.commands;
  }

  ghost predicate Represents(m: ExactSet, rules: seq<ArgvRule>) {
    && (forall r :: Holds(m, r) <==> r in rules)
    && (forall r :: r in rules ==> r.executable in m)
  }

  lemma RepresentsOneMore(m: ExactSet, rules: seq<ArgvRule>, i: nat)
    requires i < |rules| && Represents(m, rules[..i])
    ensures Represents(AddExactRule(m, rules[i]), rules[..i + 1])
  {
    assert rules[..i + 1] == rules[..i] + [rules[i]];
  }

  lemma WrapsMeansMerged(p: Policy, base: Policy, allowed: ExactSet, denied: ExactSet, allow: seq<ArgvRule>, deny: seq<ArgvRule>, argv: Argv)
    requires Represents(allowed, allow) && Represents(denied, deny)
    requires p == WrappedPolicy(base, allowed, denied, denied.Keys + allowed.Keys)
    ensures EvaluateArgv(p, argv) == Merged(base, allow, deny, argv)
  {
    if argv != [] {
      var rule := ArgvRule(argv[0], argv[1..]);
      var x := argv[0];
      assert Holds(denied, rule) <==> rule in deny;
      assert Holds(allowed, rule) <==> rule in allow;
      if x in denied.Keys + allowed.Keys {
        assert p.commands[x] == Wrapped(Known(base, x), Lookup(allowed, x), Lookup(denied, x));
        WrappedDecides(Known(base, x), Lookup(allowed, x), Lookup(denied, x), argv);
      }
    }
  }

  method CollectDenied(deny: seq<ArgvRule>, lower: string -> string) returns (denied: Option<ExactSet>)
    ensures denied.Some? <==> AllValid(deny, false, lower)
    ensures denied.Some? ==> Represents(denied.value, deny)
  {
    var m: ExactSet := map[];
    for i := 0 to |deny|
      invariant forall j :: 0 <= j < i ==> ValidRule(deny[j], false, lower)
      invariant Represents(m, deny[..i])
    {
      if !ValidRule(deny[i], false, lower) {
        return None;
      }
      RepresentsOneMore(m, deny, i);
      m := AddExactRule(m, deny[i]);
    }
    WholePrefix(deny);
    return Some(m);
  }

  lemma HoldsIff(m: ExactSet, rules: seq<ArgvRule>, rule: ArgvRule)
    requires Represents(m, rules)
    ensures Holds(m, rule) <==> rule in rules
  {
  }

  method CollectAllowed(allow: seq<ArgvRule>, denied: ExactSet, ghost deny: seq<ArgvRule>, lower: string -> string)
    returns (allowed: ExactSet, error: Option<LoadError>)
    requires Represents(denied, deny)
    ensures error == None <==> AllValid(allow, true, lower) && !Overlap(allow, deny)
    ensures error == None ==> Represents(allowed, allow)
    ensures error.Some? ==> error.value in {InvalidRule, Contradictory}
  {
    allowed := map[];
    for i := 0 to |allow|
      invariant forall j :: 0 <= j < i ==> ValidRule(allow[j], true, lower) && allow[j] !in deny
      invariant Represents(allowed, allow[..i])
    {
      if !ValidRule(allow[i], true, lower) {
        return allowed, Some(InvalidRule);
      }
      HoldsIff(denied, deny, allow[i]);
      if Holds(denied, allow[i]) {
        return allowed, Some(Contradictory);
      }
      RepresentsOneMore(allowed, allow, i);
      allowed := AddExactRule(allowed, allow[i]);
    }
    WholePrefix(allow);
    return allowed, None;
  }

  method WrapNext(p: Policy, ghost base: Policy, allowed: ExactSet, denied: ExactSet, ghost done: set<string>, x: string)
    returns (q: Policy)
    requires p == WrappedPolicy(base, allowed, denied, done) && x !in done
    ensures q == WrappedPolicy(base, allowed, denied, done + {x})
  {
    WrapOneMore(base, allowed, denied, done, x);
    q := WrapExactRules(p, x, Lookup(allowed, x), Lookup(denied, x));
  }

  /** Wraps each executable in `names`. */
  method WrapEach(wrapped: Policy, ghost base: Policy, allowed: ExactSet, denied: ExactSet, ghost before: set<string>, names: set<string>)
    returns (p: Policy)
    requires wrapped == WrappedPolicy(base, allowed, denied, before) && names !! before
    ensures p == WrappedPolicy(base, allowed, denied, before + names)
  {
    p := wrapped;
    var todo := names;
    assert before + (names - todo) == before;
    while todo != {}
      invariant todo <= names && p == WrappedPolicy(base, allowed, denied, before + (names - todo))
      decreases |todo|
    {
      var x :| x in todo;
      p := WrapNext(p, base, allowed, denied, before + (names - todo), x);
      assert before + (names - todo) + {x} == before + (names - (todo - {x}));
      todo := todo - {x};
    }
    assert names - {} == names;
  }

  /** Wraps each executable that has deny rules, then each other one that has allow rules. */
  method WrapAll(base: Policy, allowed: ExactSet, denied: ExactSet) returns (p: Policy)
    ensures p == WrappedPolicy(base, allowed, denied, denied.Keys + allowed.Keys)
  {
    WrapNone(base, allowed, denied);
    p := WrapEach(base, base, allowed, denied, {}, denied.Keys);
    p := WrapEach(p, base, allowed, denied, {} + denied.Keys, allowed.Keys - denied.Keys);
    assert {} + denied.Keys + (allowed.Keys - denied.Keys) == denied.Keys + allowed.Keys;
  }

  /** Merges a board's file into `base`, or refuses the file. It is loaded exactly if it is trusted and
      its rules are complete and acceptable; rules of an untrusted file are never looked at. */
  method LoadFile(file: Option<BoardFile>, base: Option<Policy>, lower: string -> string) returns (r: Loaded)
    ensures !(base.Some? && Trusted(file)) <==>
      r.Refused? && r.error in {NoBase, NoFile, NotRegular, BadPermissions, BadContent}
    ensures base.Some? && Trusted(file) ==>
      var wire := file.value.content;
      && (r == Refused(MissingArgs) <==> !(Complete(wire.allow) && Complete(wire.deny)))
      && (Complete(wire.allow) && Complete(wire.deny) ==>
            var allow, deny := RulesOf(wire.allow), RulesOf(wire.deny);
            && (r.Loaded? <==> Acceptable(allow, deny, lower))
            && (r.Loaded? ==> Decides(r.policy, base.value, allow, deny)))
  {
    if base == None {
      return Refused(NoBase);
    }
    if file == None {
      return Refused(NoFile);
    }
    if !file.value.regular {
      return Refused(NotRegular);
    }
    if file.value.permissions != OWNER_ONLY {
      return Refused(BadPermissions);
    }
    if file.value.content == Undecodable {
      return Refused(BadContent);
    }
    r := LoadRules(file.value.content.allow, file.value.content.deny, base.value, lower);
  }

  method LoadRules(allowWire: seq<RuleWire>, denyWire: seq<RuleWire>, base: Policy, lower: string -> string)
    returns (r: Loaded)
    ensures r.Refused? ==> r.error in {MissingArgs, InvalidRule, Contradictory}
    ensures r == Refused(MissingArgs) <==> !(Complete(allowWire) && Complete(denyWire))
    ensures Complete(allowWire) && Complete(denyWire) ==>
      var allow, deny := RulesOf(allowWire), RulesOf(denyWire);
      && (r.Loaded? <==> Acceptable(allow, deny, lower))
      && (r.Loaded? ==> Decides(r.policy, base, allow, deny))
  {
    var maybeAllow := Materialize(allowWire);
    if maybeAllow == None {
      return Refused(MissingArgs);
    }
    var maybeDeny := Materialize(denyWire);
    if maybeDeny == None {
      return Refused(MissingArgs);
    }
    r := Merge(maybeAllow.value, maybeDeny.value, base, lower);
  }

  ghost predicate Decides(p: Policy, base: Policy, allow: seq<ArgvRule>, deny: seq<ArgvRule>) {
    forall argv :: EvaluateArgv(p, argv) == Merged(base, allow, deny, argv)
  }

  predicate Acceptable(allow: seq<ArgvRule>, deny: seq<ArgvRule>, lower: string -> string) {
    AllValid(deny, false, lower) && AllValid(allow, true, lower) && !Overlap(allow, deny)
  }

  method Merge(allow: seq<ArgvRule>, deny: seq<ArgvRule>, base: Policy, lower: string -> string) returns (r: Loaded)
    ensures r.Refused? ==> r.error in {InvalidRule, Contradictory}
    ensures r.Loaded? <==> Acceptable(allow, deny, lower)
    ensures r.Loaded? ==> Decides(r.policy, base, allow, deny)
  {
    var denied := CollectDenied(deny, lower);
    if denied == None {
      return Refused(InvalidRule);
    }
    var allowed, error := CollectAllowed(allow, denied.value, deny, lower);
    if error != None {
      return Refused(error.value);
    }
    var p := WrapAll(base, allowed, denied.value);
    forall argv
      ensures EvaluateArgv(p, argv) == Merged(base, allow, deny, argv)
    {
      WrapsMeansMerged(p, base, allowed, denied.value, allow, deny, argv);
    }
    return Loaded(p);
  }

  /** What the rules of a file must satisfy, spelled out. */
  lemma AcceptableMeans(allow: seq<ArgvRule>, deny: seq<ArgvRule>, lower: string -> string)
    ensures Acceptable(allow, deny, lower) <==>
      && (forall rule :: rule in allow || rule in deny ==>
            && rule.executable != []
            && (forall c :: c in rule.executable ==> c !in "*?[]{};&|<>$`\\/\"'" && !IsSpace(c))
            && (forall arg :: arg in rule.args ==> '\0' !in arg))
      && (forall rule :: rule in allow ==> lower(rule.executable) !in UNGRANTABLE && rule !in deny)
  {
    AllValidMeans(allow, true, lower);
    AllValidMeans(deny, false, lower);
    if forall rule :: rule in allow ==> rule !in deny {
      assert !Overlap(allow, deny);
    }
    if !Overlap(allow, deny) {
      forall rule | rule in allow
        ensures rule !in deny
      {
        var i :| 0 <= i < |allow| && allow[i] == rule;
      }
    }
  }

  ghost predicate Wholesome(rule: ArgvRule) {
    && rule.executable != []
    && (forall c :: c in rule.executable ==> c !in "*?[]{};&|<>$`\\/\"'" && !IsSpace(c))
    && (forall arg :: arg in rule.args ==> '\0' !in arg)
  }

  lemma ValidRuleMeans(rule: ArgvRule, allowing: bool, lower: string -> string)
    ensures ValidRule(rule, allowing, lower) <==> Wholesome(rule) && (allowing ==> lower(rule.executable) !in UNGRANTABLE)
  {
  }

  lemma AllValidMeans(rules: seq<ArgvRule>, allowing: bool, lower: string -> string)
    ensures AllValid(rules, allowing, lower) <==>
      forall rule :: rule in rules ==> Wholesome(rule) && (allowing ==> lower(rule.executable) !in UNGRANTABLE)
  {
    forall rule
      ensures ValidRule(rule, allowing, lower) <==> Wholesome(rule) && (allowing ==> lower(rule.executable) !in UNGRANTABLE)
    {
      ValidRuleMeans(rule, allowing, lower);
    }
    if forall rule :: rule in rules ==> Wholesome(rule) && (allowing ==> lower(rule.executable) !in UNGRANTABLE) {
      forall i | 0 <= i < |rules|
        ensures ValidRule(rules[i], allowing, lower)
      {
        assert rules[i] in rules;
      }
    }
  }

  // ---- What merging does to lines ----

  /** The allowlist allows no redirection. */
  function Allowlist(p: Policy): Options {
    Options(false, (argv: Argv) => EvaluateArgv(p, argv))
  }

  /** A merged policy allows a vector exactly if no deny rule names it and the base allows it or, where
      the base does not know the executable, an allow rule names it. */
  lemma MergedAllowsIff(p: Policy, base: Policy, allow: seq<ArgvRule>, deny: seq<ArgvRule>, argv: Argv)
    requires Decides(p, base, allow, deny)
    ensures EvaluateArgv(p, argv).allowed <==>
      && argv != [] && !Exact(deny, argv)
      && (if argv[0] in base.commands then EvaluateArgv(base, argv).allowed else Exact(allow, argv))
  {
    assert EvaluateArgv(p, argv) == Merged(base, allow, deny, argv);
  }

  predicate CallsOnly(n: Node, p: Policy) {
    n.kind.CallExpr? && n.kids != [] ==> WordText(n.kids[0].kids) in p.commands
  }

  /** On lines whose every call names an executable the base knows, a board file can only take away. */
  lemma MergedLineWasAllowed(root: Node, p: Policy, base: Policy, allow: seq<ArgvRule>, deny: seq<ArgvRule>)
    requires Decides(p, base, allow, deny) && LineAllowed(root, Allowlist(p))
    requires forall n :: Within(n, root) ==> CallsOnly(n, base)
    ensures LineAllowed(root, Allowlist(base))
  {
    forall n | Within(n, root)
      ensures Permitted(n, Allowlist(base)) && (ByFileRule(n, Allowlist(base)) ==> ByFileRule(n, Allowlist(p)))
    {
      assert Permitted(n, Allowlist(p)) && CallsOnly(n, base);
      var argv := ArgvOf(n.kids);
      assert EvaluateArgv(p, argv) == Merged(base, allow, deny, argv);
      assert n.kids != [] ==> argv[0] == WordText(n.kids[0].kids);
    }
  }

  /** A call the base does not know is allowed only as the whole line, only word for word as an allow
      rule says, and never for an executable that may not be granted. */
  lemma BoardRuleStandsAlone(root: Node, n: Node, p: Policy, base: Policy, allow: seq<ArgvRule>, deny: seq<ArgvRule>, lower: string -> string)
    requires Decides(p, base, allow, deny) && Acceptable(allow, deny, lower)
    requires LineAllowed(root, Allowlist(p)) && Within(n, root) && n.kind.CallExpr? && !CallsOnly(n, base)
    ensures Calls(root) == 1
    ensures var argv := ArgvOf(n.kids);
      Exact(allow, argv) && LiteralBasename(argv[0]) && lower(argv[0]) !in UNGRANTABLE
  {
    var argv := ArgvOf(n.kids);
    assert Permitted(n, Allowlist(p));
    assert EvaluateArgv(p, argv) == Merged(base, allow, deny, argv);
    assert Exact(allow, argv) && ByFileRule(n, Allowlist(p));
    var i :| 0 <= i < |allow| && allow[i] == ArgvRule(argv[0], argv[1..]);
    assert ValidRule(allow[i], true, lower);
  }

  // ---- The denylist ----

  const INTERPRETERS: set<string> := {
    "sh", "bash", "dash", "ash", "zsh", "ksh", "fish", "csh", "tcsh",
    "python", "python2", "python3", "perl", "perl5", "ruby", "lua", "node",
    "nodejs", "php", "tclsh", "wish", "expect", "busybox"}

  /** The lower-cased base name of a path, and whether a path is sensitive. */
  datatype Paths = Paths(baseName: string -> string, sensitive: string -> bool)

  predicate RunsOther(arg: string) {
    arg == "-exec" || arg == "-execdir" || arg == "-ok" || arg == "-okdir"
  }

  /** A call that would let another program run under a name no rule mentions. */
  predicate HardDenied(argv: Argv, paths: Paths)
    requires argv != []
  {
    var base := paths.baseName(argv[0]);
    || base in INTERPRETERS
    || base == "eval" || base == "exec" || base == "env" || base == "xargs"
    || (base == "find" && exists i :: 1 <= i < |argv| && RunsOther(argv[i]))
  }

  datatype DenylistRules = DenylistRules(denyExecutables: seq<string>, denyExact: seq<ArgvRule>, allowAllPaths: bool)

  predicate TouchesSensitive(argv: Argv, paths: Paths) {
    exists i :: 1 <= i < |argv| && paths.sensitive(argv[i])
  }

  function DenylistDecision(rules: DenylistRules, paths: Paths, argv: Argv): Decision {
    if argv == [] then Deny("command.empty")
    else if HardDenied(argv, paths) then Deny("denylist.hard")
    else if !rules.allowAllPaths && TouchesSensitive(argv, paths) then Deny("path.sensitive")
    else if argv[0] in rules.denyExecutables then Deny("denylist.executable")
    else if Exact(rules.denyExact, argv) then Deny("denylist.exact")
    else Allow("denylist.allow")
  }

  /** What is never allowed, spelled out. */
  lemma HardDeniedMeans(argv: Argv, paths: Paths)
    requires argv != []
    ensures HardDenied(argv, paths) <==>
      || paths.baseName(argv[0]) in INTERPRETERS + {"eval", "exec", "env", "xargs"}
      || (paths.baseName(argv[0]) == "find" && exists arg :: arg in argv[1..] && arg in {"-exec", "-execdir", "-ok", "-okdir"})
  {
    if arg :| arg in argv[1..] && arg in {"-exec", "-execdir", "-ok", "-okdir"} {
      var i :| 0 <= i < |argv[1..]| && argv[1..][i] == arg;
      assert RunsOther(argv[i + 1]);
    }
    if i :| 1 <= i < |argv| && RunsOther(argv[i]) {
      var arg := argv[1..][i - 1];
      assert arg == argv[i] && arg in argv[1..] && arg in {"-exec", "-execdir", "-ok", "-okdir"};
    }
  }

  /** A denylist allows exactly what no rule denies: a vector that is not hard-denied, whose executable is
      not denied, that is no exact denial and that, unless all paths are allowed, names no sensitive
      path. */
  lemma DenylistAllowsIff(rules: DenylistRules, paths: Paths, argv: Argv)
    ensures DenylistDecision(rules, paths, argv).allowed <==>
      && argv != []
      && !HardDenied(argv, paths)
      && argv[0] !in rules.denyExecutables
      && ArgvRule(argv[0], argv[1..]) !in rules.denyExact
      && (rules.allowAllPaths || forall i :: 1 <= i < |argv| ==> !paths.sensitive(argv[i]))
  {
  }

  /** So on a line: no call anywhere on it runs a denied executable, is an exact denial, touches a
      sensitive path or is hard-denied. */
  lemma DenyRulesDeny(root: Node, n: Node, rules: DenylistRules, paths: Paths)
    requires LineAllowed(root, Denylist(rules, paths)) && Within(n, root) && n.kind.CallExpr?
    ensures n.kids != []
    ensures var argv := ArgvOf(n.kids);
      && !HardDenied(argv, paths)
      && WordText(n.kids[0].kids) !in rules.denyExecutables
      && ArgvRule(argv[0], argv[1..]) !in rules.denyExact
      && (rules.allowAllPaths || forall i :: 1 <= i < |n.kids| ==> !paths.sensitive(WordText(n.kids[i].kids)))
  {
    assert Permitted(n, Denylist(rules, paths));
    DenylistAllowsIff(rules, paths, ArgvOf(n.kids));
    ArgvOfWords(n.kids);
  }

  /** And nothing else is refused: a line of harmless constructs whose literal calls no rule denies is
      allowed. */
  lemma UndeniedLineAllowed(root: Node, rules: DenylistRules, paths: Paths)
    requires Calls(root) > 0
    requires forall n :: Within(n, root) ==> !Forbidden(n, true)
    requires forall n :: Within(n, root) && n.kind.CallExpr? ==>
      LiteralWords(n.kids) && DenylistDecision(rules, paths, ArgvOf(n.kids)).allowed
    ensures LineAllowed(root, Denylist(rules, paths))
  {
    forall n | Within(n, root)
      ensures Permitted(n, Denylist(rules, paths)) && !ByFileRule(n, Denylist(rules, paths))
    {
    }
  }

  class DenylistPolicy {
    const denyExecutables: set<string>
    const denyExact: ExactSet
    const allowAllPaths: bool

    ghost predicate For(rules: DenylistRules) {
      && (forall x :: x in denyExecutables <==> x in rules.denyExecutables)
      && Represents(denyExact, rules.denyExact)
      && allowAllPaths == rules.allowAllPaths
    }

    constructor (rules: DenylistRules)
      ensures For(rules)
    {
      var names: set<string> := {};
      for i := 0 to |rules.denyExecutables|
        invariant forall x :: x in names <==> x in rules.denyExecutables[..i]
      {
        names := names + {rules.denyExecutables[i]};
      }
      var exact: ExactSet := map[];
      for i := 0 to |rules.denyExact|
        invariant Represents(exact, rules.denyExact[..i])
      {
        RepresentsOneMore(exact, rules.denyExact, i);
        exact := AddExactRule(exact, rules.denyExact[i]);
      }
      assert rules.denyExact[..|rules.denyExact|] == rules.denyExact;
      denyExecutables, denyExact, allowAllPaths := names, exact, rules.allowAllPaths;
    }

    method ClassifyArgv(argv: Argv, paths: Paths, ghost rules: DenylistRules) returns (d: Decision)
      requires For(rules)
      ensures d == DenylistDecision(rules, paths, argv)
    {
      if |argv| == 0 {
        return Deny("command.empty");
      }
      var hard := IsHardDenied(argv, paths);
      if hard {
        return Deny("denylist.hard");
      }
      if !allowAllPaths {
        for i := 1 to |argv|
          invariant forall j :: 1 <= j < i ==> !paths.sensitive(argv[j])
        {
          if paths.sensitive(argv[i]) {
            return Deny("path.sensitive");
          }
        }
      }
      if argv[0] in denyExecutables {
        return Deny("denylist.executable");
      }
      assert Holds(denyExact, ArgvRule(argv[0], argv[1..])) <==> Exact(rules.denyExact, argv);
      if argv[0] in denyExact && argv[1..] in denyExact[argv[0]] {
        return Deny("denylist.exact");
      }
      return Allow("denylist.allow");
    }
  }

  method IsHardDenied(argv: Argv, paths: Paths) returns (hard: bool)
    requires argv != []
    ensures hard <==> HardDenied(argv, paths)
  {
    var base := paths.baseName(argv[0]);
    if base in INTERPRETERS || base == "eval" || base == "exec" || base == "env" || base == "xargs" {
      return true;
    }
    if base == "find" {
      for i := 1 to |argv|
        invariant forall j :: 1 <= j < i ==> !RunsOther(argv[j])
      {
        if RunsOther(argv[i]) {
          return true;
        }
      }
    }
    return false;
  }

  /** The denylist allows redirections other than here-documents. */
  function Denylist(rules: DenylistRules, paths: Paths): Options {
    Options(true, (argv: Argv) => DenylistDecision(rules, paths, argv))
  }

  predicate Stricter(strict: DenylistRules, rules: DenylistRules) {
    && (forall x :: x in rules.denyExecutables ==> x in strict.denyExecutables)
    && (forall r :: r in rules.denyExact ==> r in strict.denyExact)
    && (strict.allowAllPaths ==> rules.allowAllPaths)
  }

  /** Adding deny rules only ever takes lines away. */
  lemma DenyRulesOnlyShrink(root: Node, rules: DenylistRules, strict: DenylistRules, paths: Paths)
    requires Stricter(strict, rules) && LineAllowed(root, Denylist(strict, paths))
    ensures LineAllowed(root, Denylist(rules, paths))
  {
    LinesShrink(root, Denylist(rules, paths), Denylist(strict, paths));
  }

  /** No rules, and no place in a line, let a hard-denied call through. */
  lemma HardDeniedNeverAllowed(root: Node, n: Node, rules: DenylistRules, paths: Paths)
    requires LineAllowed(root, Denylist(rules, paths)) && Within(n, root) && n.kind.CallExpr?
    ensures n.kids != [] && !HardDenied(ArgvOf(n.kids), paths)
  {
    assert Permitted(n, Denylist(rules, paths));
  }
}
