/** The managed-command lexer (internal/core/command/validate.go). */
module ManagedCommand {
  import opened Basics

  datatype Verdict =
    | Accepted
    | ContainsNul
    | Multiline
    | UnbalancedQuotes
    | HeredocOperator
    | BackgroundList

  // ---- Reference definition: a byte-at-a-time quoting automaton ----

  datatype Quoting = Bare | Escaped | Single | Double | DoubleEscaped

  function Advance(q: Quoting, c: Byte): Quoting {
    match q
    case Bare => if c == '\'' then Single else if c == '"' then Double else if c == '\\' then Escaped else Bare
    case Escaped => Bare
    case Single => if c == '\'' then Bare else Single
    case Double => if c == '"' then Bare else if c == '\\' then DoubleEscaped else Double
    case DoubleEscaped => Double
  }

  function Run(q: Quoting, s: Bytes): Quoting {
    if s == [] then q else Advance(Run(q, s[..|s| - 1]), s[|s| - 1])
  }

  function QuotingAt(text: Bytes, i: nat): Quoting
    requires i <= |text|
  {
    Run(Bare, text[..i])
  }

  /** Position `i` holds an unquoted, unescaped byte. */
  predicate Live(text: Bytes, i: nat) {
    i < |text| && QuotingAt(text, i) == Bare
  }

  predicate LiveAmp(text: Bytes, i: nat) {
    Live(text, i) && text[i] == '&'
  }

  /** How many live ampersands stand directly before position `i`. */
  function AmpsBefore(text: Bytes, i: nat): nat
    requires i <= |text|
  {
    if i > 0 && LiveAmp(text, i - 1) then 1 + AmpsBefore(text, i - 1) else 0
  }

  /** A live ampersand at an even place in its run with neither a partner after it
      nor a redirection bracket directly before it. */
  predicate StrayAmp(text: Bytes, i: nat) {
    && LiveAmp(text, i)
    && AmpsBefore(text, i) % 2 == 0
    && !(i + 1 < |text| && text[i + 1] == '&')
    && !(i > 0 && (text[i - 1] == '>' || text[i - 1] == '<'))
  }

  predicate Heredoc(text: Bytes, i: nat) {
    Live(text, i) && text[i] == '<' && i + 1 < |text| && text[i + 1] == '<'
  }

  predicate Offends(text: Bytes, i: nat) {
    StrayAmp(text, i) || Heredoc(text, i)
  }

  predicate CleanBefore(text: Bytes, i: nat) {
    forall j: nat :: j < i ==> !Offends(text, j)
  }

  predicate IsControl(c: Byte) { c == '\0' || c == '\n' || c == '\r' }

  predicate OneLine(text: Bytes) {
    forall i :: 0 <= i < |text| ==> !IsControl(text[i])
  }

  predicate Balanced(text: Bytes) {
    var q := QuotingAt(text, |text|);
    q == Bare || q == Escaped
  }

  /** The managed-command contract. */
  predicate Managed(text: Bytes) {
    && OneLine(text)
    && Balanced(text)
    && CleanBefore(text, |text|)
  }

  /** What quotes and backslashes do: a backslash shields the next byte outside quotes and inside double
      ones and is nothing special inside single ones, and only the same quote closes a quotation. */
  lemma QuotingRules(c: Byte)
    ensures Run(Bare, "'") == Single && Run(Bare, "\"") == Double && Run(Bare, ['\\', c]) == Bare
    ensures Run(Bare, [c]) == Bare <==> c != '\'' && c != '"' && c != '\\'
    ensures Run(Single, "'") == Bare && (c != '\'' ==> Run(Single, [c]) == Single)
    ensures Run(Double, "\"") == Bare && Run(Double, ['\\', c]) == Double
    ensures c != '"' && c != '\\' ==> Run(Double, [c]) == Double
  {
    RunOne(Bare, '\'');
    RunOne(Bare, '"');
    RunOne(Bare, c);
    RunOne(Single, '\'');
    RunOne(Single, c);
    RunOne(Double, '"');
    RunOne(Double, c);
    RunTwo(Bare, '\\', c);
    RunTwo(Double, '\\', c);
  }

  /** A live byte at `i` opens no here-document and, if it is an ampersand at an even place of its run, is
      paired or directly follows a redirection bracket. */
  predicate FineAt(text: Bytes, i: nat)
    requires i < |text|
  {
    && !(text[i] == '<' && i + 1 < |text| && text[i + 1] == '<')
    && (text[i] == '&' && AmpsBefore(text, i) % 2 == 0 ==>
          (i + 1 < |text| && text[i + 1] == '&') || (i > 0 && (text[i - 1] == '<' || text[i - 1] == '>')))
  }

  lemma OffendsMeans(text: Bytes, i: nat)
    requires i < |text|
    ensures Offends(text, i) <==> Run(Bare, text[..i]) == Bare && !FineAt(text, i)
  {
  }

  /** The contract spelled out: one line, no quote left open, and every live byte fine. */
  lemma ManagedMeans(text: Bytes)
    ensures Managed(text) <==>
      && (forall i :: 0 <= i < |text| ==> text[i] != '\0' && text[i] != '\n' && text[i] != '\r')
      && Run(Bare, text) != Single && Run(Bare, text) != Double && Run(Bare, text) != DoubleEscaped
      && (forall i: nat :: i < |text| && Run(Bare, text[..i]) == Bare ==> FineAt(text, i))
  {
    WholePrefix(text);
    forall i: nat | i < |text|
      ensures Offends(text, i) <==> Run(Bare, text[..i]) == Bare && !FineAt(text, i)
    {
      OffendsMeans(text, i);
    }
  }

  // ---- The lexer ----

  lemma QuotingStep(text: Bytes, i: nat)
    requires i < |text|
    ensures QuotingAt(text, i + 1) == Advance(QuotingAt(text, i), text[i])
  {
    assert text[..i + 1][..i] == text[..i];
  }

  method ValidateManaged(text: Bytes) returns (v: Verdict)
    ensures v.Accepted? <==> Managed(text)
    ensures v.ContainsNul? ==> exists i :: 0 <= i < |text| && text[i] == '\0' && OneLine(text[..i])
    ensures v.Multiline? ==> exists i :: 0 <= i < |text| && (text[i] == '\n' || text[i] == '\r') && OneLine(text[..i])
    ensures v.BackgroundList? ==> OneLine(text) && exists i: nat :: StrayAmp(text, i) && CleanBefore(text, i)
    ensures v.HeredocOperator? ==> OneLine(text) && exists i: nat :: Heredoc(text, i) && CleanBefore(text, i)
    ensures v.UnbalancedQuotes? ==> OneLine(text) && !Balanced(text) && CleanBefore(text, |text|)
  {
    v := CheckOneLine(text);
    if v != Accepted {
      return;
    }
    v := Lex(text);
  }

  /** No command spans lines or carries a NUL. */
  method CheckOneLine(text: Bytes) returns (v: Verdict)
    ensures v.Accepted? <==> OneLine(text)
    ensures v in {Accepted, ContainsNul, Multiline}
    ensures v.ContainsNul? ==> exists i :: 0 <= i < |text| && text[i] == '\0' && OneLine(text[..i])
    ensures v.Multiline? ==> exists i :: 0 <= i < |text| && (text[i] == '\n' || text[i] == '\r') && OneLine(text[..i])
  {
    for i := 0 to |text|
      invariant OneLine(text[..i])
    {
      if text[i] == '\0' {
        return ContainsNul;
      }
      if text[i] == '\n' || text[i] == '\r' {
        return Multiline;
      }
    }
    WholePrefix(text);
    return Accepted;
  }

  /** The skipping loop over quotes, escapes and operators. */
  method Lex(text: Bytes) returns (v: Verdict)
    ensures v.Accepted? <==> Balanced(text) && CleanBefore(text, |text|)
    ensures v in {Accepted, BackgroundList, HeredocOperator, UnbalancedQuotes}
    ensures v.BackgroundList? ==> exists i: nat :: StrayAmp(text, i) && CleanBefore(text, i)
    ensures v.HeredocOperator? ==> exists i: nat :: Heredoc(text, i) && CleanBefore(text, i)
    ensures v.UnbalancedQuotes? ==> !Balanced(text) && CleanBefore(text, |text|)
  {
    var quote := '\0';
    var i := 0;
    while i < |text|
      invariant 0 <= i <= |text|
      invariant quote == '\0' || quote == '\'' || quote == '"'
      invariant quote == '\'' <==> QuotingAt(text, i) == Single
      invariant quote == '"' <==> QuotingAt(text, i) == Double || (i == |text| && QuotingAt(text, i) == DoubleEscaped)
      invariant QuotingAt(text, i) == Escaped ==> i == |text|
      invariant QuotingAt(text, i) == DoubleEscaped ==> i == |text|
      invariant i < |text| && LiveAmp(text, i) ==> AmpsBefore(text, i) % 2 == 0
      invariant CleanBefore(text, i)
    {
      var c := text[i];
      QuotingStep(text, i);
      if i + 1 < |text| {
        QuotingStep(text, i + 1);
      }
      if quote == '\'' {
        if c == '\'' {
          quote := '\0';
        }
      } else if quote == '"' {
        if c == '\\' && i + 1 < |text| {
          i := i + 1;
        } else if c == '"' {
          quote := '\0';
        }
      } else if c == '\'' || c == '"' {
        quote := c;
      } else if c == '\\' {
        if i + 1 < |text| {
          i := i + 1;
        }
      } else if c == '&' {
        if i + 1 < |text| && text[i + 1] == '&' {
          i := i + 1;
        } else if i > 0 && (text[i - 1] == '>' || text[i - 1] == '<') {
        } else {
          assert StrayAmp(text, i) && Offends(text, i);
          return BackgroundList;
        }
      } else if c == '<' {
        if i + 1 < |text| && text[i + 1] == '<' {
          assert Heredoc(text, i) && Offends(text, i);
          return HeredocOperator;
        }
      }
      i := i + 1;
    }
    if quote != '\0' {
      return UnbalancedQuotes;
    }
    return Accepted;
  }

  // ---- Joining commands ----

  lemma {:induction false} RunConcat(q: Quoting, a: Bytes, b: Bytes)
    ensures Run(q, a + b) == Run(Run(q, a), b)
    decreases |b|
  {
    if b == [] {
      assert a + b == a;
    } else {
      assert (a + b)[..|a + b| - 1] == a + b[..|b| - 1];
      RunConcat(q, a, b[..|b| - 1]);
    }
  }

  /** Quoting before a cut does not depend on what follows it. */
  lemma {:induction false} PrefixView(a: Bytes, rest: Bytes, i: nat)
    requires i <= |a|
    ensures QuotingAt(a + rest, i) == QuotingAt(a, i)
    ensures AmpsBefore(a + rest, i) == AmpsBefore(a, i)
    decreases i
  {
    assert (a + rest)[..i] == a[..i];
    if i > 0 {
      PrefixView(a, rest, i - 1);
    }
  }

  /** After a prefix that leaves the lexer bare and does not end in an ampersand, lexing starts afresh. */
  lemma {:induction false} SuffixView(front: Bytes, b: Bytes, i: nat)
    requires i <= |b|
    requires front != [] && front[|front| - 1] != '&' && Run(Bare, front) == Bare
    ensures QuotingAt(front + b, |front| + i) == QuotingAt(b, i)
    ensures AmpsBefore(front + b, |front| + i) == AmpsBefore(b, i)
    decreases i
  {
    assert (front + b)[..|front| + i] == front + b[..i];
    RunConcat(Bare, front, b[..i]);
    if i > 0 {
      SuffixView(front, b, i - 1);
    }
  }

  lemma SeparatorResets(a: Bytes)
    requires Balanced(a)
    ensures Run(Bare, a + "; ") == Bare
  {
    assert a[..|a|] == a;
    RunConcat(Bare, a, "; ");
    assert "; "[..1] == ";" && ";"[..0] == "";
  }

  lemma FrontClean(a: Bytes, rest: Bytes, i: nat)
    requires Managed(a) && i < |a| && rest != [] && rest[0] == ';'
    ensures !Offends(a + rest, i)
  {
    PrefixView(a, rest, i);
    assert !Offends(a, i);
  }

  lemma BackClean(front: Bytes, b: Bytes, i: nat)
    requires i < |b| && !Offends(b, i)
    requires front != [] && front[|front| - 1] == ' ' && Run(Bare, front) == Bare
    ensures !Offends(front + b, |front| + i)
  {
    SuffixView(front, b, i);
  }

  /** Acceptance is closed under sequencing, even when the first text ends in a backslash. */
  lemma JoinManaged(a: Bytes, b: Bytes)
    requires Managed(a) && Managed(b)
    ensures Managed(a + "; " + b)
  {
    var front := a + "; ";
    var whole := front + b;
    SeparatorResets(a);
    assert whole == a + ("; " + b);
    forall i: nat | i < |whole|
      ensures !Offends(whole, i)
    {
      if i < |a| {
        FrontClean(a, "; " + b, i);
      } else if i < |front| {
        assert whole[i] == ';' || whole[i] == ' ';
      } else {
        BackClean(front, b, i - |front|);
      }
    }
    SuffixView(front, b, |b|);
  }

  /** Bytes that never change the quoting state and never offend. */
  predicate Inert(c: Byte) {
    c != '\'' && c != '"' && c != '\\' && c != '&' && c != '<' && !IsControl(c)
  }

  lemma {:induction false} RunInside(q: Quoting, s: Bytes)
    requires q == Bare || q == Double
    requires forall i :: 0 <= i < |s| ==> Inert(s[i])
    ensures Run(q, s) == q
  {
    if s != [] {
      RunInside(q, s[..|s| - 1]);
    }
  }

  lemma {:induction false} RunSingle(s: Bytes)
    requires forall i :: 0 <= i < |s| ==> s[i] != '\''
    ensures Run(Single, s) == Single
  {
    if s != [] {
      RunSingle(s[..|s| - 1]);
    }
  }

  /** `word 'quoted' "inner"` leaves the lexer bare. */
  lemma RunPrintf(word: Bytes, quoted: Bytes, inner: Bytes)
    requires forall i :: 0 <= i < |word| ==> Inert(word[i])
    requires forall i :: 0 <= i < |quoted| ==> quoted[i] != '\''
    requires forall i :: 0 <= i < |inner| ==> Inert(inner[i])
    ensures Run(Bare, word + " '" + quoted + "' \"" + inner + "\"") == Bare
  {
    RunInside(Bare, word);
    RunTwo(Bare, ' ', '\'');
    RunSingle(quoted);
    RunTwo(Single, '\'', ' ');
    RunOne(Bare, '"');
    assert "' \"" == "' " + "\"";
    RunThen(Single, "' ", "\"", Bare, Double);
    RunInside(Double, inner);
    RunOne(Double, '"');
    RunPieces(word, " '", quoted, "' \"", inner, "\"");
  }

  lemma RunPieces(word: Bytes, open: Bytes, quoted: Bytes, mid: Bytes, inner: Bytes, close: Bytes)
    requires Run(Bare, word) == Bare && Run(Bare, open) == Single && Run(Single, quoted) == Single
    requires Run(Single, mid) == Double && Run(Double, inner) == Double && Run(Double, close) == Bare
    ensures Run(Bare, word + open + quoted + mid + inner + close) == Bare
  {
    var a := word + open;
    RunThen(Bare, word, open, Bare, Single);
    var b := a + quoted;
    RunThen(Bare, a, quoted, Single, Single);
    var c := b + mid;
    RunThen(Bare, b, mid, Single, Double);
    var d := c + inner;
    RunThen(Bare, c, inner, Double, Double);
    RunThen(Bare, d, close, Double, Bare);
  }

  lemma RunThen(q: Quoting, a: Bytes, b: Bytes, q1: Quoting, q2: Quoting)
    requires Run(q, a) == q1 && Run(q1, b) == q2
    ensures Run(q, a + b) == q2
  {
    RunConcat(q, a, b);
  }

  lemma RunOne(q: Quoting, c: Byte)
    ensures Run(q, [c]) == Advance(q, c)
  {
    assert [c][..0] == [];
  }

  lemma RunTwo(q: Quoting, c: Byte, d: Byte)
    ensures Run(q, [c, d]) == Advance(Advance(q, c), d)
  {
    assert [c, d][..1] == [c];
    RunOne(q, c);
  }
}
