/**
 * The command line packages/kaos/src/ssh.ts builds for a remote shell, against the rules by which a
 * POSIX shell takes it apart: token recognition (section 2.3 of the Shell Command Language), quoting
 * (section 2.2) and quote removal (section 2.6.7).
 */
module ShellCommand {
  import opened Options
  import opened Sequences

  // ---- a POSIX tokenizer ----

  datatype Token =
    | Word(text: string)
    | Operator(text: string)

  datatype Quoting = Bare | Single | Double

  datatype Mode =
    | Between
    | Comment
    | InOperator
    | InWord(quoting: Quoting)
    | Escaped(quoting: Quoting)
    // A NUL, or an expansion: what follows is beyond this model.
    | Stuck

  // The tokens delimited so far and the text of the current one.
  datatype Scanner = Scanner(tokens: seq<Token>, text: string, mode: Mode)

  predicate IsBlank(c: char) {
    c == ' ' || c == '\t'
  }

  predicate StartsOperator(c: char) {
    c == '&' || c == '|' || c == ';' || c == '<' || c == '>' || c == '(' || c == ')' || c == '\n'
  }

  predicate IsOperator(s: string) {
    if |s| == 1 then StartsOperator(s[0])
    else if |s| == 2 then
      || (s[0] == s[1] && (s[0] == '&' || s[0] == '|' || s[0] == ';' || s[0] == '<' || s[0] == '>'))
      || (s[0] == '<' && (s[1] == '&' || s[1] == '>'))
      || (s[0] == '>' && (s[1] == '&' || s[1] == '|'))
    else |s| == 3 && s[0] == '<' && s[1] == '<' && s[2] == '-'
  }

  function BetweenStep(tokens: seq<Token>, c: char): Scanner {
    if IsBlank(c) then Scanner(tokens, "", Between)
    else if c == '#' then Scanner(tokens, "", Comment)
    else if StartsOperator(c) then Scanner(tokens, [c], InOperator)
    else BareStep(tokens, "", c)
  }

  // A tilde expands at the start of a word and, in an assignment, behind `=` and `:` (section 2.6.1).
  predicate TildeExpands(text: string) {
    text == "" || text[|text| - 1] == '=' || text[|text| - 1] == ':'
  }

  // An unquoted character that has the shell expand something (sections 2.6 and 2.13).
  predicate Expands(text: string, c: char) {
    c == '$' || c == '`' || c == '*' || c == '?' || c == '[' || (c == '~' && TildeExpands(text))
  }

  function BareStep(tokens: seq<Token>, text: string, c: char): Scanner {
    if c == '\'' then Scanner(tokens, text + [c], InWord(Single))
    else if c == '"' then Scanner(tokens, text + [c], InWord(Double))
    else if c == '\\' then Scanner(tokens, text, Escaped(Bare))
    else if Expands(text, c) || c == '\0' then Scanner(tokens, text, Stuck)
    else Scanner(tokens, text + [c], InWord(Bare))
  }

  // One character of input.
  function Step(s: Scanner, c: char): Scanner {
    match s.mode
    case Stuck => s
    case Between => BetweenStep(s.tokens, c)
    case Comment => if c == '\n' then Scanner(s.tokens, [c], InOperator) else s
    case InOperator =>
      if IsOperator(s.text + [c]) then Scanner(s.tokens, s.text + [c], InOperator)
      else BetweenStep(s.tokens + [Operator(s.text)], c)
    case InWord(Bare) =>
      if IsBlank(c) || StartsOperator(c) then BetweenStep(s.tokens + [Word(s.text)], c)
      else BareStep(s.tokens, s.text, c)
    case InWord(Single) =>
      if c == '\0' then s.(mode := Stuck)
      else Scanner(s.tokens, s.text + [c], if c == '\'' then InWord(Bare) else s.mode)
    case InWord(Double) =>
      if c == '$' || c == '`' || c == '\0' then s.(mode := Stuck)
      else if c == '\\' then s.(mode := Escaped(Double))
      else Scanner(s.tokens, s.text + [c], if c == '"' then InWord(Bare) else s.mode)
    case Escaped(q) =>
      if c == '\0' then s.(mode := Stuck)
      else if c == '\n' then s.(mode := if s.text == "" then Between else InWord(q))
      else Scanner(s.tokens, s.text + ['\\', c], InWord(q))
  }

  function Scan(s: Scanner, input: string): Scanner
    decreases |input|
  {
    if input == "" then s else Scan(Step(s, input[0]), input[1..])
  }

  // The end of input delimits the current token; inside quotes there is none.
  function Finish(s: Scanner): Option<seq<Token>> {
    match s.mode
    case Between => Some(s.tokens)
    case Comment => Some(s.tokens)
    case InOperator => Some(s.tokens + [Operator(s.text)])
    case InWord(Bare) => Some(s.tokens + [Word(s.text)])
    case _ => None
  }

  function Tokenize(input: string): Option<seq<Token>> {
    Finish(Scan(Scanner([], "", Between), input))
  }

  // The characters a backslash quotes; inside double quotes it is literal before any other.
  predicate CanEscape(q: Quoting, c: char) {
    q.Bare? || (q.Double? && (c == '$' || c == '`' || c == '"' || c == '\\'))
  }

  function RemoveQuotes(q: Quoting, s: string): string
    decreases |s|
  {
    if s == "" then ""
    else if q.Bare? && s[0] == '\'' then RemoveQuotes(Single, s[1..])
    else if q.Bare? && s[0] == '"' then RemoveQuotes(Double, s[1..])
    else if q.Single? && s[0] == '\'' then RemoveQuotes(Bare, s[1..])
    else if q.Double? && s[0] == '"' then RemoveQuotes(Bare, s[1..])
    else if s[0] == '\\' && |s| > 1 && CanEscape(q, s[1]) then [s[1]] + RemoveQuotes(q, s[2..])
    else [s[0]] + RemoveQuotes(q, s[1..])
  }

  // ---- the command line ----

  predicate IsLetter(c: char) {
    'A' <= c <= 'Z' || 'a' <= c <= 'z'
  }

  predicate IsDigit(c: char) {
    '0' <= c <= '9'
  }

  predicate IsSafeChar(c: char) {
    || IsLetter(c) || IsDigit(c)
    || c == '_' || c == '.' || c == '/' || c == ':' || c == '=' || c == '@'
    || c == '%' || c == '^' || c == ',' || c == '+' || c == '-'
  }

  predicate AllSafe(s: string) {
    forall i :: 0 <= i < |s| ==> IsSafeChar(s[i])
  }

  predicate IsValidName(key: string) {
    key != "" && (IsLetter(key[0]) || key[0] == '_') &&
    forall i :: 0 <= i < |key| ==> IsLetter(key[i]) || IsDigit(key[i]) || key[i] == '_'
  }

  // A single quote cannot stand inside single quotes: leave them, quote it doubly, and go back in.
  function EscapeQuote(): string {
    ['\'', '"', '\'', '"', '\'']
  }

  function EscapeQuotes(s: string): string {
    if s == "" then ""
    else (if s[0] == '\'' then EscapeQuote() else [s[0]]) + EscapeQuotes(s[1..])
  }

  function ShellQuote(arg: string): string {
    if arg == "" then ['\'', '\'']
    else if AllSafe(arg) then arg
    else ['\''] + EscapeQuotes(arg) + ['\'']
  }

  // Every element behind a separator, but the first.
  function Join(words: seq<string>): string {
    if words == [] then ""
    else if |words| == 1 then words[0]
    else Join(words[..|words| - 1]) + " " + words[|words| - 1]
  }

  function QuoteAll(args: seq<string>): (words: seq<string>)
    ensures |words| == |args|
    ensures forall i :: 0 <= i < |args| ==> words[i] == ShellQuote(args[i])
  {
    if args == [] then [] else QuoteAll(args[..|args| - 1]) + [ShellQuote(args[|args| - 1])]
  }

  datatype Assignment = Assignment(key: string, value: string)

  datatype Built =
    | Command(line: string)
    | InvalidName(key: string)

  function Assign(a: Assignment): string {
    a.key + "=" + ShellQuote(a.value)
  }

  function AssignAll(env: seq<Assignment>): (words: seq<string>)
    ensures |words| == |env|
    ensures forall i :: 0 <= i < |env| ==> words[i] == Assign(env[i])
  {
    if env == [] then [] else AssignAll(env[..|env| - 1]) + [Assign(env[|env| - 1])]
  }

  // ---- what is left bare ----

  lemma {:induction false} EscapingNeverShortens(s: string)
    ensures |EscapeQuotes(s)| >= |s|
    decreases |s|
  {
    if s != "" {
      EscapingNeverShortens(s[1..]);
    }
  }

  // An argument goes out as it is exactly when it is not empty and consists of these characters.
  lemma BareExactlyWhenPlain(arg: string)
    ensures ShellQuote(arg) == arg <==> arg != "" && forall i :: 0 <= i < |arg| ==>
      'a' <= arg[i] <= 'z' || 'A' <= arg[i] <= 'Z' || '0' <= arg[i] <= '9' || arg[i] in "_./:=@%^,+-"
  {
    EscapingNeverShortens(arg);
  }

  // A name is letters, digits and underscores, and starts with no digit (section 3.216 of the definitions).
  lemma NamesAreShellNames(key: string)
    ensures IsValidName(key) <==> key != "" && !('0' <= key[0] <= '9') && forall i :: 0 <= i < |key| ==>
      'a' <= key[i] <= 'z' || 'A' <= key[i] <= 'Z' || '0' <= key[i] <= '9' || key[i] == '_'
  {
  }

  // ---- reading back ----

  predicate NulFree(s: string) {
    forall i :: 0 <= i < |s| ==> s[i] != '\0'
  }

  lemma {:induction false} ScanConcat(s: Scanner, a: string, b: string)
    ensures Scan(s, a + b) == Scan(Scan(s, a), b)
    decreases |a|
  {
    if a == "" {
      assert a + b == b;
    } else {
      assert (a + b)[1..] == a[1..] + b;
      ScanConcat(Step(s, a[0]), a[1..], b);
    }
  }

  lemma ScanOne(s: Scanner, c: char)
    ensures Scan(s, [c]) == Step(s, c)
  {
    assert [c][1..] == "";
  }

  // The scanner after t has gone into the current word.
  function Grown(s: Scanner, t: string, mode: Mode): Scanner {
    Scanner(s.tokens, s.text + t, mode)
  }

  lemma GrowTwice(s: Scanner, a: string, aMode: Mode, b: string, bMode: Mode)
    requires Scan(s, a) == Grown(s, a, aMode)
    requires Scan(Grown(s, a, aMode), b) == Grown(Grown(s, a, aMode), b, bMode)
    ensures Scan(s, a + b) == Grown(s, a + b, bMode)
  {
    ScanConcat(s, a, b);
    Regroup(s.text, a, b);
  }

  lemma StepSafe(s: Scanner, c: char)
    requires IsSafeChar(c) && (s.mode == InWord(Bare) || (s.mode == Between && s.text == ""))
    ensures Step(s, c) == Scanner(s.tokens, s.text + [c], InWord(Bare))
  {
  }

  lemma StepOpen(s: Scanner)
    requires s.mode == InWord(Bare) || (s.mode == Between && s.text == "")
    ensures Step(s, '\'') == Scanner(s.tokens, s.text + ['\''], InWord(Single))
  {
  }

  lemma StepSingle(s: Scanner, c: char)
    requires s.mode == InWord(Single) && c != '\0'
    ensures Step(s, c) == Scanner(s.tokens, s.text + [c], if c == '\'' then InWord(Bare) else s.mode)
  {
  }

  lemma {:induction false} ScanSafe(s: Scanner, t: string)
    requires AllSafe(t) && (s.mode == InWord(Bare) || (s.mode == Between && s.text == "" && t != ""))
    ensures Scan(s, t) == Grown(s, t, InWord(Bare))
    decreases |t|
  {
    if t != "" {
      StepSafe(s, t[0]);
      ScanSafe(Step(s, t[0]), t[1..]);
      assert (s.text + [t[0]]) + t[1..] == s.text + t;
    }
  }

  lemma ScanEscapedQuote(s: Scanner)
    requires s.mode == InWord(Single)
    ensures Scan(s, EscapeQuote()) == Grown(s, EscapeQuote(), InWord(Single))
  {
    var e := EscapeQuote();
    var a := Scanner(s.tokens, s.text + ['\''], InWord(Bare));
    var b := Scanner(s.tokens, a.text + ['"'], InWord(Double));
    var c := Scanner(s.tokens, b.text + ['\''], InWord(Double));
    var d := Scanner(s.tokens, c.text + ['"'], InWord(Bare));
    var f := Scanner(s.tokens, d.text + ['\''], InWord(Single));
    assert Step(s, e[0]) == a && Step(a, e[1]) == b && Step(b, e[2]) == c && Step(c, e[3]) == d && Step(d, e[4]) == f;
    assert Scan(s, e) == Scan(a, e[1..]);
    assert e[1..][1..] == e[2..] && Scan(a, e[1..]) == Scan(b, e[2..]);
    assert e[2..][1..] == e[3..] && Scan(b, e[2..]) == Scan(c, e[3..]);
    assert e[3..][1..] == e[4..] && Scan(c, e[3..]) == Scan(d, e[4..]);
    ScanOne(d, e[4]);
    assert e[4..] == [e[4]];
    assert f.text == s.text + e;
  }

  lemma {:induction false} ScanEscaped(s: Scanner, arg: string)
    requires NulFree(arg) && s.mode == InWord(Single)
    ensures Scan(s, EscapeQuotes(arg)) == Grown(s, EscapeQuotes(arg), InWord(Single))
    decreases |arg|
  {
    if arg == "" {
      assert s.text + "" == s.text;
    } else {
      var first := if arg[0] == '\'' then EscapeQuote() else [arg[0]];
      ScanEscapedChar(s, arg[0]);
      ScanEscaped(Grown(s, first, InWord(Single)), arg[1..]);
      GrowTwice(s, first, InWord(Single), EscapeQuotes(arg[1..]), InWord(Single));
    }
  }

  lemma ScanEscapedChar(s: Scanner, c: char)
    requires c != '\0' && s.mode == InWord(Single)
    ensures var t := if c == '\'' then EscapeQuote() else [c]; Scan(s, t) == Grown(s, t, InWord(Single))
  {
    if c == '\'' {
      ScanEscapedQuote(s);
    } else {
      ScanOne(s, c);
      StepSingle(s, c);
    }
  }

  // Single quotes around an escaped text.
  lemma ScanInQuotes(s: Scanner, arg: string)
    requires NulFree(arg) && (s.mode == InWord(Bare) || (s.mode == Between && s.text == ""))
    ensures Scan(s, ['\''] + EscapeQuotes(arg) + ['\'']) ==
            Grown(s, ['\''] + EscapeQuotes(arg) + ['\''], InWord(Bare))
  {
    var inside := EscapeQuotes(arg);
    StepOpen(s);
    ScanOne(s, '\'');
    ScanEscaped(Grown(s, ['\''], InWord(Single)), arg);
    GrowTwice(s, ['\''], InWord(Single), inside, InWord(Single));
    var end := Grown(s, ['\''] + inside, InWord(Single));
    ScanOne(end, '\'');
    StepSingle(end, '\'');
    GrowTwice(s, ['\''] + inside, InWord(Single), ['\''], InWord(Bare));
  }

  // A quoted argument is one word, or the rest of one.
  lemma ScanQuoted(s: Scanner, arg: string)
    requires NulFree(arg) && (s.mode == InWord(Bare) || (s.mode == Between && s.text == ""))
    ensures Scan(s, ShellQuote(arg)) == Grown(s, ShellQuote(arg), InWord(Bare))
  {
    if arg != "" && AllSafe(arg) {
      ScanSafe(s, arg);
    } else {
      ScanInQuotes(s, arg);
      assert arg == "" ==> ['\''] + EscapeQuotes(arg) + ['\''] == ['\'', '\''];
    }
  }

  // ---- quote removal undoes quoting ----

  lemma {:induction false} SafeHasNoQuotes(t: string, rest: string)
    requires AllSafe(t)
    ensures RemoveQuotes(Bare, t + rest) == t + RemoveQuotes(Bare, rest)
    decreases |t|
  {
    if t == "" {
      assert t + rest == rest;
    } else {
      assert IsSafeChar(t[0]);
      assert (t + rest)[1..] == t[1..] + rest;
      SafeHasNoQuotes(t[1..], rest);
      assert t + RemoveQuotes(Bare, rest) == [t[0]] + (t[1..] + RemoveQuotes(Bare, rest));
    }
  }

  lemma EscapedQuoteIsRemoved(rest: string)
    ensures RemoveQuotes(Single, EscapeQuote() + rest) == ['\''] + RemoveQuotes(Single, rest)
  {
    var s := EscapeQuote() + rest;
    assert RemoveQuotes(Single, s) == RemoveQuotes(Bare, s[1..]);
    assert s[1..][1..] == s[2..] && RemoveQuotes(Bare, s[1..]) == RemoveQuotes(Double, s[2..]);
    assert s[2..][1..] == s[3..] && RemoveQuotes(Double, s[2..]) == ['\''] + RemoveQuotes(Double, s[3..]);
    assert s[3..][1..] == s[4..] && RemoveQuotes(Double, s[3..]) == RemoveQuotes(Bare, s[4..]);
    assert s[4..][1..] == rest && RemoveQuotes(Bare, s[4..]) == RemoveQuotes(Single, rest);
  }

  lemma EscapedCharIsUndone(c: char, tail: string)
    ensures RemoveQuotes(Single, (if c == '\'' then EscapeQuote() else [c]) + tail) == [c] + RemoveQuotes(Single, tail)
  {
    if c == '\'' {
      EscapedQuoteIsRemoved(tail);
    } else {
      assert ([c] + tail)[1..] == tail;
    }
  }

  lemma {:induction false} EscapingIsUndone(arg: string, rest: string)
    ensures RemoveQuotes(Single, EscapeQuotes(arg) + rest) == arg + RemoveQuotes(Single, rest)
    decreases |arg|
  {
    if arg == "" {
      assert EscapeQuotes(arg) + rest == rest;
    } else {
      EscapingIsUndone(arg[1..], rest);
      EscapedCharIsUndone(arg[0], EscapeQuotes(arg[1..]) + rest);
      Regroup(if arg[0] == '\'' then EscapeQuote() else [arg[0]], EscapeQuotes(arg[1..]), rest);
      Regroup([arg[0]], arg[1..], RemoveQuotes(Single, rest));
    }
  }

  lemma QuotingIsUndone(arg: string)
    ensures RemoveQuotes(Bare, ShellQuote(arg)) == arg
  {
    if arg == "" {
      assert ['\'', '\''][1..] == ['\''] && ['\''][1..] == "";
    } else if AllSafe(arg) {
      SafeHasNoQuotes(arg, "");
      assert arg + "" == arg;
    } else {
      InQuotesIsUndone(arg);
    }
  }

  lemma InQuotesIsUndone(arg: string)
    ensures RemoveQuotes(Bare, ['\''] + EscapeQuotes(arg) + ['\'']) == arg
  {
    var s := ['\''] + EscapeQuotes(arg) + ['\''];
    assert s[1..] == EscapeQuotes(arg) + ['\''];
    EscapingIsUndone(arg, ['\'']);
    assert ['\''][1..] == "" && arg + "" == arg;
  }

  // An assignment keeps its name and `=` outside the quotes.
  lemma AssignmentIsUndone(a: Assignment)
    requires IsValidName(a.key)
    ensures RemoveQuotes(Bare, Assign(a)) == a.key + "=" + a.value
  {
    assert AllSafe(a.key + "=");
    SafeHasNoQuotes(a.key + "=", ShellQuote(a.value));
    QuotingIsUndone(a.value);
  }

  // ---- words one after the other ----

  function Fresh(tokens: seq<Token>): Scanner {
    Scanner(tokens, "", Between)
  }

  // From between two tokens, w is read as one unfinished word.
  ghost predicate ReadsAsWord(w: string) {
    forall tokens :: Scan(Fresh(tokens), w) == Scanner(tokens, w, InWord(Bare))
  }

  lemma QuotedReadsAsWord(arg: string)
    requires NulFree(arg)
    ensures ReadsAsWord(ShellQuote(arg))
  {
    forall tokens ensures Scan(Fresh(tokens), ShellQuote(arg)) == Scanner(tokens, ShellQuote(arg), InWord(Bare)) {
      ScanQuoted(Fresh(tokens), arg);
      assert "" + ShellQuote(arg) == ShellQuote(arg);
    }
  }

  lemma AssignmentReadsAsWord(a: Assignment)
    requires IsValidName(a.key) && NulFree(a.value)
    ensures ReadsAsWord(Assign(a))
  {
    var name := a.key + "=";
    forall tokens ensures Scan(Fresh(tokens), Assign(a)) == Scanner(tokens, Assign(a), InWord(Bare)) {
      var s := Fresh(tokens);
      ScanSafe(s, name);
      ScanQuoted(Grown(s, name, InWord(Bare)), a.value);
      GrowTwice(s, name, InWord(Bare), ShellQuote(a.value), InWord(Bare));
      assert "" + Assign(a) == Assign(a);
    }
  }

  function Words(ws: seq<string>): seq<Token> {
    if ws == [] then [] else Words(ws[..|ws| - 1]) + [Word(ws[|ws| - 1])]
  }

  lemma LastWord(tokens: seq<Token>, ws: seq<string>)
    requires ws != []
    ensures (tokens + Words(ws[..|ws| - 1])) + [Word(ws[|ws| - 1])] == tokens + Words(ws)
  {
    Regroup(tokens, Words(ws[..|ws| - 1]), [Word(ws[|ws| - 1])]);
  }

  lemma {:induction false} ScanWords(tokens: seq<Token>, ws: seq<string>)
    requires ws != [] && forall i :: 0 <= i < |ws| ==> ReadsAsWord(ws[i])
    ensures Scan(Fresh(tokens), Join(ws)) == Scanner(tokens + Words(ws[..|ws| - 1]), ws[|ws| - 1], InWord(Bare))
    decreases |ws|, 0
  {
    var last := ws[|ws| - 1];
    var init := ws[..|ws| - 1];
    if |ws| == 1 {
      assert tokens + Words(init) == tokens;
    } else {
      ScanWordsThenBlank(tokens, init);
      ScanConcat(Fresh(tokens), Join(init) + " ", last);
    }
  }

  lemma {:induction false} ScanWordsThenBlank(tokens: seq<Token>, ws: seq<string>)
    requires ws != [] && forall i :: 0 <= i < |ws| ==> ReadsAsWord(ws[i])
    ensures Scan(Fresh(tokens), Join(ws) + " ") == Fresh(tokens + Words(ws))
    decreases |ws|, 1
  {
    ScanWords(tokens, ws);
    ScanConcat(Fresh(tokens), Join(ws), " ");
    ScanOne(Scan(Fresh(tokens), Join(ws)), ' ');
    LastWord(tokens, ws);
  }

  lemma FinishWords(tokens: seq<Token>, ws: seq<string>)
    requires forall i :: 0 <= i < |ws| ==> ReadsAsWord(ws[i])
    ensures Finish(Scan(Fresh(tokens), Join(ws))) == Some(tokens + Words(ws))
  {
    if ws == [] {
      assert tokens + [] == tokens;
    } else {
      ScanWords(tokens, ws);
      LastWord(tokens, ws);
    }
  }

  // ---- the whole command line ----

  function CommandPart(args: seq<string>, env: seq<Assignment>): string {
    if env == [] then Join(QuoteAll(args)) else Join(AssignAll(env)) + " " + Join(QuoteAll(args))
  }

  function CommandLine(args: seq<string>, cwd: string, env: seq<Assignment>): string {
    if cwd == "" then CommandPart(args, env) else "cd " + ShellQuote(cwd) + " && " + CommandPart(args, env)
  }

  ghost predicate AllNulFree(args: seq<string>, cwd: string, env: seq<Assignment>) {
    && NulFree(cwd)
    && (forall i :: 0 <= i < |args| ==> NulFree(args[i]))
    && (forall i :: 0 <= i < |env| ==> NulFree(env[i].value))
  }

  predicate AllNamesValid(env: seq<Assignment>) {
    forall i :: 0 <= i < |env| ==> IsValidName(env[i].key)
  }

  // The tokens, with every word still quoted.
  function RawTokens(args: seq<string>, cwd: string, env: seq<Assignment>): seq<Token> {
    (if cwd == "" then [] else [Word("cd"), Word(ShellQuote(cwd)), Operator("&&")])
    + Words(AssignAll(env)) + Words(QuoteAll(args))
  }

  lemma FinishCommandPart(tokens: seq<Token>, args: seq<string>, env: seq<Assignment>)
    requires AllNulFree(args, "", env) && AllNamesValid(env)
    ensures Finish(Scan(Fresh(tokens), CommandPart(args, env))) ==
      Some(tokens + Words(AssignAll(env)) + Words(QuoteAll(args)))
  {
    forall i | 0 <= i < |args| ensures ReadsAsWord(QuoteAll(args)[i]) {
      QuotedReadsAsWord(args[i]);
    }
    forall i | 0 <= i < |env| ensures ReadsAsWord(AssignAll(env)[i]) {
      AssignmentReadsAsWord(env[i]);
    }
    if env == [] {
      assert tokens + Words(AssignAll(env)) == tokens;
      FinishWords(tokens, QuoteAll(args));
    } else {
      ScanWordsThenBlank(tokens, AssignAll(env));
      ScanConcat(Fresh(tokens), Join(AssignAll(env)) + " ", Join(QuoteAll(args)));
      FinishWords(tokens + Words(AssignAll(env)), QuoteAll(args));
    }
  }

  lemma CdReadsAsWord()
    ensures ReadsAsWord("cd")
  {
    forall tokens ensures Scan(Fresh(tokens), "cd") == Scanner(tokens, "cd", InWord(Bare)) {
      ScanSafe(Fresh(tokens), "cd");
      assert "" + "cd" == "cd";
    }
  }

  lemma ScanAnd(tokens: seq<Token>, w: string)
    ensures Scan(Scanner(tokens, w, InWord(Bare)), " && ") == Fresh(tokens + [Word(w)] + [Operator("&&")])
  {
    var t := tokens + [Word(w)];
    var a := " && ";
    assert a[1..] == "&& " && a[1..][1..] == "& " && a[1..][1..][1..] == " " && a[1..][1..][1..][1..] == "";
    assert Scan(Scanner(tokens, w, InWord(Bare)), a) == Scan(Fresh(t), a[1..]);
    assert Scan(Fresh(t), "&& ") == Scan(Scanner(t, ['&'], InOperator), "& ");
    assert ['&'] + ['&'] == "&&";
    assert Scan(Scanner(t, ['&'], InOperator), "& ") == Scan(Scanner(t, "&&", InOperator), " ");
    assert !IsOperator("&&" + [' ']);
  }

  lemma ScanCd(cwd: string)
    requires NulFree(cwd)
    ensures Scan(Fresh([]), "cd " + ShellQuote(cwd) + " && ") ==
      Fresh([Word("cd"), Word(ShellQuote(cwd)), Operator("&&")])
  {
    var w := ShellQuote(cwd);
    CdReadsAsWord();
    QuotedReadsAsWord(cwd);
    ScanWordsThenBlank([], ["cd"]);
    assert Join(["cd"]) + " " == "cd " && [] + Words(["cd"]) == [Word("cd")];
    ScanConcat(Fresh([]), "cd ", w);
    ScanConcat(Fresh([]), "cd " + w, " && ");
    ScanAnd([Word("cd")], w);
  }

  // Token recognition gives back the pieces the line was put together from.
  lemma LineIsTokenized(args: seq<string>, cwd: string, env: seq<Assignment>)
    requires AllNulFree(args, cwd, env) && AllNamesValid(env)
    ensures Tokenize(CommandLine(args, cwd, env)) == Some(RawTokens(args, cwd, env))
  {
    if cwd == "" {
      FinishCommandPart([], args, env);
    } else {
      ScanCd(cwd);
      ScanConcat(Fresh([]), "cd " + ShellQuote(cwd) + " && ", CommandPart(args, env));
      FinishCommandPart([Word("cd"), Word(ShellQuote(cwd)), Operator("&&")], args, env);
    }
  }

  // ---- what the shell sees ----

  function Unquoted(tokens: seq<Token>): seq<Token> {
    if tokens == [] then []
    else
      var last := tokens[|tokens| - 1];
      Unquoted(tokens[..|tokens| - 1]) + [if last.Word? then Word(RemoveQuotes(Bare, last.text)) else last]
  }

  // A line the way a shell reads it: tokens, then quote removal.
  function ReadBack(line: string): Option<seq<Token>> {
    match Tokenize(line)
    case None => None
    case Some(tokens) => Some(Unquoted(tokens))
  }

  function Settings(env: seq<Assignment>): seq<string> {
    if env == [] then []
    else Settings(env[..|env| - 1]) + [env[|env| - 1].key + "=" + env[|env| - 1].value]
  }

  function Intended(args: seq<string>, cwd: string, env: seq<Assignment>): seq<Token> {
    (if cwd == "" then [] else [Word("cd"), Word(cwd), Operator("&&")]) + Words(Settings(env)) + Words(args)
  }

  lemma {:induction false} UnquotedConcat(a: seq<Token>, b: seq<Token>)
    ensures Unquoted(a + b) == Unquoted(a) + Unquoted(b)
    decreases |b|
  {
    if b == [] {
      assert a + b == a;
    } else {
      var c := a + b;
      assert c[..|c| - 1] == a + b[..|b| - 1];
      UnquotedConcat(a, b[..|b| - 1]);
    }
  }

  lemma {:induction false} ArgumentsAreUnquoted(args: seq<string>)
    ensures Unquoted(Words(QuoteAll(args))) == Words(args)
    decreases |args|
  {
    if args != [] {
      var ws := QuoteAll(args);
      assert ws[..|ws| - 1] == QuoteAll(args[..|args| - 1]);
      ArgumentsAreUnquoted(args[..|args| - 1]);
      QuotingIsUndone(args[|args| - 1]);
    }
  }

  lemma {:induction false} SettingsAreUnquoted(env: seq<Assignment>)
    requires AllNamesValid(env)
    ensures Unquoted(Words(AssignAll(env))) == Words(Settings(env))
    decreases |env|
  {
    if env != [] {
      var ws := AssignAll(env);
      assert ws[..|ws| - 1] == AssignAll(env[..|env| - 1]);
      SettingsAreUnquoted(env[..|env| - 1]);
      AssignmentIsUndone(env[|env| - 1]);
    }
  }

  lemma CdIsUnquoted(cwd: string)
    ensures Unquoted([Word("cd"), Word(ShellQuote(cwd)), Operator("&&")]) == [Word("cd"), Word(cwd), Operator("&&")]
  {
    var all := [Word("cd"), Word(ShellQuote(cwd)), Operator("&&")];
    QuotingIsUndone(cwd);
    SafeHasNoQuotes("cd", "");
    assert "cd" + "" == "cd";
    assert all[..2][..1][..0] == [] && all[..2][..1] == [Word("cd")] && all[..2] == [Word("cd"), Word(ShellQuote(cwd))];
    assert Unquoted(all[..2][..1]) == [Word("cd")];
    assert Unquoted(all[..2]) == [Word("cd")] + [Word(cwd)];
  }

  // The shell sees exactly the directory, the settings and the arguments it was meant to see.
  lemma CommandLineRoundTrip(args: seq<string>, cwd: string, env: seq<Assignment>)
    requires AllNulFree(args, cwd, env) && AllNamesValid(env)
    ensures ReadBack(CommandLine(args, cwd, env)) == Some(Intended(args, cwd, env))
  {
    LineIsTokenized(args, cwd, env);
    var cd := if cwd == "" then [] else [Word("cd"), Word(ShellQuote(cwd)), Operator("&&")];
    UnquotedConcat(cd + Words(AssignAll(env)), Words(QuoteAll(args)));
    UnquotedConcat(cd, Words(AssignAll(env)));
    SettingsAreUnquoted(env);
    ArgumentsAreUnquoted(args);
    if cwd != "" {
      CdIsUnquoted(cwd);
    }
  }

  // ---- assignments and the command they stand before ----

  // A word the shell takes for an assignment while no command name has come (rule 7 of section 2.10.2).
  ghost predicate IsAssignmentWord(word: string) {
    exists i :: 0 <= i < |word| && word[i] == '=' && IsValidName(word[..i])
  }

  // The shell takes the first n of these words, and no more, for assignments.
  ghost predicate TakesAsAssignments(words: seq<string>, n: nat) {
    && n <= |words|
    && (forall i :: 0 <= i < n ==> IsAssignmentWord(words[i]))
    && (n < |words| ==> !IsAssignmentWord(words[n]))
  }

  lemma QuotedIsNoAssignment(arg: string)
    ensures IsAssignmentWord(ShellQuote(arg)) <==> ShellQuote(arg) == arg && IsAssignmentWord(arg)
  {
    var w := ShellQuote(arg);
    if i :| 0 <= i < |w| && w[i] == '=' && IsValidName(w[..i]) {
      assert w[..i][0] == w[0];
    }
  }

  lemma AssignIsAssignment(a: Assignment)
    requires IsValidName(a.key)
    ensures IsAssignmentWord(Assign(a))
  {
    assert Assign(a)[|a.key|] == '=' && Assign(a)[..|a.key|] == a.key;
  }

  lemma TakenUpTo(a: seq<string>, b: seq<string>)
    requires forall i :: 0 <= i < |a| ==> IsAssignmentWord(a[i])
    ensures TakesAsAssignments(a + b, |a|) <==> b == [] || !IsAssignmentWord(b[0])
  {
    assert b != [] ==> (a + b)[|a|] == b[0];
  }

  // The environment is taken for the assignments, all of it and nothing else, exactly when the command
  // itself does not go out bare in the form of one.
  lemma EnvironmentIsTakenExactly(args: seq<string>, env: seq<Assignment>)
    requires AllNamesValid(env)
    ensures TakesAsAssignments(AssignAll(env) + QuoteAll(args), |env|) <==>
      args == [] || ShellQuote(args[0]) != args[0] || !IsAssignmentWord(args[0])
  {
    forall i | 0 <= i < |env| ensures IsAssignmentWord(AssignAll(env)[i]) {
      AssignIsAssignment(env[i]);
    }
    TakenUpTo(AssignAll(env), QuoteAll(args));
    if args != [] {
      QuotedIsNoAssignment(args[0]);
    }
  }

  // Such a command is lost: the shell assigns instead of running it.
  lemma CommandTakenForAssignment()
    ensures !TakesAsAssignments(AssignAll([]) + QuoteAll(["A=b"]), 0)
  {
    assert "A=b"[..1] == "A" && "A=b"[1] == '=';
    BareExactlyWhenPlain("A=b");
    assert IsAssignmentWord("A=b");
    EnvironmentIsTakenExactly(["A=b"], []);
  }

  // The line means what was intended, when no text holds a NUL.
  ghost predicate Means(line: string, args: seq<string>, cwd: string, env: seq<Assignment>) {
    AllNulFree(args, cwd, env) ==> ReadBack(line) == Some(Intended(args, cwd, env))
  }

  lemma CommandLineMeans(line: string, args: seq<string>, cwd: string, env: seq<Assignment>)
    requires AllNamesValid(env) && line == CommandLine(args, cwd, env)
    ensures Means(line, args, cwd, env)
  {
    if AllNulFree(args, cwd, env) {
      CommandLineRoundTrip(args, cwd, env);
    }
  }

  lemma AssignOneMore(pairs: seq<Assignment>, i: nat)
    requires i < |pairs| && AllNamesValid(pairs[..i]) && IsValidName(pairs[i].key)
    ensures AllNamesValid(pairs[..i + 1])
    ensures AssignAll(pairs[..i + 1]) == AssignAll(pairs[..i]) + [pairs[i].key + "=" + ShellQuote(pairs[i].value)]
  {
    assert pairs[..i + 1][..i] == pairs[..i];
  }

  // The assignments in front of a command, up to the first name that is no shell variable.
  method PushAssignments(pairs: seq<Assignment>) returns (assignments: seq<string>, taken: nat)
    ensures taken <= |pairs| && AllNamesValid(pairs[..taken]) && (taken < |pairs| ==> !IsValidName(pairs[taken].key))
    ensures assignments == AssignAll(pairs[..taken])
  {
    assignments, taken := [], 0;
    while taken < |pairs| && IsValidName(pairs[taken].key)
      invariant taken <= |pairs| && AllNamesValid(pairs[..taken])
      invariant assignments == AssignAll(pairs[..taken])
    {
      AssignOneMore(pairs, taken);
      assignments := assignments + [pairs[taken].key + "=" + ShellQuote(pairs[taken].value)];
      taken := taken + 1;
    }
  }

  method BuildExecCommand(args: seq<string>, cwd: string, env: Option<seq<Assignment>>) returns (built: Built)
    ensures built.InvalidName? <==> env.Some? && !AllNamesValid(env.value)
    ensures built.InvalidName? ==>
      exists i :: 0 <= i < |env.value| && built.key == env.value[i].key && !IsValidName(built.key) &&
        AllNamesValid(env.value[..i])
    ensures built.Command? ==> Means(built.line, args, cwd, if env.Some? then env.value else [])
  {
    var command := Join(QuoteAll(args));
    if env.Some? {
      var assignments, taken := PushAssignments(env.value);
      if taken < |env.value| {
        return InvalidName(env.value[taken].key);
      }
      assert env.value[..taken] == env.value;
      if |assignments| > 0 {
        command := Join(assignments) + " " + command;
      }
    }
    if cwd != "" {
      command := "cd " + ShellQuote(cwd) + " && " + command;
    }
    CommandLineMeans(command, args, cwd, if env.Some? then env.value else []);
    return Command(command);
  }
}
