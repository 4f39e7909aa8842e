/** The three text formats: a command inside a log entry, log entries on the wire, and the persisted state. */
module Codec {
  import opened RaftTypes
  import opened Text

  datatype Operation = Operation(op: string, key: string, value: string, clientId: int, requestId: int)

  datatype Persisted = Persisted(curTerm: int, votedFor: int, snapIndex: int, snapTerm: int, logs: seq<LogEntry>)

  // ---------- encoders ----------

  function GetCmd(o: Operation): string {
    o.op + [' '] + (o.key + [' '] + (o.value + [' '] + (IntText(o.clientId) + [' '] + IntText(o.requestId))))
  }

  // One log entry, ended by `sep`.
  function EntryText(e: LogEntry): string {
    e.cmd + [','] + IntText(e.term)
  }

  function EntriesText(es: seq<LogEntry>, sep: char): string {
    if es == [] then "" else EntryText(es[0]) + [sep] + EntriesText(es[1..], sep)
  }

  // What `SendAppendEntries` puts on the wire.
  function WireText(es: seq<LogEntry>): string {
    EntriesText(es, ';')
  }

  // What `Serialize` writes.
  function StateText(p: Persisted): string {
    AfterHead(p, EntriesText(p.logs, '.'))
  }

  // The four numbers, each with its separator, and what follows.
  function AfterHead(p: Persisted, rest: string): string {
    IntText(p.curTerm) + [';'] + (IntText(p.votedFor) + [';'] + (IntText(p.snapIndex) + [';']
    + (IntText(p.snapTerm) + [';'] + rest)))
  }

  // The sending loop, from a position of the log on.
  method AppendEntriesText(logs: seq<LogEntry>, from: nat, sep: char) returns (text: string, count: nat)
    requires from <= |logs|
    ensures text == EntriesText(logs[from..], sep) && count == |logs| - from
  {
    text, count := "", 0;
    var i := from;
    NothingSentYet(logs, from, sep);
    while i < |logs|
      invariant from <= i <= |logs| && count == i - from
      invariant StillToCome(logs, from, sep, text, i)
    {
      var entry := EntryText(logs[i]) + [sep];
      EntriesTextStep(logs, from, sep, text, i);
      text := text + entry;
      count := count + 1;
      i := i + 1;
    }
    NothingToCome(logs, from, sep, text);
  }

  // `text` holds the entries from `from` up to i.
  ghost predicate StillToCome(logs: seq<LogEntry>, from: nat, sep: char, text: string, i: nat)
    requires from <= i <= |logs|
  {
    EntriesText(logs[from..], sep) == text + EntriesText(logs[i..], sep)
  }

  lemma NothingSentYet(logs: seq<LogEntry>, from: nat, sep: char)
    requires from <= |logs|
    ensures StillToCome(logs, from, sep, "", from)
  {
    var rest := EntriesText(logs[from..], sep);
    assert rest == "" + rest;
  }

  lemma NothingToCome(logs: seq<LogEntry>, from: nat, sep: char, text: string)
    requires from <= |logs| && StillToCome(logs, from, sep, text, |logs|)
    ensures text == EntriesText(logs[from..], sep)
  {
    assert logs[|logs|..] == [];
    assert text + "" == text;
  }

  lemma EntriesTextStep(logs: seq<LogEntry>, from: nat, sep: char, text: string, i: nat)
    requires from <= i < |logs| && StillToCome(logs, from, sep, text, i)
    ensures StillToCome(logs, from, sep, text + (EntryText(logs[i]) + [sep]), i + 1)
  {
    assert logs[i..][1..] == logs[i + 1..];
    var x, y := EntryText(logs[i]) + [sep], EntriesText(logs[i + 1..], sep);
    assert text + (x + y) == text + x + y;
  }

  // ---------- parsers ----------

  // Index of the first comma; the length if there is none.
  function Comma(s: string): (j: nat)
    ensures j <= |s| && (forall i :: 0 <= i < j ==> s[i] != ',') && (j < |s| ==> s[j] == ',')
  {
    if s == "" || s[0] == ',' then 0 else 1 + Comma(s[1..])
  }

  // A token `cmd,term`. Without a comma the program builds the number from an iterator past the end.
  function ParseEntry(tok: string): Option<LogEntry> {
    var j := Comma(tok);
    if j == |tok| then None else Some(LogEntry(tok[..j], Atoi(tok[j + 1..])))
  }

  function ParseEntries(toks: seq<string>): (r: Option<seq<LogEntry>>) {
    if toks == [] then Some([])
    else
      match (ParseEntry(toks[0]), ParseEntries(toks[1..]))
      case (Some(e), Some(es)) => Some([e] + es)
      case _ => None
  }

  function GetCmdAndTerm(text: string): Option<seq<LogEntry>> {
    ParseEntries(Closed(text, ';'))
  }

  // The nonempty words of a command, the last one included.
  function Words(cmd: string): seq<string> {
    Closed(cmd, ' ') + if Tail(cmd, ' ') == "" then [] else [Tail(cmd, ' ')]
  }

  function GetOperation(cmd: string): Option<Operation> {
    var w := Words(cmd);
    if |w| >= 4 && w[0] == "get" then Some(Operation(w[0], w[1], "", Atoi(w[2]), Atoi(w[3])))
    else if |w| >= 5 && w[0] != "get" then Some(Operation(w[0], w[1], w[2], Atoi(w[3]), Atoi(w[4])))
    else None
  }

  function Fields(content: string): seq<string> {
    Closed(content, ';') + [Tail(content, ';')]
  }

  function Deserialize(content: string): Option<Persisted> {
    var f := Fields(content);
    if |f| < 5 then None
    else
      match ParseEntries(Closed(f[4], '.'))
      case None => None
      case Some(es) => Some(Persisted(Atoi(f[0]), Atoi(f[1]), Atoi(f[2]), Atoi(f[3]), es))
  }

  // ---------- the parsers as loops ----------

  method CutAtComma(tok: string) returns (r: Option<LogEntry>)
    ensures r == ParseEntry(tok)
  {
    var tmp := "";
    var j := 0;
    while j < |tok| && tok[j] != ','
      invariant 0 <= j <= |tok| && tmp == tok[..j] && Comma(tok) == j + Comma(tok[j..])
      decreases |tok| - j
    {
      tmp := tmp + [tok[j]];
      assert tok[j..][1..] == tok[j + 1..];
      j := j + 1;
    }
    if j == |tok| { return None; }
    r := Some(LogEntry(tmp, Atoi(tok[j + 1..])));
  }

  function After(logs: seq<LogEntry>, r: Option<seq<LogEntry>>): Option<seq<LogEntry>> {
    match r
    case None => None
    case Some(rest) => Some(logs + rest)
  }

  method ParseTokens(toks: seq<string>) returns (r: Option<seq<LogEntry>>)
    ensures r == ParseEntries(toks)
  {
    var logs: seq<LogEntry> := [];
    var i := 0;
    AfterStep([], toks);
    while i < |toks|
      invariant 0 <= i <= |toks|
      invariant ParseEntries(toks) == After(logs, ParseEntries(toks[i..]))
    {
      var e := CutAtComma(toks[i]);
      AfterStep(logs, toks[i..]);
      assert toks[i..][1..] == toks[i + 1..];
      if e.None? { return None; }
      logs := logs + [e.value];
      i := i + 1;
    }
    AfterStep(logs, toks[i..]);
    r := Some(logs);
  }

  lemma AfterStep(logs: seq<LogEntry>, toks: seq<string>)
    ensures toks[0..] == toks && After([], ParseEntries(toks)) == ParseEntries(toks)
    ensures toks == [] ==> After(logs, ParseEntries(toks)) == Some(logs)
    ensures toks != [] && ParseEntry(toks[0]).None? ==> ParseEntries(toks) == None
    ensures toks != [] && ParseEntry(toks[0]).Some? ==>
      After(logs, ParseEntries(toks)) == After(logs + [ParseEntry(toks[0]).value], ParseEntries(toks[1..]))
  {
    if toks == [] {
      assert logs + [] == logs;
    } else if ParseEntry(toks[0]).Some? && ParseEntries(toks[1..]).Some? {
      var e, es := ParseEntry(toks[0]).value, ParseEntries(toks[1..]).value;
      assert logs + ([e] + es) == logs + [e] + es;
    }
    if ParseEntries(toks).Some? { assert [] + ParseEntries(toks).value == ParseEntries(toks).value; }
  }

  method ReadWire(text: string) returns (r: Option<seq<LogEntry>>)
    ensures r == GetCmdAndTerm(text)
  {
    var toks, _ := Tokenize(text, ';');
    r := ParseTokens(toks);
  }

  method ReadOperation(cmd: string) returns (r: Option<Operation>)
    ensures r == GetOperation(cmd)
  {
    var w, tmp := Tokenize(cmd, ' ');
    if |tmp| != 0 { w := w + [tmp]; }
    assert w == Words(cmd);
    if |w| < 4 { return None; }
    if w[0] == "get" { return Some(Operation(w[0], w[1], "", Atoi(w[2]), Atoi(w[3]))); }
    if |w| < 5 { return None; }
    r := Some(Operation(w[0], w[1], w[2], Atoi(w[3]), Atoi(w[4])));
  }

  method ReadState(content: string) returns (r: Option<Persisted>)
    ensures r == Deserialize(content)
  {
    var persist, tmp := Tokenize(content, ';');
    persist := persist + [tmp];
    assert persist == Fields(content);
    if |persist| < 5 { return None; }
    var toks, _ := Tokenize(persist[4], '.');
    var es := ParseTokens(toks);
    if es.None? { return None; }
    r := Some(Persisted(Atoi(persist[0]), Atoi(persist[1]), Atoi(persist[2]), Atoi(persist[3]), es.value));
  }

  // ---------- log entries ----------

  predicate Lacks(s: string, c: char) { c !in s }

  // No command holds the comma or the separator.
  predicate EntriesSafe(es: seq<LogEntry>, sep: char) {
    forall i :: 0 <= i < |es| ==> Lacks(es[i].cmd, ',') && Lacks(es[i].cmd, sep)
  }

  lemma {:induction false} CommaAfter(cmd: string, rest: string)
    requires ',' !in cmd
    ensures Comma(cmd + [','] + rest) == |cmd|
  {
    var s := cmd + [','] + rest;
    if cmd != "" {
      assert s[1..] == cmd[1..] + [','] + rest;
      CommaAfter(cmd[1..], rest);
    }
  }

  lemma ParseEntryOfText(e: LogEntry)
    requires ',' !in e.cmd
    ensures ParseEntry(EntryText(e)) == Some(e)
  {
    CommaAfter(e.cmd, IntText(e.term));
    var s := EntryText(e);
    assert s[..|e.cmd|] == e.cmd && s[|e.cmd| + 1..] == IntText(e.term);
    AtoiOfIntText(e.term);
  }

  lemma ParseOneMore(tok: string, e: LogEntry, toks: seq<string>, es: seq<LogEntry>)
    requires ParseEntry(tok) == Some(e) && ParseEntries(toks) == Some(es)
    ensures ParseEntries([tok] + toks) == Some([e] + es)
  {
    assert ([tok] + toks)[1..] == toks;
  }

  lemma EntriesSafeRest(es: seq<LogEntry>, sep: char)
    requires EntriesSafe(es, sep) && es != []
    ensures Lacks(es[0].cmd, ',') && Lacks(es[0].cmd, sep) && EntriesSafe(es[1..], sep)
  {
    forall i | 0 <= i < |es[1..]| ensures Lacks(es[1..][i].cmd, ',') && Lacks(es[1..][i].cmd, sep) {
      assert es[1..][i] == es[i + 1];
    }
  }

  lemma {:induction false} ParseEntriesOfText(es: seq<LogEntry>, sep: char)
    requires EntriesSafe(es, sep) && sep != ',' && sep != '-' && !IsDigit(sep)
    ensures ParseEntries(Closed(EntriesText(es, sep), sep)) == Some(es)
    ensures Tail(EntriesText(es, sep), sep) == ""
  {
    if es == [] {
      ClosedOfOne("", sep);
    } else {
      var tok, text := EntryText(es[0]), EntriesText(es[1..], sep);
      EntriesSafeRest(es, sep);
      IntTextChars(es[0].term);
      ClosedOfFirst(tok, text, sep);
      ParseEntriesOfText(es[1..], sep);
      ParseEntryOfText(es[0]);
      ParseOneMore(tok, es[0], Closed(text, sep), es[1..]);
      assert [es[0]] + es[1..] == es;
    }
  }

  // What the parser returns has no comma in a command, and only characters of its tokens.
  lemma {:induction false} ParsedCommands(toks: seq<string>)
    ensures ParseEntries(toks).Some? ==>
      |ParseEntries(toks).value| == |toks| &&
      forall i :: 0 <= i < |toks| ==>
        Lacks(ParseEntries(toks).value[i].cmd, ',') && ParseEntries(toks).value[i].cmd <= toks[i]
  {
    if toks != [] { ParsedCommands(toks[1..]); }
  }

  lemma ClosedCommandsLack(text: string, sep: char)
    requires ParseEntries(Closed(text, sep)).Some?
    ensures EntriesSafe(ParseEntries(Closed(text, sep)).value, sep)
    ensures var es := ParseEntries(Closed(text, sep)).value;
            forall i, c :: 0 <= i < |es| && c in es[i].cmd ==> c in text
  {
    var toks := Closed(text, sep);
    ParsedCommands(toks);
    ClosedFree(text, sep);
    var es := ParseEntries(toks).value;
    forall i | 0 <= i < |es|
      ensures Lacks(es[i].cmd, ',') && Lacks(es[i].cmd, sep) && forall c :: c in es[i].cmd ==> c in text
    {
      assert toks[i] in toks;
      assert forall c :: c in es[i].cmd ==> c in toks[i];
    }
  }

  // A text is read exactly when every token has a comma; the entry's command is what is before the first one, its
  // term what is after.
  lemma {:induction false} WireIsReadIff(text: string)
    ensures GetCmdAndTerm(text).Some? <==> forall tok :: tok in Closed(text, ';') ==> ',' in tok
    ensures GetCmdAndTerm(text).Some? ==> ReadFrom(GetCmdAndTerm(text).value, Closed(text, ';'))
  {
    ParsedIff(Closed(text, ';'));
  }

  ghost predicate ReadFrom(es: seq<LogEntry>, toks: seq<string>) {
    |es| == |toks| && forall i :: 0 <= i < |es| ==> EntryFrom(es[i], toks[i])
  }

  ghost predicate EntryFrom(e: LogEntry, tok: string) {
    exists number :: tok == e.cmd + [','] + number && Lacks(e.cmd, ',') && e.term == Atoi(number)
  }

  lemma {:induction false} ParsedIff(toks: seq<string>)
    ensures ParseEntries(toks).Some? <==> forall tok :: tok in toks ==> ',' in tok
    ensures ParseEntries(toks).Some? ==> ReadFrom(ParseEntries(toks).value, toks)
  {
    if toks != [] {
      assert toks[0] in toks && forall tok :: tok in toks ==> tok == toks[0] || tok in toks[1..];
      EntryIff(toks[0]);
      ParsedIff(toks[1..]);
      if ParseEntries(toks).Some? {
        OneMoreRead(ParseEntry(toks[0]).value, toks[0], ParseEntries(toks[1..]).value, toks[1..]);
        assert [toks[0]] + toks[1..] == toks;
      }
    }
  }

  lemma EntryIff(tok: string)
    ensures ParseEntry(tok).Some? <==> ',' in tok
    ensures ParseEntry(tok).Some? ==> EntryFrom(ParseEntry(tok).value, tok)
  {
    var j := Comma(tok);
    if j < |tok| { assert tok == tok[..j] + [','] + tok[j + 1..]; }
  }

  lemma OneMoreRead(e: LogEntry, tok: string, es: seq<LogEntry>, toks: seq<string>)
    requires EntryFrom(e, tok) && ReadFrom(es, toks)
    ensures ReadFrom([e] + es, [tok] + toks)
  {
  }

  // The wire text is read back exactly when no command holds ',' or ';'.
  lemma {:induction false} WireRoundTrip(es: seq<LogEntry>)
    ensures GetCmdAndTerm(WireText(es)) == Some(es) <==> EntriesSafe(es, ';')
  {
    if EntriesSafe(es, ';') { ParseEntriesOfText(es, ';'); }
    if GetCmdAndTerm(WireText(es)).Some? { ClosedCommandsLack(WireText(es), ';'); }
  }

  // ---------- operations ----------

  predicate Word(s: string) { s != "" && ' ' !in s }

  // The operations that a command text can carry.
  predicate Carried(o: Operation) {
    Word(o.op) && Word(o.key) && if o.op == "get" then o.value == "" else Word(o.value)
  }

  lemma WordsOfFirst(first: string, rest: string)
    requires ' ' !in first
    ensures Words(first + [' '] + rest) == (if first == "" then [] else [first]) + Words(rest)
  {
    ClosedOfFirst(first, rest, ' ');
  }

  lemma WordsOfOne(w: string)
    requires Word(w)
    ensures Words(w) == [w]
  {
    ClosedOfOne(w, ' ');
  }

  lemma WordsAreWords(cmd: string)
    ensures forall w :: w in Words(cmd) ==> Word(w) && forall c :: c in w ==> c in cmd
  {
    ClosedFree(cmd, ' ');
  }

  lemma WordsOfCmd(o: Operation)
    requires Carried(o)
    ensures Words(GetCmd(o)) ==
      [o.op, o.key] + (if o.op == "get" then [] else [o.value]) + [IntText(o.clientId), IntText(o.requestId)]
  {
    IntTextChars(o.clientId);
    IntTextChars(o.requestId);
    var r4 := IntText(o.requestId);
    var r3 := IntText(o.clientId) + [' '] + r4;
    var r2 := o.value + [' '] + r3;
    WordsOfOne(r4);
    WordsOfFirst(IntText(o.clientId), r4);
    WordsOfFirst(o.value, r3);
    WordsOfFirst(o.key, r2);
    WordsOfFirst(o.op, o.key + [' '] + r2);
  }

  // A command is parsed back to its operation exactly when the name and the key are words, and so is the
  // value, except that a get has none.
  lemma {:induction false} CommandRoundTrip(o: Operation)
    ensures GetOperation(GetCmd(o)) == Some(o) <==> Carried(o)
  {
    if Carried(o) {
      WordsOfCmd(o);
      AtoiOfIntText(o.clientId);
      AtoiOfIntText(o.requestId);
    }
    WordsAreWords(GetCmd(o));
  }

  lemma WordsOfBoth(a: string, b: string)
    ensures Words(a + [' '] + b) == Words(a) + Words(b)
  {
    PiecesOfBoth(a, b, ' ');
    NonEmptyConcat(Pieces(a, ' '), Pieces(b, ' '));
    ClosedAndTail(a, ' ');
    ClosedAndTail(b, ' ');
    ClosedAndTail(a + [' '] + b, ' ');
  }

  // The words between the key and the ids, then the ids: a get is read from the first two, anything else from
  // the first three.
  function FromWords(o: Operation, w: seq<string>): Option<Operation> {
    var ids := w + [IntText(o.clientId), IntText(o.requestId)];
    if o.op == "get" then Some(Operation(o.op, o.key, "", Atoi(ids[0]), Atoi(ids[1])))
    else if w == [] then None
    else Some(Operation(o.op, o.key, ids[0], Atoi(ids[1]), Atoi(ids[2])))
  }

  // What is read back whatever the value holds: the value is its first word, and a further word is taken for
  // the client's id, one more for the request's.
  lemma {:induction false} BlanksInValue(o: Operation)
    requires Word(o.op) && Word(o.key)
    ensures GetOperation(GetCmd(o)) == FromWords(o, Words(o.value))
    ensures o.op != "get" ==>
      match |Words(o.value)|
      case 0 => GetOperation(GetCmd(o)) == None
      case 1 => GetOperation(GetCmd(o)) == Some(o.(value := Words(o.value)[0]))
      case 2 => GetOperation(GetCmd(o))
                == Some(Operation(o.op, o.key, Words(o.value)[0], Atoi(Words(o.value)[1]), o.clientId))
      case _ => GetOperation(GetCmd(o))
                == Some(Operation(o.op, o.key, Words(o.value)[0], Atoi(Words(o.value)[1]), Atoi(Words(o.value)[2])))
  {
    IntTextChars(o.clientId);
    IntTextChars(o.requestId);
    AtoiOfIntText(o.clientId);
    AtoiOfIntText(o.requestId);
    var r4 := IntText(o.requestId);
    var r3 := IntText(o.clientId) + [' '] + r4;
    var r2 := o.value + [' '] + r3;
    WordsOfOne(r4);
    WordsOfFirst(IntText(o.clientId), r4);
    WordsOfBoth(o.value, r3);
    WordsOfFirst(o.key, r2);
    WordsOfFirst(o.op, o.key + [' '] + r2);
    assert Words(GetCmd(o)) == [o.op, o.key] + (Words(o.value) + [IntText(o.clientId), r4]);
  }

  // Whatever follows a command after a blank is not read.
  lemma {:induction false} SurplusWordsAreIgnored(cmd: string, more: string)
    ensures GetOperation(cmd).Some? ==> GetOperation(cmd + [' '] + more) == GetOperation(cmd)
  {
    WordsOfBoth(cmd, more);
  }

  // With fewer than three blanks there is nothing to read, and with only three no more than a get.
  lemma {:induction false} ShortCommandIsRefused(cmd: string)
    ensures multiset(cmd)[' '] < 3 ==> GetOperation(cmd) == None
    ensures multiset(cmd)[' '] == 3 && GetOperation(cmd).Some? ==> GetOperation(cmd).value.op == "get"
  {
    ClosedAtMost(cmd, ' ');
  }

  // A parsed operation is made of words, free of any character the command lacks.
  lemma ParsedOperation(cmd: string)
    requires GetOperation(cmd).Some?
    ensures Carried(GetOperation(cmd).value)
    ensures var o := GetOperation(cmd).value;
            forall c: char :: c !in cmd ==> c !in o.op && c !in o.key && c !in o.value
  {
    WordsAreWords(cmd);
    var w := Words(cmd);
    assert w[0] in w && w[1] in w && w[2] in w;
  }

  // From a leader's log over the wire into a follower's state machine.
  function Delivered(o: Operation, term: int): Option<Operation> {
    match GetCmdAndTerm(WireText([LogEntry(GetCmd(o), term)]))
    case Some(es) => if |es| == 1 && es[0].term == term then GetOperation(es[0].cmd) else None
    case None => None
  }

  predicate WireSafe(s: string) { ',' !in s && ';' !in s }

  lemma {:induction false} OperationSurvivesWire(o: Operation, term: int)
    ensures Delivered(o, term) == Some(o) <==>
      Carried(o) && WireSafe(o.op) && WireSafe(o.key) && WireSafe(o.value)
  {
    var e := LogEntry(GetCmd(o), term);
    CommandRoundTrip(o);
    if Carried(o) && WireSafe(o.op) && WireSafe(o.key) && WireSafe(o.value) {
      CommandSafe(o);
      WireRoundTrip([e]);
    }
    var r := GetCmdAndTerm(WireText([e]));
    if r.Some? {
      ClosedCommandsLack(WireText([e]), ';');
      if |r.value| == 1 && GetOperation(r.value[0].cmd).Some? {
        assert Lacks(r.value[0].cmd, ',') && Lacks(r.value[0].cmd, ';');
        ParsedOperation(r.value[0].cmd);
      }
    }
  }

  lemma CommandSafe(o: Operation)
    requires WireSafe(o.op) && WireSafe(o.key) && WireSafe(o.value)
    ensures WireSafe(GetCmd(o))
  {
    IntTextChars(o.clientId);
    IntTextChars(o.requestId);
  }

  // ---------- the persisted state ----------

  lemma FieldsOfFirst(n: int, rest: string)
    ensures Fields(IntText(n) + [';'] + rest) == [IntText(n)] + Fields(rest)
  {
    IntTextChars(n);
    ClosedOfFirst(IntText(n), rest, ';');
  }

  lemma {:induction false} EntriesTextLacks(es: seq<LogEntry>, sep: char, c: char)
    requires c != ',' && c != sep && c != '-' && !IsDigit(c)
    ensures c !in EntriesText(es, sep) <==> forall i :: 0 <= i < |es| ==> Lacks(es[i].cmd, c)
  {
    if es != [] {
      IntTextChars(es[0].term);
      EntriesTextLacks(es[1..], sep, c);
      assert forall i :: 0 <= i < |es[1..]| ==> es[1..][i] == es[i + 1];
      assert c in EntriesText(es, sep) <==> c in es[0].cmd || c in EntriesText(es[1..], sep);
      assert (forall i :: 0 <= i < |es| ==> Lacks(es[i].cmd, c))
             <==> Lacks(es[0].cmd, c) && (forall i :: 0 <= i < |es[1..]| ==> Lacks(es[1..][i].cmd, c));
    }
  }

  lemma FieldsOfState(p: Persisted)
    requires ';' !in EntriesText(p.logs, '.')
    ensures Fields(StateText(p)) ==
      [IntText(p.curTerm), IntText(p.votedFor), IntText(p.snapIndex), IntText(p.snapTerm), EntriesText(p.logs, '.')]
  {
    ClosedOfOne(EntriesText(p.logs, '.'), ';');
    FieldsOfHead(p, EntriesText(p.logs, '.'));
  }

  lemma FieldsOfHead(p: Persisted, rest: string)
    ensures Fields(AfterHead(p, rest)) ==
      [IntText(p.curTerm), IntText(p.votedFor), IntText(p.snapIndex), IntText(p.snapTerm)] + Fields(rest)
  {
    var r3 := IntText(p.snapTerm) + [';'] + rest;
    var r2 := IntText(p.snapIndex) + [';'] + r3;
    FieldsOfFirst(p.snapTerm, rest);
    FieldsOfFirst(p.snapIndex, r3);
    FieldsOfFirst(p.votedFor, r2);
    FieldsOfFirst(p.curTerm, IntText(p.votedFor) + [';'] + r2);
  }

  // No command holds ',', '.' or ';'.
  predicate StateSafe(p: Persisted) {
    EntriesSafe(p.logs, '.') && forall i :: 0 <= i < |p.logs| ==> Lacks(p.logs[i].cmd, ';')
  }

  // The persisted text is read back exactly when no command holds ',', '.' or ';', for any term, vote
  // (-1 included), snapshot label and number of entries.
  lemma {:induction false} StateRoundTrip(p: Persisted)
    ensures Deserialize(StateText(p)) == Some(p) <==> StateSafe(p)
  {
    if StateSafe(p) {
      EntriesTextLacks(p.logs, '.', ';');
      FieldsOfState(p);
      ParseEntriesOfText(p.logs, '.');
      AtoiOfIntText(p.curTerm);
      AtoiOfIntText(p.votedFor);
      AtoiOfIntText(p.snapIndex);
      AtoiOfIntText(p.snapTerm);
    }
    if Deserialize(StateText(p)).Some? {
      var f := Fields(StateText(p));
      ClosedCommandsLack(f[4], '.');
      ClosedFree(StateText(p), ';');
      assert f[4] in f;
    }
  }

  // Further fields are not read, as long as the log is not empty: an empty fifth field would give way to the next.
  lemma {:induction false} SurplusFieldsAreIgnored(p: Persisted, more: string)
    requires StateSafe(p) && p.logs != []
    ensures Deserialize(StateText(p) + [';'] + more) == Some(p)
  {
    var logs := EntriesText(p.logs, '.');
    StateRoundTrip(p);
    EntriesTextLacks(p.logs, '.', ';');
    FieldsOfState(p);
    MoreAfterHead(p, logs, more);
    FieldsOfHead(p, logs + [';'] + more);
    ClosedOfFirst(logs, more, ';');
    assert Fields(logs + [';'] + more) == [logs] + Fields(more);
  }

  lemma MoreAfterHead(p: Persisted, rest: string, more: string)
    ensures AfterHead(p, rest) + [';'] + more == AfterHead(p, rest + [';'] + more)
  {
  }

  // With fewer than four separators there are no five fields.
  lemma {:induction false} ShortStateIsRefused(content: string)
    ensures multiset(content)[';'] < 4 ==> Deserialize(content) == None
  {
    ClosedAtMost(content, ';');
  }

  // A point in a value survives the wire but not the disk, whatever else is in the log.
  lemma {:induction false} DottedValueIsLost(o: Operation, term: int, p: Persisted, i: nat)
    requires Carried(o) && WireSafe(o.op) && WireSafe(o.key) && WireSafe(o.value) && '.' in o.value
    requires i < |p.logs| && p.logs[i].cmd == GetCmd(o)
    ensures Delivered(o, term) == Some(o)
    ensures Deserialize(StateText(p)) != Some(p)
  {
    OperationSurvivesWire(o, term);
    DotInCommand(o);
    StateRoundTrip(p);
    assert !Lacks(p.logs[i].cmd, '.');
  }

  lemma DotInCommand(o: Operation)
    requires '.' in o.value
    ensures '.' in GetCmd(o)
  {
  }
}
