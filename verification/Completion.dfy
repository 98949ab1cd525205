/** Completing `@` file references in the editor. */
module Completion {
  import opened Options
  import opened Texts

  const PathDelimiters: set<char> := {' ', '\t', '"', '\'', '='}

  const Quote: set<char> := {'"'}

  /** Position of the last character that is one of `cs`, or -1. */
  function LastOf(text: string, cs: set<char>): (i: int)
    ensures -1 <= i < |text|
    ensures i >= 0 ==> text[i] in cs
    ensures forall k :: i < k < |text| ==> text[k] !in cs
  {
    if text == "" then -1
    else if text[|text| - 1] in cs then |text| - 1
    else LastOf(text[..|text| - 1], cs)
  }

  method FindLastDelimiter(text: string) returns (i: int)
    ensures i == LastOf(text, PathDelimiters)
  {
    i := |text| - 1;
    while i >= 0
      invariant -1 <= i < |text|
      invariant forall k :: i < k < |text| ==> text[k] !in PathDelimiters
    {
      if text[i] in PathDelimiters {
        return i;
      }
      i := i - 1;
    }
    return -1;
  }

  /** Every quote before the end has its partner. */
  predicate Balanced(text: string) { multiset(text)['"'] % 2 == 0 }

  function UnclosedQuote(text: string): (r: Option<nat>)
    ensures r.Some? ==> r.value < |text| && text[r.value] == '"'
  {
    if Balanced(text) then None
    else
      assert '"' in multiset(text);
      Some(LastOf(text, Quote))
  }

  method FindUnclosedQuoteStart(text: string) returns (r: Option<nat>)
    ensures r == UnclosedQuote(text)
  {
    var inQuotes, quoteStart := false, -1;
    for i := 0 to |text|
      invariant inQuotes <==> !Balanced(text[..i])
      invariant -1 <= quoteStart < i
      invariant forall k :: quoteStart < k < i && text[k] == '"' ==> !inQuotes
      invariant inQuotes ==> quoteStart >= 0 && text[quoteStart] == '"'
    {
      assert text[..i + 1] == text[..i] + [text[i]];
      if text[i] == '"' {
        inQuotes := !inQuotes;
        if inQuotes {
          quoteStart := i;
        }
      }
    }
    assert text[..|text|] == text;
    r := if inQuotes then Some(quoteStart) else None;
  }

  predicate StartsWith(s: string, c: char) { s != "" && s[0] == c }

  predicate EndsWith(s: string, c: char) { s != "" && s[|s| - 1] == c }

  predicate StartsQuoted(s: string) { |s| >= 2 && s[0] == '@' && s[1] == '"' }

  predicate IsTokenStart(text: string, index: nat)
    requires index <= |text|
  {
    index == 0 || text[index - 1] in PathDelimiters
  }

  function ExtractQuotedPrefix(text: string): Option<string> {
    match UnclosedQuote(text)
    case None => None
    case Some(start) =>
      if start > 0 && text[start - 1] == '@' then
        if IsTokenStart(text, start - 1) then Some(text[start - 1..]) else None
      else if IsTokenStart(text, start) then Some(text[start..])
      else None
  }

  /** What is being completed after an `@`. */
  function ExtractAtPrefix(text: string): Option<string> {
    var quoted := ExtractQuotedPrefix(text);
    if quoted.Some? && StartsQuoted(quoted.value) then quoted
    else
      var tokenStart := LastOf(text, PathDelimiters) + 1;
      if tokenStart < |text| && text[tokenStart] == '@' then Some(text[tokenStart..]) else None
  }

  datatype PathPrefix = PathPrefix(rawPrefix: string, isAtPrefix: bool, isQuotedPrefix: bool)

  function ParsePathPrefix(prefix: string): PathPrefix {
    if StartsQuoted(prefix) then PathPrefix(prefix[2..], true, true)
    else if StartsWith(prefix, '"') then PathPrefix(prefix[1..], false, true)
    else if StartsWith(prefix, '@') then PathPrefix(prefix[1..], true, false)
    else PathPrefix(prefix, false, false)
  }

  function BuildCompletionValue(path: string, isAtPrefix: bool, isQuotedPrefix: bool): string {
    var prefix := if isAtPrefix then "@" else "";
    if isQuotedPrefix || ' ' in path then prefix + "\"" + path + "\"" else prefix + path
  }

  // The editor

  datatype Item = Item(value: string, caption: string)

  datatype Editor = Editor(lines: seq<string>, cursorLine: nat, cursorCol: nat)

  /** A missing line reads as the empty one. */
  function LineAt(lines: seq<string>, i: nat): string { if i < |lines| then lines[i] else "" }

  function SetLine(lines: seq<string>, i: nat, line: string): seq<string> {
    if i < |lines| then lines[i := line] else lines + seq(i - |lines|, _ => "") + [line]
  }

  /** Where `slice` cuts: negative positions count from the end. */
  function Cut(text: string, i: int): (k: nat)
    ensures k <= |text|
    ensures 0 <= i <= |text| ==> k == i
  {
    if i >= |text| then |text| else if i >= 0 then i else if i + |text| >= 0 then i + |text| else 0
  }

  function CurrentLine(e: Editor): string { LineAt(e.lines, e.cursorLine) }
  function TextBeforeCursor(e: Editor): string { CurrentLine(e)[..Cut(CurrentLine(e), e.cursorCol)] }
  function TextAfterCursor(e: Editor): string { CurrentLine(e)[Cut(CurrentLine(e), e.cursorCol)..] }
  function BeforePrefix(e: Editor, prefix: string): string {
    CurrentLine(e)[..Cut(CurrentLine(e), e.cursorCol - |prefix|)]
  }

  /** A quoted item brings its own closing quote, which takes the place of one after the cursor. */
  predicate Absorbs(e: Editor, value: string, prefix: string) {
    (StartsWith(prefix, '"') || StartsQuoted(prefix)) && EndsWith(value, '"') && StartsWith(TextAfterCursor(e), '"')
  }

  function Rest(e: Editor, value: string, prefix: string): string {
    if Absorbs(e, value, prefix) then TextAfterCursor(e)[1..] else TextAfterCursor(e)
  }

  /** A directory leaves the cursor where its path can go on. */
  function CursorOffset(item: Item): nat {
    if EndsWith(item.caption, '/') && EndsWith(item.value, '"') then |item.value| - 1 else |item.value|
  }

  function ApplyCompletion(e: Editor, item: Item, prefix: string): Editor {
    var before, rest := BeforePrefix(e, prefix), Rest(e, item.value, prefix);
    if StartsWith(prefix, '/') && Trim(before) == "" && '/' !in prefix[1..] then
      Editor(SetLine(e.lines, e.cursorLine, before + "/" + item.value + " " + rest), e.cursorLine, |before| + |item.value| + 2)
    else if StartsWith(prefix, '@') then
      var suffix := if EndsWith(item.caption, '/') then "" else " ";
      Editor(SetLine(e.lines, e.cursorLine, before + item.value + suffix + rest), e.cursorLine,
             |before| + CursorOffset(item) + |suffix|)
    else
      Editor(SetLine(e.lines, e.cursorLine, before + item.value + rest), e.cursorLine, |before| + CursorOffset(item))
  }

  /** Accepting a suggestion for the reference at the cursor. */
  function AcceptPath(e: Editor, path: string, caption: string): Option<Editor> {
    match ExtractAtPrefix(TextBeforeCursor(e))
    case None => None
    case Some(prefix) =>
      var value := BuildCompletionValue(path, true, ParsePathPrefix(prefix).isQuotedPrefix);
      Some(ApplyCompletion(e, Item(value, caption), prefix))
  }

  // What extraction finds

  predicate QuotedForm(p: string) { StartsQuoted(p) && '"' !in p[2..] }
  predicate PlainForm(p: string) { StartsWith(p, '@') && forall c <- p :: c !in PathDelimiters }

  /** An unclosed quote whose reference the end of the text belongs to. */
  predicate InQuotedReference(text: string) {
    var quoted := ExtractQuotedPrefix(text);
    quoted.Some? && StartsQuoted(quoted.value)
  }

  lemma LastOfIs(text: string, cs: set<char>, i: int)
    requires -1 <= i < |text| && (i >= 0 ==> text[i] in cs)
    requires forall k :: i < k < |text| ==> text[k] !in cs
    ensures LastOf(text, cs) == i
  {
  }

  lemma LastOfConcat(t: string, p: string, cs: set<char>)
    ensures LastOf(t + p, cs) == if LastOf(p, cs) >= 0 then |t| + LastOf(p, cs) else LastOf(t, cs)
  {
    var i := if LastOf(p, cs) >= 0 then |t| + LastOf(p, cs) else LastOf(t, cs);
    forall k | i < k < |t + p| ensures (t + p)[k] !in cs {
      if k >= |t| { assert (t + p)[k] == p[k - |t|]; } else { assert (t + p)[k] == t[k]; }
    }
    LastOfIs(t + p, cs, i);
  }

  lemma QuotesConcat(t: string, p: string)
    ensures multiset(t + p)['"'] == multiset(t)['"'] + multiset(p)['"']
  {
  }

  lemma NoQuote(p: string)
    requires '"' !in p
    ensures multiset(p)['"'] == 0 && LastOf(p, Quote) == -1
  {
  }

  /** Text without quotes does not change which quote is open. */
  lemma OpenQuoteStays(t: string, p: string)
    requires '"' !in p
    ensures UnclosedQuote(t + p) == UnclosedQuote(t)
    ensures InQuotedReference(t + p) <==> InQuotedReference(t)
  {
    QuotesConcat(t, p);
    NoQuote(p);
    LastOfConcat(t, p, Quote);
  }

  /** A quoted reference after balanced text opens there. */
  lemma OpenQuoteOfReference(t: string, p: string)
    requires QuotedForm(p)
    ensures UnclosedQuote(t + p) == if Balanced(t) then Some(|t| + 1) else None
  {
    assert p == "@\"" + p[2..];
    NoQuote(p[2..]);
    QuotesConcat("@\"", p[2..]);
    assert multiset("@\"")['"'] == 1;
    QuotesConcat(t, p);
    LastOfConcat("@\"", p[2..], Quote);
    LastOfConcat(t, p, Quote);
  }

  lemma ExtractedIsSuffix(text: string, p: string)
    requires ExtractAtPrefix(text) == Some(p)
    ensures |p| <= |text| && text == text[..|text| - |p|] + p
  {
  }

  /** Exactly what is extracted: at a token start, a quoted reference after balanced text, or a
      reference without delimiters outside any quoted one. */
  lemma ExtractsReferences(t: string, p: string)
    ensures ExtractAtPrefix(t + p) == Some(p)
      <==> IsTokenStart(t, |t|) && ((QuotedForm(p) && Balanced(t)) || (PlainForm(p) && !InQuotedReference(t)))
  {
    if QuotedForm(p) {
      assert p[1] == '"';
      QuotedExtraction(t, p);
    } else if PlainForm(p) {
      PlainExtraction(t, p);
    } else if ExtractAtPrefix(t + p) == Some(p) {
      ExtractedForm(t + p, p);
    }
  }

  lemma QuotedExtraction(t: string, p: string)
    requires QuotedForm(p)
    ensures ExtractAtPrefix(t + p) == Some(p) <==> IsTokenStart(t, |t|) && Balanced(t)
  {
    var text := t + p;
    OpenQuoteOfReference(t, p);
    assert text[|t|..] == p;
    assert text[|t| + 1] == '"' && text[|t| + 1] in PathDelimiters;
    assert LastOf(text, PathDelimiters) >= |t| + 1;
  }

  lemma PlainExtraction(t: string, p: string)
    requires PlainForm(p)
    ensures ExtractAtPrefix(t + p) == Some(p) <==> IsTokenStart(t, |t|) && !InQuotedReference(t)
  {
    var text := t + p;
    assert '"' !in p;
    OpenQuoteStays(t, p);
    if InQuotedReference(t) {
      QuotedPrefixForm(text);
    } else {
      LastOfIs(p, PathDelimiters, -1);
      LastOfConcat(t, p, PathDelimiters);
      assert text[|t|..] == p;
    }
  }

  lemma QuotedPrefixForm(text: string)
    requires InQuotedReference(text)
    ensures QuotedForm(ExtractQuotedPrefix(text).value)
  {
    var p := ExtractQuotedPrefix(text).value;
    var q := LastOf(text, Quote);
    assert p[0] == '@';
    assert p == text[q - 1..];
    forall k | 2 <= k < |p| ensures p[k] != '"' {
      assert p[k] == text[q - 1 + k];
      assert text[q - 1 + k] !in Quote;
    }
  }

  lemma ExtractedForm(text: string, p: string)
    requires ExtractAtPrefix(text) == Some(p)
    ensures QuotedForm(p) || PlainForm(p)
  {
    if InQuotedReference(text) {
      QuotedPrefixForm(text);
    } else {
      var start := LastOf(text, PathDelimiters) + 1;
      assert p == text[start..];
      forall k | 0 <= k < |p| ensures p[k] !in PathDelimiters { assert p[k] == text[start + k]; }
    }
  }

  // Completing a directory and going on

  predicate NeedsQuotes(quoted: bool, path: string) { quoted || ' ' in path }

  /** When a completed directory is read back as its path: quoting needs a path without quotes and
      balanced quotes before it; without quoting the path holds no delimiter. */
  predicate ReadsBack(before: string, isQuotedPrefix: bool, path: string) {
    if NeedsQuotes(isQuotedPrefix, path) then '"' !in path && Balanced(before)
    else forall c <- path :: c !in PathDelimiters
  }

  /** A reference to a path as it stands before the cursor. */
  function Reference(isQuotedPrefix: bool, path: string): string {
    if NeedsQuotes(isQuotedPrefix, path) then "@\"" + path else "@" + path
  }

  /** The cursor of `e` stands between two parts of its line. */
  predicate Stands(e: Editor, before: string, after: string) {
    CurrentLine(e) == before + after && e.cursorCol == |before|
  }

  /** The editor with another line at the cursor's place. */
  function WithLine(e: Editor, before: string, after: string): Editor {
    Editor(SetLine(e.lines, e.cursorLine, before + after), e.cursorLine, |before|)
  }

  lemma StandsBetween(e: Editor, before: string, after: string)
    requires Stands(e, before, after)
    ensures TextBeforeCursor(e) == before && TextAfterCursor(e) == after
  {
  }

  lemma WithLineStands(e: Editor, before: string, after: string)
    ensures Stands(WithLine(e, before, after), before, after)
  {
  }

  lemma WithLineTwice(e: Editor, before: string, after: string, before': string, after': string)
    ensures WithLine(WithLine(e, before, after), before', after') == WithLine(e, before', after')
  {
  }

  /** What is left after the cursor: without its first quote if the item brings that quote. */
  function Remainder(after: string, quoted: bool): string {
    if quoted && StartsWith(after, '"') then after[1..] else after
  }

  /** The editor with an item put between `before` and `after`. */
  function Inserted(e: Editor, before: string, after: string, item: Item, quoted: bool): Editor {
    var rest := Remainder(after, quoted && EndsWith(item.value, '"'));
    var suffix := if EndsWith(item.caption, '/') then "" else " ";
    Editor(SetLine(e.lines, e.cursorLine, before + item.value + suffix + rest), e.cursorLine,
           |before| + CursorOffset(item) + |suffix|)
  }

  lemma ApplyToReference(e: Editor, before: string, prefix: string, after: string, item: Item)
    requires Stands(e, before + prefix, after) && StartsWith(prefix, '@')
    ensures ApplyCompletion(e, item, prefix) == Inserted(e, before, after, item, StartsQuoted(prefix))
  {
    StandsBetween(e, before + prefix, after);
    assert BeforePrefix(e, prefix) == before;
    assert Rest(e, item.value, prefix) == Remainder(after, StartsQuoted(prefix) && EndsWith(item.value, '"'));
  }

  lemma AcceptReference(e: Editor, before: string, prefix: string, after: string, path: string, caption: string)
    requires Stands(e, before + prefix, after) && ExtractAtPrefix(before + prefix) == Some(prefix)
    ensures var q := ParsePathPrefix(prefix).isQuotedPrefix;
            AcceptPath(e, path, caption)
              == Some(Inserted(e, before, after, Item(BuildCompletionValue(path, true, q), caption), q))
  {
    ExtractedForm(before + prefix, prefix);
    StandsBetween(e, before + prefix, after);
    var item := Item(BuildCompletionValue(path, true, ParsePathPrefix(prefix).isQuotedPrefix), caption);
    ApplyToReference(e, before, prefix, after, item);
  }

  lemma InsertedDirectory(e: Editor, before: string, after: string, item: Item, quoted: bool)
    requires EndsWith(item.caption, '/') && !EndsWith(item.value, '"')
    ensures Inserted(e, before, after, item, quoted) == WithLine(e, before + item.value, after)
  {
    assert before + item.value + "" == before + item.value;
  }

  lemma InsertedQuotedDirectory(e: Editor, before: string, after: string, item: Item, quoted: bool, body: string)
    requires EndsWith(item.caption, '/') && item.value == body + "\""
    ensures Inserted(e, before, after, item, quoted) == WithLine(e, before + body, "\"" + Remainder(after, quoted))
  {
    var rest := Remainder(after, quoted);
    assert before + (body + "\"") + "" + rest == (before + body) + ("\"" + rest);
  }

  lemma QuotedValue(path: string, q: bool)
    requires NeedsQuotes(q, path)
    ensures BuildCompletionValue(path, true, q) == Reference(q, path) + "\""
  {
  }

  lemma PlainValue(path: string, q: bool)
    requires !NeedsQuotes(q, path)
    ensures BuildCompletionValue(path, true, q) == Reference(q, path)
    ensures EndsWith(BuildCompletionValue(path, true, q), '"') == EndsWith(path, '"')
  {
  }

  lemma PlainValueWithQuote(path: string, q: bool)
    requires !NeedsQuotes(q, path) && EndsWith(path, '"')
    ensures BuildCompletionValue(path, true, q) == Reference(q, path[..|path| - 1]) + "\""
  {
    assert path == path[..|path| - 1] + "\"";
  }

  /** Accepting a directory: what stands on both sides of the cursor then. */
  lemma AcceptDirectory(e: Editor, before: string, prefix: string, after: string, path: string, caption: string)
    requires Stands(e, before + prefix, after) && ExtractAtPrefix(before + prefix) == Some(prefix)
    requires EndsWith(caption, '/')
    ensures var q := ParsePathPrefix(prefix).isQuotedPrefix;
            var next := AcceptPath(e, path, caption);
            if NeedsQuotes(q, path) then next == Some(WithLine(e, before + Reference(q, path), "\"" + Remainder(after, q)))
            else if EndsWith(path, '"') then next == Some(WithLine(e, before + Reference(q, path[..|path| - 1]), "\"" + after))
            else next == Some(WithLine(e, before + Reference(q, path), after))
  {
    AcceptReference(e, before, prefix, after, path, caption);
    InsertPath(e, before, after, path, caption, ParsePathPrefix(prefix).isQuotedPrefix);
  }

  lemma InsertPath(e: Editor, before: string, after: string, path: string, caption: string, q: bool)
    requires EndsWith(caption, '/')
    ensures var next := Inserted(e, before, after, Item(BuildCompletionValue(path, true, q), caption), q);
            if NeedsQuotes(q, path) then next == WithLine(e, before + Reference(q, path), "\"" + Remainder(after, q))
            else if EndsWith(path, '"') then next == WithLine(e, before + Reference(q, path[..|path| - 1]), "\"" + after)
            else next == WithLine(e, before + Reference(q, path), after)
  {
    var item := Item(BuildCompletionValue(path, true, q), caption);
    if NeedsQuotes(q, path) {
      QuotedValue(path, q);
      InsertedQuotedDirectory(e, before, after, item, q, Reference(q, path));
    } else if EndsWith(path, '"') {
      PlainValueWithQuote(path, q);
      InsertedQuotedDirectory(e, before, after, item, q, Reference(q, path[..|path| - 1]));
    } else {
      PlainValue(path, q);
      InsertedDirectory(e, before, after, item, q);
    }
  }

  /** The path that completion reads at the end of the text. */
  function PathAtEnd(text: string): Option<string> {
    match ExtractAtPrefix(text)
    case None => None
    case Some(prefix) => Some(ParsePathPrefix(prefix).rawPrefix)
  }

  lemma PathForm(text: string, path: string)
    requires PathAtEnd(text) == Some(path)
    ensures '"' !in path
    ensures ExtractAtPrefix(text) == Some("@\"" + path) || (ExtractAtPrefix(text) == Some("@" + path) && PlainForm("@" + path))
  {
    var prefix := ExtractAtPrefix(text).value;
    ExtractedForm(text, prefix);
    if PlainForm(prefix) {
      assert prefix[0] == '@' && (|prefix| > 1 ==> prefix[1] in prefix);
      assert prefix == "@" + path;
      assert forall c <- path :: c in prefix;
    } else {
      assert prefix == "@\"" + path;
    }
  }

  lemma QuotedReadsBack(before: string, path: string)
    requires IsTokenStart(before, |before|)
    ensures PathAtEnd(before + ("@\"" + path)) == Some(path) <==> '"' !in path && Balanced(before)
  {
    var ref := "@\"" + path;
    var text := before + ref;
    assert ref[1] == '"' && ref[2..] == path;
    ExtractsReferences(before, ref);
    if PathAtEnd(text) == Some(path) {
      PathForm(text, path);
      if ExtractAtPrefix(text) == Some("@" + path) {
        ExtractedIsSuffix(text, "@" + path);
        assert text[|text| - |path| - 1] == '"';
      }
    }
  }

  lemma PlainReference(path: string)
    ensures PlainForm("@" + path) <==> forall c <- path :: c !in PathDelimiters
    ensures (forall c <- path :: c !in PathDelimiters) ==> ParsePathPrefix("@" + path).rawPrefix == path
  {
    var ref := "@" + path;
    assert ref[1..] == path;
    assert forall c <- path :: c in ref;
    assert forall c <- ref :: c == '@' || c in path;
    assert path != "" ==> path[0] in path;
  }

  /** Behind a plain reference no quoted one to the same path is found. */
  lemma NotReadQuoted(before: string, path: string)
    ensures ExtractAtPrefix(before + ("@" + path)) != Some("@\"" + path)
  {
    var text := before + ("@" + path);
    assert text[|text| - |path| - 1] == '@';
    if ExtractAtPrefix(text) == Some("@\"" + path) {
      ExtractedIsSuffix(text, "@\"" + path);
    }
  }

  lemma PlainReadsBack(before: string, path: string)
    requires IsTokenStart(before, |before|) && !InQuotedReference(before)
    ensures PathAtEnd(before + ("@" + path)) == Some(path) <==> forall c <- path :: c !in PathDelimiters
  {
    var ref := "@" + path;
    PlainReference(path);
    ExtractsReferences(before, ref);
    NotReadQuoted(before, path);
    if PathAtEnd(before + ref) == Some(path) {
      PathForm(before + ref, path);
    }
  }

  /** A completed directory is read back as its own path exactly when `ReadsBack` says so. */
  lemma DirectoryReadsBack(e: Editor, before: string, prefix: string, after: string, path: string, caption: string)
    requires Stands(e, before + prefix, after) && ExtractAtPrefix(before + prefix) == Some(prefix)
    requires EndsWith(caption, '/')
    ensures var next := AcceptPath(e, path, caption);
            next.Some? && (PathAtEnd(TextBeforeCursor(next.value)) == Some(path)
                           <==> ReadsBack(before, ParsePathPrefix(prefix).isQuotedPrefix, path))
  {
    var q := ParsePathPrefix(prefix).isQuotedPrefix;
    ExtractsReferences(before, prefix);
    AcceptDirectory(e, before, prefix, after, path, caption);
    var next := AcceptPath(e, path, caption).value;
    if NeedsQuotes(q, path) {
      WithLineStands(e, before + Reference(q, path), "\"" + Remainder(after, q));
      StandsBetween(next, before + Reference(q, path), "\"" + Remainder(after, q));
      QuotedReadsBack(before, path);
    } else if EndsWith(path, '"') {
      WithLineStands(e, before + Reference(q, path[..|path| - 1]), "\"" + after);
      StandsBetween(next, before + Reference(q, path[..|path| - 1]), "\"" + after);
      assert '"' in path;
      if PathAtEnd(TextBeforeCursor(next)) == Some(path) {
        PathForm(TextBeforeCursor(next), path);
      }
    } else {
      WithLineStands(e, before + Reference(q, path), after);
      StandsBetween(next, before + Reference(q, path), after);
      PlainReadsBack(before, path);
    }
  }

  lemma OneQuote(text: string)
    requires text == ['"', 'a', ' ']
    ensures !Balanced(text) && !InQuotedReference(text) && IsTokenStart(text, |text|)
  {
    assert multiset(text) == multiset{'"', 'a', ' '};
    LastOfIs(text, Quote, 0);
    assert text[0..] == text;
  }

  lemma OpenQuoteReference(before: string, prefix: string)
    requires before == ['"', 'a', ' '] && prefix == ['@', 'b']
    ensures ExtractAtPrefix(before + prefix) == Some(prefix) && !ParsePathPrefix(prefix).isQuotedPrefix
  {
    OneQuote(before);
    assert PlainForm(prefix);
    ExtractsReferences(before, prefix);
  }

  /** An unquoted reference may follow an unclosed quote, and a directory that needs quotes is not
      read back there: `my d/`, completed where `"a @b` stands before the cursor. */
  lemma OpenQuoteLosesDirectory(e: Editor, after: string, caption: string)
    requires Stands(e, ['"', 'a', ' '] + ['@', 'b'], after) && EndsWith(caption, '/')
    ensures ExtractAtPrefix(TextBeforeCursor(e)) == Some(['@', 'b'])
    ensures var next := AcceptPath(e, ['m', 'y', ' ', 'd', '/'], caption);
            next.Some? && PathAtEnd(TextBeforeCursor(next.value)) != Some(['m', 'y', ' ', 'd', '/'])
  {
    var before, prefix, path := ['"', 'a', ' '], ['@', 'b'], ['m', 'y', ' ', 'd', '/'];
    StandsBetween(e, before + prefix, after);
    OpenQuoteReference(before, prefix);
    OneQuote(before);
    assert path[2] == ' ';
    DirectoryReadsBack(e, before, prefix, after, path, caption);
  }

  lemma InsertedTwice(e: Editor, b: string, a: string, before: string, after: string, item: Item, quoted: bool)
    ensures Inserted(WithLine(e, b, a), before, after, item, quoted) == Inserted(e, before, after, item, quoted)
  {
    var rest := Remainder(after, quoted && EndsWith(item.value, '"'));
    var suffix := if EndsWith(item.caption, '/') then "" else " ";
    var line := before + item.value + suffix + rest;
    WithLineTwice(e, b, a, line, "");
    assert line + "" == line;
  }

  /** The reference to a directory that reads back is extracted whole. */
  lemma ReferenceIsExtracted(before: string, q: bool, path: string)
    requires IsTokenStart(before, |before|) && (!q ==> !InQuotedReference(before)) && ReadsBack(before, q, path)
    ensures ExtractAtPrefix(before + Reference(q, path)) == Some(Reference(q, path))
    ensures ParsePathPrefix(Reference(q, path)).isQuotedPrefix == NeedsQuotes(q, path)
  {
    var ref := Reference(q, path);
    if NeedsQuotes(q, path) {
      assert ref[2..] == path;
    } else {
      assert forall c <- ref :: c == '@' || c in path;
      assert path != "" ==> path[0] in path;
    }
    ExtractsReferences(before, ref);
  }

  /** Completing a directory and then a path below it gives what completing that path at once gives:
      neither quotes nor text pile up. */
  lemma DrillingDown(e: Editor, before: string, prefix: string, after: string, dir: string, dirCaption: string,
                     path: string, caption: string)
    requires Stands(e, before + prefix, after) && ExtractAtPrefix(before + prefix) == Some(prefix)
    requires EndsWith(dirCaption, '/') && dir <= path
    requires ReadsBack(before, ParsePathPrefix(prefix).isQuotedPrefix, dir)
    ensures var next := AcceptPath(e, dir, dirCaption);
            next.Some? && AcceptPath(next.value, path, caption) == AcceptPath(e, path, caption)
  {
    var q := ParsePathPrefix(prefix).isQuotedPrefix;
    ExtractsReferences(before, prefix);
    AcceptDirectory(e, before, prefix, after, dir, dirCaption);
    var ref := Reference(q, dir);
    ReferenceIsExtracted(before, q, dir);
    var rest := if NeedsQuotes(q, dir) then "\"" + Remainder(after, q) else after;
    var next := AcceptPath(e, dir, dirCaption).value;
    WithLineStands(e, before + ref, rest);
    AcceptReference(e, before, prefix, after, path, caption);
    AcceptReference(next, before, ref, rest, path, caption);
    SameInsertion(e, before, after, rest, q, dir, path, caption);
  }

  lemma SameInsertion(e: Editor, before: string, after: string, rest: string, q: bool, dir: string, path: string, caption: string)
    requires dir <= path && rest == if NeedsQuotes(q, dir) then "\"" + Remainder(after, q) else after
    ensures var q' := NeedsQuotes(q, dir);
            Inserted(WithLine(e, before + Reference(q, dir), rest), before, rest, Item(BuildCompletionValue(path, true, q'), caption), q')
              == Inserted(e, before, after, Item(BuildCompletionValue(path, true, q), caption), q)
  {
    var q' := NeedsQuotes(q, dir);
    var item := Item(BuildCompletionValue(path, true, q), caption);
    assert ' ' in dir ==> ' ' in path;
    assert BuildCompletionValue(path, true, q') == item.value;
    InsertedTwice(e, before + Reference(q, dir), rest, before, rest, item, q');
    if q' { assert ("\"" + Remainder(after, q))[1..] == Remainder(after, q); }
  }

  /** Accepts one directory after the other. */
  function AcceptAll(e: Editor, dirs: seq<string>, caption: string): Option<Editor> {
    if dirs == [] then Some(e)
    else
      match AcceptAll(e, dirs[..|dirs| - 1], caption)
      case None => None
      case Some(next) => AcceptPath(next, dirs[|dirs| - 1], caption)
  }

  /** Any descent through directories is as good as accepting its end at once. */
  lemma {:induction false} DescentIsOneStep(e: Editor, before: string, prefix: string, after: string, dirs: seq<string>, caption: string)
    requires Stands(e, before + prefix, after) && ExtractAtPrefix(before + prefix) == Some(prefix)
    requires EndsWith(caption, '/') && dirs != []
    requires forall k :: 0 <= k < |dirs| - 1 ==> ReadsBack(before, ParsePathPrefix(prefix).isQuotedPrefix, dirs[k])
    requires forall k :: 0 < k < |dirs| ==> dirs[k - 1] <= dirs[k]
    ensures AcceptAll(e, dirs, caption) == AcceptPath(e, dirs[|dirs| - 1], caption)
    decreases |dirs|
  {
    var n := |dirs| - 1;
    if n == 0 {
      assert AcceptAll(e, dirs[..0], caption) == Some(e);
    } else {
      var init := dirs[..n];
      DescentIsOneStep(e, before, prefix, after, init, caption);
      DrillingDown(e, before, prefix, after, dirs[n - 1], caption, dirs[n], caption);
    }
  }

  // Completing a file

  lemma InsertedFile(e: Editor, before: string, after: string, item: Item, quoted: bool)
    requires !EndsWith(item.caption, '/')
    ensures Inserted(e, before, after, item, quoted)
            == WithLine(e, before + (item.value + " "), Remainder(after, quoted && EndsWith(item.value, '"')))
  {
    var rest := Remainder(after, quoted && EndsWith(item.value, '"'));
    assert before + item.value + " " + rest == before + (item.value + " ") + rest;
  }

  lemma NothingAfterSpace(text: string)
    requires EndsWith(text, ' ') && !InQuotedReference(text)
    ensures ExtractAtPrefix(text) == None
  {
    LastOfIs(text, PathDelimiters, |text| - 1);
  }

  lemma ClosedQuotes(before: string, path: string)
    requires '"' !in path && Balanced(before)
    ensures Balanced(before + (['@', '"'] + path + ['"', ' ']))
  {
    NoQuote(path);
    QuotesConcat(['@', '"'], path);
    QuotesConcat(['@', '"'] + path, ['"', ' ']);
    QuotesConcat(before, ['@', '"'] + path + ['"', ' ']);
  }

  lemma ClosedQuotedReference(before: string, q: bool, path: string)
    requires NeedsQuotes(q, path) && ReadsBack(before, q, path)
    ensures !InQuotedReference(before + (BuildCompletionValue(path, true, q) + " "))
  {
    assert BuildCompletionValue(path, true, q) + " " == ['@', '"'] + path + ['"', ' '];
    ClosedQuotes(before, path);
  }

  lemma ClosedPlainReference(before: string, q: bool, path: string)
    requires !NeedsQuotes(q, path) && ReadsBack(before, q, path) && !InQuotedReference(before)
    ensures !InQuotedReference(before + (BuildCompletionValue(path, true, q) + " "))
  {
    var closed := BuildCompletionValue(path, true, q) + " ";
    assert closed == ['@'] + path + [' '];
    assert '"' !in closed;
    OpenQuoteStays(before, closed);
  }

  /** A completed file ends its reference: nothing is being completed at the cursor. */
  lemma FileEndsReference(e: Editor, before: string, prefix: string, after: string, path: string, caption: string)
    requires Stands(e, before + prefix, after) && ExtractAtPrefix(before + prefix) == Some(prefix)
    requires !EndsWith(caption, '/') && ReadsBack(before, ParsePathPrefix(prefix).isQuotedPrefix, path)
    ensures var next := AcceptPath(e, path, caption);
            next.Some? && ExtractAtPrefix(TextBeforeCursor(next.value)) == None
  {
    var q := ParsePathPrefix(prefix).isQuotedPrefix;
    var item := Item(BuildCompletionValue(path, true, q), caption);
    var rest := Remainder(after, q && EndsWith(item.value, '"'));
    ExtractsReferences(before, prefix);
    AcceptReference(e, before, prefix, after, path, caption);
    InsertedFile(e, before, after, item, q);
    WithLineStands(e, before + (item.value + " "), rest);
    StandsBetween(WithLine(e, before + (item.value + " "), rest), before + (item.value + " "), rest);
    if NeedsQuotes(q, path) {
      ClosedQuotedReference(before, q, path);
    } else {
      ClosedPlainReference(before, q, path);
    }
    NothingAfterSpace(before + (item.value + " "));
  }

  /** What takes the place of the prefix. */
  function Replacement(e: Editor, item: Item, prefix: string): string {
    if StartsWith(prefix, '/') && Trim(BeforePrefix(e, prefix)) == "" && '/' !in prefix[1..] then "/" + item.value + " "
    else item.value + if StartsWith(prefix, '@') && !EndsWith(item.caption, '/') then " " else ""
  }

  lemma ReplacesPrefix(e: Editor, item: Item, prefix: string)
    ensures ApplyCompletion(e, item, prefix).lines
            == SetLine(e.lines, e.cursorLine, BeforePrefix(e, prefix) + Replacement(e, item, prefix) + Rest(e, item.value, prefix))
  {
    var before, rest := BeforePrefix(e, prefix), Rest(e, item.value, prefix);
    if StartsWith(prefix, '/') && Trim(before) == "" && '/' !in prefix[1..] {
      assert before + "/" + item.value + " " + rest == before + ("/" + item.value + " ") + rest;
    } else if StartsWith(prefix, '@') {
      var suffix := if EndsWith(item.caption, '/') then "" else " ";
      assert before + item.value + suffix + rest == before + (item.value + suffix) + rest;
    } else {
      assert item.value + "" == item.value;
    }
  }

  lemma SetLineSets(lines: seq<string>, i: nat, line: string)
    ensures LineAt(SetLine(lines, i, line), i) == line
    ensures forall k: nat :: k != i ==> LineAt(SetLine(lines, i, line), k) == LineAt(lines, k)
  {
  }

  /** What accepting any item leaves of the text around the prefix: all of it, but for a quote that
      the item brings itself. */
  lemma OutsideIsKept(e: Editor, item: Item, prefix: string)
    ensures var next := ApplyCompletion(e, item, prefix);
            && CurrentLine(next) == BeforePrefix(e, prefix) + Replacement(e, item, prefix) + Rest(e, item.value, prefix)
            && TextAfterCursor(e) == (if Absorbs(e, item.value, prefix) then "\"" else "") + Rest(e, item.value, prefix)
            && next.cursorLine == e.cursorLine
            && |BeforePrefix(e, prefix)| <= next.cursorCol <= |BeforePrefix(e, prefix) + Replacement(e, item, prefix)|
            && forall k: nat :: k != e.cursorLine ==> LineAt(next.lines, k) == LineAt(e.lines, k)
  {
    ReplacesPrefix(e, item, prefix);
    SetLineSets(e.lines, e.cursorLine,
                BeforePrefix(e, prefix) + Replacement(e, item, prefix) + Rest(e, item.value, prefix));
  }

  // Every branch of accepting an item

  /** The text after the cursor once an item is accepted: a quoted prefix and a quoted item take the
      quote that follows. */
  function AfterItem(after: string, prefix: string, value: string): string {
    if (StartsWith(prefix, '"') || (|prefix| >= 2 && prefix[0] == '@' && prefix[1] == '"'))
       && EndsWith(value, '"') && StartsWith(after, '"')
    then after[1..] else after
  }

  lemma AcceptedRest(e: Editor, before: string, prefix: string, after: string, value: string)
    requires Stands(e, before + prefix, after)
    ensures BeforePrefix(e, prefix) == before && Rest(e, value, prefix) == AfterItem(after, prefix, value)
  {
    StandsBetween(e, before + prefix, after);
  }

  /** A command name at the start of a line: the cursor comes after it and a space. */
  lemma AcceptCommand(e: Editor, before: string, prefix: string, after: string, item: Item)
    requires Stands(e, before + prefix, after)
    requires StartsWith(prefix, '/') && Trim(before) == "" && '/' !in prefix[1..]
    ensures ApplyCompletion(e, item, prefix)
            == WithLine(e, before + ("/" + item.value + " "), AfterItem(after, prefix, item.value))
  {
    AcceptedRest(e, before, prefix, after, item.value);
    var rest := AfterItem(after, prefix, item.value);
    assert before + "/" + item.value + " " + rest == before + ("/" + item.value + " ") + rest;
  }

  /** A plain path: the cursor comes after it, or before the closing quote of a directory. */
  lemma AcceptPlainPath(e: Editor, before: string, prefix: string, after: string, item: Item)
    requires Stands(e, before + prefix, after) && !StartsWith(prefix, '@')
    requires !(StartsWith(prefix, '/') && Trim(before) == "" && '/' !in prefix[1..])
    ensures var next, rest, n := ApplyCompletion(e, item, prefix), AfterItem(after, prefix, item.value), |item.value|;
            if EndsWith(item.caption, '/') && EndsWith(item.value, '"')
            then next == WithLine(e, before + item.value[..n - 1], "\"" + rest)
            else next == WithLine(e, before + item.value, rest)
  {
    AcceptedRest(e, before, prefix, after, item.value);
    var rest, n := AfterItem(after, prefix, item.value), |item.value|;
    if EndsWith(item.caption, '/') && EndsWith(item.value, '"') {
      assert item.value == item.value[..n - 1] + "\"";
      assert before + item.value + rest == before + item.value[..n - 1] + ("\"" + rest);
    }
  }
}
