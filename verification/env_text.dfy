/**
 The text of an environment file: how it splits into lines, what a line assigns, and how
 updates are written into it.
*/
module EnvText {
  import opened Text
  import opened Wrappers

  /** The characters the pattern's dot does not match. */
  predicate IsTerminator(c: char) {
    c == '\n' || c == '\r' || c == '\U{2028}' || c == '\U{2029}'
  }

  predicate SingleLine(s: string) {
    forall i :: 0 <= i < |s| ==> !IsTerminator(s[i])
  }

  // ----- lines -----

  function NewlineAt(s: string): (i: nat)
    ensures i <= |s| && '\n' !in s[..i] && (i < |s| ==> s[i] == '\n')
  {
    if s == "" || s[0] == '\n' then 0
    else
      var i := 1 + NewlineAt(s[1..]);
      assert s[..i] == [s[0]] + s[1..][..i - 1];
      i
  }

  predicate EndsInCr(s: string) {
    s != "" && s[|s| - 1] == '\r'
  }

  function DropCr(s: string): string {
    if EndsInCr(s) then s[..|s| - 1] else s
  }

  /** Pieces between newlines; a carriage return just before a newline belongs to it. */
  function Lines(s: string): (r: seq<string>)
    ensures r != []
  {
    var i := NewlineAt(s);
    if i == |s| then [s] else [DropCr(s[..i])] + Lines(s[i + 1..])
  }

  predicate HasCrLf(s: string) {
    exists i :: 0 < i < |s| && s[i - 1] == '\r' && s[i] == '\n'
  }

  // ----- what a line assigns -----

  datatype Assignment = Assignment(key: string, value: string)

  function EqualsAt(s: string): (i: nat)
    ensures i <= |s| && '=' !in s[..i] && (i < |s| ==> s[i] == '=')
  {
    if s == "" || s[0] == '=' then 0
    else
      var i := 1 + EqualsAt(s[1..]);
      assert s[..i] == [s[0]] + s[1..][..i - 1];
      i
  }

  function ParseLine(line: string): Option<Assignment> {
    var text := Trim(line);
    var at := EqualsAt(text);
    if text == "" || text[0] == '#' || at == |text| || at == 0 then None
    else Some(Assignment(Trim(text[..at]), Trim(text[at + 1..])))
  }

  function Assign(values: map<string, string>, line: string): map<string, string> {
    match ParseLine(line)
    case None => values
    case Some(a) => values[a.key := a.value]
  }

  function ParseLines(lines: seq<string>): map<string, string> {
    if lines == [] then map[] else Assign(ParseLines(lines[..|lines| - 1]), lines[|lines| - 1])
  }

  /** What the file assigns: the last line of a key wins. */
  function Parse(text: string): map<string, string> {
    ParseLines(Lines(text))
  }

  // ----- the lines an update rewrites -----

  predicate IsIdentStart(c: char) {
    'A' <= c <= 'Z' || 'a' <= c <= 'z' || c == '_'
  }

  predicate IsIdentChar(c: char) {
    IsIdentStart(c) || '0' <= c <= '9'
  }

  predicate Identifier(s: string) {
    s != "" && IsIdentStart(s[0]) && forall i :: 0 <= i < |s| ==> IsIdentChar(s[i])
  }

  predicate AllSpace(s: string) {
    forall i :: 0 <= i < |s| ==> IsSpace(s[i])
  }

  /** The end of the longest run from an index whose characters satisfy the test. */
  function RunEnd(s: string, from: nat, test: char -> bool): (to: nat)
    requires from <= |s|
    ensures from <= to <= |s| && (to < |s| ==> !test(s[to]))
    ensures forall i :: from <= i < to ==> test(s[i])
    decreases |s| - from
  {
    if from < |s| && test(s[from]) then RunEnd(s, from + 1, test) else from
  }

  datatype Parts = Parts(indent: string, key: string, gap: string, rest: string)

  /** Spaces, an identifier, spaces, an equals sign, and a rest on one line. */
  function MatchLine(line: string): Option<Parts> {
    var i := RunEnd(line, 0, IsSpace);
    if i == |line| || !IsIdentStart(line[i]) then None
    else
      var j := RunEnd(line, i, IsIdentChar);
      var k := RunEnd(line, j, IsSpace);
      if k == |line| || line[k] != '=' || !SingleLine(line[k + 1..]) then None
      else Some(Parts(line[..i], line[i..j], line[j..k], line[k + 1..]))
  }

  function Build(p: Parts): string {
    p.indent + p.key + p.gap + "=" + p.rest
  }

  // ----- merging -----

  type Updates = seq<(string, string)>

  predicate Named(u: Updates, key: string) {
    exists i :: 0 <= i < |u| && u[i].0 == key
  }

  function ValueOf(u: Updates, key: string): string
    requires Named(u, key)
  {
    if u[0].0 == key then u[0].1 else ValueOf(u[1..], key)
  }

  /** A line that assigns an updated key is rewritten, any other is kept. */
  function Rewrite(line: string, u: Updates): string {
    match MatchLine(line)
    case None => line
    case Some(p) => if Named(u, p.key) then Build(p.(rest := ValueOf(u, p.key))) else line
  }

  function RewriteAll(lines: seq<string>, u: Updates): (r: seq<string>)
    ensures |r| == |lines| && forall i :: 0 <= i < |r| ==> r[i] == Rewrite(lines[i], u)
  {
    seq(|lines|, i requires 0 <= i < |lines| => Rewrite(lines[i], u))
  }

  predicate Seen(lines: seq<string>, key: string) {
    exists i :: 0 <= i < |lines| && MatchLine(lines[i]).Some? && MatchLine(lines[i]).value.key == key
  }

  function DropTrailingEmpty(lines: seq<string>): seq<string> {
    if lines != [] && lines[|lines| - 1] == "" then DropTrailingEmpty(lines[..|lines| - 1]) else lines
  }

  /** A line for each updated key that no line assigned. */
  function Missing(lines: seq<string>, u: Updates): seq<string> {
    if u == [] then []
    else
      var last := u[|u| - 1];
      Missing(lines, u[..|u| - 1]) + if Seen(lines, last.0) then [] else [last.0 + "=" + last.1]
  }

  function Join(lines: seq<string>, newline: string): string {
    if lines == [] then ""
    else if |lines| == 1 then lines[0]
    else Join(lines[..|lines| - 1], newline) + newline + lines[|lines| - 1]
  }

  function NewlineOf(text: string): string {
    if HasCrLf(text) then "\r\n" else "\n"
  }

  function MergedLines(existing: string, u: Updates): seq<string> {
    DropTrailingEmpty(RewriteAll(Lines(existing), u)) + Missing(Lines(existing), u)
  }

  function Merge(existing: string, u: Updates): string {
    Join(MergedLines(existing, u), NewlineOf(existing)) + NewlineOf(existing)
  }

  /** What the settings service hands over: identifier keys, each once, and trimmed one-line values. */
  predicate ProperUpdates(u: Updates) {
    && (forall i :: 0 <= i < |u| ==> Identifier(u[i].0) && Trimmed(u[i].1) && SingleLine(u[i].1))
    && (forall i, j :: 0 <= i < j < |u| ==> u[i].0 != u[j].0)
  }
}
