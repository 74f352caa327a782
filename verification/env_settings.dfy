/**
 What merging updates into an environment file does to the assignments the file makes,
 and when merging again changes nothing; each with the exact condition.
*/
module EnvSettings {
  import opened Text
  import opened Wrappers
  import opened EnvText
  import opened EnvLines

  // ----- updates as a list and as a map -----

  lemma {:induction false} ValueOfAt(u: Updates, i: nat)
    requires i < |u| && forall j, k :: 0 <= j < k < |u| ==> u[j].0 != u[k].0
    ensures Named(u, u[i].0) && ValueOf(u, u[i].0) == u[i].1
  {
    if i > 0 {
      ValueOfAt(u[1..], i - 1);
      assert u[1..][i - 1] == u[i];
    }
  }

  lemma NamedIsProper(u: Updates, key: string)
    requires ProperUpdates(u) && Named(u, key)
    ensures Identifier(key) && Trimmed(ValueOf(u, key)) && SingleLine(ValueOf(u, key))
  {
    var i :| 0 <= i < |u| && u[i].0 == key;
    ValueOfAt(u, i);
  }

  function Overlay(values: map<string, string>, u: Updates): map<string, string> {
    if u == [] then values else Overlay(values, u[..|u| - 1])[u[|u| - 1].0 := u[|u| - 1].1]
  }

  lemma {:induction false} OverlayAt(values: map<string, string>, u: Updates, key: string)
    requires forall j, k :: 0 <= j < k < |u| ==> u[j].0 != u[k].0
    ensures key in Overlay(values, u) <==> Named(u, key) || key in values
    ensures key in Overlay(values, u) ==> Overlay(values, u)[key] == if Named(u, key) then ValueOf(u, key) else values[key]
  {
    if u != [] {
      var front, n := u[..|u| - 1], |u| - 1;
      OverlayAt(values, front, key);
      ValueOfAt(u, n);
      if Named(front, key) {
        var i :| 0 <= i < |front| && front[i].0 == key;
        ValueOfAt(front, i);
        assert front[i] == u[i];
        ValueOfAt(u, i);
      }
      assert Named(u, key) <==> Named(front, key) || u[n].0 == key by {
        if Named(u, key) {
          var i :| 0 <= i < |u| && u[i].0 == key;
          assert i < n ==> front[i] == u[i];
        }
      }
    }
  }

  // ----- rewriting one line -----

  /** A rewritten line assigns the new value, stays rewritten, and ends in no carriage return. */
  lemma RewriteMatched(line: string, u: Updates)
    requires ProperUpdates(u) && MatchLine(line).Some? && Named(u, MatchLine(line).value.key)
    ensures var key := MatchLine(line).value.key;
            && MatchLine(Rewrite(line, u)).Some? && MatchLine(Rewrite(line, u)).value.key == key
            && ParseLine(Rewrite(line, u)) == Some(Assignment(key, ValueOf(u, key)))
            && Rewrite(Rewrite(line, u), u) == Rewrite(line, u)
            && !EndsInCr(Rewrite(line, u)) && Rewrite(line, u) != ""
            && ('\n' !in line ==> '\n' !in Rewrite(line, u))
  {
    var p := MatchLine(line).value;
    var value := ValueOf(u, p.key);
    var q := p.(rest := value);
    MatchedParts(line);
    NamedIsProper(u, p.key);
    BuiltIsOneLine(q, line);
    hide MatchLine, ParseLine, Build, Trim, EndsInCr, Named, ValueOf;
    MatchBuilt(q);
    BuiltAssigns(q);
    TrimIsTrimmed(value);
  }

  lemma BuiltIsOneLine(q: Parts, line: string)
    requires MatchLine(line).Some? && q == MatchLine(line).value.(rest := q.rest) && SingleLine(q.rest)
    ensures Build(q) != "" && !EndsInCr(Build(q)) && ('\n' !in line ==> '\n' !in Build(q))
  {
  }

  lemma CrNeverMatches(line: string)
    requires EndsInCr(line)
    ensures MatchLine(line) == None
  {
    if MatchLine(line).Some? {
      MatchedParts(line);
    }
  }

  lemma RewriteOther(line: string, u: Updates)
    requires MatchLine(line).Some? ==> !Named(u, MatchLine(line).value.key)
    ensures Rewrite(line, u) == line
  {
  }

  /** Rewriting once is enough. */
  lemma RewriteTwice(line: string, u: Updates)
    requires ProperUpdates(u)
    ensures Rewrite(Rewrite(line, u), u) == Rewrite(line, u)
  {
    if MatchLine(line).Some? && Named(u, MatchLine(line).value.key) {
      RewriteMatched(line, u);
    } else {
      RewriteOther(line, u);
    }
  }

  // ----- what the rewritten lines assign -----

  lemma ParseOneMore(lines: seq<string>, line: string)
    ensures ParseLines(lines + [line]) == Assign(ParseLines(lines), line)
  {
    assert (lines + [line])[..|lines|] == lines;
  }

  /** The last line that assigns the key is one the pattern matches. */
  predicate LastMatched(lines: seq<string>, key: string) {
    lines != [] &&
    var last := lines[|lines| - 1];
    if ParseLine(last).Some? && ParseLine(last).value.key == key then MatchLine(last).Some?
    else LastMatched(lines[..|lines| - 1], key)
  }

  /** Rewriting changes what a line assigns only in the value, and only where the pattern matches. */
  lemma RewriteAssigns(line: string, u: Updates)
    requires ProperUpdates(u)
    ensures match ParseLine(line)
            case None => ParseLine(Rewrite(line, u)) == None
            case Some(a) =>
              ParseLine(Rewrite(line, u)) == Some(Assignment(a.key,
                if MatchLine(line).Some? && Named(u, a.key) then ValueOf(u, a.key) else a.value))
  {
    if MatchLine(line).Some? {
      MatchedAssigns(line);
      if Named(u, MatchLine(line).value.key) { RewriteMatched(line, u); } else { RewriteOther(line, u); }
    } else {
      RewriteOther(line, u);
    }
    hide MatchLine, ParseLine, Rewrite, Named, ValueOf, ProperUpdates;
  }

  lemma {:induction false} RewrittenAssigns(lines: seq<string>, u: Updates, key: string)
    requires ProperUpdates(u)
    ensures var after, before := ParseLines(RewriteAll(lines, u)), ParseLines(lines);
            && (key in after <==> key in before)
            && (key in after ==>
                  after[key] == if Named(u, key) && LastMatched(lines, key) then ValueOf(u, key) else before[key])
  {
    hide MatchLine, ParseLine, Rewrite, Named, ValueOf, ProperUpdates;
    if lines != [] {
      var front, last := lines[..|lines| - 1], lines[|lines| - 1];
      RewrittenAssigns(front, u, key);
      assert RewriteAll(lines, u) == RewriteAll(front, u) + [Rewrite(last, u)];
      hide RewriteAll;
      ParseOneMore(RewriteAll(front, u), Rewrite(last, u));
      RewriteAssigns(last, u);
    }
  }

  lemma {:induction false} EmptyLinesAssignNothing(lines: seq<string>)
    ensures ParseLines(DropTrailingEmpty(lines)) == ParseLines(lines)
  {
    if lines != [] && lines[|lines| - 1] == "" {
      EmptyLinesAssignNothing(lines[..|lines| - 1]);
      EmptyAssignsNothing();
    }
  }

  lemma PushedLine(key: string, value: string)
    requires Identifier(key) && Trimmed(value) && SingleLine(value)
    ensures ParseLine(key + "=" + value) == Some(Assignment(key, value))
    ensures MatchLine(key + "=" + value) == Some(Parts("", key, "", value))
  {
    var p := Parts("", key, "", value);
    assert Build(p) == key + "=" + value;
    hide MatchLine, ParseLine, Trim, Build;
    MatchBuilt(p);
    BuiltAssigns(p);
    TrimIsTrimmed(value);
  }

  lemma PushedIsOneLine(key: string, value: string)
    requires Identifier(key) && SingleLine(value)
    ensures !EndsInCr(key + "=" + value) && '\n' !in key + "=" + value
  {
    forall i | 0 <= i < |key| ensures key[i] != '\n' { IdentIsNotSpace(key[i]); }
  }

  /** The lines pushed at the end assign the updates that no line had, and nothing else. */
  lemma {:induction false} PushedAssign(base: seq<string>, lines: seq<string>, u: Updates, key: string)
    requires ProperUpdates(u)
    ensures var after, before := ParseLines(base + Missing(lines, u)), ParseLines(base);
            && (key in after <==> key in before || (Named(u, key) && !Seen(lines, key)))
            && (key in after ==>
                  after[key] == if Named(u, key) && !Seen(lines, key) then ValueOf(u, key) else before[key])
  {
    if u == [] {
      assert base + [] == base;
    } else {
      var front, n := u[..|u| - 1], |u| - 1;
      PushedAssign(base, lines, front, key);
      NamedSplits(u, key);
      PushedLine(u[n].0, u[n].1);
      hide ParseLine, MatchLine, Seen, Named, ValueOf, Trimmed, SingleLine;
      if Seen(lines, u[n].0) {
        assert Missing(lines, u) == Missing(lines, front) + [];
        assert Missing(lines, front) + [] == Missing(lines, front);
      } else {
        var line := u[n].0 + "=" + u[n].1;
        assert base + Missing(lines, u) == base + Missing(lines, front) + [line];
        ParseOneMore(base + Missing(lines, front), line);
      }
    }
  }

  lemma NamedSplits(u: Updates, key: string)
    requires u != [] && forall j, k :: 0 <= j < k < |u| ==> u[j].0 != u[k].0
    ensures var front, last := u[..|u| - 1], u[|u| - 1];
            && (Named(u, key) <==> Named(front, key) || last.0 == key)
            && (Named(front, key) ==> last.0 != key && ValueOf(u, key) == ValueOf(front, key))
            && (last.0 == key ==> Named(u, key) && ValueOf(u, key) == last.1)
  {
    var front, n := u[..|u| - 1], |u| - 1;
    ValueOfAt(u, n);
    if Named(front, key) {
      var i :| 0 <= i < |front| && front[i].0 == key;
      ValueOfAt(front, i);
      assert front[i] == u[i];
      ValueOfAt(u, i);
    }
    if Named(u, key) {
      var i :| 0 <= i < |u| && u[i].0 == key;
      assert i < n ==> front[i] == u[i];
    }
  }

  /** What the merged lines assign to a key. */
  lemma MergedAssigns(existing: string, u: Updates, key: string)
    requires ProperUpdates(u)
    ensures var lines := Lines(existing);
            var after, before := ParseLines(MergedLines(existing, u)), Parse(existing);
            && (key in after <==> key in before || (Named(u, key) && !Seen(lines, key)))
            && (key in after ==>
                  after[key] == if Named(u, key) && (!Seen(lines, key) || LastMatched(lines, key)) then ValueOf(u, key)
                                else before[key])
  {
    var lines := Lines(existing);
    var base := DropTrailingEmpty(RewriteAll(lines, u));
    RewrittenAssigns(lines, u, key);
    EmptyLinesAssignNothing(RewriteAll(lines, u));
    PushedAssign(base, lines, u, key);
    hide DropTrailingEmpty, RewriteAll, Missing, Seen, LastMatched, Named, ValueOf, ParseLines, Lines, ProperUpdates;
  }

  // ----- splitting what was joined -----

  predicate NoNewlines(lines: seq<string>) {
    forall i :: 0 <= i < |lines| ==> '\n' !in lines[i]
  }

  predicate IsNewline(newline: string) {
    newline == "\n" || newline == "\r\n"
  }

  /** A line as it reads back after this newline. */
  function Cleaned(line: string, newline: string): string {
    if newline == "\n" then DropCr(line) else line
  }

  function CleanAll(lines: seq<string>, newline: string): (r: seq<string>)
    ensures |r| == |lines| && forall i :: 0 <= i < |r| ==> r[i] == Cleaned(lines[i], newline)
  {
    seq(|lines|, i requires 0 <= i < |lines| => Cleaned(lines[i], newline))
  }

  lemma NewlineIs(a: string, t: string)
    requires '\n' !in a
    ensures NewlineAt(a + "\n" + t) == |a|
  {
    var s := a + "\n" + t;
    assert s[|a|] == '\n';
    forall i | 0 <= i < |a| ensures s[i] != '\n' { assert s[i] == a[i]; }
    assert forall i :: 0 <= i < NewlineAt(s) ==> s[i] == s[..NewlineAt(s)][i];
  }

  /** The first line of a text that begins with one. */
  lemma FirstLine(line: string, newline: string, t: string)
    requires '\n' !in line && IsNewline(newline)
    ensures Lines(line + newline + t) == [Cleaned(line, newline)] + Lines(t)
  {
    var a := if newline == "\n" then line else line + "\r";
    assert line + newline + t == a + "\n" + t;
    NewlineIs(a, t);
    assert (a + "\n" + t)[..|a|] == a && (a + "\n" + t)[|a| + 1..] == t;
    assert newline != "\n" ==> DropCr(line + "\r") == line;
  }

  lemma {:induction false} JoinFront(lines: seq<string>, newline: string)
    requires |lines| >= 2
    ensures Join(lines, newline) == lines[0] + newline + Join(lines[1..], newline)
  {
    var front := lines[..|lines| - 1];
    if |lines| == 2 {
      assert front == [lines[0]] && lines[1..] == [lines[1]];
    } else {
      JoinFront(front, newline);
      assert front[1..] == lines[1..][..|lines[1..]| - 1];
      assert lines[1..][|lines[1..]| - 1] == lines[|lines| - 1];
    }
  }

  /** The text of lines that each end in the newline. */
  function Ended(lines: seq<string>, newline: string): string {
    if lines == [] then "" else lines[0] + newline + Ended(lines[1..], newline)
  }

  lemma {:induction false} JoinIsEnded(lines: seq<string>, newline: string)
    requires lines != []
    ensures Join(lines, newline) + newline == Ended(lines, newline)
  {
    if |lines| == 1 {
      assert lines[1..] == [];
    } else {
      JoinFront(lines, newline);
      JoinIsEnded(lines[1..], newline);
      var tail := Join(lines[1..], newline);
      assert lines[0] + newline + tail + newline == lines[0] + newline + (tail + newline);
    }
  }

  lemma LinesOfNothing()
    ensures Lines("") == [""]
  {
  }

  lemma {:induction false} LinesOfEnded(lines: seq<string>, newline: string)
    requires NoNewlines(lines) && IsNewline(newline)
    ensures Lines(Ended(lines, newline)) == CleanAll(lines, newline) + [""]
  {
    hide Lines, Cleaned;
    if lines == [] {
      assert CleanAll(lines, newline) == [];
      LinesOfNothing();
    } else {
      FirstLine(lines[0], newline, Ended(lines[1..], newline));
      LinesOfEnded(lines[1..], newline);
      assert CleanAll(lines, newline) == [Cleaned(lines[0], newline)] + CleanAll(lines[1..], newline);
    }
  }

  /** What a merge leaves when no line is left: one newline. */
  function Kept(lines: seq<string>): seq<string> {
    if lines == [] then [""] else lines
  }

  lemma MergedText(lines: seq<string>, newline: string)
    requires IsNewline(newline)
    ensures Join(lines, newline) + newline == Ended(Kept(lines), newline)
  {
    if lines == [] {
      assert "" + newline == newline;
      assert [""][1..] == [];
      assert "" + newline + "" == newline;
    } else {
      JoinIsEnded(lines, newline);
    }
  }

  lemma {:induction false} LinesHaveNoNewline(s: string)
    ensures NoNewlines(Lines(s))
    decreases |s|
  {
    if NewlineAt(s) < |s| { LinesHaveNoNewline(s[NewlineAt(s) + 1..]); }
  }

  lemma {:induction false} CleaningAssignsNothing(lines: seq<string>, newline: string)
    ensures ParseLines(CleanAll(lines, newline)) == ParseLines(lines)
  {
    if lines != [] {
      var front, last := lines[..|lines| - 1], lines[|lines| - 1];
      CleaningAssignsNothing(front, newline);
      assert CleanAll(lines, newline) == CleanAll(front, newline) + [Cleaned(last, newline)];
      ParseOneMore(CleanAll(front, newline), Cleaned(last, newline));
      DropCrAssigns(last);
    }
  }

  lemma MergedHaveNoNewline(existing: string, u: Updates)
    requires ProperUpdates(u)
    ensures NoNewlines(MergedLines(existing, u))
  {
    LinesHaveNoNewline(existing);
    RewrittenHaveNoNewline(Lines(existing), u);
    DroppedIsPrefix(RewriteAll(Lines(existing), u));
    MissingFacts(Lines(existing), u);
    hide Lines, RewriteAll, Missing, DropTrailingEmpty, ProperUpdates;
  }

  lemma RewrittenHaveNoNewline(lines: seq<string>, u: Updates)
    requires NoNewlines(lines) && ProperUpdates(u)
    ensures NoNewlines(RewriteAll(lines, u))
  {
    forall i | 0 <= i < |lines| ensures '\n' !in Rewrite(lines[i], u) {
      var line := lines[i];
      if MatchLine(line).Some? && Named(u, MatchLine(line).value.key) {
        RewriteMatched(line, u);
      } else {
        RewriteOther(line, u);
      }
    }
    hide Rewrite, ProperUpdates;
  }

  lemma {:induction false} DroppedIsPrefix(lines: seq<string>)
    ensures DropTrailingEmpty(lines) <= lines
    ensures DropTrailingEmpty(lines) != [] ==> DropTrailingEmpty(lines)[|DropTrailingEmpty(lines)| - 1] != ""
    ensures forall i :: |DropTrailingEmpty(lines)| <= i < |lines| ==> lines[i] == ""
  {
    if lines != [] && lines[|lines| - 1] == "" { DroppedIsPrefix(lines[..|lines| - 1]); }
  }

  /** Every pushed line assigns an update that no line had, in one plain line. */
  predicate Pushed(line: string, lines: seq<string>, u: Updates) {
    exists i :: 0 <= i < |u| && !Seen(lines, u[i].0) && line == u[i].0 + "=" + u[i].1
  }

  lemma {:induction false} MissingFacts(lines: seq<string>, u: Updates)
    requires ProperUpdates(u)
    ensures forall line :: line in Missing(lines, u) ==> Pushed(line, lines, u)
    ensures forall i :: 0 <= i < |u| && !Seen(lines, u[i].0) ==> u[i].0 + "=" + u[i].1 in Missing(lines, u)
    ensures forall line :: line in Missing(lines, u) ==> line != "" && !EndsInCr(line) && '\n' !in line
  {
    if u != [] {
      var front, n := u[..|u| - 1], |u| - 1;
      MissingFacts(lines, front);
      PushedIsOneLine(u[n].0, u[n].1);
      forall line | line in Missing(lines, front) ensures Pushed(line, lines, u) {
        var i :| 0 <= i < |front| && !Seen(lines, front[i].0) && line == front[i].0 + "=" + front[i].1;
        assert u[i] == front[i];
      }
      forall i | 0 <= i < |u| && !Seen(lines, u[i].0) ensures u[i].0 + "=" + u[i].1 in Missing(lines, u) {
        if i < n { assert front[i] == u[i]; }
      }
      hide Seen, EndsInCr, Identifier, Trimmed, SingleLine;
    }
  }

  // ----- the merge law -----

  lemma EmptyAtTheEnd(lines: seq<string>)
    ensures ParseLines(lines + [""]) == ParseLines(lines) && ParseLines(Kept(lines)) == ParseLines(lines)
  {
    ParseOneMore(lines, "");
    ParseOneMore([], "");
    assert [] + [""] == [""];
    EmptyAssignsNothing();
    hide ParseLine;
  }

  /** Parsing the merged text is parsing its lines. */
  lemma ParseOfMerge(existing: string, u: Updates)
    requires ProperUpdates(u)
    ensures Parse(Merge(existing, u)) == ParseLines(MergedLines(existing, u))
  {
    hide MergedLines, Lines, Join, Ended, CleanAll, ParseLines, ProperUpdates, HasCrLf;
    var lines, newline := MergedLines(existing, u), NewlineOf(existing);
    MergedHaveNoNewline(existing, u);
    MergedText(lines, newline);
    LinesOfEnded(Kept(lines), newline);
    CleaningAssignsNothing(Kept(lines), newline);
    EmptyAtTheEnd(lines);
    EmptyAtTheEnd(CleanAll(Kept(lines), newline));
  }

  /** A line assigns the key by the pattern, but the last line to assign it does so past the pattern. */
  predicate Stuck(lines: seq<string>, key: string) {
    Seen(lines, key) && !LastMatched(lines, key)
  }

  lemma {:induction false} SeenAssigns(lines: seq<string>, key: string)
    requires Seen(lines, key)
    ensures key in ParseLines(lines)
  {
    var i :| 0 <= i < |lines| && MatchLine(lines[i]).Some? && MatchLine(lines[i]).value.key == key;
    var front := lines[..|lines| - 1];
    if i == |lines| - 1 {
      MatchedAssigns(lines[i]);
    } else {
      assert front[i] == lines[i];
      SeenAssigns(front, key);
    }
  }

  /** An updated key is read back with its old value exactly when it is stuck. */
  lemma MergedKey(existing: string, u: Updates, key: string)
    requires ProperUpdates(u)
    ensures var after, overlay := Parse(Merge(existing, u)), Overlay(Parse(existing), u);
            && (key in after <==> key in overlay)
            && (key in after && !(Named(u, key) && Stuck(Lines(existing), key)) ==> after[key] == overlay[key])
    ensures Stuck(Lines(existing), key) ==> key in Parse(existing)
    ensures Named(u, key) && Stuck(Lines(existing), key) ==>
              key in Parse(Merge(existing, u)) && Parse(Merge(existing, u))[key] == Parse(existing)[key]
  {
    hide Merge, MergedLines, Seen, LastMatched, Overlay, Named, ValueOf, Lines, ParseLines;
    ParseOfMerge(existing, u);
    MergedAssigns(existing, u, key);
    OverlayAt(Parse(existing), u, key);
    if Seen(Lines(existing), key) { SeenAssigns(Lines(existing), key); }
  }

  /** No updated key is stuck at a value other than its new one. */
  predicate Unobstructed(existing: string, u: Updates) {
    forall i :: 0 <= i < |u| && Stuck(Lines(existing), u[i].0) ==> AlreadySo(existing, u[i])
  }

  lemma LawHolds(existing: string, u: Updates, key: string)
    requires ProperUpdates(u) && Unobstructed(existing, u) && key in Parse(Merge(existing, u))
    ensures key in Overlay(Parse(existing), u) && Parse(Merge(existing, u))[key] == Overlay(Parse(existing), u)[key]
  {
    hide Merge, Overlay, Stuck, ParseLines, Lines, Parse;
    MergedKey(existing, u, key);
    OverlayAt(Parse(existing), u, key);
    if Named(u, key) {
      var i :| 0 <= i < |u| && u[i].0 == key;
      ValueOfAt(u, i);
    }
    hide ValueOf, Named;
  }

  lemma LawNeeds(existing: string, u: Updates, i: nat)
    requires ProperUpdates(u) && i < |u| && Stuck(Lines(existing), u[i].0)
    requires Parse(Merge(existing, u)) == Overlay(Parse(existing), u)
    ensures AlreadySo(existing, u[i])
  {
    hide Merge, Overlay, Stuck, ParseLines, Lines, Parse;
    ValueOfAt(u, i);
    MergedKey(existing, u, u[i].0);
    OverlayAt(Parse(existing), u, u[i].0);
  }

  /**
   The merge law: the merged file assigns what the old one did, overlaid with the updates,
   exactly when no updated key is stuck at a value other than its new one.
  */
  lemma MergeLawExactly(existing: string, u: Updates)
    requires ProperUpdates(u)
    ensures Parse(Merge(existing, u)) == Overlay(Parse(existing), u) <==> Unobstructed(existing, u)
  {
    var after, overlay := Parse(Merge(existing, u)), Overlay(Parse(existing), u);
    hide Merge, Overlay, Stuck, Parse, AlreadySo;
    forall key ensures key in after <==> key in overlay { MergedKey(existing, u, key); }
    if Unobstructed(existing, u) {
      forall key | key in after ensures after[key] == overlay[key] { LawHolds(existing, u, key); }
      assert after == overlay;
    }
    if after == overlay {
      forall i | 0 <= i < |u| && Stuck(Lines(existing), u[i].0) ensures AlreadySo(existing, u[i]) {
        LawNeeds(existing, u, i);
      }
    }
  }

  predicate AlreadySo(existing: string, update: (string, string)) {
    update.0 in Parse(existing) && Parse(existing)[update.0] == update.1
  }

  /** Files whose lines hold no stray terminator have no stuck key, so the law holds for them. */
  lemma PlainFilesObeyTheLaw(existing: string, u: Updates)
    requires ProperUpdates(u) && forall i :: 0 <= i < |Lines(existing)| ==> SingleLine(Lines(existing)[i])
    ensures Parse(Merge(existing, u)) == Overlay(Parse(existing), u)
  {
    forall i | 0 <= i < |u| ensures !Stuck(Lines(existing), u[i].0) {
      NeverStuck(Lines(existing), u[i].0);
    }
    hide Stuck, Lines, Parse, Merge, Overlay, AlreadySo;
    MergeLawExactly(existing, u);
  }

  lemma NeverStuck(lines: seq<string>, key: string)
    requires Identifier(key) && forall i :: 0 <= i < |lines| ==> SingleLine(lines[i])
    ensures !Stuck(lines, key)
  {
    if Seen(lines, key) {
      SeenAssigns(lines, key);
      AssignedMatches(lines, key);
    }
  }

  lemma {:induction false} AssignedMatches(lines: seq<string>, key: string)
    requires Identifier(key) && key in ParseLines(lines) && forall i :: 0 <= i < |lines| ==> SingleLine(lines[i])
    ensures LastMatched(lines, key)
  {
    var front, last := lines[..|lines| - 1], lines[|lines| - 1];
    if ParseLine(last).Some? && ParseLine(last).value.key == key {
      PlainLineMatches(last);
    } else {
      AssignedMatches(front, key);
    }
    hide ParseLine, MatchLine, SingleLine, Identifier;
  }

  // ----- a stuck key -----

  lemma PastThePattern()
    ensures ParseLine("A=2\rX") == Some(Assignment("A", "2\rX")) && MatchLine("A=2\rX") == None
  {
    StrayAssigns();
    StrayNeverMatches();
  }

  lemma StrayAssigns()
    ensures ParseLine("A=2\rX") == Some(Assignment("A", "2\rX"))
  {
    var line := "A=2\rX";
    assert Trimmed(line) && Trimmed("2\rX");
    hide ParseLine, Trim, Trimmed;
    TrimIsTrimmed(line);
    TrimIsTrimmed("2\rX");
    assert "A" + "" + "=" + "2\rX" == line;
    CoreAssigns("A", "", "2\rX", line);
  }

  lemma StrayNeverMatches()
    ensures MatchLine("A=2\rX") == None
  {
    var line := "A=2\rX";
    RunEndIs(line, 0, 0, IsSpace);
    RunEndIs(line, 0, 1, IsIdentChar);
    RunEndIs(line, 1, 1, IsSpace);
    assert line[2..][1] == '\r';
  }

  const STRAY := "A=1\nA=2\rX"

  lemma StuckPair(first: string, second: string, key: string, value: string)
    requires MatchLine(first).Some? && MatchLine(first).value.key == key
    requires MatchLine(second) == None && ParseLine(second) == Some(Assignment(key, value))
    ensures Stuck([first, second], key) && key in ParseLines([first, second]) && ParseLines([first, second])[key] == value
  {
    hide MatchLine, ParseLine;
    var lines := [first, second];
    assert lines == [first] + [second];
    assert Seen(lines, key) by { assert lines[0] == first; }
    ParseOneMore([first], second);
  }

  lemma WithThePattern()
    ensures MatchLine("A=1").Some? && MatchLine("A=1").value.key == "A"
  {
    PushedLine("A", "1");
    assert "A" + "=" + "1" == "A=1";
  }

  lemma TwoLines(first: string, second: string)
    requires '\n' !in first && '\n' !in second
    ensures Lines(first + "\n" + second) == [first, second] || EndsInCr(first)
  {
    FirstLine(first, "\n", second);
  }

  lemma StuckFile(first: string, second: string, key: string, value: string)
    requires '\n' !in first && '\n' !in second && !EndsInCr(first)
    requires MatchLine(first).Some? && MatchLine(first).value.key == key
    requires MatchLine(second) == None && ParseLine(second) == Some(Assignment(key, value))
    ensures var existing := first + "\n" + second;
            Stuck(Lines(existing), key) && key in Parse(existing) && Parse(existing)[key] == value
  {
    hide MatchLine, ParseLine, Lines, Stuck, ParseLines;
    TwoLines(first, second);
    StuckPair(first, second, key, value);
  }

  lemma StrayFile()
    ensures Stuck(Lines(STRAY), "A") && "A" in Parse(STRAY) && Parse(STRAY)["A"] == "2\rX"
  {
    hide ParseLine, MatchLine, Lines, Stuck, ParseLines, Parse;
    PastThePattern();
    WithThePattern();
    StuckFile("A=1", "A=2\rX", "A", "2\rX");
    assert STRAY == "A=1" + "\n" + "A=2\rX";
  }

  lemma StuckBreaksTheLaw(existing: string, u: Updates)
    requires ProperUpdates(u) && u != [] && Stuck(Lines(existing), u[0].0) && !AlreadySo(existing, u[0])
    ensures Parse(Merge(existing, u)) != Overlay(Parse(existing), u)
  {
    hide Merge, Overlay, Parse, Stuck, AlreadySo;
    MergeLawExactly(existing, u);
  }

  /** The pattern rewrites the first line, and the second, which it does not match, still wins. */
  lemma TheLawCanFail()
    ensures Parse(Merge(STRAY, [("A", "3")])) != Overlay(Parse(STRAY), [("A", "3")])
  {
    hide Merge, Overlay, Parse, Stuck, Lines;
    StrayFile();
    StuckBreaksTheLaw(STRAY, [("A", "3")]);
  }
}

/** Reading and merging as they run: a map, a set of seen keys and a list of lines built by loops. */
module EnvFile {
  import opened Text
  import opened Wrappers
  import opened EnvText
  import opened EnvSettings

  method ReadEnv(text: string) returns (values: map<string, string>)
    ensures values == Parse(text)
  {
    var lines := Lines(text);
    values := map[];
    for i := 0 to |lines|
      invariant values == ParseLines(lines[..i])
    {
      assert lines[..i + 1][..i] == lines[..i];
      var trimmed := Trim(lines[i]);
      if trimmed == "" || trimmed[0] == '#' { continue; }
      var at := EqualsAt(trimmed);
      if at == |trimmed| || at == 0 { continue; }
      values := values[Trim(trimmed[..at]) := Trim(trimmed[at + 1..])];
    }
    assert lines[..|lines|] == lines;
  }

  /** The keys that some line assigned. */
  predicate SeenSet(seen: set<string>, lines: seq<string>, u: Updates) {
    forall i :: 0 <= i < |u| ==> (u[i].0 in seen <==> Seen(lines, u[i].0))
  }

  method RewriteLines(lines: seq<string>, u: Updates) returns (rewritten: seq<string>, seen: set<string>)
    ensures rewritten == RewriteAll(lines, u) && SeenSet(seen, lines, u)
  {
    rewritten, seen := [], {};
    for i := 0 to |lines|
      invariant rewritten == RewriteAll(lines[..i], u) && SeenSet(seen, lines[..i], u)
    {
      var line := lines[i];
      var parts := MatchLine(line);
      assert lines[..i + 1] == lines[..i] + [line];
      assert RewriteAll(lines[..i + 1], u) == RewriteAll(lines[..i], u) + [Rewrite(line, u)];
      SeenGrows(lines[..i], line, u);
      hide MatchLine, RewriteAll, Seen;
      if parts.Some? && Named(u, parts.value.key) {
        seen := seen + {parts.value.key};
        rewritten := rewritten + [Build(parts.value.(rest := ValueOf(u, parts.value.key)))];
      } else {
        UnnamedIsUnseen(parts, u);
        rewritten := rewritten + [line];
      }
    }
    assert lines[..|lines|] == lines;
  }

  lemma SeenGrows(lines: seq<string>, line: string, u: Updates)
    ensures forall key :: Seen(lines + [line], key) <==>
              Seen(lines, key) || (MatchLine(line).Some? && MatchLine(line).value.key == key)
  {
    var more := lines + [line];
    hide MatchLine;
    forall key ensures Seen(more, key) <==>
        Seen(lines, key) || (MatchLine(line).Some? && MatchLine(line).value.key == key)
    {
      if Seen(lines, key) {
        var i :| 0 <= i < |lines| && MatchLine(lines[i]).Some? && MatchLine(lines[i]).value.key == key;
        assert more[i] == lines[i];
      }
      if MatchLine(line).Some? && MatchLine(line).value.key == key { assert more[|lines|] == line; }
    }
  }

  lemma UnnamedIsUnseen(parts: Option<Parts>, u: Updates)
    requires parts.Some? ==> !Named(u, parts.value.key)
    ensures forall i :: 0 <= i < |u| && parts.Some? ==> u[i].0 != parts.value.key
  {
  }

  method MergeEnvContent(existing: string, u: Updates) returns (merged: string)
    ensures merged == Merge(existing, u)
  {
    hide Lines, HasCrLf, RewriteAll, Missing, DropTrailingEmpty, Join, SeenSet;
    var newline := if HasCrLf(existing) then "\r\n" else "\n";
    var before := Lines(existing);
    var lines, seen := RewriteLines(before, u);
    lines := PopEmpty(lines);
    var pushed := PushMissing(before, u, seen);
    lines := lines + pushed;
    merged := Join(lines, newline) + newline;
  }

  method PopEmpty(rewritten: seq<string>) returns (lines: seq<string>)
    ensures lines == DropTrailingEmpty(rewritten)
  {
    lines := rewritten;
    while lines != [] && lines[|lines| - 1] == ""
      invariant DropTrailingEmpty(lines) == DropTrailingEmpty(rewritten)
      decreases |lines|
    {
      lines := lines[..|lines| - 1];
    }
  }

  method PushMissing(before: seq<string>, u: Updates, seen: set<string>) returns (pushed: seq<string>)
    requires SeenSet(seen, before, u)
    ensures pushed == Missing(before, u)
  {
    hide Seen;
    pushed := [];
    for i := 0 to |u|
      invariant pushed == Missing(before, u[..i])
    {
      assert u[..i + 1][..i] == u[..i];
      if u[i].0 !in seen { pushed := pushed + [u[i].0 + "=" + u[i].1]; }
    }
    assert u[..|u|] == u;
  }
}
