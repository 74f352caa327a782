/** When merging the same updates a second time gives the identical text. */
module EnvIdempotence {
  import opened Text
  import opened Wrappers
  import opened EnvText
  import opened EnvLines
  import opened EnvSettings

  // ----- where newlines stand in a text of ended lines -----

  /** A newline that no carriage return precedes. */
  predicate HasBare(s: string) {
    exists i :: 0 <= i < |s| && s[i] == '\n' && (i == 0 || s[i - 1] != '\r')
  }

  predicate SomeCr(lines: seq<string>) {
    exists i :: 0 <= i < |lines| && EndsInCr(lines[i])
  }

  predicate SomePlain(lines: seq<string>) {
    exists i :: 0 <= i < |lines| && !EndsInCr(lines[i])
  }

  /** Characters of the first line, of its newline, and of the rest. */
  lemma EndedFirst(line: string, newline: string, t: string)
    ensures var s := line + newline + t; var n := |line| + |newline|;
            && |s| == n + |t|
            && (forall i :: 0 <= i < |line| ==> s[i] == line[i])
            && (forall i :: 0 <= i < |newline| ==> s[|line| + i] == newline[i])
            && (forall i :: 0 <= i < |t| ==> s[n + i] == t[i])
  {
  }

  /** With single newlines, a carriage return at a line's end makes a pair, and only that does. */
  lemma {:induction false} CrLfInEnded(lines: seq<string>)
    requires NoNewlines(lines)
    ensures HasCrLf(Ended(lines, "\n")) <==> SomeCr(lines)
  {
    if lines != [] {
      var line, t := lines[0], Ended(lines[1..], "\n");
      CrLfInEnded(lines[1..]);
      CrLfAtFirst(line, t);
      assert SomeCr(lines) <==> EndsInCr(line) || SomeCr(lines[1..]) by {
        if SomeCr(lines[1..]) {
          var i :| 0 <= i < |lines[1..]| && EndsInCr(lines[1..][i]);
          assert lines[i + 1] == lines[1..][i];
        }
        if SomeCr(lines) && !EndsInCr(line) {
          var i :| 0 <= i < |lines| && EndsInCr(lines[i]);
          assert lines[1..][i - 1] == lines[i];
        }
        hide EndsInCr;
      }
    }
  }

  lemma CrLfAtFirst(line: string, t: string)
    requires '\n' !in line
    ensures HasCrLf(line + "\n" + t) <==> EndsInCr(line) || HasCrLf(t)
  {
    EndedFirst(line, "\n", t);
    FirstPair(line + "\n" + t, line, t);
    LaterPair(line + "\n" + t, line, t);
  }

  lemma FirstPair(s: string, line: string, t: string)
    requires |s| == |line| + 1 + |t| && s[|line|] == '\n'
    requires (forall i :: 0 <= i < |line| ==> s[i] == line[i]) && (forall i :: 0 <= i < |t| ==> s[|line| + 1 + i] == t[i])
    ensures EndsInCr(line) || HasCrLf(t) ==> HasCrLf(s)
  {
    if EndsInCr(line) { assert s[|line| - 1] == '\r'; }
    if HasCrLf(t) {
      var i :| 0 < i < |t| && t[i - 1] == '\r' && t[i] == '\n';
      assert s[|line| + 1 + (i - 1)] == t[i - 1] && s[|line| + 1 + i] == t[i];
      assert s[|line| + 1 + i - 1] == '\r';
    }
  }

  lemma LaterPair(s: string, line: string, t: string)
    requires '\n' !in line && |s| == |line| + 1 + |t| && s[|line|] == '\n'
    requires (forall i :: 0 <= i < |line| ==> s[i] == line[i]) && (forall i :: 0 <= i < |t| ==> s[|line| + 1 + i] == t[i])
    ensures HasCrLf(s) ==> EndsInCr(line) || HasCrLf(t)
  {
    if HasCrLf(s) {
      var i :| 0 < i < |s| && s[i - 1] == '\r' && s[i] == '\n';
      var j := i - |line| - 1;
      if j == -1 {
        assert line[|line| - 1] == s[|line| - 1];
      } else {
        assert j > 0;
        assert t[j] == s[|line| + 1 + j] && t[j - 1] == s[|line| + 1 + (j - 1)];
      }
    }
  }

  /** With single newlines, a line without a carriage return ends in a bare newline. */
  lemma {:induction false} BareInEnded(lines: seq<string>)
    requires SomePlain(lines)
    ensures HasBare(Ended(lines, "\n"))
  {
    var line, t := lines[0], Ended(lines[1..], "\n");
    EndedFirst(line, "\n", t);
    if EndsInCr(line) {
      var i :| 0 <= i < |lines| && !EndsInCr(lines[i]);
      assert lines[1..][i - 1] == lines[i];
      BareInEnded(lines[1..]);
    }
    hide EndsInCr, Ended;
    BareAtFirst(line + "\n" + t, line, t);
  }

  lemma BareAtFirst(s: string, line: string, t: string)
    requires |s| == |line| + 1 + |t| && s[|line|] == '\n' && (EndsInCr(line) ==> HasBare(t))
    requires (forall i :: 0 <= i < |line| ==> s[i] == line[i]) && (forall i :: 0 <= i < |t| ==> s[|line| + 1 + i] == t[i])
    ensures HasBare(s)
  {
    if EndsInCr(line) {
      var j :| 0 <= j < |t| && t[j] == '\n' && (j == 0 || t[j - 1] != '\r');
      var i := |line| + 1 + j;
      assert s[i] == t[j];
      assert s[i - 1] == if j == 0 then '\n' else t[j - 1] by { if j > 0 { assert s[|line| + 1 + (j - 1)] == t[j - 1]; } }
    } else if |line| > 0 {
      assert s[|line| - 1] == line[|line| - 1];
    }
  }

  /** With pairs for newlines, none is bare. */
  lemma {:induction false} NoBareInEnded(lines: seq<string>)
    requires NoNewlines(lines)
    ensures !HasBare(Ended(lines, "\r\n"))
  {
    if lines != [] {
      var line, t := lines[0], Ended(lines[1..], "\r\n");
      NoBareInEnded(lines[1..]);
      EndedFirst(line, "\r\n", t);
      var s, n := line + "\r\n" + t, |line| + 2;
      forall i | 0 <= i < |s| && s[i] == '\n' ensures i > 0 && s[i - 1] == '\r' {
        assert s[|line| + 0] == '\r' && s[|line| + 1] == '\n';
        assert i >= |line| + 1;
        assert i >= n ==> s[n + (i - n)] == t[i - n];
        assert i > n ==> s[n + (i - n - 1)] == t[i - n - 1];
      }
    }
  }

  lemma {:induction false} PairInEnded(lines: seq<string>)
    requires lines != []
    ensures HasCrLf(Ended(lines, "\r\n"))
  {
    var line, t := lines[0], Ended(lines[1..], "\r\n");
    EndedFirst(line, "\r\n", t);
    var s := line + "\r\n" + t;
    assert s[|line|] == '\r' && s[|line| + 1] == '\n';
  }

  // ----- carriage returns in the lines of a file -----

  /** Without pairs only the last line can end in a carriage return, and does when the file does. */
  lemma {:induction false} CrOnlyAtTheEnd(s: string)
    requires !HasCrLf(s)
    ensures var lines := Lines(s);
            && (forall i :: 0 <= i < |lines| - 1 ==> !EndsInCr(lines[i]))
            && (EndsInCr(lines[|lines| - 1]) <==> EndsInCr(s))
    decreases |s|
  {
    var i := NewlineAt(s);
    if i < |s| {
      var line, t := s[..i], s[i + 1..];
      assert s == line + "\n" + t;
      CrLfAtFirst(line, t);
      CrOnlyAtTheEnd(t);
      assert EndsInCr(t) <==> EndsInCr(s);
    }
  }

  // ----- the merged lines -----

  lemma StableRewritten(lines: seq<string>, u: Updates, line: string)
    requires ProperUpdates(u) && line in RewriteAll(lines, u)
    ensures Rewrite(line, u) == line
  {
    var i :| 0 <= i < |lines| && Rewrite(lines[i], u) == line;
    hide Rewrite, ProperUpdates;
    RewriteTwice(lines[i], u);
  }

  lemma RewriteKnown(line: string, p: Parts, u: Updates)
    requires MatchLine(line) == Some(p) && Named(u, p.key) && ValueOf(u, p.key) == p.rest && Build(p) == line
    ensures Rewrite(line, u) == line
  {
    hide MatchLine, Named, ValueOf, Build;
    assert p.(rest := p.rest) == p;
  }

  lemma PushedBuilt(key: string, value: string)
    ensures Build(Parts("", key, "", value)) == key + "=" + value
  {
  }

  lemma StablePushed(lines: seq<string>, u: Updates, line: string)
    requires ProperUpdates(u) && Pushed(line, lines, u)
    ensures Rewrite(line, u) == line
  {
    hide MatchLine, Seen, ValueOf, Named, Trimmed, SingleLine, Identifier, Rewrite, Build;
    var i :| 0 <= i < |u| && !Seen(lines, u[i].0) && line == u[i].0 + "=" + u[i].1;
    PushedLine(u[i].0, u[i].1);
    ValueOfAt(u, i);
    PushedBuilt(u[i].0, u[i].1);
    RewriteKnown(line, Parts("", u[i].0, "", u[i].1), u);
  }

  /** Merged lines stay as they are. */
  lemma LinesStable(existing: string, u: Updates, line: string)
    requires ProperUpdates(u) && line in MergedLines(existing, u)
    ensures Rewrite(line, u) == line
  {
    var lines := Lines(existing);
    DroppedIsPrefix(RewriteAll(lines, u));
    MissingFacts(lines, u);
    hide Lines, Missing, Rewrite, Seen, ProperUpdates, EndsInCr, Pushed, DropTrailingEmpty, RewriteAll;
    if line in DropTrailingEmpty(RewriteAll(lines, u)) {
      StableRewritten(lines, u, line);
    } else {
      StablePushed(lines, u, line);
    }
  }

  /** Every updated key has a merged line. */
  lemma KeysSeen(existing: string, u: Updates, i: nat)
    requires ProperUpdates(u) && i < |u|
    ensures Seen(MergedLines(existing, u), u[i].0)
  {
    var lines := Lines(existing);
    MissingFacts(lines, u);
    hide Lines, Missing, Rewrite, Seen, ProperUpdates, EndsInCr, Pushed, DropTrailingEmpty, RewriteAll;
    KeySeen(lines, u, DropTrailingEmpty(RewriteAll(lines, u)), Missing(lines, u), i);
  }

  lemma MergedEndsWell(existing: string, u: Updates)
    requires ProperUpdates(u)
    ensures DropTrailingEmpty(MergedLines(existing, u)) == MergedLines(existing, u)
  {
    var lines := Lines(existing);
    DroppedIsPrefix(RewriteAll(lines, u));
    MissingFacts(lines, u);
    hide Lines, Missing, Rewrite, Seen, ProperUpdates, EndsInCr, Pushed, DropTrailingEmpty, RewriteAll;
    var pushed := Missing(lines, u);
    assert pushed != [] ==> pushed[|pushed| - 1] in pushed;
    NoTrailingEmpty(MergedLines(existing, u));
  }

  lemma KeySeen(lines: seq<string>, u: Updates, base: seq<string>, pushed: seq<string>, i: nat)
    requires ProperUpdates(u) && i < |u| && base == DropTrailingEmpty(RewriteAll(lines, u))
    requires !Seen(lines, u[i].0) ==> u[i].0 + "=" + u[i].1 in pushed
    ensures Seen(base + pushed, u[i].0)
  {
    var key, all := u[i].0, base + pushed;
    if Seen(lines, key) {
      var k :| 0 <= k < |lines| && MatchLine(lines[k]).Some? && MatchLine(lines[k]).value.key == key;
      assert Named(u, key);
      RewriteMatched(lines[k], u);
      DroppedIsPrefix(RewriteAll(lines, u));
      assert RewriteAll(lines, u)[k] == Rewrite(lines[k], u);
      assert all[k] == Rewrite(lines[k], u);
    } else {
      PushedLine(key, u[i].1);
      var line := key + "=" + u[i].1;
      var k :| 0 <= k < |pushed| && pushed[k] == line;
      assert all[|base| + k] == line;
    }
    hide Rewrite, MatchLine;
  }

  lemma NoTrailingEmpty(lines: seq<string>)
    requires lines != [] ==> lines[|lines| - 1] != ""
    ensures DropTrailingEmpty(lines) == lines
  {
  }

  // ----- merging again -----

  /** Read back with the same newline, the merged lines are there, and an empty one. */
  lemma ReadBack(lines: seq<string>, newline: string)
    requires NoNewlines(lines) && IsNewline(newline)
    ensures Lines(Join(lines, newline) + newline) == CleanAll(Kept(lines), newline) + [""]
  {
    MergedText(lines, newline);
    hide Lines, Join, Ended, CleanAll;
    LinesOfEnded(Kept(lines), newline);
  }

  lemma CleanIsSame(lines: seq<string>, newline: string)
    requires newline == "\n" ==> !SomeCr(lines)
    ensures CleanAll(lines, newline) == lines
  {
  }

  lemma {:induction false} NothingMissing(lines: seq<string>, u: Updates)
    requires forall i :: 0 <= i < |u| ==> Seen(lines, u[i].0)
    ensures Missing(lines, u) == []
  {
    if u != [] {
      NothingMissing(lines, u[..|u| - 1]);
      assert Seen(lines, u[|u| - 1].0);
    }
  }

  lemma SeenInMore(lines: seq<string>, line: string, key: string)
    requires Seen(lines, key)
    ensures Seen(lines + [line], key)
  {
    var i :| 0 <= i < |lines| && MatchLine(lines[i]).Some? && MatchLine(lines[i]).value.key == key;
    assert (lines + [line])[i] == lines[i];
  }

  /** Lines that are stable, complete and well ended come out of a merge as they went in. */
  lemma StableLinesMerge(lines: seq<string>, u: Updates)
    requires ProperUpdates(u) && DropTrailingEmpty(lines) == lines
    requires forall line :: line in lines ==> Rewrite(line, u) == line
    requires forall i :: 0 <= i < |u| ==> Seen(lines, u[i].0)
    ensures DropTrailingEmpty(RewriteAll(Kept(lines) + [""], u)) + Missing(Kept(lines) + [""], u) == lines
  {
    var all := Kept(lines) + [""];
    EmptyIsStable(u);
    hide Rewrite, Seen, ProperUpdates, DropTrailingEmpty, Missing;
    assert RewriteAll(all, u) == all by {
      forall i | 0 <= i < |all| ensures Rewrite(all[i], u) == all[i] {
        if i < |lines| { assert all[i] == lines[i]; }
      }
    }
    hide RewriteAll;
    DropOne(Kept(lines));
    if lines == [] {
      DropOne([]);
      assert [] + [""] == [""];
      assert u == [] by { if u != [] { NoLinesNothingSeen(u[0].0); } }
    } else {
      forall i | 0 <= i < |u| ensures Seen(all, u[i].0) { SeenInMore(lines, "", u[i].0); }
    }
    NothingMissing(all, u);
    assert lines + [] == lines;
  }

  lemma NoLinesNothingSeen(key: string)
    ensures !Seen([], key)
  {
  }

  lemma EmptyIsStable(u: Updates)
    ensures Rewrite("", u) == ""
  {
  }

  lemma DropOne(lines: seq<string>)
    ensures DropTrailingEmpty(lines + [""]) == DropTrailingEmpty(lines)
  {
    assert (lines + [""])[..|lines|] == lines;
  }

  lemma KeptFacts(lines: seq<string>)
    ensures Kept(lines) != [] && (NoNewlines(lines) ==> NoNewlines(Kept(lines)))
    ensures SomeCr(Kept(lines)) <==> SomeCr(lines)
  {
  }

  lemma NewlineStays(existing: string, u: Updates)
    requires ProperUpdates(u) && (NewlineOf(existing) == "\n" ==> !SomeCr(MergedLines(existing, u)))
    ensures NewlineOf(Merge(existing, u)) == NewlineOf(existing)
  {
    hide MergedLines, Join, Ended, HasCrLf, SomeCr, NoNewlines, Kept, EndsInCr, ProperUpdates;
    var lines, newline := MergedLines(existing, u), NewlineOf(existing);
    MergedHaveNoNewline(existing, u);
    MergedText(lines, newline);
    KeptFacts(lines);
    if newline == "\n" {
      CrLfInEnded(Kept(lines));
    } else {
      assert newline == "\r\n";
      PairInEnded(Kept(lines));
    }
  }

  /** Merging again gives the same text when no merged line loses a carriage return. */
  lemma MergeTwice(existing: string, u: Updates)
    requires ProperUpdates(u) && (NewlineOf(existing) == "\n" ==> !SomeCr(MergedLines(existing, u)))
    ensures Merge(Merge(existing, u), u) == Merge(existing, u)
  {
    var lines, newline := MergedLines(existing, u), NewlineOf(existing);
    NewlineStays(existing, u);
    MergedHaveNoNewline(existing, u);
    forall line | line in lines ensures Rewrite(line, u) == line { LinesStable(existing, u, line); }
    forall i | 0 <= i < |u| ensures Seen(lines, u[i].0) { KeysSeen(existing, u, i); }
    MergedEndsWell(existing, u);
    ReadBack(lines, newline);
    assert newline == "\n" ==> !SomeCr(Kept(lines));
    CleanIsSame(Kept(lines), newline);
    var again := MergedLines(Merge(existing, u), u);
    assert Lines(Merge(existing, u)) == Kept(lines) + [""];
    StableLinesMerge(lines, u);
    hide Lines, Join, CleanAll, Kept, RewriteAll, Missing, DropTrailingEmpty, Rewrite, Seen, ProperUpdates, HasCrLf, NoNewlines;
    assert again == lines;
  }

  // ----- the exact condition -----

  lemma CrComesFromTheFile(base: seq<string>, pushed: seq<string>, rewritten: seq<string>, lines: seq<string>)
    requires base <= rewritten && |rewritten| == |lines| && (forall line :: line in pushed ==> !EndsInCr(line))
    requires forall i :: 0 <= i < |lines| ==> (EndsInCr(rewritten[i]) <==> EndsInCr(lines[i]))
    ensures SomeCr(base + pushed) ==> SomeCr(lines)
  {
    var all := base + pushed;
    forall k | |base| <= k < |all| ensures !EndsInCr(all[k]) { assert all[k] in pushed; }
    hide EndsInCr;
    if SomeCr(all) {
      var i :| 0 <= i < |all| && EndsInCr(all[i]);
      assert all[i] == base[i] == rewritten[i];
    }
  }

  lemma CrReachesTheMerge(base: seq<string>, pushed: seq<string>, rewritten: seq<string>, i: nat)
    requires base <= rewritten && i < |rewritten| && EndsInCr(rewritten[i])
    requires forall k :: |base| <= k < |rewritten| ==> rewritten[k] == ""
    ensures i < |base| && SomeCr(base + pushed)
  {
    CrIsNotEmpty(rewritten[i]);
    assert (base + pushed)[i] == rewritten[i];
  }

  /** Without pairs a merged line ends in a carriage return exactly when the file does. */
  lemma MergedCr(existing: string, u: Updates)
    requires ProperUpdates(u) && !HasCrLf(existing)
    ensures SomeCr(MergedLines(existing, u)) <==> EndsInCr(existing)
  {
    var lines := Lines(existing);
    hide HasCrLf, Lines, Missing, ProperUpdates, EndsInCr, Pushed, Seen, Rewrite, DropTrailingEmpty;
    CrOnlyAtTheEnd(existing);
    MissingFacts(lines, u);
    DroppedIsPrefix(RewriteAll(lines, u));
    forall i | 0 <= i < |lines| ensures EndsInCr(Rewrite(lines[i], u)) <==> EndsInCr(lines[i]) {
      RewriteKeepsCr(lines[i], u);
    }
    var base := DropTrailingEmpty(RewriteAll(lines, u));
    CrComesFromTheFile(base, Missing(lines, u), RewriteAll(lines, u), lines);
    if EndsInCr(existing) { CrReachesTheMerge(base, Missing(lines, u), RewriteAll(lines, u), |lines| - 1); }
  }

  lemma CrIsNotEmpty(s: string)
    requires EndsInCr(s)
    ensures s != ""
  {
  }

  lemma RewriteKeepsCr(line: string, u: Updates)
    requires ProperUpdates(u)
    ensures EndsInCr(Rewrite(line, u)) <==> EndsInCr(line)
  {
    if EndsInCr(line) {
      CrNeverMatches(line);
    } else if MatchLine(line).Some? && Named(u, MatchLine(line).value.key) {
      RewriteMatched(line, u);
    } else {
      RewriteOther(line, u);
    }
    hide MatchLine, Rewrite, Named;
  }

  lemma FirstOfLone(existing: string)
    requires EndsInCr(existing) && '\n' !in existing
    ensures Merge(existing, []) == existing + "\n"
  {
    assert !HasCrLf(existing);
    OneLine(existing);
    MergeNothing(existing, [existing]);
  }

  lemma SecondOfLone(line: string)
    requires '\n' !in line
    ensures Merge(line + "\r\n", []) == line + "\r\n"
  {
    var merged := line + "\r\n";
    assert merged == line + "\r\n" + "";
    FirstLine(line, "\r\n", "");
    LinesOfNothing();
    PairAt(merged, |line| + 1);
    MergeNothing(merged, [line, ""]);
    hide Lines, Merge, Cleaned;
    assert [line, ""][..1] == [line] && [line][..0] == [];
    assert DropTrailingEmpty([line, ""]) == DropTrailingEmpty([line]);
    assert line == "" ==> Join(DropTrailingEmpty([line]), "\r\n") == line;
    assert line != "" ==> Join(DropTrailingEmpty([line]), "\r\n") == line;
  }

  /** A file of one line ending in a carriage return, merged with nothing. */
  lemma LoneLine(existing: string)
    requires EndsInCr(existing) && '\n' !in existing
    ensures Merge(Merge(existing, []), []) == Merge(existing, [])
  {
    var line := DropCr(existing);
    assert existing + "\n" == line + "\r\n" && '\n' !in line;
    hide Merge, EndsInCr;
    FirstOfLone(existing);
    SecondOfLone(line);
  }

  lemma PairAt(s: string, i: nat)
    requires 0 < i < |s| && s[i - 1] == '\r' && s[i] == '\n'
    ensures NewlineOf(s) == "\r\n"
  {
  }

  lemma OneLine(s: string)
    requires '\n' !in s
    ensures Lines(s) == [s]
  {
  }

  /** Merging nothing only normalises the end of the file. */
  lemma MergeNothing(existing: string, lines: seq<string>)
    requires Lines(existing) == lines
    ensures Merge(existing, []) == Join(DropTrailingEmpty(lines), NewlineOf(existing)) + NewlineOf(existing)
  {
    assert RewriteAll(lines, []) == lines by {
      forall i | 0 <= i < |lines| ensures Rewrite(lines[i], []) == lines[i] { RewriteOther(lines[i], []); }
    }
    assert Missing(lines, []) == [];
    assert MergedLines(existing, []) == DropTrailingEmpty(lines);
  }

  /** Otherwise some merged line ends without a carriage return. */
  lemma SomeLineIsPlain(existing: string, u: Updates)
    requires ProperUpdates(u) && !HasCrLf(existing) && EndsInCr(existing) && ('\n' in existing || u != [])
    ensures SomePlain(MergedLines(existing, u))
  {
    var lines := Lines(existing);
    var base, pushed := DropTrailingEmpty(RewriteAll(lines, u)), Missing(lines, u);
    CrOnlyAtTheEnd(existing);
    MissingFacts(lines, u);
    DroppedIsPrefix(RewriteAll(lines, u));
    var last := |lines| - 1;
    RewriteKeepsCr(lines[last], u);
    CrIsNotEmpty(Rewrite(lines[last], u));
    assert |base| == |lines|;
    if '\n' in existing {
      assert |lines| >= 2;
      RewriteKeepsCr(lines[0], u);
      hide Lines, EndsInCr, Rewrite, Missing, DropTrailingEmpty, HasCrLf, Seen, Pushed, ProperUpdates;
      assert MergedLines(existing, u)[0] == Rewrite(lines[0], u);
    } else {
      assert base == RewriteAll(lines, u);
      assert Named(u, u[0].0);
      hide Lines, EndsInCr, Rewrite, Missing, DropTrailingEmpty, HasCrLf, Pushed, ProperUpdates;
      UpdateIsPlain(lines, u, base, pushed);
    }
  }

  lemma UpdateIsPlain(lines: seq<string>, u: Updates, base: seq<string>, pushed: seq<string>)
    requires ProperUpdates(u) && u != [] && base == RewriteAll(lines, u)
    requires !Seen(lines, u[0].0) ==> u[0].0 + "=" + u[0].1 in pushed
    ensures SomePlain(base + pushed)
  {
    var key := u[0].0;
    if Seen(lines, key) {
      SeenIsPlain(lines, u, base + pushed, key);
    } else {
      PushedIsOneLine(key, u[0].1);
      var line := key + "=" + u[0].1;
      var k :| 0 <= k < |pushed| && pushed[k] == line;
      assert (base + pushed)[|base| + k] == line;
    }
  }

  lemma SeenIsPlain(lines: seq<string>, u: Updates, all: seq<string>, key: string)
    requires ProperUpdates(u) && Named(u, key) && Seen(lines, key) && RewriteAll(lines, u) <= all
    ensures SomePlain(all)
  {
    var k :| 0 <= k < |lines| && MatchLine(lines[k]).Some? && MatchLine(lines[k]).value.key == key;
    RewriteMatched(lines[k], u);
    hide MatchLine, Rewrite, EndsInCr, Named;
    assert all[k] == RewriteAll(lines, u)[k] == Rewrite(lines[k], u);
  }

  /** Such a file gets its newlines changed by the second merge. */
  lemma MergeTwiceDiffers(existing: string, u: Updates)
    requires ProperUpdates(u) && !HasCrLf(existing) && EndsInCr(existing) && ('\n' in existing || u != [])
    ensures Merge(Merge(existing, u), u) != Merge(existing, u)
  {
    var lines := MergedLines(existing, u);
    SomeLineIsPlain(existing, u);
    MergedCr(existing, u);
    MergedHaveNoNewline(existing, u);
    MergedText(lines, "\n");
    KeptFacts(lines);
    var merged := Merge(existing, u);
    var again := MergedLines(merged, u);
    MergedHaveNoNewline(merged, u);
    MergedText(again, "\r\n");
    KeptFacts(again);
    hide MergedLines, Join, Ended, SomeCr, SomePlain, NoNewlines, Kept, EndsInCr, ProperUpdates, HasCrLf, HasBare;
    assert lines == Kept(lines) by { PlainIsNotEmpty(lines); }
    BareInEnded(lines);
    CrLfInEnded(lines);
    assert NewlineOf(merged) == "\r\n";
    NoBareInEnded(Kept(again));
  }

  lemma PlainIsNotEmpty(lines: seq<string>)
    requires SomePlain(lines)
    ensures Kept(lines) == lines
  {
  }

  /**
   Merging the same updates again gives the identical text exactly when the file has a
   carriage-return newline, or does not end in a lone carriage return, or is one line
   merged with nothing.
  */
  lemma MergeIsIdempotentExactly(existing: string, u: Updates)
    requires ProperUpdates(u)
    ensures Merge(Merge(existing, u), u) == Merge(existing, u)
            <==> HasCrLf(existing) || !EndsInCr(existing) || ('\n' !in existing && u == [])
  {
    hide Merge, MergedLines, HasCrLf, EndsInCr, ProperUpdates, SomeCr;
    if HasCrLf(existing) {
      MergeTwice(existing, u);
    } else if !EndsInCr(existing) {
      MergedCr(existing, u);
      MergeTwice(existing, u);
    } else if '\n' !in existing && u == [] {
      LoneLine(existing);
    } else {
      MergeTwiceDiffers(existing, u);
    }
  }

  /** One line that ends in a lone carriage return, and one update: the second merge changes the newlines. */
  lemma SecondMergeCanDiffer()
    ensures var file, u := "A\r", [("K", "1")];
            ProperUpdates(u) && Merge(Merge(file, u), u) != Merge(file, u)
  {
    var file, u := "A\r", [("K", "1")];
    assert ProperUpdates(u) && !HasCrLf(file) && EndsInCr(file);
    hide Merge, ProperUpdates, HasCrLf;
    MergeTwiceDiffers(file, u);
  }
}
