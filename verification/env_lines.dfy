/** One line at a time: trimming, matching and what a rewritten line assigns. */
module EnvLines {
  import opened Text
  import opened Wrappers
  import opened EnvText

  // ----- trimming -----

  lemma {:induction false} TrimStartOf(a: string, s: string)
    requires AllSpace(a)
    ensures TrimStart(a + s) == TrimStart(s)
    decreases |a|
  {
    if a == "" {
      assert a + s == s;
    } else {
      assert (a + s)[1..] == a[1..] + s;
      TrimStartOf(a[1..], s);
    }
  }

  lemma {:induction false} TrimEndOf(s: string, b: string)
    requires AllSpace(b)
    ensures TrimEnd(s + b) == TrimEnd(s)
    decreases |b|
  {
    if b == "" {
      assert s + b == s;
    } else {
      var front := b[..|b| - 1];
      assert (s + b)[..|s + b| - 1] == s + front;
      assert (s + b)[|s + b| - 1] == b[|b| - 1];
      TrimEndOf(s, front);
    }
  }

  lemma {:induction false} TrimEndOfSpace(s: string)
    requires AllSpace(s)
    ensures TrimEnd(s) == ""
  {
    if s != "" { TrimEndOfSpace(s[..|s| - 1]); }
  }

  /** Spaces around a trimmed text are what trimming removes. */
  lemma TrimIs(a: string, core: string, b: string)
    requires AllSpace(a) && AllSpace(b) && Trimmed(core)
    ensures Trim(a + core + b) == core
  {
    assert a + core + b == a + (core + b);
    TrimStartOf(a, core + b);
    if core == "" {
      assert core + b == b;
      TrimStartOf(b, "");
      assert b + "" == b;
    } else {
      assert (core + b)[0] == core[0];
      TrimEndOf(core, b);
    }
  }

  lemma {:induction false} StartSplit(s: string) returns (a: string)
    ensures AllSpace(a) && s == a + TrimStart(s)
  {
    if s != "" && IsSpace(s[0]) {
      var rest := StartSplit(s[1..]);
      a := [s[0]] + rest;
    } else {
      a := "";
    }
  }

  lemma {:induction false} EndSplit(s: string) returns (b: string)
    ensures AllSpace(b) && s == TrimEnd(s) + b
  {
    if s != "" && IsSpace(s[|s| - 1]) {
      var rest := EndSplit(s[..|s| - 1]);
      b := rest + [s[|s| - 1]];
    } else {
      b := "";
    }
  }

  /** Every text is its trimmed core between spaces. */
  lemma TrimSplit(s: string) returns (a: string, b: string)
    ensures AllSpace(a) && AllSpace(b) && s == a + Trim(s) + b && Trimmed(Trim(s))
  {
    a := StartSplit(s);
    b := EndSplit(TrimStart(s));
    TrimIsTrimmed(s);
  }

  // ----- matching -----

  lemma {:induction false} RunEndIs(s: string, from: nat, to: nat, test: char -> bool)
    requires from <= to <= |s| && (forall i :: from <= i < to ==> test(s[i])) && (to < |s| ==> !test(s[to]))
    ensures RunEnd(s, from, test) == to
    decreases |s| - from
  {
    if from < to { RunEndIs(s, from + 1, to, test); }
  }

  lemma IdentIsNotSpace(c: char)
    requires IsIdentChar(c)
    ensures !IsSpace(c) && c != '=' && c != '#' && !IsTerminator(c)
  {
  }

  predicate ProperParts(p: Parts) {
    AllSpace(p.indent) && Identifier(p.key) && AllSpace(p.gap) && SingleLine(p.rest)
  }

  /** Where the parts of a built text stand. */
  lemma BuiltAt(p: Parts)
    ensures var s, i := Build(p), |p.indent|; var j := i + |p.key|; var k := j + |p.gap|;
            && k < |s| && s[k] == '=' && s[..i] == p.indent && s[i..j] == p.key && s[j..k] == p.gap && s[k + 1..] == p.rest
  {
  }

  lemma SliceAt(s: string, from: nat, to: nat, part: string)
    requires from <= to <= |s| && s[from..to] == part
    ensures forall n :: from <= n < to ==> s[n] == part[n - from]
  {
  }

  /** Exactly the texts built from proper parts match, and matching gives the parts back. */
  lemma MatchBuilt(p: Parts)
    requires ProperParts(p)
    ensures MatchLine(Build(p)) == Some(p)
  {
    var s, i := Build(p), |p.indent|;
    var j := i + |p.key|;
    var k := j + |p.gap|;
    BuiltAt(p);
    SliceAt(s, 0, i, p.indent);
    SliceAt(s, i, j, p.key);
    SliceAt(s, j, k, p.gap);
    IdentIsNotSpace(p.key[0]);
    if p.gap != "" { SpaceIsNotIdent(p.gap[0]); }
    assert !IsSpace('=') && !IsIdentChar('=');
    hide Build, IsSpace, IsIdentChar, IsIdentStart, SingleLine;
    RunEndIs(s, 0, i, IsSpace);
    RunEndIs(s, i, j, IsIdentChar);
    RunEndIs(s, j, k, IsSpace);
  }

  lemma SpaceIsNotIdent(c: char)
    requires IsSpace(c)
    ensures !IsIdentChar(c) && c != '='
  {
  }

  lemma MatchedParts(line: string)
    requires MatchLine(line).Some?
    ensures ProperParts(MatchLine(line).value) && Build(MatchLine(line).value) == line
  {
    var i := RunEnd(line, 0, IsSpace);
    var j := RunEnd(line, i, IsIdentChar);
    var k := RunEnd(line, j, IsSpace);
    assert IsIdentChar(line[i]) && j > i;
    assert line == line[..i] + line[i..j] + line[j..k] + [line[k]] + line[k + 1..];
  }

  // ----- assigning -----

  lemma EqualsIs(a: string, b: string)
    requires '=' !in a
    ensures EqualsAt(a + "=" + b) == |a|
  {
    var s := a + "=" + b;
    assert s[|a|] == '=';
    forall i | 0 <= i < |a| ensures s[i] != '=' { assert s[i] == a[i]; }
    assert forall i :: 0 <= i < EqualsAt(s) ==> s[i] == s[..EqualsAt(s)][i];
  }

  lemma NoEqualsInKey(key: string, gap: string)
    requires Identifier(key) && AllSpace(gap)
    ensures '=' !in key + gap && Trimmed(key)
  {
    forall i | 0 <= i < |key + gap| ensures (key + gap)[i] != '=' {
      if i < |key| { IdentIsNotSpace(key[i]); } else { SpaceIsNotIdent(gap[i - |key|]); }
    }
    IdentIsNotSpace(key[0]);
    IdentIsNotSpace(key[|key| - 1]);
  }

  /** What a trimmed core of a matching line assigns. */
  lemma CoreAssigns(key: string, gap: string, rest: string, line: string)
    requires Identifier(key) && AllSpace(gap) && Trim(line) == key + gap + "=" + rest
    ensures ParseLine(line) == Some(Assignment(key, Trim(rest)))
  {
    NoEqualsInKey(key, gap);
    EqualsIs(key + gap, rest);
    var text := Trim(line);
    IdentIsNotSpace(key[0]);
    assert text[0] == key[0];
    assert text[..|key + gap|] == key + gap && text[|key + gap| + 1..] == rest;
    TrimIs("", key, gap);
    assert "" + key + gap == key + gap;
  }

  lemma TrimmedEnds(s: string)
    requires s != "" && !IsSpace(s[0]) && !IsSpace(s[|s| - 1])
    ensures Trimmed(s)
  {
  }

  lemma HeadIsTrimmed(key: string, gap: string, tail: string)
    requires Identifier(key) && (tail == "" || !IsSpace(tail[|tail| - 1]))
    ensures Trimmed(key + gap + "=" + tail)
  {
    IdentIsNotSpace(key[0]);
    var s := key + gap + "=" + tail;
    assert s[0] == key[0];
    assert s[|s| - 1] == if tail == "" then '=' else tail[|tail| - 1];
    TrimmedEnds(s);
  }

  /** A line built from proper parts assigns its key the trimmed rest. */
  lemma BuiltAssigns(p: Parts)
    requires ProperParts(p)
    ensures ParseLine(Build(p)) == Some(Assignment(p.key, Trim(p.rest)))
  {
    var a, b := TrimSplit(p.rest);
    var v := Trim(p.rest);
    hide Trim, ParseLine, IsSpace;
    if v == "" {
      HeadIsTrimmed(p.key, p.gap, "");
      var head := p.key + p.gap + "=" + "";
      assert AllSpace(p.rest) by { assert p.rest == a + b; }
      TrimIs(p.indent, head, p.rest);
      assert p.indent + head + p.rest == Build(p);
      CoreAssigns(p.key, p.gap, "", Build(p));
      assert Trim("") == "" by { TrimIs("", "", ""); assert "" + "" + "" == ""; }
    } else {
      assert (a + v)[|a + v| - 1] == v[|v| - 1];
      HeadIsTrimmed(p.key, p.gap, a + v);
      var core := p.key + p.gap + "=" + (a + v);
      TrimIs(p.indent, core, b);
      assert p.indent + core + b == Build(p);
      CoreAssigns(p.key, p.gap, a + v, Build(p));
      TrimIs(a, v, "");
      assert a + v + "" == a + v;
    }
  }

  lemma MatchedAssigns(line: string)
    requires MatchLine(line).Some?
    ensures ParseLine(line) == Some(Assignment(MatchLine(line).value.key, Trim(MatchLine(line).value.rest)))
  {
    MatchedParts(line);
    BuiltAssigns(MatchLine(line).value);
  }

  /** What precedes the first equals sign of a trimmed text is its key and a gap. */
  lemma KeySplit(head: string) returns (gap: string)
    requires head != "" && !IsSpace(head[0])
    ensures AllSpace(gap) && head == Trim(head) + gap
  {
    gap := EndSplit(head);
  }

  lemma Reassemble(a: string, key: string, gap: string, value: string, b: string)
    ensures a + (key + gap + "=" + value) + b == Build(Parts(a, key, gap, value + b))
  {
  }

  lemma SuffixOfBuild(p: Parts)
    ensures |p.rest| <= |Build(p)| && p.rest == Build(p)[|Build(p)| - |p.rest|..]
  {
  }

  lemma RestIsPlain(line: string, rest: string, from: nat)
    requires SingleLine(line) && from <= |line| && rest == line[from..]
    ensures SingleLine(rest)
  {
  }

  /** A line that assigns an identifier and has no stray terminator matches. */
  lemma PlainLineMatches(line: string)
    requires ParseLine(line).Some? && Identifier(ParseLine(line).value.key) && SingleLine(line)
    ensures MatchLine(line).Some? && MatchLine(line).value.key == ParseLine(line).value.key
  {
    var a, b := TrimSplit(line);
    var text := Trim(line);
    var at := EqualsAt(text);
    var head := text[..at];
    assert head[0] == text[0];
    var gap := KeySplit(head);
    var key := Trim(head);
    hide Trim, ParseLine, IsSpace, MatchLine;
    var rest := text[at + 1..] + b;
    assert text == head + "=" + text[at + 1..];
    Reassemble(a, key, gap, text[at + 1..], b);
    var p := Parts(a, key, gap, rest);
    SuffixOfBuild(p);
    RestIsPlain(line, rest, |line| - |rest|);
    hide Build;
    MatchBuilt(p);
  }

  /** A carriage return at the end changes nothing a line assigns. */
  lemma CrIsTrimmed(line: string)
    ensures ParseLine(line + "\r") == ParseLine(line)
  {
    var a, b := TrimSplit(line);
    assert IsSpace('\r');
    hide IsSpace;
    TrimIs(a, Trim(line), b + "\r");
    assert a + Trim(line) + (b + "\r") == line + "\r";
  }

  lemma DropCrAssigns(line: string)
    ensures ParseLine(DropCr(line)) == ParseLine(line)
  {
    if EndsInCr(line) {
      assert DropCr(line) + "\r" == line;
      CrIsTrimmed(DropCr(line));
      hide ParseLine;
    }
  }

  lemma EmptyAssignsNothing()
    ensures ParseLine("") == None
  {
  }

  lemma {:induction false} EqualsIsFirst(s: string, i: nat)
    requires i < |s| && s[i] == '=' && '=' !in s[..i]
    ensures EqualsAt(s) == i
  {
    if i > 0 {
      assert s[..i][0] == s[0] && s[1..][..i - 1] == s[..i][1..];
      EqualsIsFirst(s[1..], i - 1);
    }
  }

  /**
   A line assigns exactly when, trimmed, it is no comment and has an equals sign behind something:
   then what stands before the first one, trimmed, gets what stands after it, trimmed.
  */
  lemma AssignsExactly(line: string, key: string, value: string)
    ensures ParseLine(line) == Some(Assignment(key, value)) <==>
              var text := Trim(line);
              exists i :: 0 < i < |text| && text[0] != '#' && text[i] == '=' && '=' !in text[..i]
                          && key == Trim(text[..i]) && value == Trim(text[i + 1..])
  {
    var text := Trim(line);
    hide Trim;
    if i :| 0 < i < |text| && text[0] != '#' && text[i] == '=' && '=' !in text[..i]
            && key == Trim(text[..i]) && value == Trim(text[i + 1..]) {
      EqualsIsFirst(text, i);
    }
  }
}
