/** The comment stripper the migration guard runs before it scans SQL. */
module SqlComments {

  predicate At(s: string, i: nat, a: char, b: char) {
    i + 1 < |s| && s[i] == a && s[i + 1] == b
  }

  datatype State = Code | Block | Line

  /** The reference: one pass, character by character; a comment is replaced when it closes, and swallowed if it never does. */
  function Lex(state: State, s: string, i: nat): string
    requires i <= |s|
    decreases |s| - i
  {
    if i == |s| then "" else
    match state
    case Code =>
      if At(s, i, '/', '*') then Lex(Block, s, i + 2)
      else if At(s, i, '-', '-') then Lex(Line, s, i + 2)
      else [s[i]] + Lex(Code, s, i + 1)
    case Block => if At(s, i, '*', '/') then " " + Lex(Code, s, i + 2) else Lex(Block, s, i + 1)
    case Line => if s[i] == '\n' then "\n" + Lex(Code, s, i + 1) else Lex(Line, s, i + 1)
  }

  /** The first closing of a block comment at or after i. */
  method IndexOfClose(s: string, i: nat) returns (end: int)
    requires i <= |s|
    ensures end < 0 ==> Lex(Block, s, i) == ""
    ensures end >= 0 ==> i <= end && end + 2 <= |s| && Lex(Block, s, i) == " " + Lex(Code, s, end + 2)
  {
    var k := i;
    while k < |s|
      invariant i <= k <= |s| && Lex(Block, s, k) == Lex(Block, s, i)
    {
      if k + 1 < |s| && s[k] == '*' && s[k + 1] == '/' {
        return k;
      }
      k := k + 1;
    }
    end := -1;
  }

  method IndexOfNewline(s: string, i: nat) returns (nl: int)
    requires i <= |s|
    ensures nl < 0 ==> Lex(Line, s, i) == ""
    ensures nl >= 0 ==> i <= nl < |s| && Lex(Line, s, i) == "\n" + Lex(Code, s, nl + 1)
  {
    var k := i;
    while k < |s|
      invariant i <= k <= |s| && Lex(Line, s, k) == Lex(Line, s, i)
    {
      if s[k] == '\n' {
        return k;
      }
      k := k + 1;
    }
    nl := -1;
  }

  method StripSqlComments(sql: string) returns (out: string)
    ensures out == Lex(Code, sql, 0)
  {
    hide Lex;
    out := "";
    var i := 0;
    while i < |sql|
      invariant 0 <= i <= |sql| && out + Lex(Code, sql, i) == Lex(Code, sql, 0)
    {
      LexCode(sql, i);
      if i + 1 < |sql| && sql[i] == '/' && sql[i + 1] == '*' {
        var end := IndexOfClose(sql, i + 2);
        if end < 0 {
          return;
        }
        Regroup(out, ' ', Lex(Code, sql, end + 2));
        out := out + " ";
        i := end + 2;
      } else if i + 1 < |sql| && sql[i] == '-' && sql[i + 1] == '-' {
        var nl := IndexOfNewline(sql, i);
        LexDashes(sql, i);
        if nl < 0 {
          return;
        }
        Regroup(out, '\n', Lex(Code, sql, nl + 1));
        out := out + "\n";
        i := nl + 1;
      } else {
        Regroup(out, sql[i], Lex(Code, sql, i + 1));
        out := out + [sql[i]];
        i := i + 1;
      }
    }
    LexEnd(sql);
  }

  lemma LexCode(s: string, i: nat)
    requires i < |s|
    ensures Lex(Code, s, i) ==
            if At(s, i, '/', '*') then Lex(Block, s, i + 2)
            else if At(s, i, '-', '-') then Lex(Line, s, i + 2)
            else [s[i]] + Lex(Code, s, i + 1)
  {
  }

  lemma LexDashes(s: string, i: nat)
    requires At(s, i, '-', '-')
    ensures Lex(Line, s, i) == Lex(Line, s, i + 2)
  {
    assert Lex(Line, s, i) == Lex(Line, s, i + 1);
  }

  lemma LexEnd(s: string)
    ensures Lex(Code, s, |s|) == ""
  {
  }

  lemma Regroup(out: string, c: char, rest: string)
    ensures out + ([c] + rest) == (out + [c]) + rest
  {
  }

  ghost predicate NoOpeners(s: string) {
    forall i: nat :: !At(s, i, '/', '*') && !At(s, i, '-', '-')
  }

  /** What follows an opener's first character never completes it. */
  lemma {:induction false} OutputStart(state: State, s: string, i: nat)
    requires i <= |s|
    ensures var out := Lex(state, s, i);
            out != "" ==> out[0] == ' ' || out[0] == '\n' || (state == Code && i < |s| && out[0] == s[i])
    decreases |s| - i
  {
    if i < |s| && state != Code {
      if state == Block {
        if !At(s, i, '*', '/') {
          OutputStart(Block, s, i + 1);
        }
      } else if s[i] != '\n' {
        OutputStart(Line, s, i + 1);
      }
    } else if i < |s| {
      if At(s, i, '/', '*') {
        OutputStart(Block, s, i + 2);
      } else if At(s, i, '-', '-') {
        OutputStart(Line, s, i + 2);
      }
    }
  }

  lemma PrependKeeps(c: char, rest: string)
    requires NoOpeners(rest) && (rest != "" ==> !(c == '/' && rest[0] == '*') && !(c == '-' && rest[0] == '-'))
    ensures NoOpeners([c] + rest)
  {
    forall i: nat
      ensures !At([c] + rest, i, '/', '*') && !At([c] + rest, i, '-', '-')
    {
      if i > 0 {
        assert !At(rest, i - 1, '/', '*') && !At(rest, i - 1, '-', '-');
      }
    }
  }

  /** No comment opener survives, terminated or not. */
  lemma {:induction false} OutputHasNoOpeners(state: State, s: string, i: nat)
    requires i <= |s|
    ensures NoOpeners(Lex(state, s, i))
    decreases |s| - i
  {
    hide NoOpeners;
    if i == |s| {
      EmptyHasNone();
    } else {
      match state
      case Code =>
        if At(s, i, '/', '*') {
          OutputHasNoOpeners(Block, s, i + 2);
        } else if At(s, i, '-', '-') {
          OutputHasNoOpeners(Line, s, i + 2);
        } else {
          OutputHasNoOpeners(Code, s, i + 1);
          OutputStart(Code, s, i + 1);
          PrependKeeps(s[i], Lex(Code, s, i + 1));
        }
      case Block =>
        if At(s, i, '*', '/') {
          OutputHasNoOpeners(Code, s, i + 2);
          PrependKeeps(' ', Lex(Code, s, i + 2));
        } else {
          OutputHasNoOpeners(Block, s, i + 1);
        }
      case Line =>
        if s[i] == '\n' {
          OutputHasNoOpeners(Code, s, i + 1);
          PrependKeeps('\n', Lex(Code, s, i + 1));
        } else {
          OutputHasNoOpeners(Line, s, i + 1);
        }
    }
  }

  lemma EmptyHasNone()
    ensures NoOpeners("")
  {
  }

  lemma {:induction false} NothingToStrip(s: string, i: nat)
    requires NoOpeners(s) && i <= |s|
    ensures Lex(Code, s, i) == s[i..]
    decreases |s| - i
  {
    if i < |s| {
      NothingToStrip(s, i + 1);
      assert !At(s, i, '/', '*') && !At(s, i, '-', '-');
      assert s[i..] == [s[i]] + s[i + 1..];
    }
  }

  /** Stripping twice is stripping once; text without openers is left alone, and only such text. */
  lemma StripIsIdempotent(sql: string)
    ensures var once := Lex(Code, sql, 0); NoOpeners(once) && Lex(Code, once, 0) == once
    ensures Lex(Code, sql, 0) == sql <==> NoOpeners(sql)
  {
    hide NoOpeners;
    var once := Lex(Code, sql, 0);
    OutputHasNoOpeners(Code, sql, 0);
    NothingToStrip(once, 0);
    assert once[0..] == once;
    if NoOpeners(sql) {
      NothingToStrip(sql, 0);
      assert sql[0..] == sql;
    }
  }

  // ---- The laws of stripping, with no lexer in them ----

  function Strip(sql: string): string {
    Lex(Code, sql, 0)
  }

  ghost predicate Closes(s: string) {
    exists j: nat :: At(s, j, '*', '/')
  }

  lemma {:induction false} Shifted(state: State, a: string, s: string, i: nat)
    requires i <= |s|
    ensures Lex(state, a + s, |a| + i) == Lex(state, s, i)
    decreases |s| - i
  {
    if i < |s| {
      Shifted(state, a, s, i + 1);
      Shifted(Code, a, s, i + 1);
      if i + 1 < |s| {
        Shifted(Block, a, s, i + 2);
        Shifted(Line, a, s, i + 2);
        Shifted(Code, a, s, i + 2);
      }
    }
  }

  lemma {:induction false} CodeCopies(s: string, i: nat, end: nat)
    requires i <= end <= |s| && forall j | i <= j < end :: !At(s, j, '/', '*') && !At(s, j, '-', '-')
    ensures Lex(Code, s, i) == s[i..end] + Lex(Code, s, end)
    decreases end - i
  {
    if i < end {
      CodeCopies(s, i + 1, end);
      assert s[i..end] == [s[i]] + s[i + 1..end];
    }
  }

  lemma {:induction false} BlockSkips(s: string, i: nat, end: nat)
    requires i <= end <= |s| && forall j | i <= j < end :: !At(s, j, '*', '/')
    ensures Lex(Block, s, i) == Lex(Block, s, end)
    decreases end - i
  {
    if i < end {
      BlockSkips(s, i + 1, end);
    }
  }

  lemma {:induction false} LineSkips(s: string, i: nat, end: nat)
    requires i <= end <= |s| && forall j | i <= j < end :: s[j] != '\n'
    ensures Lex(Line, s, i) == Lex(Line, s, end)
    decreases end - i
  {
    if i < end {
      LineSkips(s, i + 1, end);
    }
  }

  /** Text before the first opener is copied. */
  lemma CodeFirst(a: string, t: string)
    requires NoOpeners(a) && |t| >= 2 && ((t[0] == '/' && t[1] == '*') || (t[0] == '-' && t[1] == '-' && (a != "" ==> a[|a| - 1] != '-')))
    ensures Strip(a + t) == a + Strip(t)
  {
    hide Lex;
    var s := a + t;
    forall j | 0 <= j < |a|
      ensures !At(s, j, '/', '*') && !At(s, j, '-', '-')
    {
      assert !At(a, j, '/', '*') && !At(a, j, '-', '-');
    }
    CodeCopies(s, 0, |a|);
    assert s[0..|a|] == a;
    Shifted(Code, a, t, 0);
  }

  lemma OpensBlock(t: string)
    requires At(t, 0, '/', '*')
    ensures Strip(t) == Lex(Block, t, 2)
  {
  }

  lemma OpensLine(t: string)
    requires At(t, 0, '-', '-')
    ensures Strip(t) == Lex(Line, t, 2)
  {
  }

  lemma ClosesBlock(t: string, i: nat)
    requires At(t, i, '*', '/')
    ensures Lex(Block, t, i) == " " + Lex(Code, t, i + 2)
  {
  }

  lemma ClosesLine(t: string, i: nat)
    requires i < |t| && t[i] == '\n'
    ensures Lex(Line, t, i) == "\n" + Lex(Code, t, i + 1)
  {
  }

  lemma NeverCloses(t: string)
    ensures Lex(Block, t, |t|) == "" && Lex(Line, t, |t|) == ""
  {
  }

  /** A block comment ends at its first closing and becomes one blank. */
  lemma BlockComment(a: string, body: string, rest: string)
    requires NoOpeners(a) && !Closes(body)
    ensures Strip(a + ("/*" + body + "*/" + rest)) == a + " " + Strip(rest)
  {
    hide Lex, NoOpeners;
    var t, end := "/*" + body + "*/" + rest, 2 + |body|;
    CodeFirst(a, t);
    OpensBlock(t);
    forall j | 2 <= j < end
      ensures !At(t, j, '*', '/')
    {
      assert !At(body, j - 2, '*', '/');
    }
    BlockSkips(t, 2, end);
    ClosesBlock(t, end);
    assert t == ("/*" + body + "*/") + rest;
    Shifted(Code, "/*" + body + "*/", rest, 0);
    assert a + (" " + Strip(rest)) == a + " " + Strip(rest);
  }

  /** One that never closes swallows the rest. */
  lemma OpenBlock(a: string, body: string)
    requires NoOpeners(a) && !Closes(body)
    ensures Strip(a + ("/*" + body)) == a
  {
    hide Lex, NoOpeners;
    var t := "/*" + body;
    CodeFirst(a, t);
    OpensBlock(t);
    forall j | 2 <= j < |t|
      ensures !At(t, j, '*', '/')
    {
      assert !At(body, j - 2, '*', '/');
    }
    BlockSkips(t, 2, |t|);
    NeverCloses(t);
  }

  /** A line comment ends at its first newline, which stays. */
  lemma LineComment(a: string, body: string, rest: string)
    requires NoOpeners(a) && (a != "" ==> a[|a| - 1] != '-') && '\n' !in body
    ensures Strip(a + ("--" + body + "\n" + rest)) == a + "\n" + Strip(rest)
  {
    hide Lex, NoOpeners;
    var t, end := "--" + body + "\n" + rest, 2 + |body|;
    CodeFirst(a, t);
    OpensLine(t);
    forall j | 2 <= j < end
      ensures t[j] != '\n'
    {
      assert t[j] == body[j - 2];
    }
    LineSkips(t, 2, end);
    ClosesLine(t, end);
    assert t == ("--" + body + "\n") + rest;
    Shifted(Code, "--" + body + "\n", rest, 0);
    assert a + ("\n" + Strip(rest)) == a + "\n" + Strip(rest);
  }

  lemma OpenLine(a: string, body: string)
    requires NoOpeners(a) && (a != "" ==> a[|a| - 1] != '-') && '\n' !in body
    ensures Strip(a + ("--" + body)) == a
  {
    hide Lex, NoOpeners;
    var t := "--" + body;
    CodeFirst(a, t);
    OpensLine(t);
    forall j | 2 <= j < |t|
      ensures t[j] != '\n'
    {
      assert t[j] == body[j - 2];
    }
    LineSkips(t, 2, |t|);
    NeverCloses(t);
  }

  ghost predicate BlockLaw(f: string -> string, a: string, body: string, rest: string) {
    NoOpeners(a) && !Closes(body) ==>
      f(a + ("/*" + body + "*/" + rest)) == a + " " + f(rest) && f(a + ("/*" + body)) == a
  }

  ghost predicate LineLaw(f: string -> string, a: string, body: string, rest: string) {
    NoOpeners(a) && (a != "" ==> a[|a| - 1] != '-') && '\n' !in body ==>
      f(a + ("--" + body + "\n" + rest)) == a + "\n" + f(rest) && f(a + ("--" + body)) == a
  }

  ghost predicate Lawful(f: string -> string) {
    && (forall s | NoOpeners(s) :: f(s) == s)
    && (forall a, body, rest :: BlockLaw(f, a, body, rest))
    && (forall a, body, rest :: LineLaw(f, a, body, rest))
  }

  /** s up to its first opener, or all of it. */
  lemma {:induction false} FirstOpener(s: string, i: nat) returns (k: nat)
    requires i <= |s| && forall j | 0 <= j < i :: !At(s, j, '/', '*') && !At(s, j, '-', '-')
    ensures i <= k <= |s| && NoOpeners(s[..k])
    ensures k < |s| ==> At(s, k, '/', '*') || (At(s, k, '-', '-') && (k > 0 ==> s[k - 1] != '-'))
    decreases |s| - i
  {
    if i == |s| || At(s, i, '/', '*') || At(s, i, '-', '-') {
      k := i;
      forall j: nat
        ensures !At(s[..k], j, '/', '*') && !At(s[..k], j, '-', '-')
      {
        if j + 1 < k {
          assert !At(s, j, '/', '*') && !At(s, j, '-', '-');
        }
      }
      assert k > 0 ==> !At(s, k - 1, '-', '-');
    } else {
      k := FirstOpener(s, i + 1);
    }
  }

  lemma {:induction false} FirstClose(s: string, i: nat) returns (k: nat)
    requires i <= |s| && forall j | 0 <= j < i :: !At(s, j, '*', '/')
    ensures i <= k <= |s| && !Closes(s[..k]) && (k < |s| ==> At(s, k, '*', '/'))
    decreases |s| - i
  {
    if i == |s| || At(s, i, '*', '/') {
      k := i;
      forall j: nat
        ensures !At(s[..k], j, '*', '/')
      {
        if j + 1 < k {
          assert !At(s, j, '*', '/');
        }
      }
    } else {
      k := FirstClose(s, i + 1);
    }
  }

  lemma {:induction false} FirstNewline(s: string, i: nat) returns (k: nat)
    requires i <= |s| && '\n' !in s[..i]
    ensures i <= k <= |s| && '\n' !in s[..k] && (k < |s| ==> s[k] == '\n')
    decreases |s| - i
  {
    if i == |s| || s[i] == '\n' {
      k := i;
    } else {
      assert s[..i + 1] == s[..i] + [s[i]];
      k := FirstNewline(s, i + 1);
    }
  }

  lemma StripIsLawful()
    ensures Lawful(Strip)
  {
    hide NoOpeners, Closes;
    forall s | NoOpeners(s)
      ensures Strip(s) == s
    {
      StripIsIdempotent(s);
    }
    forall a, body, rest
      ensures BlockLaw(Strip, a, body, rest)
    {
      if NoOpeners(a) && !Closes(body) {
        BlockComment(a, body, rest);
        OpenBlock(a, body);
      }
    }
    forall a, body, rest
      ensures LineLaw(Strip, a, body, rest)
    {
      if NoOpeners(a) && (a != "" ==> a[|a| - 1] != '-') && '\n' !in body {
        LineComment(a, body, rest);
        OpenLine(a, body);
      }
    }
  }

  lemma CutAt(s: string, k: nat, x: char, y: char)
    requires At(s, k, x, y)
    ensures s == s[..k] + ([x, y] + s[k + 2..])
  {
  }

  lemma Regrouped(a: string, b: string, c: string, d: string)
    ensures a + (b + (c + d)) == a + b + c + d
  {
  }

  lemma SplitBlock(s: string, k: nat) returns (body: string, rest: string, closed: bool)
    requires At(s, k, '/', '*')
    ensures !Closes(body) && |rest| < |s|
    ensures s == s[..k] + if closed then "/*" + body + "*/" + rest else "/*" + body
  {
    hide Closes;
    var t := s[k + 2..];
    CutAt(s, k, '/', '*');
    var end := FirstClose(t, 0);
    closed := end < |t|;
    if closed {
      body, rest := t[..end], t[end + 2..];
      CutAt(t, end, '*', '/');
      Regrouped("/*", body, "*/", rest);
    } else {
      body, rest := t, "";
      assert t[..end] == t;
    }
  }

  lemma SplitLine(s: string, k: nat) returns (body: string, rest: string, closed: bool)
    requires At(s, k, '-', '-')
    ensures '\n' !in body && |rest| < |s|
    ensures s == s[..k] + if closed then "--" + body + "\n" + rest else "--" + body
  {
    var t := s[k + 2..];
    CutAt(s, k, '-', '-');
    var end := FirstNewline(t, 0);
    closed := end < |t|;
    if closed {
      body, rest := t[..end], t[end + 1..];
      assert t == body + ("\n" + rest);
      Regrouped("--", body, "\n", rest);
    } else {
      body, rest := t, "";
      assert t[..end] == t;
    }
  }

  /** The laws leave no freedom: whatever obeys them strips exactly like this. */
  lemma {:induction false} LawsDetermineStrip(f: string -> string, g: string -> string, s: string)
    requires Lawful(f) && Lawful(g)
    ensures f(s) == g(s)
    decreases |s|
  {
    hide NoOpeners, Closes;
    var k := FirstOpener(s, 0);
    var a := s[..k];
    if k == |s| {
      assert s == a;
    } else if At(s, k, '/', '*') {
      var body, rest, closed := SplitBlock(s, k);
      assert BlockLaw(f, a, body, rest) && BlockLaw(g, a, body, rest);
      LawsDetermineStrip(f, g, rest);
    } else {
      var body, rest, closed := SplitLine(s, k);
      assert LineLaw(f, a, body, rest) && LineLaw(g, a, body, rest);
      LawsDetermineStrip(f, g, rest);
    }
  }
}
