/** The statement splitting and placeholder substitution of `RunSqlScript`
    in test/TestEnv.py. A script is the sequence of lines the file iterator
    yields (each with its line terminator); the result is the sequence of
    statements handed to `cursor.execute`, in order. */
module SqlScript {
  import opened PyStr
  import opened Parameters

  /** `kwargs.items()`: placeholder names and their values, in order. */
  type Bindings = seq<(string, string)>

  /** `[("&" + k + suffix, v) for k, v in kwargs.items()]`. */
  function Placeholders(kwargs: Bindings, suffix: string): (r: seq<(string, string)>)
    ensures |r| == |kwargs|
    ensures forall i :: 0 <= i < |kwargs| ==> r[i] == ("&" + kwargs[i].0 + suffix, kwargs[i].1)
  {
    if kwargs == [] then [] else [("&" + kwargs[0].0 + suffix, kwargs[0].1)] + Placeholders(kwargs[1..], suffix)
  }

  /** `replaceValues`: every `&k.` pair, then every `&k` pair. */
  function ReplaceValues(kwargs: Bindings): seq<(string, string)> {
    Placeholders(kwargs, ".") + Placeholders(kwargs, "")
  }

  /** `for search, value in pairs: s = s.replace(search, value)`. */
  function ReplaceEach(s: string, pairs: seq<(string, string)>): string
    decreases |pairs|
  {
    if pairs == [] then s else ReplaceEach(Replace(s, pairs[0].0, pairs[0].1), pairs[1..])
  }

  /** The placeholder substitution applied to one statement. */
  function Substitute(statement: string, kwargs: Bindings): string {
    ReplaceEach(statement, ReplaceValues(kwargs))
  }

  /** Replacing along `a + b` is replacing along `a`, then along `b`. */
  lemma {:induction false} ReplaceEachAppend(s: string, a: seq<(string, string)>, b: seq<(string, string)>)
    ensures ReplaceEach(s, a + b) == ReplaceEach(ReplaceEach(s, a), b)
    decreases |a|
  {
    if a == [] {
      assert a + b == b;
    } else {
      assert (a + b)[0] == a[0] && (a + b)[1..] == a[1..] + b;
      ReplaceEachAppend(Replace(s, a[0].0, a[0].1), a[1..], b);
    }
  }

  /** All `&k.` placeholders are replaced before any `&k` placeholder, so a
      terminating dot is consumed with its name. */
  lemma DottedBeforeBare(statement: string, kwargs: Bindings)
    ensures Substitute(statement, kwargs)
            == ReplaceEach(ReplaceEach(statement, Placeholders(kwargs, ".")), Placeholders(kwargs, ""))
  {
    ReplaceEachAppend(statement, Placeholders(kwargs, "."), Placeholders(kwargs, ""));
  }

  /** Replacing strings that all start with a character the text lacks
      changes nothing. */
  lemma {:induction false} ReplaceEachAbsent(s: string, pairs: seq<(string, string)>, c: char)
    requires c !in s
    requires forall i :: 0 <= i < |pairs| ==> pairs[i].0 != "" && pairs[i].0[0] == c
    ensures ReplaceEach(s, pairs) == s
    decreases |pairs|
  {
    if pairs != [] {
      ReplaceAbsent(s, pairs[0].0, pairs[0].1);
      ReplaceEachAbsent(s, pairs[1..], c);
    }
  }

  /** A statement without `&` is executed as it is. */
  lemma SubstituteWithoutAmpersand(statement: string, kwargs: Bindings)
    requires '&' !in statement
    ensures Substitute(statement, kwargs) == statement
  {
    var pairs := ReplaceValues(kwargs);
    forall i | 0 <= i < |pairs|
      ensures pairs[i].0 != "" && pairs[i].0[0] == '&'
    {
      if i < |kwargs| {
        assert pairs[i] == Placeholders(kwargs, ".")[i];
      } else {
        assert pairs[i] == Placeholders(kwargs, "")[i - |kwargs|];
      }
    }
    ReplaceEachAbsent(statement, pairs, '&');
  }

  /** A line whose stripped text is `/` ends a statement. */
  predicate IsTerminator(line: string) {
    Strip(line) == "/"
  }

  predicate NoTerminator(lines: seq<string>) {
    forall i :: 0 <= i < |lines| ==> !IsTerminator(lines[i])
  }

  /** `"".join(statementParts).strip()`. */
  function Statement(parts: seq<string>): string {
    Strip(Concat(parts))
  }

  /** What a terminator line emits for the buffered lines: nothing for a
      blank statement, otherwise the substituted statement. */
  function Emit(parts: seq<string>, kwargs: Bindings): seq<string> {
    if Statement(parts) == "" then [] else [Substitute(Statement(parts), kwargs)]
  }

  /** The statements executed while reading `lines` with `parts` already
      buffered. */
  function Pending(parts: seq<string>, lines: seq<string>, kwargs: Bindings): seq<string>
    decreases |lines|
  {
    if lines == [] then []
    else if IsTerminator(lines[0]) then Emit(parts, kwargs) + Pending([], lines[1..], kwargs)
    else Pending(parts + [lines[0]], lines[1..], kwargs)
  }

  /** The lines still buffered after reading `lines` with `parts` buffered. */
  function Buffered(parts: seq<string>, lines: seq<string>): seq<string>
    decreases |lines|
  {
    if lines == [] then parts
    else if IsTerminator(lines[0]) then Buffered([], lines[1..])
    else Buffered(parts + [lines[0]], lines[1..])
  }

  /** The statements a whole script executes. */
  function ScriptStatements(lines: seq<string>, kwargs: Bindings): seq<string> {
    Pending([], lines, kwargs)
  }

  /** What is buffered after `a + b` is what `b` leaves after `a`. */
  lemma {:induction false} BufferedAppend(parts: seq<string>, a: seq<string>, b: seq<string>)
    ensures Buffered(parts, a + b) == Buffered(Buffered(parts, a), b)
    decreases |a|
  {
    if a == [] {
      assert a + b == b;
    } else {
      var ab := a + b;
      assert ab[0] == a[0] && ab[1..] == a[1..] + b;
      if IsTerminator(a[0]) {
        BufferedAppend([], a[1..], b);
      } else {
        BufferedAppend(parts + [a[0]], a[1..], b);
      }
    }
  }

  /** Reading `a + b` is reading `a`, then reading `b` with what `a` left
      buffered. */
  lemma {:induction false} PendingAppend(parts: seq<string>, a: seq<string>, b: seq<string>, kwargs: Bindings)
    ensures Pending(parts, a + b, kwargs) == Pending(parts, a, kwargs) + Pending(Buffered(parts, a), b, kwargs)
    decreases |a|
  {
    if a == [] {
      assert a + b == b;
    } else {
      var ab := a + b;
      assert ab[0] == a[0] && ab[1..] == a[1..] + b;
      if IsTerminator(a[0]) {
        PendingAppend([], a[1..], b, kwargs);
        var e := Emit(parts, kwargs);
        var p1 := Pending([], a[1..], kwargs);
        var p2 := Pending(Buffered([], a[1..]), b, kwargs);
        assert Pending(parts, ab, kwargs) == e + (p1 + p2);
        assert e + (p1 + p2) == (e + p1) + p2;
      } else {
        PendingAppend(parts + [a[0]], a[1..], b, kwargs);
      }
    }
  }

  /** Lines without a terminator only add to the buffer. */
  lemma {:induction false} UnterminatedLinesOnlyBuffer(parts: seq<string>, lines: seq<string>, kwargs: Bindings)
    requires NoTerminator(lines)
    ensures Pending(parts, lines, kwargs) == []
    ensures Buffered(parts, lines) == parts + lines
    decreases |lines|
  {
    if lines != [] {
      UnterminatedLinesOnlyBuffer(parts + [lines[0]], lines[1..], kwargs);
      assert parts + [lines[0]] + lines[1..] == parts + lines;
    }
  }

  /** A block of statement lines closed by a terminator executes the stripped
      concatenation of exactly those lines, unless it is blank; the
      terminator itself is not part of it. */
  lemma StatementBlock(parts: seq<string>, body: seq<string>, terminator: string, kwargs: Bindings)
    requires NoTerminator(body) && IsTerminator(terminator)
    ensures Pending(parts, body + [terminator], kwargs) == Emit(parts + body, kwargs)
    ensures Buffered(parts, body + [terminator]) == []
  {
    PendingAppend(parts, body, [terminator], kwargs);
    BufferedAppend(parts, body, [terminator]);
    UnterminatedLinesOnlyBuffer(parts, body, kwargs);
  }

  /** A terminator empties the buffer: what follows it is executed as if it
      were a script of its own. */
  lemma TerminatorResets(before: seq<string>, body: seq<string>, terminator: string,
                         after: seq<string>, kwargs: Bindings)
    requires NoTerminator(body) && IsTerminator(terminator)
    ensures ScriptStatements(before + body + [terminator] + after, kwargs)
            == ScriptStatements(before, kwargs) + Emit(Buffered([], before) + body, kwargs)
               + ScriptStatements(after, kwargs)
  {
    var block := body + [terminator];
    assert before + body + [terminator] + after == before + (block + after);
    PendingAppend([], before, block + after, kwargs);
    PendingAppend(Buffered([], before), block, after, kwargs);
    BufferedAppend(Buffered([], before), block, after);
    StatementBlock(Buffered([], before), body, terminator, kwargs);
  }

  /** Lines after the last terminator are never executed. */
  lemma TrailingLinesNeverRun(lines: seq<string>, tail: seq<string>, kwargs: Bindings)
    requires NoTerminator(tail)
    ensures ScriptStatements(lines + tail, kwargs) == ScriptStatements(lines, kwargs)
  {
    PendingAppend([], lines, tail, kwargs);
    UnterminatedLinesOnlyBuffer(Buffered([], lines), tail, kwargs);
  }

  function CountTerminators(lines: seq<string>): nat {
    if lines == [] then 0 else (if IsTerminator(lines[0]) then 1 else 0) + CountTerminators(lines[1..])
  }

  /** At most one statement is executed per terminator line. */
  lemma {:induction false} AtMostOnePerTerminator(parts: seq<string>, lines: seq<string>, kwargs: Bindings)
    ensures |Pending(parts, lines, kwargs)| <= CountTerminators(lines)
    decreases |lines|
  {
    if lines != [] {
      if IsTerminator(lines[0]) {
        AtMostOnePerTerminator([], lines[1..], kwargs);
      } else {
        AtMostOnePerTerminator(parts + [lines[0]], lines[1..], kwargs);
      }
    }
  }

  /** Without placeholders, every executed statement is non-empty and has no
      surrounding whitespace. */
  lemma {:induction false} StatementsAreTrimmed(parts: seq<string>, lines: seq<string>)
    ensures forall k :: 0 <= k < |Pending(parts, lines, [])| ==>
              Pending(parts, lines, [])[k] != "" && Strip(Pending(parts, lines, [])[k]) == Pending(parts, lines, [])[k]
    decreases |lines|
  {
    if lines != [] {
      if IsTerminator(lines[0]) {
        StatementsAreTrimmed([], lines[1..]);
        StripIdempotent(Concat(parts));
      } else {
        StatementsAreTrimmed(parts + [lines[0]], lines[1..]);
      }
    }
  }

  /** A dotted placeholder takes its dot with it; had the bare form been
      replaced first, the dot would have stayed. */
  lemma DottedPlaceholderExample()
    ensures Substitute("&t.x", [("t", "v")]) == "vx"
    ensures ReplaceEach("&t.x", Placeholders([("t", "v")], "")) == "v.x"
  {
    assert Replace("&t.x", "&t.", "v") == "vx" by {
      assert "&t.x"[..3] == "&t.";
      assert "&t.x"[3..] == "x";
    }
    assert Replace("vx", "&t", "v") == "vx" by {
      ReplaceAbsent("vx", "&t", "v");
    }
    assert Replace("&t.x", "&t", "v") == "v.x" by {
      assert "&t.x"[..2] == "&t";
      assert "&t.x"[2..] == ".x";
      ReplaceAbsent(".x", "&t", "v");
    }
  }

  /** Reading one more line: a terminator executes what the lines read so
      far left buffered and empties the buffer; any other line is buffered. */
  lemma ReadLine(lines: seq<string>, i: nat, kwargs: Bindings)
    requires i < |lines|
    ensures Pending([], lines[..i + 1], kwargs)
            == Pending([], lines[..i], kwargs)
               + (if IsTerminator(lines[i]) then Emit(Buffered([], lines[..i]), kwargs) else [])
    ensures Buffered([], lines[..i + 1])
            == if IsTerminator(lines[i]) then [] else Buffered([], lines[..i]) + [lines[i]]
  {
    var parts := Buffered([], lines[..i]);
    assert lines[..i + 1] == lines[..i] + [lines[i]];
    PendingAppend([], lines[..i], [lines[i]], kwargs);
    BufferedAppend([], lines[..i], [lines[i]]);
    assert [lines[i]][1..] == [];
    if IsTerminator(lines[i]) {
      assert Pending(parts, [lines[i]], kwargs) == Emit(parts, kwargs) + Pending([], [], kwargs);
    } else {
      assert Pending(parts, [lines[i]], kwargs) == Pending(parts + [lines[i]], [], kwargs);
    }
  }

  /** The replacement loop of `RunSqlScript`: each search string in turn is
      replaced by its value, every occurrence at once. */
  method ReplacePlaceholders(statement: string, replaceValues: seq<(string, string)>) returns (replaced: string)
    ensures replaced == ReplaceEach(statement, replaceValues)
  {
    replaced := statement;
    for j := 0 to |replaceValues|
      invariant ReplaceEach(replaced, replaceValues[j..]) == ReplaceEach(statement, replaceValues)
    {
      assert replaceValues[j..][1..] == replaceValues[j + 1..];
      replaced := Replace(replaced, replaceValues[j].0, replaceValues[j].1);
    }
  }

  /** The statement loop of `RunSqlScript`: the statements it executes, in
      order. */
  method ExecuteScript(lines: seq<string>, kwargs: Bindings) returns (executed: seq<string>)
    ensures executed == ScriptStatements(lines, kwargs)
  {
    var statementParts: seq<string> := [];
    var replaceValues := ReplaceValues(kwargs);
    executed := [];
    for i := 0 to |lines|
      invariant executed == Pending([], lines[..i], kwargs)
      invariant statementParts == Buffered([], lines[..i])
    {
      var line := lines[i];
      ReadLine(lines, i, kwargs);
      if IsTerminator(line) {
        var statement := Statement(statementParts);
        if statement != "" {
          statement := ReplacePlaceholders(statement, replaceValues);
          executed := executed + [statement];
        }
        statementParts := [];
      } else {
        statementParts := statementParts + [line];
      }
    }
    assert lines[..|lines|] == lines;
  }

  /** `RunSqlScript(conn, scriptName, **kwargs)`: runs the script's
      statements, then queries the compilation errors of the main user's
      objects, whose name `GetMainUser()` resolves through the cache. */
  method RunSqlScript(cache: ParameterCache, env: Environment, reply: Terminal,
                      lines: seq<string>, kwargs: Bindings) returns (executed: seq<string>)
    requires cache.Valid()
    modifies cache
    ensures executed == ScriptStatements(lines, kwargs)
    ensures cache.Valid()
    ensures cache.parameters == Resolved(old(cache.parameters), MainUserKey, "Main User Name", DefaultMainUser, env, reply)
    ensures cache.asked == old(cache.asked) + Asks(old(cache.parameters), env, MainUserKey)
  {
    executed := ExecuteScript(lines, kwargs);
    var _ := cache.GetMainUser(env, reply);
  }
}
